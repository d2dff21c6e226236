# BetBlocker web app: domain normalisation, the denylist proxy, profile creation and the Apple DNS profile

BetBlocker is a small Next.js application. It lets a person who wants to stop gambling
point a device at a NextDNS profile and keep a denylist of betting domains on it. This
project models the logic that decides what reaches the NextDNS API and what reaches
the user:

- **the page's domain normaliser**: `normalizeDomain` trims the typed text, lower-cases
  it, strips a leading `scheme://`, cuts at the first `/`, `?` or `#`, and drops one
  leading `www.`. The page also derives the two DNS endpoints from the profile id, and
  picks the label and key of each denylist row;
- **the denylist proxy** (`/api/blocklist`): `GET`, `POST` and `DELETE` validate the
  `profileId` query parameter and the `domain` body member. They call the NextDNS API
  through `callNextDns`, which answers a synthetic 500 when no API key is configured,
  and they relay the provider's failures;
- **profile creation** (`/api/profile`): `POST` names a new profile after the body's
  `label` or a generated `betblocker_<random>_<timestamp>` name, creates it, and answers
  with the new profile's id;
- **the Apple configuration profile** (`/api/apple-profile`): `GET` sanitises the
  profile id and fills it into a fixed 46-line property list. That list points the
  device's DNS-over-HTTPS resolver at the profile.

Every handler is a total function. Its inputs are the server configuration, the parsed
request and the provider's reply. Its output is an `Exchange`: the call it made, if
any, and the response it gave. When the handler throws, the response is `Unhandled`.
Randomness (`Math.random`, `crypto.randomUUID`) and the clock (`Date.now`) are
parameters of the functions that use them.

Modules:

- `Js`: the JavaScript value semantics the handlers rely on: truthiness, `||`, `.` versus
  `?.` on nullish values, `split(sep)[0]`, `slice`, and `String(n)`;
- `Uri`: `encodeURIComponent` as UTF-8 percent-encoding, with its decoder;
- `Http`: requests, responses, provider calls and replies;
- `Page`, `BlocklistRoute`, `ProfileRoute`, `AppleProfile`: one per source file.

## Model

| member | source | states |
|---|---|---|
| Js.OptionalMember | webapp/src/app/api/blocklist/route.js:75 | `v?.key` yields the member of an object that has it and `undefined` in every other case, never throwing |
| Js.Slice | webapp/src/app/api/profile/route.js:17 | `slice(start, end)` clamps both ends to the length: the result is never longer than the input or than `end`, and is exactly `s[start..end]` when the indices are in range, the rest of `s` from `start` when `end` passes the length, and `""` when `start` is at or past the length or past `end` |
| Js.SplitFirst | webapp/src/app/page.js:39 | `split(sep)[0]` is the longest prefix without `sep`; when it is shorter than the input, `sep` follows it |
| Js.SplitFirstAt | webapp/src/app/page.js:39 | splitting `a + sep + b` at `sep`, with `sep` not in `a`, gives back `a` |
| Js.NumberToString | webapp/src/app/api/profile/route.js:17 | `String(Date.now())` is a non-empty string of decimal digits with no leading zero |
| Js.NumberToStringRoundTrip | webapp/src/app/api/profile/route.js:17 | reading the rendered digits back as a decimal number gives the timestamp |
| Js.NumberToStringInjective | webapp/src/app/api/profile/route.js:17 | different timestamps render as different texts |
| Uri.Utf8 | webapp/src/app/api/blocklist/route.js:38 | a character encodes to 1 to 4 UTF-8 bytes, one byte exactly for ASCII, where the byte is the code point |
| Uri.PercentBytes | webapp/src/app/api/blocklist/route.js:38 | each byte becomes three characters: `%` followed by two upper-case hex digits |
| Uri.EncodeURIComponent | webapp/src/app/api/blocklist/route.js:38 | the result holds only unreserved characters, `%` and hex digits, so never `/`, `?`, `#` or `&`; a string of unreserved characters is left unchanged |
| Uri.DecodePercentBytes | webapp/src/app/api/blocklist/route.js:38 | percent-decoding the escapes of some bytes, followed by any text, yields those bytes and then the decoding of that text |
| Uri.DecodeEncode | webapp/src/app/api/blocklist/route.js:136-138 | percent-decoding `encodeURIComponent(s)` gives the UTF-8 bytes of `s` |
| Uri.Utf8LeadByte | webapp/src/app/api/blocklist/route.js:38 | the range of a character's first UTF-8 byte determines how many bytes follow |
| Uri.Utf8Injective | webapp/src/app/api/blocklist/route.js:38 | different characters have different UTF-8 encodings |
| Uri.Utf8StringInjective | webapp/src/app/api/blocklist/route.js:38 | different strings have different UTF-8 byte sequences |
| Uri.EncodeInjective | webapp/src/app/api/blocklist/route.js:136-138 | different strings have different `encodeURIComponent` encodings |
| Page.Trim | webapp/src/app/page.js:33 | `trim()`: `TrimEnd` after `TrimStart`; stated by their contracts and by `TrimStartSkipsBlanks`, `TrimPastedUrl` and `TrimShortens` |
| Page.CutPathQueryHash | webapp/src/app/page.js:39 | `split("/")[0].split("?")[0].split("#")[0]`; stated by `CutAtFirstDelimiter` (exactly the prefix before the first delimiter) and `CutBeforeDelimiter` |
| Page.StripWww | webapp/src/app/page.js:42-44 | removes one leading `www.`; stated by `NormalizeRemovesOneWww`, `NormalizeWwwHost` and `NormalizeNotIdempotent` |
| Page.DnsHttps | webapp/src/app/page.js:15 | `https://dns.nextdns.io/<id>`, or `""` without an id; stated by `EndpointsDetermineProfileId` and `AppleProfile.ServerUrlIsDnsEndpoint` |
| Page.DnsHostname | webapp/src/app/page.js:16 | `<id>.dns.nextdns.io`, or `""` without an id; stated by `EndpointsDetermineProfileId` |
| Js.Truthy | webapp/src/app/api/profile/route.js:39 | JavaScript truthiness: `undefined`, `null`, `false`, `0` and `""` are falsy; used by every negation and every logical or the handlers evaluate, as stated in `RequestedName`, `ProfileRecord`, `Denylist` and the failure-relay lemmas |
| Js.Member | webapp/src/app/api/blocklist/route.js:47 | `v.key`: throws on `undefined` or `null`; stated through `ItemLabel` and `BlocklistRoute.FailureRelayed` (a `null` body throws) |
| Js.Or | webapp/src/app/api/profile/route.js:15-17 | the logical or of two values: the left operand when truthy, else the right; stated through `RequestedName`, `ProfileRecord` and `Http.FirstErrorText`'s uses in the relay lemmas |
| Http.JsonResponse | webapp/src/app/api/blocklist/route.js:44-52 | `Response.json(value, { status })`: a JSON response with that status, or a throw for a status outside 200-599 (`RangeError`) or a null-body status such as 304 (`TypeError`); used at blocklist/route.js:31-34, 60, 108-111 and profile/route.js:5-8, 33, 40-46, 49-55, and stated by `BlocklistRoute.FailureRelayed`, `ProfileRoute.FailureRelayed` and the success lemmas |
| Http.ErrorResponse | webapp/src/app/api/profile/route.js:33 | `Response.json({ error }, { status })`; stated by `BlocklistRoute.FailureRelayed`, `ProfileRoute.FailureRelayed`, `MissingKeyIsServerError` and `MissingProfileIdRejected` |
| Http.KeyConfigured | webapp/src/app/api/profile/route.js:4 | `!NEXTDNS_API_KEY` is false: the key is set and not empty (also blocklist/route.js:4); stated by `MissingKeyIsServerError`, `CallMadeIffValidAndKeyed` and `ProfileRoute.MissingKeyRejected` |
| Http.MissingParam | webapp/src/app/api/blocklist/route.js:30 | `!profileId` for a query parameter: absent or empty (also apple-profile/route.js:61); stated by `MissingProfileIdRejected` and `AppleProfile.Get` |
| Js.ParsedOr | webapp/src/app/api/profile/route.js:28 | `response.json().catch(() => fallback)`: the parsed body, or the fallback when it is not JSON (also blocklist/route.js:43, 74 and profile/route.js:11); stated by `BlocklistRoute.FailureRelayed`, `RequestedDomain` and `ProfileRoute.UnreadableSuccessIsMissingId` |
| Http.FirstErrorText | webapp/src/app/api/profile/route.js:31-32 | `data?.message`, else `data?.error`, else the fallback text, each only when truthy; its cases are stated by `BlocklistRoute.FailureRelayed` and `ProfileRoute.FailureRelayed` |
| Page.TrimStart | webapp/src/app/page.js:33 | `trim` at the start removes exactly the leading JavaScript white space: what it removes is all white space, and what remains starts with a non-blank |
| Page.TrimEnd | webapp/src/app/page.js:33 | `trim` at the end removes exactly the trailing JavaScript white space |
| Page.LowerChar | webapp/src/app/page.js:33 | `toLowerCase` maps each of `A`-`Z` to its own lower-case letter (32 code points on) and keeps every other character |
| Page.Lower | webapp/src/app/page.js:33 | `toLowerCase` keeps the length, maps each character and leaves no upper-case letter |
| Page.LetterRun | webapp/src/app/page.js:36 | the longest run of `a`-`z` letters at the start of the string |
| Page.StripScheme | webapp/src/app/page.js:36 | removing the scheme only ever removes a prefix |
| Page.StripSchemeMatchesPattern | webapp/src/app/page.js:36 | when `^[a-z]+:\/\/` matches, exactly the matched prefix is cut off; when it does not match, the string is unchanged |
| Page.CutAtFirstDelimiter | webapp/src/app/page.js:39 | the three splits keep exactly the prefix before the first `/`, `?` or `#` |
| Page.StripUrlParts | webapp/src/app/page.js:36-44 | the scheme, path and `www.` steps leave a contiguous piece of their input that holds no URL delimiter and adds no upper-case letter |
| Page.NormalizeDomain | webapp/src/app/page.js:31-47 | a falsy or non-string input gives `""`; otherwise the result is a contiguous piece of the trimmed, lower-cased input, no longer than the trimmed input, with no upper-case letter and no `/`, `?` or `#` |
| Page.NormalizeRemovesOneWww | webapp/src/app/page.js:42-44 | the host part loses its `www.` prefix once (exactly four characters) when it has one and is otherwise kept whole |
| Page.TrimStartSkipsBlanks | webapp/src/app/page.js:33 | white space in front of a non-blank is all removed |
| Page.LowerAppend | webapp/src/app/page.js:33 | lower-casing distributes over concatenation |
| Page.LowerKeepsDelimiters | webapp/src/app/page.js:33 | lower-casing neither creates nor removes a `/`, `?` or `#` |
| Page.LowerOfLowercase | webapp/src/app/page.js:33 | lower-casing a string without upper-case letters changes nothing |
| Page.LetterRunOfLetters | webapp/src/app/page.js:36 | the letter run of letters followed by a non-letter is exactly those letters |
| Page.CutBeforeDelimiter | webapp/src/app/page.js:39 | a delimiter-free head followed by a delimiter is what the splits keep |
| Page.SchemeNeedsSlash | webapp/src/app/page.js:36 | a `://` somewhere in a string implies a `/` in it |
| Page.StripSchemeWithoutSlash | webapp/src/app/page.js:36 | without a `/` there is no scheme to strip |
| Page.NormalizeOfClean | webapp/src/app/page.js:31-47 | a lower-case, delimiter-free string with no blank at either end only loses a leading `www.` |
| Page.NormalizePastedUrl | webapp/src/app/page.js:35-39 | a pasted URL (leading blanks, letter scheme in any case, `://`, host, path, query or hash) normalises to its lower-cased host without `www.` |
| Page.PastedUrlHost | webapp/src/app/page.js:33-39 | the trim, lower-case, scheme and split steps reduce a pasted URL to its lower-cased host |
| Page.TrimPastedUrl | webapp/src/app/page.js:33 | leading white space before a text with no blank at either end is what `trim` removes |
| Page.LowerPastedUrl | webapp/src/app/page.js:33 | lower-casing a pasted URL lower-cases its scheme, host and tail separately and keeps `://` |
| Page.StripPastedScheme | webapp/src/app/page.js:36 | a lower-case letter scheme followed by `://` is removed, leaving what follows |
| Page.NormalizeExample | webapp/src/app/page.js:31-47 | `"  HTTPS://BetSite.com/path?x=1"` normalises to `"betsite.com"` |
| Page.NormalizeWwwHost | webapp/src/app/page.js:42-44 | a clean host with `www.` in front normalises to the host |
| Page.NormalizeNotIdempotent | webapp/src/app/page.js:42-44 | of a doubled `www.www.` only one copy goes, so normalising a second time changes the result again |
| Page.TrimShortens | webapp/src/app/page.js:33 | a string with a blank at either end gets strictly shorter under `trim` |
| Page.NormalizeIdempotentWhenClean | webapp/src/app/page.js:31-47 | a normalised domain is a fixed point of the normaliser if and only if it is empty, or has no blank at either end and does not start with `www.` |
| Page.EndpointsDetermineProfileId | webapp/src/app/page.js:15-16 | the DNS-over-HTTPS URL and the DNS host name are empty exactly when there is no profile id; otherwise the URL's path and the host name's leading labels give back the profile id |
| Page.ItemLabel | webapp/src/app/page.js:415-416 | a denylist row shows a string item as is, an object's truthy `id`, else its `host` (or `undefined`), and throws on `null` or `undefined` |
| AppleProfile.Sanitize | webapp/src/app/api/apple-profile/route.js:4 | the sanitised id is no longer than the input and holds only `a-zA-Z0-9_-` |
| AppleProfile.SanitizedIsMarkupSafe | webapp/src/app/api/apple-profile/route.js:4 | the sanitised id holds no `<`, `>`, `&`, `"` or line break, so it cannot break out of the XML element or the quoted file name it is placed in |
| AppleProfile.SanitizeKeepsOrder | webapp/src/app/api/apple-profile/route.js:4 | the sanitised id is a subsequence of the input: characters are removed, never reordered |
| AppleProfile.SanitizeCounts | webapp/src/app/api/apple-profile/route.js:4 | every allowed character is kept as often as it occurs and every other character is removed entirely |
| AppleProfile.SanitizeCleanUnchanged | webapp/src/app/api/apple-profile/route.js:4 | an id made of allowed characters only is kept as is |
| AppleProfile.SanitizeDropsAll | webapp/src/app/api/apple-profile/route.js:4 | an id without any allowed character sanitises to `""` |
| AppleProfile.SanitizeIdempotent | webapp/src/app/api/apple-profile/route.js:4 | sanitising twice is sanitising once |
| AppleProfile.SanitizeAppend | webapp/src/app/api/apple-profile/route.js:4 | the global replace works character by character: it distributes over concatenation |
| AppleProfile.CreateMobileConfig | webapp/src/app/api/apple-profile/route.js:3-55 | the document is the 46 template lines, with holes filled, joined by line breaks; its contract is stated by `DocumentNamesProfile` (the sanitised id in the four identifier, display-name and server-URL lines, each in the document), `UuidsOnlyInTheirFields` (the UUIDs only in the two `PayloadUUID` lines) and `ServerUrlIsDnsEndpoint` |
| AppleProfile.TemplateLine | webapp/src/app/api/apple-profile/route.js:9-54 | line `i` of the template is source line `9 + i`, split into `ProfileHeaderLine` and `DnsPayloadLine`; which lines hold which hole is stated by `IdentifierSlots`, `DisplayAndServerSlots`, `UuidSlots` and `UuidSlotsOnly` |
| AppleProfile.ProfileHeaderLine | webapp/src/app/api/apple-profile/route.js:9-31 | lines 0-22 of the template: the XML prologue and the profile's own keys, up to the opening of the payload dictionary |
| AppleProfile.DnsPayloadLine | webapp/src/app/api/apple-profile/route.js:32-54 | lines 23-45 of the template: the DNS settings payload and the closing tags |
| AppleProfile.JoinLines | webapp/src/app/api/apple-profile/route.js:9-54 | the template literal's line breaks; each line is a contiguous piece of the joined text (`LineOffset`, `LineInDocument`) |
| AppleProfile.IdentifierSlots | webapp/src/app/api/apple-profile/route.js:17-37 | the outer and inner `PayloadIdentifier` values are `com.betblocker.nextdns.` and `com.betblocker.nextdns.dns.` followed by the sanitised id |
| AppleProfile.DisplayAndServerSlots | webapp/src/app/api/apple-profile/route.js:21-47 | the display name carries the sanitised id in parentheses, and the `ServerURL` is `https://dns.nextdns.io/` followed by it |
| AppleProfile.UuidSlots | webapp/src/app/api/apple-profile/route.js:19-39 | the two `PayloadUUID` values are exactly the profile UUID and the payload UUID |
| AppleProfile.UuidSlotsOnly | webapp/src/app/api/apple-profile/route.js:5-6 | no line other than the two `PayloadUUID` values depends on a UUID |
| AppleProfile.LineOffset | webapp/src/app/api/apple-profile/route.js:9-54 | each line of the document occurs at some offset of the joined text |
| AppleProfile.LineInDocument | webapp/src/app/api/apple-profile/route.js:9-54 | every line is a contiguous piece of the joined document |
| AppleProfile.DocumentNamesProfile | webapp/src/app/api/apple-profile/route.js:17-22 | the document names the sanitised id in the outer identifier, the display name, the inner identifier and the server URL, each under its key |
| AppleProfile.UuidsOnlyInTheirFields | webapp/src/app/api/apple-profile/route.js:19-20 | the UUIDs appear under their `PayloadUUID` keys, and two documents built with different UUIDs agree on every other line |
| AppleProfile.ServerUrlIsDnsEndpoint | webapp/src/app/api/apple-profile/route.js:47 | for a non-empty sanitised id, the configured server URL is the DNS-over-HTTPS endpoint the page shows for that id |
| AppleProfile.Filename | webapp/src/app/api/apple-profile/route.js:68-71 | the download name starts with `betblocker-`, ends with `.mobileconfig`, and has exactly the sanitised id between them; it holds no `"` |
| AppleProfile.Get | webapp/src/app/api/apple-profile/route.js:57-80 | a missing or empty profile id is answered 400 with the plain-text message; every other id is answered 200 with a text body |
| AppleProfile.GetServesProfile | webapp/src/app/api/apple-profile/route.js:67-78 | a present id is answered with the generated document, the Apple configuration content type, and an attachment disposition whose quoted file name is the sanitised download name |
| AppleProfile.DisallowedIdStillServed | webapp/src/app/api/apple-profile/route.js:61-78 | an id made only of disallowed characters is still served with status 200, an empty id, the file name `betblocker-.mobileconfig`, and the bare resolver URL `https://dns.nextdns.io/` |
| BlocklistRoute.CallNextDns | webapp/src/app/api/blocklist/route.js:3-24 | a call is made if and only if the API key is set; without it the reply is the synthetic non-ok 500 naming the missing key; with it, the reply is the provider's |
| BlocklistRoute.DenylistPathReadsBack | webapp/src/app/api/blocklist/route.js:38 | the list path is `/profiles/`, the encoded profile id as one segment, then `/denylist`; the segment decodes to the id's UTF-8 bytes |
| BlocklistRoute.DenylistPathInjective | webapp/src/app/api/blocklist/route.js:38 | different profile ids give different list paths |
| BlocklistRoute.EntryPathReadsBack | webapp/src/app/api/blocklist/route.js:136-138 | the entry path is the list path, a `/`, and the encoded domain as a single segment that decodes to the domain's UTF-8 bytes |
| BlocklistRoute.EntryPathAfterPrefix | webapp/src/app/api/blocklist/route.js:136-138 | after `/profiles/`, the entry path is the encoded profile id, `/denylist`, `/` and the encoded domain |
| BlocklistRoute.EntryPathProfileSegment | webapp/src/app/api/blocklist/route.js:136-138 | the first segment after `/profiles/` in the entry path is the encoded profile id |
| BlocklistRoute.EntryPathInjective | webapp/src/app/api/blocklist/route.js:136-138 | different (profile id, domain) pairs give different entry paths, so a removal targets only the named entry |
| BlocklistRoute.FailureRelayed | webapp/src/app/api/blocklist/route.js:42-53 | a non-ok reply is relayed with its status and the first truthy of `message`, `error` and the fallback text; a JSON `null` body, or a status that cannot carry a body (304), makes the handler throw |
| BlocklistRoute.RequestedDomain | webapp/src/app/api/blocklist/route.js:74-82 | a domain is accepted if and only if the body is a JSON object whose `domain` is a non-empty string, and then it is that string |
| BlocklistRoute.Denylist | webapp/src/app/api/blocklist/route.js:58 | the list is the `data` array of the envelope when there is one, else the body when it is truthy, else `[]`; it is never falsy |
| BlocklistRoute.MissingProfileIdRejected | webapp/src/app/api/blocklist/route.js:30-35 | all three handlers answer a missing or empty profile id with the same 400 and make no call |
| BlocklistRoute.BadDomainRejectedBeforeKey | webapp/src/app/api/blocklist/route.js:77-82 | a body without a usable domain is a 400 from `POST` and `DELETE` whatever the configuration, with no call |
| BlocklistRoute.MissingKeyIsServerError | webapp/src/app/api/blocklist/route.js:4-11 | without an API key, a request that passes validation is answered 500 with the missing-key message, and no call is made |
| BlocklistRoute.CallMadeIffValidAndKeyed | webapp/src/app/api/blocklist/route.js:26-161 | each handler calls the provider if and only if its validation passes and the API key is set |
| BlocklistRoute.UpstreamFailureRelayed | webapp/src/app/api/blocklist/route.js:42-53 | in all three handlers a provider failure is relayed with its status and the first truthy error text, and a `null` error body or a 304 status throws |
| BlocklistRoute.NetworkFailureThrows | webapp/src/app/api/blocklist/route.js:37-40 | a rejected provider call makes every handler throw |
| BlocklistRoute.ListSuccess | webapp/src/app/api/blocklist/route.js:37-60 | `GET` requests the profile's list path with the API headers and answers 200 with the unwrapped list; a success body that is not JSON throws |
| BlocklistRoute.AddSendsEntry | webapp/src/app/api/blocklist/route.js:84-111 | `POST` sends `{ id: domain, active: true }` to the profile's list path and confirms the added domain on success |
| BlocklistRoute.RemoveTargetsEntry | webapp/src/app/api/blocklist/route.js:135-160 | `DELETE` targets the domain's own entry path and confirms the removed domain on success |
| ProfileRoute.GeneratedName | webapp/src/app/api/profile/route.js:17 | the generated name is `betblocker_`, then `slice(2, 8)` of the random text (at most six characters), `_` and the timestamp's digits, which read back as the timestamp |
| ProfileRoute.RequestedName | webapp/src/app/api/profile/route.js:11-17 | the requested profile name is always truthy |
| ProfileRoute.ProfileRecord | webapp/src/app/api/profile/route.js:36 | the record is the reply's truthy `data` member when there is one, else the whole parsed body (`{}` when it is not JSON) |
| ProfileRoute.MissingKeyRejected | webapp/src/app/api/profile/route.js:4-9 | without an API key the route answers 500 with the missing-key message, makes no call, and ignores the request |
| ProfileRoute.NameChosen | webapp/src/app/api/profile/route.js:11-26 | with a key, one `POST` is sent to the profiles endpoint, with the `X-Api-Key` header carrying the configured key and the JSON content type, naming the body's truthy `label` or else the generated name |
| ProfileRoute.FailureRelayed | webapp/src/app/api/profile/route.js:28-34 | a refused creation is relayed with the provider's status and the first truthy of `message`, `error` and the fallback; a `null` body does not throw, a 304 status does |
| ProfileRoute.NetworkFailureThrows | webapp/src/app/api/profile/route.js:19-26 | a rejected call makes the route throw |
| ProfileRoute.SuccessCarriesProfileId | webapp/src/app/api/profile/route.js:36-55 | an accepted creation answers 200 with the record's truthy id and its name (or the requested one), and 500 with the missing-id message when the id is not truthy |
| ProfileRoute.UnreadableSuccessIsMissingId | webapp/src/app/api/profile/route.js:28-47 | an ok reply whose body is not JSON, or is `null`, is reported as a missing id, not thrown |
| BlocklistRoute.DenylistPath | webapp/src/app/api/blocklist/route.js:38 | `/profiles/${encodeURIComponent(profileId)}/denylist`; stated by `DenylistPathReadsBack` and `DenylistPathInjective` |
| BlocklistRoute.EntryPath | webapp/src/app/api/blocklist/route.js:136-138 | the list path, `/` and the encoded domain; stated by `EntryPathReadsBack`, `EntryPathProfileSegment` and `EntryPathInjective` |
| BlocklistRoute.FailureResponse | webapp/src/app/api/blocklist/route.js:42-53 | the relay of a non-ok reply shared by the three handlers (also lines 95-106 and 144-155); stated by `FailureRelayed` |
| BlocklistRoute.List | webapp/src/app/api/blocklist/route.js:26-61 | `GET`; stated by `MissingProfileIdRejected`, `MissingKeyIsServerError`, `CallMadeIffValidAndKeyed`, `UpstreamFailureRelayed`, `NetworkFailureThrows` and `ListSuccess` |
| BlocklistRoute.Add | webapp/src/app/api/blocklist/route.js:63-112 | `POST`; stated by `MissingProfileIdRejected`, `BadDomainRejectedBeforeKey`, `MissingKeyIsServerError`, `CallMadeIffValidAndKeyed`, `UpstreamFailureRelayed`, `NetworkFailureThrows` and `AddSendsEntry` |
| BlocklistRoute.Remove | webapp/src/app/api/blocklist/route.js:114-161 | `DELETE`; stated by the same validation, key and failure lemmas as `Add`, and by `RemoveTargetsEntry` |
| ProfileRoute.CreateCall | webapp/src/app/api/profile/route.js:19-26 | the `POST /profiles` request with the API key and JSON content type; stated by `NameChosen` |
| ProfileRoute.Create | webapp/src/app/api/profile/route.js:3-56 | `POST /api/profile`; stated by `MissingKeyRejected`, `NameChosen`, `FailureRelayed`, `NetworkFailureThrows`, `SuccessCarriesProfileId` and `UnreadableSuccessIsMissingId` |

## Left out

- Network, clock, randomness and the process environment: `fetch` is replaced by its reply, an input of each handler. `Math.random().toString(36)`, `Date.now()` and `crypto.randomUUID()` are parameters. `process.env.NEXTDNS_API_KEY` is the `Config` value.
- JSON text: request and reply bodies are modelled as parsed values. `None` stands for text that does not parse, and `JSON.stringify` of the outgoing body is not modelled. The order of object members is not modelled, because objects are maps.
- Numbers are unbounded integers. The JSON numbers the handlers pass through are never computed with, and `Date.now()` is a natural number.
- `toLowerCase` is modelled for ASCII letters only; other characters are kept. Full Unicode case mapping is not modelled.
- Strings are sequences of Unicode scalar values. A lone surrogate, for which `encodeURIComponent` throws a `URIError`, cannot be written in the model.
- `fetch` statuses are taken to lie in 200-599, the range a `fetch` response has. `Response.json` is modelled with both of its throws: the `RangeError` outside 200-599 and the `TypeError` for a null-body status such as 304.
- Response headers are modelled as written in each handler. The plain-text 400 of the Apple profile route carries the `text/plain;charset=UTF-8` type that the `Response` constructor adds. The framework's own handling of `Unhandled` is not modelled.
- `AppleProfile.CreateMobileConfig`: the document is modelled as its 46 template lines joined by line breaks. That splitting the joined text at line breaks gives the lines back is not proved, because none of the lines holds a line break anyway.
- The React page itself (state, effects, clipboard, local storage, fetch calls from the browser) is not part of this model. Of the page, only the domain normaliser, the endpoint strings and the list-row label and key are modelled. The row key uses the same expression as the label, so `Page.ItemLabel` covers both.
- The setup guide page and the debug and test routes are not part of this model.
- One might expect the normaliser to be idempotent and to leave no leading `www.`. Neither holds: the code removes one `www.` (webapp/src/app/page.js:41-44), so a `www.www.` host keeps one `www.`, and normalising it again changes it (`Page.NormalizeNotIdempotent`). A host followed by a blank and then a path, such as `"a.com /p"`, normalises to `"a.com "`, which a second pass trims, so idempotence fails there too. `Page.NormalizeIdempotentWhenClean` characterises exactly when a second pass changes nothing.
