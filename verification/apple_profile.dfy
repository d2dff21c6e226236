/**
 * The configuration-profile route: `GET` turns a profile id into an Apple
 * property-list document that points the device's DNS at the profile's
 * DNS-over-HTTPS endpoint, and serves it as a download.
 *
 * The document is a fixed template with three kinds of hole: the sanitised
 * profile id and the two UUIDs drawn for the call. The UUIDs are parameters
 * here, so the document is a function of `(profileId, profileUuid,
 * payloadUuid)`.
 */
module AppleProfile {
  import opened Wrappers
  import opened Js
  import opened Http
  import Page

  /** The characters `[A-Za-z0-9_-]` that survive the sanitiser. */
  predicate IsAllowed(c: char) {
    || 'A' <= c <= 'Z'
    || 'a' <= c <= 'z'
    || '0' <= c <= '9'
    || c == '_' || c == '-'
  }

  /**
   * `String(profileId).replace(/[^a-zA-Z0-9_-]/g, "")`: every character
   * outside the allowed set removed.
   */
  function Sanitize(s: string): (r: string)
    ensures |r| <= |s|
    ensures forall i :: 0 <= i < |r| ==> IsAllowed(r[i])
  {
    if s == [] then []
    else (if IsAllowed(s[0]) then [s[0]] else []) + Sanitize(s[1..])
  }

  /** What the sanitiser leaves can close neither an element nor a quoted attribute, and holds no line break. */
  lemma SanitizedIsMarkupSafe(s: string)
    ensures var r := Sanitize(s);
      '<' !in r && '>' !in r && '&' !in r && '"' !in r && '\n' !in r
  {
  }

  /** `idx` picks the characters of `r`, in order, out of `s`. */
  ghost predicate IsIndexMap(idx: seq<nat>, r: string, s: string) {
    && |idx| == |r|
    && (forall k :: 0 <= k < |idx| ==> idx[k] < |s| && r[k] == s[idx[k]])
    && (forall k, l :: 0 <= k < l < |idx| ==> idx[k] < idx[l])
  }

  ghost predicate IsSubsequence(r: string, s: string) {
    exists idx :: IsIndexMap(idx, r, s)
  }

  /** An index map into the tail of `s`, shifted by one, is an index map into `s` that avoids position 0. */
  lemma ShiftIndexMap(idx: seq<nat>, r: string, s: string) returns (shifted: seq<nat>)
    requires s != [] && IsIndexMap(idx, r, s[1..])
    ensures IsIndexMap(shifted, r, s)
    ensures IsIndexMap([0] + shifted, [s[0]] + r, s)
  {
    shifted := seq(|idx|, k requires 0 <= k < |idx| => idx[k] + 1);
    forall k | 0 <= k < |shifted| ensures shifted[k] < |s| && r[k] == s[shifted[k]] {
      assert s[1..][idx[k]] == s[idx[k] + 1];
    }
    var whole, chars := [0] + shifted, [s[0]] + r;
    forall k | 0 < k < |whole| ensures whole[k] == shifted[k - 1] && chars[k] == r[k - 1] {
    }
    forall k, l | 0 <= k < l < |whole| ensures whole[k] < whole[l] {
      assert whole[l] == shifted[l - 1];
    }
  }

  /** The sanitised id is a subsequence of the input: the kept characters stay in their order. */
  lemma {:induction false} SanitizeKeepsOrder(s: string)
    ensures IsSubsequence(Sanitize(s), s)
  {
    if s == [] {
      assert IsIndexMap([], [], s);
    } else {
      SanitizeKeepsOrder(s[1..]);
      var tail := Sanitize(s[1..]);
      var idx: seq<nat> :| IsIndexMap(idx, tail, s[1..]);
      var shifted := ShiftIndexMap(idx, tail, s);
      if IsAllowed(s[0]) {
        assert IsIndexMap([0] + shifted, Sanitize(s), s);
      } else {
        assert IsIndexMap(shifted, Sanitize(s), s);
      }
    }
  }

  /**
   * Every occurrence of an allowed character is kept and every other one is
   * dropped: together with the order, the sanitised id is exactly the
   * in-order subsequence of allowed characters.
   */
  lemma {:induction false} SanitizeCounts(s: string)
    ensures forall c :: multiset(Sanitize(s))[c] == if IsAllowed(c) then multiset(s)[c] else 0
  {
    if s != [] {
      SanitizeCounts(s[1..]);
      assert s == [s[0]] + s[1..];
      assert multiset(s) == multiset([s[0]]) + multiset(s[1..]);
    }
  }

  /** An id that is already clean passes through unchanged. */
  lemma {:induction false} SanitizeCleanUnchanged(s: string)
    requires forall i :: 0 <= i < |s| ==> IsAllowed(s[i])
    ensures Sanitize(s) == s
  {
    if s != [] {
      SanitizeCleanUnchanged(s[1..]);
    }
  }

  /** An id with no allowed character sanitises to the empty string. */
  lemma {:induction false} SanitizeDropsAll(s: string)
    requires forall i :: 0 <= i < |s| ==> !IsAllowed(s[i])
    ensures Sanitize(s) == ""
  {
    if s != [] {
      SanitizeDropsAll(s[1..]);
    }
  }

  /** Sanitising twice is sanitising once. */
  lemma SanitizeIdempotent(s: string)
    ensures Sanitize(Sanitize(s)) == Sanitize(s)
  {
    SanitizeCleanUnchanged(Sanitize(s));
  }

  /** The sanitiser works character by character: it distributes over concatenation. */
  lemma {:induction false} SanitizeAppend(a: string, b: string)
    ensures Sanitize(a + b) == Sanitize(a) + Sanitize(b)
  {
    if a != [] {
      var head := if IsAllowed(a[0]) then [a[0]] else [];
      assert (a + b)[0] == a[0] && (a + b)[1..] == a[1..] + b;
      assert Sanitize(a + b) == head + Sanitize(a[1..] + b);
      SanitizeAppend(a[1..], b);
      assert head + (Sanitize(a[1..]) + Sanitize(b)) == (head + Sanitize(a[1..])) + Sanitize(b);
    } else {
      assert a + b == b;
    }
  }

  /** The values the template is filled with. */
  datatype Hole = SafeId | ProfileUuid | PayloadUuid

  /** A line of the template: fixed text, or text around one hole. */
  datatype Line = Fixed(text: string) | Slot(before: string, hole: Hole, after: string)

  /** The number of lines of the document template. */
  const LineCount := 46

  /** Line `i` of the document template, without its line break. */
  function TemplateLine(i: nat): Line
    requires i < LineCount
  {
    if i < 23 then ProfileHeaderLine(i) else DnsPayloadLine(i)
  }

  /** Lines 0-22: the XML prologue and the profile's own keys, up to the opening of the payload. */
  function ProfileHeaderLine(i: nat): Line
    requires i < 23
  {
    match i
    case 0 => Fixed("<?xml version=\"1.0\" encoding=\"UTF-8\"?>")
    case 1 => Fixed("<!DOCTYPE plist PUBLIC \"-//Apple//DTD PLIST 1.0//EN\" \"http://www.apple.com/DTDs/PropertyList-1.0.dtd\">")
    case 2 => Fixed("<plist version=\"1.0\">")
    case 3 => Fixed("<dict>")
    case 4 => Fixed("  <key>PayloadType</key>")
    case 5 => Fixed("  <string>Configuration</string>")
    case 6 => Fixed("  <key>PayloadVersion</key>")
    case 7 => Fixed("  <integer>1</integer>")
    case 8 => Fixed("  <key>PayloadIdentifier</key>")
    case 9 => Slot("  <string>com.betblocker.nextdns.", SafeId, "</string>")
    case 10 => Fixed("  <key>PayloadUUID</key>")
    case 11 => Slot("  <string>", ProfileUuid, "</string>")
    case 12 => Fixed("  <key>PayloadDisplayName</key>")
    case 13 => Slot("  <string>BetBlocker DNS (", SafeId, ")</string>")
    case 14 => Fixed("  <key>PayloadDescription</key>")
    case 15 => Fixed("  <string>Configures this device to use NextDNS for BetBlocker.</string>")
    case 16 => Fixed("  <key>PayloadOrganization</key>")
    case 17 => Fixed("  <string>BetBlocker</string>")
    case 18 => Fixed("  <key>PayloadScope</key>")
    case 19 => Fixed("  <string>System</string>")
    case 20 => Fixed("  <key>PayloadContent</key>")
    case 21 => Fixed("  <array>")
    case 22 => Fixed("    <dict>")
    case _ => assert false; Fixed("")
  }

  /** Lines 23-45: the DNS settings payload and the closing tags. */
  function DnsPayloadLine(i: nat): Line
    requires 23 <= i < LineCount
  {
    match i
    case 23 => Fixed("      <key>PayloadType</key>")
    case 24 => Fixed("      <string>com.apple.dnsSettings.managed</string>")
    case 25 => Fixed("      <key>PayloadVersion</key>")
    case 26 => Fixed("      <integer>1</integer>")
    case 27 => Fixed("      <key>PayloadIdentifier</key>")
    case 28 => Slot("      <string>com.betblocker.nextdns.dns.", SafeId, "</string>")
    case 29 => Fixed("      <key>PayloadUUID</key>")
    case 30 => Slot("      <string>", PayloadUuid, "</string>")
    case 31 => Fixed("      <key>PayloadDisplayName</key>")
    case 32 => Fixed("      <string>BetBlocker DNS</string>")
    case 33 => Fixed("      <key>DNSSettings</key>")
    case 34 => Fixed("      <dict>")
    case 35 => Fixed("        <key>DNSProtocol</key>")
    case 36 => Fixed("        <string>HTTPS</string>")
    case 37 => Fixed("        <key>ServerURL</key>")
    case 38 => Slot("        <string>https://dns.nextdns.io/", SafeId, "</string>")
    case 39 => Fixed("        <key>ServerAddresses</key>")
    case 40 => Fixed("        <array/>")
    case 41 => Fixed("      </dict>")
    case 42 => Fixed("    </dict>")
    case 43 => Fixed("  </array>")
    case 44 => Fixed("</dict>")
    case 45 => Fixed("</plist>")
    case _ => assert false; Fixed("")
  }

  function HoleValue(h: Hole, safeId: string, profileUuid: string, payloadUuid: string): string {
    match h
    case SafeId => safeId
    case ProfileUuid => profileUuid
    case PayloadUuid => payloadUuid
  }

  function FillLine(l: Line, safeId: string, profileUuid: string, payloadUuid: string): string {
    match l
    case Fixed(text) => text
    case Slot(before, h, after) => before + HoleValue(h, safeId, profileUuid, payloadUuid) + after
  }

  /** The template's lines with the holes filled in. */
  function ProfileLines(safeId: string, profileUuid: string, payloadUuid: string): (lines: seq<string>)
    ensures |lines| == LineCount
    ensures forall i :: 0 <= i < LineCount ==> lines[i] == FillLine(TemplateLine(i), safeId, profileUuid, payloadUuid)
  {
    seq(LineCount, i requires 0 <= i < LineCount => FillLine(TemplateLine(i), safeId, profileUuid, payloadUuid))
  }

  /** Lines joined with a line break between each two. */
  function JoinLines(lines: seq<string>): string {
    if |lines| == 0 then ""
    else if |lines| == 1 then lines[0]
    else lines[0] + "\n" + JoinLines(lines[1..])
  }

  /** `createMobileConfig(profileId)` with the two UUIDs it draws passed in. */
  function CreateMobileConfig(profileId: string, profileUuid: string, payloadUuid: string): string {
    JoinLines(ProfileLines(Sanitize(profileId), profileUuid, payloadUuid))
  }

  /** Two of the four places the profile id goes: the outer and the inner payload identifier. */
  lemma IdentifierSlots()
    ensures TemplateLine(8) == Fixed("  <key>PayloadIdentifier</key>")
    ensures TemplateLine(9) == Slot("  <string>com.betblocker.nextdns.", SafeId, "</string>")
    ensures TemplateLine(27) == Fixed("      <key>PayloadIdentifier</key>")
    ensures TemplateLine(28) == Slot("      <string>com.betblocker.nextdns.dns.", SafeId, "</string>")
  {
  }

  /** The other two places the profile id goes: the display name and the server URL. */
  lemma DisplayAndServerSlots()
    ensures TemplateLine(12) == Fixed("  <key>PayloadDisplayName</key>")
    ensures TemplateLine(13) == Slot("  <string>BetBlocker DNS (", SafeId, ")</string>")
    ensures TemplateLine(37) == Fixed("        <key>ServerURL</key>")
    ensures TemplateLine(38) == Slot("        <string>https://dns.nextdns.io/", SafeId, "</string>")
  {
  }

  /** The two UUID fields: the outer payload's and the DNS payload's. */
  lemma UuidSlots()
    ensures TemplateLine(10) == Fixed("  <key>PayloadUUID</key>")
    ensures TemplateLine(11) == Slot("  <string>", ProfileUuid, "</string>")
    ensures TemplateLine(29) == Fixed("      <key>PayloadUUID</key>")
    ensures TemplateLine(30) == Slot("      <string>", PayloadUuid, "</string>")
  {
  }

  /** No line other than the two fields holds a UUID. */
  lemma UuidSlotsOnly()
    ensures forall i :: 0 <= i < LineCount && TemplateLine(i).Slot? && TemplateLine(i).hole != SafeId ==>
      i == 11 || i == 30
  {
    forall i | 0 <= i < 23 && ProfileHeaderLine(i).Slot? && ProfileHeaderLine(i).hole != SafeId ensures i == 11 {
    }
    forall i | 23 <= i < LineCount && DnsPayloadLine(i).Slot? && DnsPayloadLine(i).hole != SafeId ensures i == 30 {
    }
  }

  /** Where line `i` starts in the joined document: each line is a contiguous piece of it. */
  lemma {:induction false} LineOffset(lines: seq<string>, i: nat) returns (k: nat)
    requires i < |lines|
    ensures k + |lines[i]| <= |JoinLines(lines)|
    ensures JoinLines(lines)[k..k + |lines[i]|] == lines[i]
  {
    if |lines| == 1 {
      k := 0;
    } else if i == 0 {
      k := 0;
      assert JoinLines(lines) == lines[0] + ("\n" + JoinLines(lines[1..]));
    } else {
      var rest := JoinLines(lines[1..]);
      var j := LineOffset(lines[1..], i - 1);
      k := |lines[0]| + 1 + j;
      assert JoinLines(lines) == (lines[0] + "\n") + rest;
      assert JoinLines(lines)[k..k + |lines[i]|] == rest[j..j + |lines[i]|];
    }
  }

  lemma LineInDocument(lines: seq<string>, i: nat)
    requires i < |lines|
    ensures Page.IsInfix(lines[i], JoinLines(lines))
  {
    var k := LineOffset(lines, i);
  }

  /**
   * The sanitised profile id appears in the outer identifier, the display
   * name, the inner identifier and the server URL of the document, each
   * line right after the key it belongs to.
   */
  lemma DocumentNamesProfile(profileId: string, profileUuid: string, payloadUuid: string)
    ensures var safeId := Sanitize(profileId);
      var lines := ProfileLines(safeId, profileUuid, payloadUuid);
      var doc := CreateMobileConfig(profileId, profileUuid, payloadUuid);
      && lines[8] == "  <key>PayloadIdentifier</key>"
      && lines[9] == "  <string>com.betblocker.nextdns." + safeId + "</string>"
      && lines[12] == "  <key>PayloadDisplayName</key>"
      && lines[13] == "  <string>BetBlocker DNS (" + safeId + ")</string>"
      && lines[27] == "      <key>PayloadIdentifier</key>"
      && lines[28] == "      <string>com.betblocker.nextdns.dns." + safeId + "</string>"
      && lines[37] == "        <key>ServerURL</key>"
      && lines[38] == "        <string>https://dns.nextdns.io/" + safeId + "</string>"
      && Page.IsInfix(lines[9], doc) && Page.IsInfix(lines[13], doc)
      && Page.IsInfix(lines[28], doc) && Page.IsInfix(lines[38], doc)
  {
    var lines := ProfileLines(Sanitize(profileId), profileUuid, payloadUuid);
    IdentifierSlots();
    DisplayAndServerSlots();
    LineInDocument(lines, 9);
    LineInDocument(lines, 13);
    LineInDocument(lines, 28);
    LineInDocument(lines, 38);
  }

  /**
   * The outer and the inner PayloadUUID fields hold the first and the second
   * UUID, and no other line depends on either: filling in other UUIDs
   * changes those two lines only.
   */
  lemma UuidsOnlyInTheirFields(safeId: string, profileUuid: string, payloadUuid: string, otherProfileUuid: string, otherPayloadUuid: string)
    ensures var lines := ProfileLines(safeId, profileUuid, payloadUuid);
      var others := ProfileLines(safeId, otherProfileUuid, otherPayloadUuid);
      && lines[10] == "  <key>PayloadUUID</key>"
      && lines[11] == "  <string>" + profileUuid + "</string>"
      && lines[29] == "      <key>PayloadUUID</key>"
      && lines[30] == "      <string>" + payloadUuid + "</string>"
      && forall i :: 0 <= i < LineCount && i != 11 && i != 30 ==> lines[i] == others[i]
  {
    UuidSlots();
    UuidSlotsOnly();
  }

  /**
   * The server URL of the document is the DNS-over-HTTPS endpoint the page
   * shows for the same id, whenever the sanitised id is not empty.
   */
  lemma ServerUrlIsDnsEndpoint(profileId: string, profileUuid: string, payloadUuid: string)
    requires Sanitize(profileId) != ""
    ensures ProfileLines(Sanitize(profileId), profileUuid, payloadUuid)[38]
      == "        <string>" + Page.DnsHttps(Sanitize(profileId)) + "</string>"
  {
    var safeId := Sanitize(profileId);
    DisplayAndServerSlots();
    assert ProfileLines(safeId, profileUuid, payloadUuid)[38] == "        <string>https://dns.nextdns.io/" + safeId + "</string>";
    ServerUrlRegroup(safeId);
  }

  // Proof step for ServerUrlIsDnsEndpoint: regroups the literals once, on a variable id, to keep the solver cheap.
  lemma ServerUrlRegroup(id: string)
    requires id != ""
    ensures "        <string>https://dns.nextdns.io/" + id + "</string>" == "        <string>" + Page.DnsHttps(id) + "</string>"
  {
    assert "        <string>https://dns.nextdns.io/" == "        <string>" + "https://dns.nextdns.io/";
  }

  const MissingIdText := "Missing required query parameter: profileId"

  /** The download's file name, built from the profile id with the same sanitiser. */
  function Filename(profileId: string): (r: string)
    ensures '"' !in r
    ensures |r| == |Sanitize(profileId)| + 24 && r[11..|r| - 13] == Sanitize(profileId)
    ensures r[..11] == "betblocker-" && r[|r| - 13..] == ".mobileconfig"
  {
    SanitizedIsMarkupSafe(profileId);
    "betblocker-" + Sanitize(profileId) + ".mobileconfig"
  }

  /**
   * `GET /api/apple-profile?profileId=…`: a missing or empty id is a 400
   * with a plain-text message; any other id, even one the sanitiser empties,
   * is a 200 carrying the document as an attachment.
   */
  function Get(request: Request, profileUuid: string, payloadUuid: string): (r: Response)
    ensures r.Response?
    ensures r.status == 400 <==> MissingParam(request.profileId)
    ensures r.status == 400 ==> r.body == Text(MissingIdText)
    ensures r.status != 400 ==> r.status == 200 && r.body.Text?
  {
    if MissingParam(request.profileId) then
      Response(400, [("Content-Type", "text/plain;charset=UTF-8")], Text(MissingIdText))
    else
      var profileId := request.profileId.value;
      Response(200,
        [("Content-Type", "application/x-apple-aspen-config"),
         ("Content-Disposition", "attachment; filename=\"" + Filename(profileId) + "\"")],
        Text(CreateMobileConfig(profileId, profileUuid, payloadUuid)))
  }

  // Proof step for GetServesProfile, stated on variables so that the header literal is not expanded.
  /** A value quoted after a prefix reads back by position. */
  lemma Unquote(prefix: string, value: string, i: nat, j: nat)
    requires i <= j <= |value|
    ensures var v := prefix + value + "\"";
      && v[..|prefix|] == prefix
      && v[|v| - 1] == '"'
      && v[|prefix|..|v| - 1] == value
      && v[|prefix| + i..|prefix| + j] == value[i..j]
  {
  }

  /**
   * A served profile: the document is built from the request's id, and the
   * attachment's quoted file name (which cannot hold a quote) carries the
   * same sanitised id as the document's server URL.
   */
  lemma GetServesProfile(request: Request, profileUuid: string, payloadUuid: string)
    requires !MissingParam(request.profileId)
    ensures var r := Get(request, profileUuid, payloadUuid);
      var profileId := request.profileId.value;
      var safeId := Sanitize(profileId);
      && r.status == 200
      && r.body == Text(CreateMobileConfig(profileId, profileUuid, payloadUuid))
      && |r.headers| == 2
      && r.headers[0] == ("Content-Type", "application/x-apple-aspen-config")
      && r.headers[1].0 == "Content-Disposition"
      && var v := r.headers[1].1;
        && |v| >= 23
        && v[..22] == "attachment; filename=\""
        && v[|v| - 1] == '"'
        && '"' !in v[22..|v| - 1]
        && v[22..|v| - 1] == Filename(profileId)
        && v[33..|v| - 14] == safeId
        && ProfileLines(safeId, profileUuid, payloadUuid)[38] == "        <string>https://dns.nextdns.io/" + v[33..|v| - 14] + "</string>"
  {
    var profileId := request.profileId.value;
    var f := Filename(profileId);
    Unquote("attachment; filename=\"", f, 11, |f| - 13);
    DisplayAndServerSlots();
  }

  /**
   * An id made only of characters the sanitiser drops is still served: the
   * document and the file name carry an empty id, and the server URL has no
   * profile in it.
   */
  lemma DisallowedIdStillServed(request: Request, profileUuid: string, payloadUuid: string)
    requires !MissingParam(request.profileId)
    requires forall i :: 0 <= i < |request.profileId.value| ==> !IsAllowed(request.profileId.value[i])
    ensures Get(request, profileUuid, payloadUuid).status == 200
    ensures Sanitize(request.profileId.value) == ""
    ensures Filename(request.profileId.value) == "betblocker-.mobileconfig"
    ensures ProfileLines("", profileUuid, payloadUuid)[38] == "        <string>https://dns.nextdns.io/</string>"
  {
    SanitizeDropsAll(request.profileId.value);
    EmptyFilename(Filename(request.profileId.value), request.profileId.value);
    EmptyServerUrl(ProfileLines("", profileUuid, payloadUuid)[38], profileUuid, payloadUuid);
  }

  // Proof step for DisallowedIdStillServed, split out to keep the literal comparison small.
  lemma EmptyFilename(name: string, profileId: string)
    requires Sanitize(profileId) == "" && name == Filename(profileId)
    ensures name == "betblocker-.mobileconfig"
  {
    assert "betblocker-" + "" + ".mobileconfig" == "betblocker-.mobileconfig";
  }

  // Proof step for DisallowedIdStillServed, split out to keep the literal comparison small.
  lemma EmptyServerUrl(line: string, profileUuid: string, payloadUuid: string)
    requires line == ProfileLines("", profileUuid, payloadUuid)[38]
    ensures line == "        <string>https://dns.nextdns.io/</string>"
  {
    DisplayAndServerSlots();
  }
}
