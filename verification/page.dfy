/**
 * The pure logic of the single-page client: the domain normaliser applied to
 * what the user types before it is sent to the denylist route, the two DNS
 * endpoint strings derived from the profile id, and the label shown (and
 * used as the list key) for a denylist entry.
 *
 * `toLowerCase` is modelled on ASCII letters only; `trim` removes exactly
 * the characters JavaScript counts as white space or line terminators.
 */
module Page {
  import opened Js

  /** JavaScript's WhiteSpace and LineTerminator characters, the set `trim` removes. */
  predicate IsJsWhitespace(c: char) {
    || c == '\t' || c == '\n' || c == '\U{B}' || c == '\U{C}' || c == '\r' || c == ' '
    || c == '\U{A0}' || c == '\U{1680}' || ('\U{2000}' <= c <= '\U{200A}')
    || c == '\U{2028}' || c == '\U{2029}' || c == '\U{202F}' || c == '\U{205F}'
    || c == '\U{3000}' || c == '\U{FEFF}'
  }

  /** The leading white space removed: what is left is a suffix that starts with a non-space. */
  function TrimStart(s: string): (r: string)
    ensures |r| <= |s| && r == s[|s| - |r|..]
    ensures forall i :: 0 <= i < |s| - |r| ==> IsJsWhitespace(s[i])
    ensures r == [] || !IsJsWhitespace(r[0])
  {
    if s != [] && IsJsWhitespace(s[0]) then TrimStart(s[1..]) else s
  }

  /** The trailing white space removed: what is left is a prefix that ends with a non-space. */
  function TrimEnd(s: string): (r: string)
    ensures |r| <= |s| && r == s[..|r|]
    ensures forall i :: |r| <= i < |s| ==> IsJsWhitespace(s[i])
    ensures r == [] || !IsJsWhitespace(r[|r| - 1])
  {
    if s != [] && IsJsWhitespace(s[|s| - 1]) then TrimEnd(s[..|s| - 1]) else s
  }

  /** `s.trim()`. */
  function Trim(s: string): string {
    TrimEnd(TrimStart(s))
  }

  predicate IsAsciiUpper(c: char) {
    'A' <= c <= 'Z'
  }

  function LowerChar(c: char): (r: char)
    ensures IsAsciiUpper(c) ==> 'a' <= r <= 'z' && r as int == c as int + 32
    ensures !IsAsciiUpper(c) ==> r == c
  {
    if IsAsciiUpper(c) then (c as int + 32) as char else c
  }

  /** `s.toLowerCase()` on ASCII letters. */
  function Lower(s: string): (r: string)
    ensures |r| == |s|
    ensures forall i :: 0 <= i < |r| ==> r[i] == LowerChar(s[i]) && !IsAsciiUpper(r[i])
  {
    seq(|s|, i requires 0 <= i < |s| => LowerChar(s[i]))
  }

  predicate IsAsciiLowerLetter(c: char) {
    'a' <= c <= 'z'
  }

  /** The regular expression `^[a-z]+:\/\/` matches `s` with its letter run of length `k`. */
  ghost predicate SchemeAt(s: string, k: nat) {
    && 1 <= k && k + 3 <= |s|
    && (forall i :: 0 <= i < k ==> IsAsciiLowerLetter(s[i]))
    && s[k..k + 3] == "://"
  }

  /** The length of the longest prefix of `s` made of letters a-z. */
  function LetterRun(s: string): (k: nat)
    ensures k <= |s|
    ensures forall i :: 0 <= i < k ==> IsAsciiLowerLetter(s[i])
    ensures k < |s| ==> !IsAsciiLowerLetter(s[k])
  {
    if s != [] && IsAsciiLowerLetter(s[0]) then 1 + LetterRun(s[1..]) else 0
  }

  /** `s.replace(/^[a-z]+:\/\//, "")`: a suffix of `s`. */
  function StripScheme(s: string): (r: string)
    ensures |r| <= |s| && r == s[|s| - |r|..]
  {
    var k := LetterRun(s);
    if 1 <= k && k + 3 <= |s| && s[k..k + 3] == "://" then s[k + 3..] else s
  }

  /**
   * The scheme step removes exactly what the regular expression matches:
   * when `^[a-z]+:\/\/` matches, the matched prefix is cut off, and
   * otherwise the string is unchanged.
   */
  lemma StripSchemeMatchesPattern(s: string)
    ensures (exists k :: SchemeAt(s, k)) ==> exists k :: SchemeAt(s, k) && StripScheme(s) == s[k + 3..]
    ensures (forall k :: !SchemeAt(s, k)) ==> StripScheme(s) == s
  {
    var k := LetterRun(s);
    forall j: nat | SchemeAt(s, j) ensures j == k {
      assert s[j..j + 3][0] == ':';
    }
    if 1 <= k && k + 3 <= |s| && s[k..k + 3] == "://" {
      assert SchemeAt(s, k);
    }
  }

  /** Line 39 of the normaliser: `.split("/")[0].split("?")[0].split("#")[0]`. */
  function CutPathQueryHash(s: string): string {
    SplitFirst(SplitFirst(SplitFirst(s, '/'), '?'), '#')
  }

  predicate IsUrlDelimiter(c: char) {
    c == '/' || c == '?' || c == '#'
  }

  /**
   * The three splits together keep exactly the part before the first of
   * `/`, `?` or `#`.
   */
  lemma CutAtFirstDelimiter(s: string)
    ensures var r := CutPathQueryHash(s);
      && |r| <= |s| && r == s[..|r|]
      && (forall i :: 0 <= i < |r| ==> !IsUrlDelimiter(r[i]))
      && (|r| < |s| ==> IsUrlDelimiter(s[|r|]))
  {
    var a := SplitFirst(s, '/');
    var b := SplitFirst(a, '?');
    var r := SplitFirst(b, '#');
    assert b == s[..|b|];
    assert r == s[..|r|];
    forall i | 0 <= i < |r| ensures !IsUrlDelimiter(r[i]) {
      assert r[i] == b[i] == a[i];
    }
    if |r| < |s| {
      if |r| < |b| {
      } else if |b| < |a| {
        assert s[|r|] == a[|b|];
      } else {
        assert s[|r|] == s[|a|];
      }
    }
  }

  function StartsWith(s: string, prefix: string): bool {
    |prefix| <= |s| && s[..|prefix|] == prefix
  }

  /** `if (value.startsWith("www.")) value = value.slice(4);` */
  function StripWww(s: string): string {
    if StartsWith(s, "www.") then s[4..] else s
  }

  /** `s` is a contiguous piece of `t`. */
  ghost predicate IsInfix(s: string, t: string) {
    exists i, j :: 0 <= i <= j <= |t| && s == t[i..j]
  }

  /**
   * The three string steps of the normaliser, applied to the trimmed,
   * lower-cased input: each one removes only a prefix or a suffix, so the
   * result is a contiguous piece of its input, and it never holds a URL
   * delimiter.
   */
  function StripUrlParts(lowered: string): (r: string)
    ensures forall i :: 0 <= i < |r| ==> !IsUrlDelimiter(r[i])
    ensures IsInfix(r, lowered) && |r| <= |lowered|
    ensures (forall i :: 0 <= i < |lowered| ==> !IsAsciiUpper(lowered[i])) ==>
      forall i :: 0 <= i < |r| ==> !IsAsciiUpper(r[i])
  {
    var noScheme := StripScheme(lowered);
    var host := CutPathQueryHash(noScheme);
    CutAtFirstDelimiter(noScheme);
    var r := StripWww(host);
    var start := |lowered| - |noScheme|;
    assert host == lowered[start..start + |host|];
    assert r == lowered[start + |host| - |r|..start + |host|];
    r
  }

  /**
   * `normalizeDomain(input)`: non-strings and the empty string give "";
   * otherwise the trimmed, lower-cased input with a leading `letters://`
   * scheme removed, cut at the first `/`, `?` or `#`, and with one leading
   * `www.` removed. The result is a piece of the trimmed, lower-cased input
   * and holds no URL delimiter and no upper-case letter.
   */
  function NormalizeDomain(input: Value): (r: string)
    ensures !Truthy(input) || !input.Str? ==> r == ""
    ensures forall i :: 0 <= i < |r| ==> !IsUrlDelimiter(r[i]) && !IsAsciiUpper(r[i])
    ensures input.Str? ==> IsInfix(r, Lower(Trim(input.s))) && |r| <= |Trim(input.s)|
  {
    if !Truthy(input) || !input.Str? then ""
    else
      var lowered := Lower(Trim(input.s));
      StripUrlParts(lowered)
  }

  /** The value just before the `www.` step, for stating that step on its own. */
  function HostPart(s: string): string {
    CutPathQueryHash(StripScheme(Lower(Trim(s))))
  }

  /**
   * The `www.` prefix is removed once and only once: a host part that starts
   * with `www.` loses exactly four characters, any other host part is kept.
   */
  lemma NormalizeRemovesOneWww(s: string)
    requires s != ""
    ensures StartsWith(HostPart(s), "www.") ==> NormalizeDomain(Str(s)) == HostPart(s)[4..]
    ensures !StartsWith(HostPart(s), "www.") ==> NormalizeDomain(Str(s)) == HostPart(s)
  {
    assert NormalizeDomain(Str(s)) == StripUrlParts(Lower(Trim(s)));
  }

  lemma {:induction false} TrimStartSkipsBlanks(lead: string, rest: string)
    requires forall i :: 0 <= i < |lead| ==> IsJsWhitespace(lead[i])
    requires rest != [] && !IsJsWhitespace(rest[0])
    ensures TrimStart(lead + rest) == rest
  {
    if lead != [] {
      assert (lead + rest)[1..] == lead[1..] + rest;
      TrimStartSkipsBlanks(lead[1..], rest);
    } else {
      assert lead + rest == rest;
    }
  }

  lemma LowerAppend(a: string, b: string)
    ensures Lower(a + b) == Lower(a) + Lower(b)
  {
  }

  /** Lower-casing neither creates nor removes URL delimiters or blanks. */
  lemma LowerKeepsDelimiters(s: string)
    ensures forall i :: 0 <= i < |s| ==> (IsUrlDelimiter(Lower(s)[i]) <==> IsUrlDelimiter(s[i]))
  {
    forall i | 0 <= i < |s| ensures IsUrlDelimiter(Lower(s)[i]) <==> IsUrlDelimiter(s[i]) {
      assert Lower(s)[i] == LowerChar(s[i]);
    }
  }

  lemma LowerOfLowercase(s: string)
    requires forall i :: 0 <= i < |s| ==> !IsAsciiUpper(s[i])
    ensures Lower(s) == s
  {
  }

  lemma LetterRunOfLetters(a: string, b: string)
    requires forall i :: 0 <= i < |a| ==> IsAsciiLowerLetter(a[i])
    requires b == [] || !IsAsciiLowerLetter(b[0])
    ensures LetterRun(a + b) == |a|
  {
    assert forall i :: 0 <= i < |a| ==> IsAsciiLowerLetter((a + b)[i]);
    assert b != [] ==> !IsAsciiLowerLetter((a + b)[|a|]);
  }

  lemma CutBeforeDelimiter(h: string, t: string)
    requires forall i :: 0 <= i < |h| ==> !IsUrlDelimiter(h[i])
    requires t == [] || IsUrlDelimiter(t[0])
    ensures CutPathQueryHash(h + t) == h
  {
    CutAtFirstDelimiter(h + t);
    assert forall i :: 0 <= i < |h| ==> !IsUrlDelimiter((h + t)[i]);
    assert t != [] ==> IsUrlDelimiter((h + t)[|h|]);
  }

  /** A match of the scheme pattern contains a slash. */
  lemma SchemeNeedsSlash(s: string, k: nat)
    ensures k + 3 <= |s| && s[k..k + 3] == "://" ==> '/' in s
  {
    if k + 3 <= |s| && s[k..k + 3] == "://" {
      assert s[k + 1] == '/';
    }
  }

  lemma StripSchemeWithoutSlash(s: string)
    requires '/' !in s
    ensures StripScheme(s) == s
  {
    SchemeNeedsSlash(s, LetterRun(s));
  }

  /**
   * A string that is already lower-case, has no URL delimiter and no blank
   * at either end only goes through the `www.` step.
   */
  lemma NormalizeOfClean(x: string)
    requires x != ""
    requires forall i :: 0 <= i < |x| ==> !IsUrlDelimiter(x[i]) && !IsAsciiUpper(x[i])
    requires !IsJsWhitespace(x[0]) && !IsJsWhitespace(x[|x| - 1])
    ensures NormalizeDomain(Str(x)) == StripWww(x)
  {
    assert TrimStart(x) == x;
    assert Trim(x) == x;
    LowerOfLowercase(x);
    StripSchemeWithoutSlash(x);
    CutBeforeDelimiter(x, "");
    assert x + "" == x;
  }

  /**
   * A pasted URL (blanks, a scheme of letters in any case, `://`, a host,
   * then a path, query or fragment) normalises to its lower-cased host
   * when that host does not start with `www.`, and without one `www.`
   * otherwise.
   */
  lemma NormalizePastedUrl(lead: string, scheme: string, host: string, tail: string)
    requires forall i :: 0 <= i < |lead| ==> IsJsWhitespace(lead[i])
    requires scheme != [] && forall i :: 0 <= i < |scheme| ==> IsAsciiLowerLetter(LowerChar(scheme[i]))
    requires forall i :: 0 <= i < |host| ==> !IsUrlDelimiter(host[i])
    requires tail != [] && IsUrlDelimiter(tail[0]) && !IsJsWhitespace(tail[|tail| - 1])
    ensures NormalizeDomain(Str(lead + scheme + "://" + host + tail)) == StripWww(Lower(host))
  {
    var x := lead + scheme + "://" + host + tail;
    PastedUrlHost(lead, scheme, host, tail);
    NormalizeRemovesOneWww(x);
  }

  lemma TrimPastedUrl(lead: string, rest: string)
    requires forall i :: 0 <= i < |lead| ==> IsJsWhitespace(lead[i])
    requires rest != [] && !IsJsWhitespace(rest[0]) && !IsJsWhitespace(rest[|rest| - 1])
    ensures Trim(lead + rest) == rest
  {
    TrimStartSkipsBlanks(lead, rest);
  }

  lemma LowerPastedUrl(scheme: string, host: string, tail: string)
    ensures Lower(scheme + "://" + host + tail) == Lower(scheme) + ("://" + (Lower(host) + Lower(tail)))
  {
    var x := host + tail;
    var y := "://" + x;
    assert scheme + "://" + host + tail == scheme + y;
    LowerAppend(scheme, y);
    LowerAppend("://", x);
    LowerAppend(host, tail);
    assert Lower("://") == "://" by { LowerOfLowercase("://"); }
  }

  lemma StripPastedScheme(scheme: string, after: string)
    requires scheme != [] && forall i :: 0 <= i < |scheme| ==> IsAsciiLowerLetter(scheme[i])
    ensures StripScheme(scheme + ("://" + after)) == after
  {
    var s := scheme + ("://" + after);
    LetterRunOfLetters(scheme, "://" + after);
    assert s[|scheme|..|scheme| + 3] == "://";
    assert s[|scheme| + 3..] == after;
  }

  lemma PastedUrlHost(lead: string, scheme: string, host: string, tail: string)
    requires forall i :: 0 <= i < |lead| ==> IsJsWhitespace(lead[i])
    requires scheme != [] && forall i :: 0 <= i < |scheme| ==> IsAsciiLowerLetter(LowerChar(scheme[i]))
    requires forall i :: 0 <= i < |host| ==> !IsUrlDelimiter(host[i])
    requires tail != [] && IsUrlDelimiter(tail[0]) && !IsJsWhitespace(tail[|tail| - 1])
    ensures HostPart(lead + scheme + "://" + host + tail) == Lower(host)
  {
    var rest := scheme + "://" + host + tail;
    var x := lead + scheme + "://" + host + tail;
    assert Trim(x) == rest by {
      assert x == lead + rest;
      assert rest[0] == scheme[0] && rest[|rest| - 1] == tail[|tail| - 1];
      TrimPastedUrl(lead, rest);
    }
    var lowerHost, lowerTail := Lower(host), Lower(tail);
    assert StripScheme(Lower(rest)) == lowerHost + lowerTail by {
      LowerPastedUrl(scheme, host, tail);
      StripPastedScheme(Lower(scheme), lowerHost + lowerTail);
    }
    assert CutPathQueryHash(lowerHost + lowerTail) == lowerHost by {
      LowerKeepsDelimiters(host);
      LowerKeepsDelimiters(tail);
      CutBeforeDelimiter(lowerHost, lowerTail);
    }
  }

  // Proof step for NormalizeExample, split out to keep the literal comparison small.
  lemma ExampleHostLowered()
    ensures Lower("BetSite.com") == "betsite.com"
  {
    var h := "BetSite.com";
    var l := Lower(h);
    assert l[0] == 'b' && l[3] == 's';
  }

  // Proof step for NormalizeExample: the example URL as the pieces NormalizePastedUrl expects.
  lemma ExamplePieces()
    ensures "  " + "HTTPS" + "://" + "BetSite.com" + "/path?x=1" == "  HTTPS://BetSite.com/path?x=1"
  {
  }

  // Proof step for NormalizeExample: the pieces meet NormalizePastedUrl's requirements.
  lemma ExampleShape()
    ensures forall i :: 0 <= i < |"  "| ==> IsJsWhitespace("  "[i])
    ensures forall i :: 0 <= i < |"HTTPS"| ==> IsAsciiLowerLetter(LowerChar("HTTPS"[i]))
    ensures forall i :: 0 <= i < |"BetSite.com"| ==> !IsUrlDelimiter("BetSite.com"[i])
    ensures IsUrlDelimiter("/path?x=1"[0]) && !IsJsWhitespace("/path?x=1"[8])
  {
  }

  // Proof step for NormalizeExample; the literal is a parameter so the solver compares it only once.
  lemma ExampleHostKept(h: string)
    requires h == "betsite.com"
    ensures StripWww(h) == h
  {
    assert h[0] == 'b';
  }

  /**
   * An example pasted URL, with blanks in front, an upper-case scheme, a path
   * and a query. The URL is a parameter fixed by the requires only to keep the
   * solver from expanding the literal in every step.
   */
  lemma NormalizeExample(url: string)
    requires url == "  HTTPS://BetSite.com/path?x=1"
    ensures NormalizeDomain(Str(url)) == "betsite.com"
  {
    ExampleShape();
    NormalizePastedUrl("  ", "HTTPS", "BetSite.com", "/path?x=1");
    ExamplePieces();
    ExampleHostLowered();
    ExampleHostKept("betsite.com");
  }

  /** A clean host name with `www.` in front normalises to the host name. */
  lemma NormalizeWwwHost(d: string)
    requires d != ""
    requires forall i :: 0 <= i < |d| ==> !IsUrlDelimiter(d[i]) && !IsAsciiUpper(d[i])
    requires !IsJsWhitespace(d[|d| - 1])
    ensures NormalizeDomain(Str("www." + d)) == d
    ensures forall i :: 0 <= i < |"www." + d| ==> !IsUrlDelimiter(("www." + d)[i]) && !IsAsciiUpper(("www." + d)[i])
  {
    var x := "www." + d;
    assert x[0] == 'w' && x[|x| - 1] == d[|d| - 1];
    assert forall i :: 0 <= i < |x| ==> !IsUrlDelimiter(x[i]) && !IsAsciiUpper(x[i]) by {
      forall i | 0 <= i < |x| ensures !IsUrlDelimiter(x[i]) && !IsAsciiUpper(x[i]) {
        if i >= 4 {
          assert x[i] == d[i - 4];
        }
      }
    }
    NormalizeOfClean(x);
    assert x[..4] == "www." && x[4..] == d;
  }

  // Proof step for NormalizeNotIdempotent: how the doubled prefix regroups.
  lemma DoubleWww(d: string)
    ensures "www." + ("www." + d) == "www.www." + d
  {
    var w := "www.";
    assert w + w == "www.www.";
  }

  /**
   * The normaliser is not idempotent: of a doubled `www.` only one copy
   * goes, and a second pass removes the other.
   */
  lemma NormalizeNotIdempotent(d: string)
    requires d != ""
    requires forall i :: 0 <= i < |d| ==> !IsUrlDelimiter(d[i]) && !IsAsciiUpper(d[i])
    requires !IsJsWhitespace(d[|d| - 1])
    ensures NormalizeDomain(Str("www.www." + d)) == "www." + d
    ensures NormalizeDomain(Str("www." + d)) == d
    ensures NormalizeDomain(Str(NormalizeDomain(Str("www.www." + d)))) != NormalizeDomain(Str("www.www." + d))
  {
    NormalizeWwwHost(d);
    var w := "www." + d;
    assert w[|w| - 1] == d[|d| - 1];
    NormalizeWwwHost(w);
    DoubleWww(d);
    assert |d| < |w|;
  }

  /** Trimming a string with a blank at either end makes it shorter. */
  lemma TrimShortens(s: string)
    requires s != [] && (IsJsWhitespace(s[0]) || IsJsWhitespace(s[|s| - 1]))
    ensures |Trim(s)| < |s|
  {
    var t := TrimStart(s);
    if |t| == |s| {
      assert t == s;
      assert TrimEnd(t) == [] || |TrimEnd(t)| < |t|;
    }
  }

  /**
   * A second pass changes nothing exactly when the first result has no
   * blanks at either end and does not itself start with `www.`.
   */
  lemma NormalizeIdempotentWhenClean(s: string)
    requires s != ""
    ensures var r := NormalizeDomain(Str(s));
      (NormalizeDomain(Str(r)) == r <==>
        (r == [] || (!IsJsWhitespace(r[0]) && !IsJsWhitespace(r[|r| - 1]) && !StartsWith(r, "www."))))
  {
    var r := NormalizeDomain(Str(s));
    if r != [] {
      if !IsJsWhitespace(r[0]) && !IsJsWhitespace(r[|r| - 1]) {
        NormalizeOfClean(r);
      } else {
        TrimShortens(r);
      }
    }
  }

  /** `dnsHttps`: the DNS-over-HTTPS endpoint for a profile, or "" when there is none. */
  function DnsHttps(profileId: string): string {
    if profileId != "" then "https://dns.nextdns.io/" + profileId else ""
  }

  /** `dnsHostname`: the DNS-over-TLS host name for a profile, or "" when there is none. */
  function DnsHostname(profileId: string): string {
    if profileId != "" then profileId + ".dns.nextdns.io" else ""
  }

  /**
   * Both endpoints are empty exactly when there is no profile id, and
   * otherwise each one gives back the profile id it was built from: the
   * URL as its path, the host name as its leftmost labels.
   */
  lemma EndpointsDetermineProfileId(profileId: string)
    ensures DnsHttps(profileId) == "" <==> profileId == ""
    ensures DnsHostname(profileId) == "" <==> profileId == ""
    ensures profileId != "" ==>
      && StartsWith(DnsHttps(profileId), "https://dns.nextdns.io/")
      && DnsHttps(profileId)[23..] == profileId
      && DnsHostname(profileId)[..|profileId|] == profileId
      && DnsHostname(profileId)[|profileId|..] == ".dns.nextdns.io"
  {
  }

  /**
   * The key and the label of a denylist entry (the two expressions are the
   * same): a string entry is itself; otherwise its `id` when truthy, else
   * its `host`. Reading a member of a null entry throws.
   */
  function ItemLabel(item: Value): (r: Eval<Value>)
    ensures item.Str? ==> r == Normal(item)
    ensures item.Null? || item.Undefined? <==> r.Throws?
    ensures item.Obj? && "id" in item.fields && Truthy(item.fields["id"]) ==> r == Normal(item.fields["id"])
    ensures item.Obj? && !("id" in item.fields && Truthy(item.fields["id"])) ==>
      r == Normal(if "host" in item.fields then item.fields["host"] else Undefined)
    ensures !item.Str? && !item.Obj? && r.Normal? ==> r == Normal(Undefined)
  {
    if item.Str? then Normal(item)
    else match Member(item, "id")
      case Throws => Throws
      case Normal(id) => if Truthy(id) then Normal(id) else Member(item, "host")
  }
}
