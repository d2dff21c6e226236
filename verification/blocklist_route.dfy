/**
 * The denylist route: `GET` lists a profile's denylist, `POST` adds a
 * domain to it and `DELETE` removes one, each by one call to the DNS
 * provider's API through `callNextDns`.
 *
 * Each handler is a total function from the server configuration, the
 * request and the provider's reply to the call it made (if any) and the
 * response it gave. Every handler is a chain of early returns: the profile id
 * first, then (for `POST` and `DELETE`) the domain, then the API key, then
 * the provider's answer.
 */
module BlocklistRoute {
  import opened Wrappers
  import opened Js
  import opened Http
  import opened Uri

  const MissingIdMessage := "Missing required query parameter: profileId"
  const MissingDomainMessage := "Request body must include a 'domain' string"
  const ListFailure := "Failed to fetch blocklist from NextDNS"
  const AddFailure := "Failed to add domain to NextDNS blocklist"
  const RemoveFailure := "Failed to remove domain from NextDNS blocklist"

  /** What `callNextDns` did: the call it made, if any, and the reply it resolved to. */
  datatype Called = Called(call: Option<Fetch>, reply: Reply)

  /** The reply `callNextDns` makes up when no API key is configured. */
  const MissingKeyReply := Reply(500, Some(Obj(map["error" := Str(MissingKeyMessage)])))

  /**
   * `callNextDns(path, { method, body })`: without an API key no call is
   * made and the reply is a made-up, non-ok 500 whose body names the missing
   * key; otherwise one call goes to the provider at `path` with the JSON
   * content type and the key, and the provider's reply is returned as it is.
   */
  function CallNextDns(cfg: Config, path: string, verb: string, body: Option<Value>, upstream: Reply): (r: Called)
    ensures r.call.Some? <==> KeyConfigured(cfg)
    ensures !KeyConfigured(cfg) ==> r.reply == MissingKeyReply && !r.reply.Ok()
    ensures KeyConfigured(cfg) ==> r.reply == upstream
  {
    if !KeyConfigured(cfg) then Called(None, MissingKeyReply)
    else Called(Some(Fetch(verb, NextDnsApi + path, ApiHeaders(cfg.apiKey.value), body)), upstream)
  }

  /** `/profiles/<profile>/denylist`, with the profile id encoded as one path segment. */
  function DenylistPath(profileId: string): string {
    "/profiles/" + EncodeURIComponent(profileId) + "/denylist"
  }

  /** `/profiles/<profile>/denylist/<domain>`, each encoded as one path segment. */
  function EntryPath(profileId: string, domain: string): string {
    DenylistPath(profileId) + "/" + EncodeURIComponent(domain)
  }

  /**
   * The profile id is one path segment of the list path: the text up to the
   * next `/` after `/profiles/` is its encoding, which decodes to its UTF-8
   * bytes, and `/denylist` follows.
   */
  lemma DenylistPathReadsBack(profileId: string)
    ensures var path := DenylistPath(profileId);
      var segment := SplitFirst(path[10..], '/');
      && path[..10] == "/profiles/"
      && segment == EncodeURIComponent(profileId)
      && path[10 + |segment|..] == "/denylist"
      && PercentDecode(segment) == Some(Utf8String(profileId))
  {
    var e := EncodeURIComponent(profileId);
    ThreePieces("/profiles/", e, "/denylist");
    SplitFirstBefore(e, "/denylist", '/');
    DecodeEncode(profileId);
  }

  // Proof step for DenylistPathReadsBack, stated on variables so that the path literals are not expanded.
  lemma ThreePieces(front: string, mid: string, back: string)
    ensures var whole := front + mid + back;
      && whole[..|front|] == front
      && whole[|front|..] == mid + back
      && whole[|front| + |mid|..] == back
  {
  }

  /** Different profile ids are sent to different list paths. */
  lemma DenylistPathInjective(p: string, q: string)
    requires DenylistPath(p) == DenylistPath(q)
    ensures p == q
  {
    DenylistPathReadsBack(p);
    DenylistPathReadsBack(q);
    EncodeInjective(p, q);
  }

  /**
   * The entry path is the list path, a `/` and the encoded domain, so the
   * domain is a single path segment that decodes to its UTF-8 bytes.
   */
  lemma EntryPathReadsBack(profileId: string, domain: string)
    ensures var path := EntryPath(profileId, domain);
      var list := DenylistPath(profileId);
      && path[..|list|] == list
      && path[|list|] == '/'
      && path[|list| + 1..] == EncodeURIComponent(domain)
      && '/' !in path[|list| + 1..]
      && PercentDecode(path[|list| + 1..]) == Some(Utf8String(domain))
  {
    DecodeEncode(domain);
  }

  // Proof step for EntryPathAfterPrefix, stated on variables so that the path literals are not expanded.
  lemma DropFront(front: string, a: string, b: string, c: string, d: string)
    ensures (front + a + b + c + d)[|front|..] == a + (b + (c + d))
  {
  }

  lemma EntryPathAfterPrefix(profileId: string, domain: string)
    ensures EntryPath(profileId, domain)[10..] == EncodeURIComponent(profileId) + ("/denylist" + ("/" + EncodeURIComponent(domain)))
  {
    DropFront("/profiles/", EncodeURIComponent(profileId), "/denylist", "/", EncodeURIComponent(domain));
  }

  lemma EntryPathProfileSegment(profileId: string, domain: string)
    ensures SplitFirst(EntryPath(profileId, domain)[10..], '/') == EncodeURIComponent(profileId)
  {
    EntryPathAfterPrefix(profileId, domain);
    SplitFirstBefore(EncodeURIComponent(profileId), "/denylist" + ("/" + EncodeURIComponent(domain)), '/');
  }

  /** Different profile ids or domains are sent to different entry paths. */
  lemma EntryPathInjective(p: string, d: string, q: string, e: string)
    requires EntryPath(p, d) == EntryPath(q, e)
    ensures p == q && d == e
  {
    EntryPathProfileSegment(p, d);
    EntryPathProfileSegment(q, e);
    EncodeInjective(p, q);
    EntryPathReadsBack(p, d);
    EntryPathReadsBack(q, e);
    EncodeInjective(d, e);
  }

  /**
   * The error response built from a non-ok reply: its body (or `{}` when it
   * is not JSON) is read with plain property access, so a JSON `null` body
   * throws; otherwise the text is its `message`, else its `error`, else the
   * handler's fallback, and the status is the reply's.
   */
  function FailureResponse(reply: Reply, fallback: string): Response
    requires reply.Reply?
  {
    var errorData := ParsedOr(reply.body, Obj(map[]));
    match Member(errorData, "message")
    case Throws => Unhandled
    case Normal(message) =>
      if Truthy(message) then ErrorResponse(message, reply.status)
      else match Member(errorData, "error")
        case Throws => Unhandled
        case Normal(error) => ErrorResponse(Or(error, Str(fallback)), reply.status)
  }

  /** The reply's body parsed to `null`. */
  predicate NullBody(reply: Reply)
    requires reply.Reply?
  {
    reply.body.Some? && Nullish(reply.body.value)
  }

  /**
   * The relay throws: reading `message` of a JSON `null` body throws, and so
   * does `Response.json` with a status that cannot carry a body (304 is the
   * only non-ok one a reply can have).
   */
  predicate RelayThrows(reply: Reply)
    requires reply.Reply?
  {
    NullBody(reply) || IsNullBodyStatus(reply.status)
  }

  /**
   * A failure is relayed with the provider's status and the first truthy
   * error text, unless its body is JSON `null` or its status cannot carry a
   * body, when the handler throws.
   */
  lemma FailureRelayed(reply: Reply, fallback: string)
    requires reply.Reply?
    ensures NullBody(reply) ==> FailureResponse(reply, fallback) == Unhandled
    ensures IsNullBodyStatus(reply.status) ==> FailureResponse(reply, fallback) == Unhandled
    ensures !RelayThrows(reply) ==>
      var r := FailureResponse(reply, fallback);
      && r.Response? && r.status == reply.status
      && ErrorText(r) == Some(FirstErrorText(ParsedOr(reply.body, Obj(map[])), fallback))
  {
  }

  /**
   * The `domain` member of a request body (a body that is not JSON counts as
   * `null`) when it is a non-empty string; `None` otherwise.
   */
  function RequestedDomain(body: Option<Value>): (r: Option<string>)
    ensures r.Some? <==>
      body.Some? && body.value.Obj? && "domain" in body.value.fields
      && body.value.fields["domain"].Str? && body.value.fields["domain"].s != ""
    ensures r.Some? ==> r.value == body.value.fields["domain"].s
  {
    var domain := OptionalMember(ParsedOr(body, Null), "domain");
    if !Truthy(domain) || !domain.Str? then None else Some(domain.s)
  }

  /**
   * `Array.isArray(data?.data) ? data.data : data || []`: the array inside
   * the provider's envelope when there is one, else the body itself when it
   * is truthy, else an empty list. The result is never falsy.
   */
  function Denylist(data: Value): (r: Value)
    ensures Truthy(r)
    ensures data.Obj? && "data" in data.fields && data.fields["data"].Arr? ==> r == data.fields["data"]
    ensures !(data.Obj? && "data" in data.fields && data.fields["data"].Arr?) ==>
      r == (if Truthy(data) then data else Arr([]))
  {
    var inner := OptionalMember(data, "data");
    if inner.Arr? then inner else Or(data, Arr([]))
  }

  /** `GET /api/blocklist?profileId=…`. */
  function List(cfg: Config, request: Request, upstream: Reply): Exchange {
    if MissingParam(request.profileId) then
      Exchange(None, ErrorResponse(Str(MissingIdMessage), 400))
    else
      var c := CallNextDns(cfg, DenylistPath(request.profileId.value), "GET", None, upstream);
      Exchange(c.call,
        if c.reply.NetworkError? then Unhandled
        else if !c.reply.Ok() then FailureResponse(c.reply, ListFailure)
        else match c.reply.body
          case None => Unhandled
          case Some(data) => JsonResponse(Obj(map["denylist" := Denylist(data)]), 200))
  }

  /** `POST /api/blocklist?profileId=…` with body `{ domain }`. */
  function Add(cfg: Config, request: Request, upstream: Reply): Exchange {
    if MissingParam(request.profileId) then
      Exchange(None, ErrorResponse(Str(MissingIdMessage), 400))
    else match RequestedDomain(request.body)
      case None => Exchange(None, ErrorResponse(Str(MissingDomainMessage), 400))
      case Some(domain) =>
        var entry := Obj(map["id" := Str(domain), "active" := Bool(true)]);
        var c := CallNextDns(cfg, DenylistPath(request.profileId.value), "POST", Some(entry), upstream);
        Exchange(c.call,
          if c.reply.NetworkError? then Unhandled
          else if !c.reply.Ok() then FailureResponse(c.reply, AddFailure)
          else JsonResponse(Obj(map["message" := Str("Domain " + domain + " added to blocklist.")]), 200))
  }

  /** `DELETE /api/blocklist?profileId=…` with body `{ domain }`. */
  function Remove(cfg: Config, request: Request, upstream: Reply): Exchange {
    if MissingParam(request.profileId) then
      Exchange(None, ErrorResponse(Str(MissingIdMessage), 400))
    else match RequestedDomain(request.body)
      case None => Exchange(None, ErrorResponse(Str(MissingDomainMessage), 400))
      case Some(domain) =>
        var c := CallNextDns(cfg, EntryPath(request.profileId.value, domain), "DELETE", None, upstream);
        Exchange(c.call,
          if c.reply.NetworkError? then Unhandled
          else if !c.reply.Ok() then FailureResponse(c.reply, RemoveFailure)
          else JsonResponse(Obj(map["message" := Str("Domain " + domain + " removed from blocklist.")]), 200))
  }

  /** All three handlers reject a missing or empty profile id with a 400, before any call. */
  lemma MissingProfileIdRejected(cfg: Config, request: Request, upstream: Reply)
    requires MissingParam(request.profileId)
    ensures var rejected := Exchange(None, ErrorResponse(Str(MissingIdMessage), 400));
      && List(cfg, request, upstream) == rejected
      && Add(cfg, request, upstream) == rejected
      && Remove(cfg, request, upstream) == rejected
  {
  }

  /**
   * A body without a non-empty `domain` string is a 400 from `POST` and
   * `DELETE` whatever the configuration: the domain is checked before the
   * API key, and no call is made.
   */
  lemma BadDomainRejectedBeforeKey(cfg: Config, request: Request, upstream: Reply)
    requires !MissingParam(request.profileId)
    requires RequestedDomain(request.body).None?
    ensures var rejected := Exchange(None, ErrorResponse(Str(MissingDomainMessage), 400));
      && Add(cfg, request, upstream) == rejected
      && Remove(cfg, request, upstream) == rejected
  {
  }

  /**
   * Without an API key a request that passes validation makes no call and
   * gets a 500 naming the missing key, whatever the provider would have said.
   */
  lemma MissingKeyIsServerError(cfg: Config, request: Request, upstream: Reply)
    requires !KeyConfigured(cfg) && !MissingParam(request.profileId)
    ensures List(cfg, request, upstream) == Exchange(None, ErrorResponse(Str(MissingKeyMessage), 500))
    ensures RequestedDomain(request.body).Some? ==>
      && Add(cfg, request, upstream) == Exchange(None, ErrorResponse(Str(MissingKeyMessage), 500))
      && Remove(cfg, request, upstream) == Exchange(None, ErrorResponse(Str(MissingKeyMessage), 500))
  {
    FailureRelayed(MissingKeyReply, ListFailure);
    FailureRelayed(MissingKeyReply, AddFailure);
    FailureRelayed(MissingKeyReply, RemoveFailure);
  }

  /** Each handler calls the provider exactly when validation passes and the key is configured. */
  lemma CallMadeIffValidAndKeyed(cfg: Config, request: Request, upstream: Reply)
    ensures List(cfg, request, upstream).call.Some? <==>
      !MissingParam(request.profileId) && KeyConfigured(cfg)
    ensures Add(cfg, request, upstream).call.Some? <==>
      !MissingParam(request.profileId) && RequestedDomain(request.body).Some? && KeyConfigured(cfg)
    ensures Remove(cfg, request, upstream).call.Some? <==>
      !MissingParam(request.profileId) && RequestedDomain(request.body).Some? && KeyConfigured(cfg)
  {
  }

  /**
   * A provider failure reaches the client with the provider's status and
   * the first truthy one of `message`, `error` and the handler's own text;
   * a failure whose body is JSON `null` or whose status cannot carry a body
   * throws.
   */
  lemma UpstreamFailureRelayed(cfg: Config, request: Request, upstream: Reply)
    requires KeyConfigured(cfg) && !MissingParam(request.profileId)
    requires upstream.Reply? && !upstream.Ok()
    ensures var errorData := ParsedOr(upstream.body, Obj(map[]));
      var listed := List(cfg, request, upstream).response;
      var added := Add(cfg, request, upstream).response;
      var removed := Remove(cfg, request, upstream).response;
      && (RelayThrows(upstream) ==> listed == Unhandled)
      && (!RelayThrows(upstream) ==>
        && listed.Response? && listed.status == upstream.status
        && ErrorText(listed) == Some(FirstErrorText(errorData, ListFailure)))
      && (RequestedDomain(request.body).Some? && RelayThrows(upstream) ==> added == Unhandled && removed == Unhandled)
      && (RequestedDomain(request.body).Some? && !RelayThrows(upstream) ==>
        && added.Response? && added.status == upstream.status
        && ErrorText(added) == Some(FirstErrorText(errorData, AddFailure))
        && removed.Response? && removed.status == upstream.status
        && ErrorText(removed) == Some(FirstErrorText(errorData, RemoveFailure)))
  {
    FailureRelayed(upstream, ListFailure);
    FailureRelayed(upstream, AddFailure);
    FailureRelayed(upstream, RemoveFailure);
  }

  /** A network failure of the provider call makes every handler throw. */
  lemma NetworkFailureThrows(cfg: Config, request: Request)
    requires KeyConfigured(cfg) && !MissingParam(request.profileId)
    ensures List(cfg, request, NetworkError).response == Unhandled
    ensures RequestedDomain(request.body).Some? ==>
      Add(cfg, request, NetworkError).response == Unhandled && Remove(cfg, request, NetworkError).response == Unhandled
  {
  }

  /**
   * A successful list call reads the profile's denylist from the provider
   * and answers 200 with it unwrapped; a success whose body is not JSON
   * throws, since that body is parsed without a fallback.
   */
  lemma ListSuccess(cfg: Config, request: Request, upstream: Reply)
    requires KeyConfigured(cfg) && !MissingParam(request.profileId)
    requires upstream.Reply? && upstream.Ok()
    ensures var e := List(cfg, request, upstream);
      && e.call == Some(Fetch("GET", NextDnsApi + DenylistPath(request.profileId.value), ApiHeaders(cfg.apiKey.value), None))
      && (upstream.body.None? ==> e.response == Unhandled)
      && (upstream.body.Some? ==>
        && e.response == JsonResponse(Obj(map["denylist" := Denylist(upstream.body.value)]), 200))
  {
  }

  /**
   * `POST` sends `{ id: domain, active: true }` to the profile's denylist
   * and, when the provider accepts it, confirms with the domain named.
   */
  lemma AddSendsEntry(cfg: Config, request: Request, upstream: Reply)
    requires KeyConfigured(cfg) && !MissingParam(request.profileId)
    requires RequestedDomain(request.body).Some?
    ensures var domain := RequestedDomain(request.body).value;
      var e := Add(cfg, request, upstream);
      && e.call == Some(Fetch("POST", NextDnsApi + DenylistPath(request.profileId.value), ApiHeaders(cfg.apiKey.value),
        Some(Obj(map["id" := Str(domain), "active" := Bool(true)]))))
      && (upstream.Reply? && upstream.Ok() ==>
        e.response == JsonResponse(Obj(map["message" := Str("Domain " + domain + " added to blocklist.")]), 200))
  {
  }

  /**
   * `DELETE` targets the domain's own entry under the profile's denylist,
   * with no body, and when the provider accepts it confirms with the domain
   * named.
   */
  lemma RemoveTargetsEntry(cfg: Config, request: Request, upstream: Reply)
    requires KeyConfigured(cfg) && !MissingParam(request.profileId)
    requires RequestedDomain(request.body).Some?
    ensures var domain := RequestedDomain(request.body).value;
      var e := Remove(cfg, request, upstream);
      && e.call == Some(Fetch("DELETE", NextDnsApi + EntryPath(request.profileId.value, domain), ApiHeaders(cfg.apiKey.value), None))
      && (upstream.Reply? && upstream.Ok() ==>
        e.response == JsonResponse(Obj(map["message" := Str("Domain " + domain + " removed from blocklist.")]), 200))
  {
  }
}
