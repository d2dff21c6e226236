/**
 * The profile-creation route: `POST` asks the DNS provider to create one
 * profile, named after the body's `label` or a generated name, and answers
 * with the new profile's id.
 *
 * `Math.random().toString(36)` and `Date.now()` are parameters: the first as
 * the text it renders to, the second as a count of milliseconds.
 */
module ProfileRoute {
  import opened Wrappers
  import opened Js
  import opened Http

  const CreateFailure := "Failed to create NextDNS profile"
  const NoIdMessage := "NextDNS API responded without a profile id. Check your API key and permissions."

  /**
   * `betblocker_${random.slice(2, 8)}_${now}`: the generated name ends with
   * an underscore and the decimal digits of the timestamp, which read back
   * as the timestamp, and the random part contributes at most six
   * characters.
   */
  function GeneratedName(randomText: string, now: nat): (r: string)
    ensures var stamp := NumberToString(now);
      && |r| == 12 + |Slice(randomText, 2, 8)| + |stamp|
      && |Slice(randomText, 2, 8)| <= 6
      && r[..11] == "betblocker_"
      && r[11..|r| - |stamp| - 1] == Slice(randomText, 2, 8)
      && r[|r| - |stamp| - 1] == '_'
      && r[|r| - |stamp|..] == stamp
      && DecimalValue(r[|r| - |stamp|..]) == now
  {
    NumberToStringRoundTrip(now);
    "betblocker_" + Slice(randomText, 2, 8) + "_" + NumberToString(now)
  }

  /** `label || generated name`, where `label` is `body?.label` of the parsed body (`{}` when it is not JSON). */
  function RequestedName(body: Option<Value>, randomText: string, now: nat): (r: Value)
    ensures Truthy(r)
  {
    var given := OptionalMember(ParsedOr(body, Obj(map[])), "label");
    Or(given, Str(GeneratedName(randomText, now)))
  }

  /** The request to create a profile of the given name. */
  function CreateCall(key: string, name: Value): Fetch {
    Fetch("POST", NextDnsApi + "/profiles", [("X-Api-Key", key), ("Content-Type", "application/json")],
      Some(Obj(map["name" := name])))
  }

  /** The profile record an ok reply carries: its truthy `data` member, else the whole body. */
  function ProfileRecord(body: Option<Value>): (r: Value)
    ensures var json := ParsedOr(body, Obj(map[]));
      && (json.Obj? && "data" in json.fields && Truthy(json.fields["data"]) ==> r == json.fields["data"])
      && (!(json.Obj? && "data" in json.fields && Truthy(json.fields["data"])) ==> r == json)
  {
    var json := ParsedOr(body, Obj(map[]));
    Or(OptionalMember(json, "data"), json)
  }

  /**
   * `POST /api/profile`. Without an API key: a 500 and no call. Otherwise
   * one call; a network failure throws; a non-ok reply is relayed with its
   * status and the first truthy of `message`, `error` and a fallback; an ok
   * reply must carry a truthy `id` in its `data` envelope (or at its top
   * level when there is no truthy envelope), else a 500.
   */
  function Create(cfg: Config, request: Request, randomText: string, now: nat, upstream: Reply): Exchange {
    if !KeyConfigured(cfg) then
      Exchange(None, ErrorResponse(Str(MissingKeyMessage), 500))
    else
      var name := RequestedName(request.body, randomText, now);
      var call := CreateCall(cfg.apiKey.value, name);
      Exchange(Some(call),
        match upstream
        case NetworkError => Unhandled
        case Reply(status, body) =>
          if !upstream.Ok() then
            ErrorResponse(FirstErrorText(ParsedOr(body, Obj(map[])), CreateFailure), status)
          else
            var profile := ProfileRecord(body);
            var profileId := OptionalMember(profile, "id");
            if !Truthy(profileId) then ErrorResponse(Str(NoIdMessage), 500)
            else JsonResponse(Obj(map["profileId" := profileId, "name" := Or(OptionalMember(profile, "name"), name)]), 200))
  }

  /** Without an API key the route answers 500 naming the missing key, and neither reads the body nor calls out. */
  lemma MissingKeyRejected(cfg: Config, request: Request, randomText: string, now: nat, upstream: Reply)
    requires !KeyConfigured(cfg)
    ensures Create(cfg, request, randomText, now, upstream) == Exchange(None, ErrorResponse(Str(MissingKeyMessage), 500))
    ensures forall other: Request :: Create(cfg, other, randomText, now, upstream) == Create(cfg, request, randomText, now, upstream)
  {
  }

  /**
   * With a key, exactly one call is made, carrying the API key and the JSON
   * content type, and it asks for the body's label when that is truthy and
   * for the generated name otherwise.
   */
  lemma NameChosen(cfg: Config, request: Request, randomText: string, now: nat, upstream: Reply)
    requires KeyConfigured(cfg)
    ensures var given := OptionalMember(ParsedOr(request.body, Obj(map[])), "label");
      var e := Create(cfg, request, randomText, now, upstream);
      && e.call.Some?
      && e.call.value.verb == "POST" && e.call.value.url == "https://api.nextdns.io/profiles"
      && e.call.value.headers == [("X-Api-Key", cfg.apiKey.value), ("Content-Type", "application/json")]
      && (Truthy(given) ==> e.call.value.body == Some(Obj(map["name" := given])))
      && (!Truthy(given) ==> e.call.value.body == Some(Obj(map["name" := Str(GeneratedName(randomText, now))])))
  {
  }

  /**
   * A refused creation is relayed with the provider's status and the first
   * truthy one of `message`, `error` and the fallback text; unlike the
   * denylist route, a `null` body does not throw here. A status that cannot
   * carry a body (304) makes `Response.json` throw.
   */
  lemma FailureRelayed(cfg: Config, request: Request, randomText: string, now: nat, upstream: Reply)
    requires KeyConfigured(cfg) && upstream.Reply? && !upstream.Ok()
    ensures IsNullBodyStatus(upstream.status) ==> Create(cfg, request, randomText, now, upstream).response == Unhandled
    ensures !IsNullBodyStatus(upstream.status) ==>
      var json := ParsedOr(upstream.body, Obj(map[]));
      var r := Create(cfg, request, randomText, now, upstream).response;
      && r.Response? && r.status == upstream.status
      && (json.Obj? && "message" in json.fields && Truthy(json.fields["message"]) ==>
          ErrorText(r) == Some(json.fields["message"]))
      && (json.Obj? && !("message" in json.fields && Truthy(json.fields["message"]))
          && "error" in json.fields && Truthy(json.fields["error"]) ==>
          ErrorText(r) == Some(json.fields["error"]))
      && (!(json.Obj? && "message" in json.fields && Truthy(json.fields["message"]))
          && !(json.Obj? && "error" in json.fields && Truthy(json.fields["error"])) ==>
          ErrorText(r) == Some(Str(CreateFailure)))
  {
  }

  /** A network failure of the call makes the route throw. */
  lemma NetworkFailureThrows(cfg: Config, request: Request, randomText: string, now: nat)
    requires KeyConfigured(cfg)
    ensures Create(cfg, request, randomText, now, NetworkError).response == Unhandled
  {
  }

  /**
   * An accepted creation answers 200 with the record's id and its name (or
   * the requested one) when the record has a truthy id, and 500 with the
   * missing-id message otherwise.
   */
  lemma SuccessCarriesProfileId(cfg: Config, request: Request, randomText: string, now: nat, upstream: Reply)
    requires KeyConfigured(cfg) && upstream.Reply? && upstream.Ok()
    ensures var profile := ProfileRecord(upstream.body);
      var id := OptionalMember(profile, "id");
      var r := Create(cfg, request, randomText, now, upstream).response;
      && (!Truthy(id) ==> r == ErrorResponse(Str(NoIdMessage), 500))
      && (Truthy(id) ==>
        && r.Response? && r.status == 200 && r.body.Json? && r.body.value.Obj?
        && r.body.value.fields["profileId"] == id
        && r.body.value.fields["name"] == Or(OptionalMember(profile, "name"), RequestedName(request.body, randomText, now)))
  {
  }

  /** A reply that is not JSON, or whose record has no id, is reported as a missing id rather than thrown. */
  lemma UnreadableSuccessIsMissingId(cfg: Config, request: Request, randomText: string, now: nat, status: Status)
    requires KeyConfigured(cfg) && 200 <= status <= 299
    ensures Create(cfg, request, randomText, now, Reply(status, None)).response == ErrorResponse(Str(NoIdMessage), 500)
    ensures Create(cfg, request, randomText, now, Reply(status, Some(Null))).response == ErrorResponse(Str(NoIdMessage), 500)
  {
  }
}
