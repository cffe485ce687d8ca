/** The push-update receiver: signature check, VERIFY challenge reply and the
    early-return ladder that answers every request with one HTTP status and at most
    one dispatched update. */
module Webhook {
  import opened Json
  import Text

  type Byte = b: int | 0 <= b < 256

  const WebhookIdKey: string := "webhook_id"
  const ManagementTokenKey: string := "management_token"
  const EventVerify: string := "VERIFY"
  const EventVehicleState: string := "VEHICLE_STATE"
  const EventVehicleError: string := "VEHICLE_ERROR"
  const SignalWebhookData: string := "nissan_na_webhook_data"

  const Ok: int := 200
  const BadRequest: int := 400
  const Unauthorized: int := 401
  const NotFound: int := 404
  const InternalServerError: int := 500

  /** What the handler takes from libraries: HMAC (section 2 of RFC 2104) over
      SHA-256 (section 6.2 of FIPS 180-4) rendered as lower-case hex, keyed by the
      first argument; UTF-8 encoding of a str; and UTF-8 decoding of the raw body
      followed by `json.loads`, None when either fails. */
  datatype Primitives = Primitives(
    hmacSha256Hex: (seq<Byte>, seq<Byte>) -> string,
    utf8: string -> seq<Byte>,
    decodeJson: seq<Byte> -> Option<Json>)

  /** A `hexdigest()` of SHA-256: 64 lower-case hex digits. */
  predicate IsHexDigest(s: string)
  {
    |s| == 64 && forall i :: 0 <= i < |s| ==> s[i] in "0123456789abcdef"
  }

  /** The HMAC primitive behaves as `hexdigest()` does. */
  ghost predicate HexDigests(p: Primitives)
  {
    forall key, msg :: IsHexDigest(p.hmacSha256Hex(key, msg))
  }

  lemma HexDigestIsAscii(s: string)
    requires IsHexDigest(s)
    ensures Text.IsAscii(s) && s != ""
  {
    forall i | 0 <= i < |s| ensures s[i] < 128 as char {
      assert s[i] in "0123456789abcdef";
    }
  }

  /** `verify_signature(token, signature, body)`. None stands for a missing value.
      `hmac.compare_digest` raises TypeError on a str holding non-ASCII characters. */
  function VerifySignature(p: Primitives, token: Option<string>, signature: Option<string>, body: seq<Byte>): (r: Outcome<bool>)
    ensures token.None? || token.value == "" || signature.None? || signature.value == "" ==> r == Returns(false)
    ensures r == Returns(true) ==> token.Some? && signature == Some(p.hmacSha256Hex(p.utf8(token.value), body))
    ensures r.Raises? ==> token.Some? && signature.Some?
                          && (!Text.IsAscii(signature.value) || !Text.IsAscii(p.hmacSha256Hex(p.utf8(token.value), body)))
  {
    if token.None? || token.value == "" || signature.None? || signature.value == "" then Returns(false)
    else
      var expected := p.hmacSha256Hex(p.utf8(token.value), body);
      if !Text.IsAscii(expected) || !Text.IsAscii(signature.value) then Raises
      else Returns(expected == signature.value)
  }

  /** `hash_challenge(token, challenge)`. */
  function HashChallenge(p: Primitives, token: string, challenge: string): (r: string)
    ensures HexDigests(p) ==> IsHexDigest(r)
  {
    p.hmacSha256Hex(p.utf8(token), p.utf8(challenge))
  }

  /** A missing or empty token or signature is never accepted. */
  lemma VerifyRejectsMissing(p: Primitives, token: Option<string>, signature: Option<string>, body: seq<Byte>)
    requires token.None? || token.value == "" || signature.None? || signature.value == ""
    ensures VerifySignature(p, token, signature, body) == Returns(false)
  {
  }

  /** With a token and a signature present, a well-formed digest primitive and an
      ASCII signature, the signature is accepted exactly when it is the HMAC of the
      body keyed by the token. */
  lemma VerifyIff(p: Primitives, token: string, signature: string, body: seq<Byte>)
    requires HexDigests(p)
    requires token != "" && signature != "" && Text.IsAscii(signature)
    ensures VerifySignature(p, Some(token), Some(signature), body).Returns?
    ensures VerifySignature(p, Some(token), Some(signature), body).value
        <==> signature == p.hmacSha256Hex(p.utf8(token), body)
  {
    HexDigestIsAscii(p.hmacSha256Hex(p.utf8(token), body));
  }

  /** The HMAC of a body is accepted as that body's signature. */
  lemma VerifyAcceptsOwnSignature(p: Primitives, token: string, body: seq<Byte>)
    requires HexDigests(p) && token != ""
    ensures VerifySignature(p, Some(token), Some(p.hmacSha256Hex(p.utf8(token), body)), body) == Returns(true)
  {
    HexDigestIsAscii(p.hmacSha256Hex(p.utf8(token), body));
  }

  /** The challenge reply is the same HMAC: it verifies as the signature of the
      UTF-8 encoded challenge. */
  lemma ChallengeHashIsSignature(p: Primitives, token: string, challenge: string)
    requires HexDigests(p) && token != ""
    ensures VerifySignature(p, Some(token), Some(HashChallenge(p, token, challenge)), p.utf8(challenge)) == Returns(true)
  {
    VerifyAcceptsOwnSignature(p, token, p.utf8(challenge));
  }

  datatype ConfigEntry = ConfigEntry(entryId: string, data: map<string, Json>)

  /** The raw body and the SC-Signature header (None when absent). */
  datatype Request = Request(body: seq<Byte>, signatureHeader: Option<string>)

  datatype Response = Response(status: int, body: Option<Json>)

  /** One `async_dispatcher_send` of `data` on the signal for `vehicleId`. */
  datatype Dispatch = Dispatch(vehicleId: Json, data: Json)

  datatype HandlerResult = HandlerResult(response: Response, dispatched: Option<Dispatch>)

  /** f"{SIGNAL_WEBHOOK_DATA}_{vehicle_id}" for the ids `str()` renders simply;
      None for numbers and containers, whose rendering is not modelled. */
  function SignalName(vehicleId: Json): (r: Option<string>)
    ensures r.Some? <==> vehicleId.Str? || vehicleId.Null? || vehicleId.Bool?
    ensures r.Some? ==> |r.value| > |SignalWebhookData| && r.value[..|SignalWebhookData| + 1] == SignalWebhookData + "_"
    ensures vehicleId.Str? ==> r.Some? && r.value[|SignalWebhookData| + 1..] == vehicleId.s
  {
    match vehicleId
    case Str(s) => Some(SignalWebhookData + "_" + s)
    case Null => Some(SignalWebhookData + "_None")
    case Bool(b) => Some(SignalWebhookData + "_" + (if b then "True" else "False"))
    case _ => None
  }

  /** Each vehicle id has its own signal, so an update reaches only the entities of
      the vehicle it names. */
  lemma {:induction false} SignalNamesDistinct(a: string, b: string)
    ensures SignalName(Str(a)) == SignalName(Str(b)) <==> a == b
  {
    var prefix := SignalWebhookData + "_";
    if SignalName(Str(a)) == SignalName(Str(b)) {
      assert prefix + a == prefix + b;
      assert a == (prefix + a)[|prefix|..];
      assert b == (prefix + b)[|prefix|..];
    }
  }

  predicate Matches(e: ConfigEntry, webhookId: string)
  {
    Get(e.data, WebhookIdKey) == Str(webhookId)
  }

  /** A response with an empty body and no dispatch. */
  function Plain(status: int): HandlerResult
  {
    HandlerResult(Response(status, None), None)
  }

  /** The reply to a VERIFY event: no signature check. A non-dict "data", or a
      token or challenge that is not a str, raises inside the handler, whose broad
      `except` answers 200. */
  function DecideVerify(p: Primitives, token: Json, payload: map<string, Json>): (r: HandlerResult)
    ensures r.dispatched.None?
    ensures r.response.status in {Ok, BadRequest, InternalServerError}
    ensures r.response.body.Some? ==> r.response.status == Ok && token.Str?
  {
    if !Truthy(token) then Plain(InternalServerError)
    else
      var data := GetOr(payload, "data", Obj(map[]));
      if !data.Obj? then Plain(Ok)
      else
        var challenge := Get(data.fields, "challenge");
        if !Truthy(challenge) then Plain(BadRequest)
        else if !token.Str? || !challenge.Str? then Plain(Ok)
        else HandlerResult(Response(Ok, Some(Obj(map["challenge" := Str(HashChallenge(p, token.s, challenge.s))]))), None)
  }

  /** Every other event: header, then token, then signature; an authenticated
      VEHICLE_STATE dispatches its "data" (default {}); everything else is
      acknowledged with 200. */
  function DecideSigned(p: Primitives, token: Json, payload: map<string, Json>, request: Request): (r: HandlerResult)
    ensures r.response.body.None?
    ensures r.response.status in {Ok, Unauthorized, InternalServerError}
    ensures r.dispatched.Some? ==>
      && r.response.status == Ok
      && Get(payload, "eventType") == Str(EventVehicleState)
      && token.Str? && VerifySignature(p, Some(token.s), request.signatureHeader, request.body) == Returns(true)
  {
    var signature := request.signatureHeader;
    if signature.None? || signature.value == "" then Plain(Unauthorized)
    else if !Truthy(token) then Plain(InternalServerError)
    else if !token.Str? then Plain(Ok)
    else
      match VerifySignature(p, Some(token.s), signature, request.body)
      case Raises => Plain(Ok)
      case Returns(valid) =>
        if !valid then Plain(Unauthorized)
        else if Get(payload, "eventType") == Str(EventVehicleState) then
          HandlerResult(Response(Ok, None), Some(Dispatch(Get(payload, "vehicleId"), GetOr(payload, "data", Obj(map[])))))
        else Plain(Ok)
  }

  /** The handler once the config entry is found: body first, then the event type.
      A body that decodes to something other than a dict makes `payload.get` raise,
      answered 200. */
  function Decide(p: Primitives, entryData: map<string, Json>, request: Request): (r: HandlerResult)
    ensures r.response.status != NotFound
    ensures r.dispatched.Some? ==> r.response == Response(Ok, None) && p.decodeJson(request.body).Some?
  {
    var token := Get(entryData, ManagementTokenKey);
    var parsed := p.decodeJson(request.body);
    if parsed.None? then Plain(BadRequest)
    else if !parsed.value.Obj? then Plain(Ok)
    else if Get(parsed.value.fields, "eventType") == Str(EventVerify) then DecideVerify(p, token, parsed.value.fields)
    else DecideSigned(p, token, parsed.value.fields, request)
  }

  /** `async_handle_webhook`: find the first config entry registered under
      `webhookId` (404 when there is none) and answer the request for it. */
  method HandleWebhook(p: Primitives, entries: seq<ConfigEntry>, webhookId: string, request: Request)
    returns (result: HandlerResult)
    ensures (forall i | 0 <= i < |entries| :: !Matches(entries[i], webhookId)) ==> result == Plain(NotFound)
    ensures forall k | 0 <= k < |entries| && Matches(entries[k], webhookId) ::
              (forall j | 0 <= j < k :: !Matches(entries[j], webhookId)) ==> result == Decide(p, entries[k].data, request)
  {
    var entry: Option<ConfigEntry> := None;
    var i := 0;
    while i < |entries|
      invariant 0 <= i <= |entries|
      invariant forall j | 0 <= j < i :: !Matches(entries[j], webhookId)
      invariant entry.None?
    {
      if Matches(entries[i], webhookId) {
        entry := Some(entries[i]);
        break;
      }
      i := i + 1;
    }
    if entry.None? {
      return Plain(NotFound);
    }
    result := Decide(p, entry.value.data, request);
  }

  // Properties of the ladder

  /** Every answer is one of 200, 400, 401, 500 (404 comes only from the entry search). */
  lemma DecideStatuses(p: Primitives, entryData: map<string, Json>, request: Request)
    ensures Decide(p, entryData, request).response.status in {Ok, BadRequest, Unauthorized, InternalServerError}
  {
  }

  /** A body that is not valid UTF-8 JSON is a 400 before any event logic. */
  lemma MalformedBodyIsBadRequest(p: Primitives, entryData: map<string, Json>, request: Request)
    requires p.decodeJson(request.body).None?
    ensures Decide(p, entryData, request) == Plain(BadRequest)
  {
  }

  /** VERIFY never looks at the signature header and never dispatches: 500 without
      a token, 400 without a challenge, else 200 with the challenge's HMAC. */
  lemma VerifyLadder(p: Primitives, entryData: map<string, Json>, request: Request, payload: map<string, Json>)
    requires p.decodeJson(request.body) == Some(Obj(payload))
    requires Get(payload, "eventType") == Str(EventVerify)
    ensures var r := Decide(p, entryData, request);
      var token := Get(entryData, ManagementTokenKey);
      var data := GetOr(payload, "data", Obj(map[]));
      && r == Decide(p, entryData, Request(request.body, None))
      && r.dispatched.None?
      && (!Truthy(token) ==> r == Plain(InternalServerError))
      && (Truthy(token) && data.Obj? && !Truthy(Get(data.fields, "challenge")) ==> r == Plain(BadRequest))
      && (token.Str? && token.s != "" && data.Obj? && Get(data.fields, "challenge").Str? && Get(data.fields, "challenge").s != ""
          ==> r.response == Response(Ok, Some(Obj(map["challenge" := Str(HashChallenge(p, token.s, Get(data.fields, "challenge").s))]))))
  {
  }

  /** For every other event the checks run in a fixed order: a missing header is
      401 even without a token, then a missing token is 500, then a signature that
      does not verify is 401. */
  lemma SignedLadder(p: Primitives, entryData: map<string, Json>, request: Request, payload: map<string, Json>)
    requires p.decodeJson(request.body) == Some(Obj(payload))
    requires Get(payload, "eventType") != Str(EventVerify)
    ensures var r := Decide(p, entryData, request);
      var token := Get(entryData, ManagementTokenKey);
      var header := request.signatureHeader;
      && (header.None? || header.value == "" ==> r == Plain(Unauthorized))
      && (header.Some? && header.value != "" && !Truthy(token) ==> r == Plain(InternalServerError))
      && ((header.Some? && token.Str? && token.s != ""
           && VerifySignature(p, Some(token.s), header, request.body) == Returns(false))
          ==> r == Plain(Unauthorized))
  {
  }

  /** A dispatch happens only for an authenticated VEHICLE_STATE, exactly once, on
      the payload's vehicle id with its "data" (default {}); and every such request
      dispatches. */
  lemma DispatchIffAuthenticatedVehicleState(p: Primitives, entryData: map<string, Json>, request: Request)
    ensures var r := Decide(p, entryData, request);
      var token := Get(entryData, ManagementTokenKey);
      var parsed := p.decodeJson(request.body);
      r.dispatched.Some? <==>
        && parsed.Some? && parsed.value.Obj?
        && Get(parsed.value.fields, "eventType") == Str(EventVehicleState)
        && token.Str? && token.s != ""
        && request.signatureHeader.Some? && request.signatureHeader.value != ""
        && VerifySignature(p, Some(token.s), request.signatureHeader, request.body) == Returns(true)
    ensures var r := Decide(p, entryData, request);
      r.dispatched.Some? ==>
        && r.response == Response(Ok, None)
        && r.dispatched.value == Dispatch(Get(p.decodeJson(request.body).value.fields, "vehicleId"),
                                          GetOr(p.decodeJson(request.body).value.fields, "data", Obj(map[])))
  {
  }

  /** VEHICLE_ERROR and unknown event types that pass the checks are acknowledged
      with 200 and dispatch nothing. */
  lemma OtherEventsAcknowledged(p: Primitives, entryData: map<string, Json>, request: Request, payload: map<string, Json>)
    requires p.decodeJson(request.body) == Some(Obj(payload))
    requires Get(payload, "eventType") != Str(EventVerify) && Get(payload, "eventType") != Str(EventVehicleState)
    requires Get(entryData, ManagementTokenKey).Str?
    requires VerifySignature(p, Some(Get(entryData, ManagementTokenKey).s), request.signatureHeader, request.body) == Returns(true)
    ensures Decide(p, entryData, request) == Plain(Ok)
  {
  }

  /** Completeness: a VEHICLE_STATE body signed with the configured token, as the
      provider signs it, is accepted and dispatched. */
  lemma SignedVehicleStateIsDispatched(p: Primitives, entryData: map<string, Json>, body: seq<Byte>, payload: map<string, Json>)
    requires HexDigests(p)
    requires p.decodeJson(body) == Some(Obj(payload))
    requires Get(payload, "eventType") == Str(EventVehicleState)
    requires Get(entryData, ManagementTokenKey).Str? && Get(entryData, ManagementTokenKey).s != ""
    ensures var token := Get(entryData, ManagementTokenKey).s;
      Decide(p, entryData, Request(body, Some(p.hmacSha256Hex(p.utf8(token), body))))
        == HandlerResult(Response(Ok, None), Some(Dispatch(Get(payload, "vehicleId"), GetOr(payload, "data", Obj(map[])))))
  {
    var token := Get(entryData, ManagementTokenKey).s;
    VerifyAcceptsOwnSignature(p, token, body);
    HexDigestIsAscii(p.hmacSha256Hex(p.utf8(token), body));
  }
}
