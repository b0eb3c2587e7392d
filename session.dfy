/**
 * The pure parts of the HTTP session: checking a response's status,
 * assembling request parameters, and turning each request's completion
 * into the value its caller receives. The URL session, its serial
 * operation queue and the request headers are outside the model.
 */
module Session {
  import opened Wrappers
  import opened Decimal
  import opened Json
  import opened Errors
  import opened Lights
  import opened Scenes
  import LightDecoding
  import SceneDecoding
  import ResultDecoding

  /** What came back besides the body: nothing, a non-HTTP response, or an HTTP status. */
  datatype Response = NoResponse | OtherResponse | HTTPResponse(statusCode: int)

  /** The lights and scenes GETs accept only 200. */
  const GetStatusCodes: seq<int> := [200]

  /** State changes and scene activation also accept 207 (multi-status). */
  const PutStatusCodes: seq<int> := [200, 207]

  /**
   * The switch over an unexpected status as written: the 5xx statuses report
   * Unauthorized, so ServerError is never produced.
   */
  function StatusErrorCodeAsWritten(statusCode: int): (c: ErrorCode)
    ensures c != ServerError && c != JSONInvalid && c != UnacceptableSelector
    ensures c == Unauthorized <==> statusCode in {401, 500, 502, 503, 523}
    ensures c == Forbidden <==> statusCode == 403
    ensures c == TooManyRequests <==> statusCode == 429
  {
    if statusCode == 401 then Unauthorized
    else if statusCode == 403 then Forbidden
    else if statusCode == 429 then TooManyRequests
    else if statusCode in {500, 502, 503, 523} then Unauthorized
    else UnexpectedHTTPStatusCode
  }

  /** The switch over an unexpected status, with the 5xx statuses reporting ServerError. */
  function StatusErrorCode(statusCode: int): (c: ErrorCode)
    ensures c != JSONInvalid && c != UnacceptableSelector
    ensures c == Unauthorized <==> statusCode == 401
    ensures c == ServerError <==> statusCode in {500, 502, 503, 523}
  {
    if statusCode == 401 then Unauthorized
    else if statusCode == 403 then Forbidden
    else if statusCode == 429 then TooManyRequests
    else if statusCode in {500, 502, 503, 523} then ServerError
    else UnexpectedHTTPStatusCode
  }

  /**
   * The switch as written tells a server failure apart from nothing: a 500
   * reads as a bad access token, and no status is ever reported as ServerError.
   * It agrees with the corrected switch everywhere else.
   */
  lemma ServerErrorReportedAsUnauthorized(statusCode: int)
    ensures StatusErrorCodeAsWritten(500) == Unauthorized && StatusErrorCode(500) == ServerError
    ensures StatusErrorCodeAsWritten(statusCode) != ServerError
    ensures statusCode !in {500, 502, 503, 523} ==> StatusErrorCodeAsWritten(statusCode) == StatusErrorCode(statusCode)
  {
  }

  /**
   * The description of each unexpected status. The catch-all names the
   * accepted codes and ends with the status itself, in decimal.
   */
  function StatusErrorMessage(statusCode: int, statusCodes: seq<int>): (m: string)
    ensures statusCode == 401 ==> m == "Bad access token"
    ensures statusCode == 403 ==> m == "Permission denied"
    ensures statusCode == 429 ==> m == "Rate limit exceeded"
    ensures statusCode in {500, 502, 503, 523} ==> m == "Server error"
    ensures statusCode !in {401, 403, 429, 500, 502, 503, 523} ==>
      var prefix := "Expecting " + IntArrayDescription(statusCodes) + ", got ";
      |prefix| < |m| && m[..|prefix|] == prefix && ParseInt(m[|prefix|..]) == Some(statusCode)
  {
    if statusCode == 401 then "Bad access token"
    else if statusCode == 403 then "Permission denied"
    else if statusCode == 429 then "Rate limit exceeded"
    else if statusCode in {500, 502, 503, 523} then "Server error"
    else
      var prefix := "Expecting " + IntArrayDescription(statusCodes) + ", got ";
      IntToDecimalRoundTrip(statusCode);
      assert (prefix + IntToDecimal(statusCode))[|prefix|..] == IntToDecimal(statusCode);
      prefix + IntToDecimal(statusCode)
  }

  /** `validateResponseWithExpectedStatusCodes`: accepts first, maps only what it did not accept. */
  function ValidateResponse(response: Response, statusCodes: seq<int>): (r: Option<NSError>)
    ensures !response.HTTPResponse? ==> r == None
    ensures response.HTTPResponse? && response.statusCode in statusCodes ==> r == None
    ensures response.HTTPResponse? && response.statusCode !in statusCodes ==>
            r.Some? && r.value.domain == ErrorDomain &&
            KitErrorCode(r.value) == Some(StatusErrorCodeAsWritten(response.statusCode)) &&
            r.value.localizedDescription == StatusErrorMessage(response.statusCode, statusCodes)
  {
    match response
    case HTTPResponse(statusCode) =>
      if statusCode in statusCodes then None
      else
        var e := Error(StatusErrorCodeAsWritten(statusCode), StatusErrorMessage(statusCode, statusCodes));
        ToNSErrorRecoversError(e);
        Some(ToNSError(e))
    case _ => None
  }

  /** ServerError is declared but the validator never reports it. */
  lemma ValidatorNeverReportsServerError(response: Response, statusCodes: seq<int>)
    ensures ValidateResponse(response, statusCodes).Some? ==>
            KitErrorCode(ValidateResponse(response, statusCodes).value) != Some(ServerError)
  {
  }

  /**
   * An unaccepted status is reported as Unauthorized exactly for 401 and the
   * four server statuses; only the description tells a bad token apart.
   */
  lemma ValidatorUnauthorizedCases(statusCode: int, statusCodes: seq<int>)
    requires statusCode !in statusCodes
    ensures var e := ValidateResponse(HTTPResponse(statusCode), statusCodes).value;
      && (KitErrorCode(e) == Some(Unauthorized) <==> statusCode in {401, 500, 502, 503, 523})
      && (KitErrorCode(e) == Some(Unauthorized) ==>
            (statusCode == 401 <==> e.localizedDescription == "Bad access token"))
  {
  }

  /** Which code each unexpected status maps to in the corrected switch. */
  lemma StatusErrorCodes(statusCode: int)
    ensures statusCode == 401 ==> StatusErrorCode(statusCode) == Unauthorized
    ensures statusCode == 403 ==> StatusErrorCode(statusCode) == Forbidden
    ensures statusCode == 429 ==> StatusErrorCode(statusCode) == TooManyRequests
    ensures statusCode in {500, 502, 503, 523} ==> StatusErrorCode(statusCode) == ServerError
    ensures statusCode !in {401, 403, 429, 500, 502, 503, 523} ==>
            StatusErrorCode(statusCode) == UnexpectedHTTPStatusCode
  {
  }

  /** 207 is an error for a GET but accepted for a PUT; 200 passes both. */
  lemma MultiStatusOnlyForPuts()
    ensures ValidateResponse(HTTPResponse(200), GetStatusCodes) == None
    ensures ValidateResponse(HTTPResponse(200), PutStatusCodes) == None
    ensures ValidateResponse(HTTPResponse(207), PutStatusCodes) == None
    ensures ValidateResponse(HTTPResponse(207), GetStatusCodes).Some?
    ensures KitErrorCode(ValidateResponse(HTTPResponse(207), GetStatusCodes).value) == Some(UnexpectedHTTPStatusCode)
  {
  }

  /**
   * The completion of `lights`: a transport error wins, then the status,
   * then the body; an error always comes with no lights.
   */
  function LightsCompletion(transportError: Option<NSError>, response: Response, body: Body<NSError>, now: Time)
    : (r: (seq<Light>, Option<NSError>))
    ensures transportError.Some? ==> r == ([], transportError)
    ensures transportError.None? && ValidateResponse(response, GetStatusCodes).Some? ==>
            r == ([], ValidateResponse(response, GetStatusCodes))
    ensures r.1.Some? ==> r.0 == []
    ensures r.1.None? ==> transportError.None? && ValidateResponse(response, GetStatusCodes).None? && body.Parsed?
    ensures transportError.None? && ValidateResponse(response, GetStatusCodes).None? ==>
            r == LightDecoding.LightsFromBody(body, now)
  {
    if transportError.Some? then ([], transportError)
    else match ValidateResponse(response, GetStatusCodes)
      case Some(e) => ([], Some(e))
      case None =>
        LightDecoding.LightsFromBodyOutcomes(body, now);
        LightDecoding.LightsFromBody(body, now)
  }

  /** The completion of `scenes`, with the same precedence. */
  function ScenesCompletion(transportError: Option<NSError>, response: Response, body: Body<NSError>)
    : (r: (seq<Scene>, Option<NSError>))
    ensures transportError.Some? ==> r == ([], transportError)
    ensures transportError.None? && ValidateResponse(response, GetStatusCodes).Some? ==>
            r == ([], ValidateResponse(response, GetStatusCodes))
    ensures r.1.Some? ==> r.0 == []
    ensures r.1.None? <==> transportError.None? && ValidateResponse(response, GetStatusCodes).None? && body.Parsed?
    ensures transportError.None? && ValidateResponse(response, GetStatusCodes).None? ==>
            r == SceneDecoding.ScenesFromBody(body)
  {
    if transportError.Some? then ([], transportError)
    else match ValidateResponse(response, GetStatusCodes)
      case Some(e) => ([], Some(e))
      case None => SceneDecoding.ScenesFromBody(body)
  }

  /** The completion shared by `setLightsState` and `setScenesActivate`, validated against the PUT codes. */
  function ResultsCompletion(transportError: Option<NSError>, response: Response, body: Body<NSError>)
    : (r: (seq<ResultDecoding.Result>, Option<NSError>))
    ensures transportError.Some? ==> r == ([], transportError)
    ensures transportError.None? && ValidateResponse(response, PutStatusCodes).Some? ==>
            r == ([], ValidateResponse(response, PutStatusCodes))
    ensures r.1.Some? ==> r.0 == []
    ensures r.1.None? ==> transportError.None? && ValidateResponse(response, PutStatusCodes).None? && body.Parsed?
    ensures transportError.None? && ValidateResponse(response, PutStatusCodes).None? ==>
            r == ResultDecoding.ResultsFromBody(body)
  {
    if transportError.Some? then ([], transportError)
    else match ValidateResponse(response, PutStatusCodes)
      case Some(e) => ([], Some(e))
      case None =>
        if body.Parsed? then
          ResultDecoding.ResultsFromBodyOutcomes(body);
          ResultDecoding.ResultsFromBody(body)
        else ResultDecoding.ResultsFromBody(body)
  }

  /**
   * All three completions: a transport error wins over the status, a status
   * error wins over the body, and an error always comes with an empty list.
   */
  lemma CompletionErrorsCarryNoData(transportError: Option<NSError>, response: Response, body: Body<NSError>, now: Time)
    ensures transportError.Some? ==>
            LightsCompletion(transportError, response, body, now) == ([], transportError) &&
            ScenesCompletion(transportError, response, body) == ([], transportError) &&
            ResultsCompletion(transportError, response, body) == ([], transportError)
    ensures transportError.None? && ValidateResponse(response, GetStatusCodes).Some? ==>
            LightsCompletion(transportError, response, body, now) == ([], ValidateResponse(response, GetStatusCodes)) &&
            ScenesCompletion(transportError, response, body) == ([], ValidateResponse(response, GetStatusCodes))
    ensures transportError.None? && ValidateResponse(response, PutStatusCodes).Some? ==>
            ResultsCompletion(transportError, response, body) == ([], ValidateResponse(response, PutStatusCodes))
    ensures LightsCompletion(transportError, response, body, now).1.Some? ==>
            LightsCompletion(transportError, response, body, now).0 == []
    ensures ScenesCompletion(transportError, response, body).1.Some? ==>
            ScenesCompletion(transportError, response, body).0 == []
    ensures ResultsCompletion(transportError, response, body).1.Some? ==>
            ResultsCompletion(transportError, response, body).0 == []
  {
  }

  /**
   * The parameters of `setLightsState`: `duration` always, the others only
   * when given, with power written as `"on"`/`"off"`.
   */
  method StateParameters(power: Option<bool>, color: Option<string>, brightness: Option<real>, duration: real)
    returns (parameters: map<string, Json>)
    ensures parameters.Keys <= {"duration", "power", "color", "brightness"}
    ensures "duration" in parameters && parameters["duration"] == JNumber(duration)
    ensures "power" in parameters <==> power.Some?
    ensures power.Some? ==> parameters["power"] == JString(if power.value then "on" else "off")
    ensures "color" in parameters <==> color.Some?
    ensures color.Some? ==> parameters["color"] == JString(color.value)
    ensures "brightness" in parameters <==> brightness.Some?
    ensures brightness.Some? ==> parameters["brightness"] == JNumber(brightness.value)
  {
    parameters := map["duration" := JNumber(duration)];
    if power.Some? {
      parameters := parameters["power" := JString(if power.value then "on" else "off")];
    }
    if color.Some? {
      parameters := parameters["color" := JString(color.value)];
    }
    if brightness.Some? {
      parameters := parameters["brightness" := JNumber(brightness.value)];
    }
  }

  /** The deprecated `setLightsPower`: a state change with only power. */
  method PowerParameters(power: bool, duration: real) returns (parameters: map<string, Json>)
    ensures parameters.Keys == {"duration", "power"}
    ensures parameters["power"] == JString(if power then "on" else "off")
    ensures parameters["duration"] == JNumber(duration)
  {
    parameters := StateParameters(Some(power), None, None, duration);
  }

  /** The deprecated `setLightsColor`: a state change with colour and power. */
  method ColorParameters(color: string, duration: real, powerOn: bool) returns (parameters: map<string, Json>)
    ensures parameters.Keys == {"duration", "power", "color"}
    ensures parameters["duration"] == JNumber(duration)
    ensures parameters["color"] == JString(color)
    ensures parameters["power"] == JString(if powerOn then "on" else "off")
  {
    parameters := StateParameters(Some(powerOn), Some(color), None, duration);
  }

  /** The body `setScenesActivate` sends as written: a two-element array, not an object. */
  function ActivateBodyAsWritten(duration: real): Json
  {
    JArray([JString("duration"), JNumber(duration)])
  }

  /** As written, the body has no `duration` field for the service to read. */
  lemma ActivateBodyAsWrittenHasNoDuration(duration: real)
    ensures AsObject(ActivateBodyAsWritten(duration)).None?
  {
  }

  /** The activation body as intended: an object whose `duration` is the given one. */
  function ActivateBody(duration: real): (j: Json)
    ensures AsObject(j).Some? && AsObject(j).value.Keys == {"duration"}
    ensures AsObject(j).value["duration"] == JNumber(duration)
  {
    JObject(map["duration" := JNumber(duration)])
  }
}
