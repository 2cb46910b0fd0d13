/**
 * The Beam payment API client of beam.ts: base-URL selection, the Basic authorisation
 * header, and `beamRequest`, which may retry once on the playground host when production
 * rejects playground credentials. `fetch` is a parameter: it maps the request the client
 * sends to what happens (a response, or a thrown error). `T` stands for whatever else the
 * response body carries (the charge, for `getCharge`).
 */
module Beam {
  import opened Wrappers
  import opened Text
  import Base64

  const PROD_BASE: string := "https://api.beamcheckout.com/api/v1"
  const PLAYGROUND_BASE: string := "https://playground.api.beamcheckout.com/api/v1"
  const INVALID_CREDENTIALS: string := "INVALID_CREDENTIALS_ERROR"
  const DEFAULT_ERROR_MESSAGE: string := "Beam API request failed"
  const FETCH_FAILED: string := "fetch failed"

  /** The server's Beam settings: `BEAM_MERCHANT_ID`, `BEAM_API_KEY`, `BEAM_ENVIRONMENT`. */
  datatype BeamConfig = BeamConfig(merchantId: string, apiKey: string, environment: Option<string>)

  /** `data.error` of a failed response. */
  datatype ErrorInfo = ErrorInfo(errorMessage: Option<string>, errorCode: Option<string>)

  /** A parsed response body: the fields the client reads, and the rest. */
  datatype Body<T> = Body(error: Option<ErrorInfo>, message: Option<string>, content: T)

  /** What `fetch` is given: method, full URL, the Authorization header, and the JSON body text. */
  datatype FetchRequest = FetchRequest(httpMethod: Option<string>, url: string, authorization: string,
                                       payload: Option<string>)

  /** An `Error` instance with its message, or any other thrown value. */
  datatype JsError = ErrorObject(message: string) | OtherThrown

  /** A response (`body` is `None` when it is not JSON), or the error `fetch` threw. */
  datatype FetchReply<T> = Response(status: nat, body: Option<Body<T>>) | Thrown(error: JsError)

  /** What a `beamRequest` promise settles to. */
  datatype BeamResult<T> = Ok(data: Option<Body<T>>) | Err(error: JsError)

  /** The `RequestInit` the callers pass: method and body text. */
  datatype RequestOptions = RequestOptions(httpMethod: Option<string>, payload: Option<string>)

  /** `ChargeStatus` (beam.ts:28). */
  datatype ChargeStatus = Pending | Succeeded | Failed

  /** The fields of a charge the checkout pages read: its status, reference and customer e-mail. */
  datatype Charge = Charge(status: ChargeStatus, referenceId: Option<string>, customerEmail: Option<string>)

  /** How a `getCharge` call settles as its caller sees it: the charge, or a rejection. */
  datatype ChargeQuery = Answered(charge: Charge) | Rejected

  /** `toLowerCase` on one character: 'A'-'Z' become 'a'-'z', everything else is kept. */
  function LowerChar(c: char): char {
    if 'A' <= c <= 'Z' then (c as int + 32) as char else c
  }

  /** `toLowerCase` on the ASCII letters. */
  function AsciiLower(s: string): (r: string)
    ensures |r| == |s|
    ensures forall i :: 0 <= i < |s| ==> r[i] == LowerChar(s[i])
  {
    if s == [] then [] else [LowerChar(s[0])] + AsciiLower(s[1..])
  }

  /** `(BEAM_ENVIRONMENT || '').toLowerCase()` (beam.ts:7). */
  function EnvName(environment: Option<string>): string {
    if Truthy(environment) then AsciiLower(environment.value) else ""
  }

  /** The configured base URL (beam.ts:8-9): playground exactly when the environment name is "playground". */
  function ConfiguredBase(envName: string): string {
    if envName == "playground" then PLAYGROUND_BASE else PROD_BASE
  }

  /**
   * The playground host is chosen exactly when the environment, lower-cased, is "playground";
   * an unset or empty environment means production.
   */
  lemma EnvironmentSelection(environment: Option<string>)
    ensures ConfiguredBase(EnvName(environment)) == PLAYGROUND_BASE <==>
      environment.Some? && AsciiLower(environment.value) == "playground"
    ensures !Truthy(environment) ==> ConfiguredBase(EnvName(environment)) == PROD_BASE
  {
  }

  /** The environment is matched without regard to the case of its letters. */
  lemma CaseInsensitiveEnvironment(e1: string, e2: string)
    requires |e1| == |e2| && forall i :: 0 <= i < |e1| ==> LowerChar(e1[i]) == LowerChar(e2[i])
    ensures ConfiguredBase(EnvName(Some(e1))) == ConfiguredBase(EnvName(Some(e2)))
  {
    assert AsciiLower(e1) == AsciiLower(e2);
  }

  /** `getAuthHeader` (beam.ts:129-133): "Basic " and the base64 of the UTF-8 of "merchant:key". */
  function AuthHeader(cfg: BeamConfig): string {
    "Basic " + Base64.Encode(Base64.Utf8(cfg.merchantId + ":" + cfg.apiKey))
  }

  /** The credentials can be read back out of the header. */
  lemma AuthHeaderDecodes(cfg: BeamConfig)
    ensures AuthHeader(cfg)[..6] == "Basic "
    ensures Base64.Decode(AuthHeader(cfg)[6..]) == Some(Base64.Utf8(cfg.merchantId + ":" + cfg.apiKey))
  {
    var bytes := Base64.Utf8(cfg.merchantId + ":" + cfg.apiKey);
    assert AuthHeader(cfg)[6..] == Base64.Encode(bytes);
    Base64.DecodeEncode(bytes);
  }

  /** `response.ok`. */
  predicate IsOk(status: nat) {
    200 <= status <= 299
  }

  /** `data?.error?.errorMessage || data?.message || 'Beam API request failed'` (beam.ts:168-169). */
  function ErrorMessage<T>(body: Option<Body<T>>): (msg: string)
    ensures msg != ""
    ensures body.Some? && body.value.error.Some? && Truthy(body.value.error.value.errorMessage) ==>
      msg == body.value.error.value.errorMessage.value
    ensures !(body.Some? && body.value.error.Some? && Truthy(body.value.error.value.errorMessage)) ==>
      if body.Some? && Truthy(body.value.message) then msg == body.value.message.value
      else msg == DEFAULT_ERROR_MESSAGE
  {
    var fromError := if body.Some? && body.value.error.Some? then body.value.error.value.errorMessage else None;
    var fromMessage := if body.Some? then body.value.message else None;
    OrElse(OrElse(fromError, fromMessage), Some(DEFAULT_ERROR_MESSAGE)).value
  }

  /** `data?.error?.errorCode`. */
  function ErrorCode<T>(body: Option<Body<T>>): Option<string> {
    if body.Some? && body.value.error.Some? then body.value.error.value.errorCode else None
  }

  /** The message thrown for a non-ok response (beam.ts:184). */
  function ApiErrorText(status: nat, msg: string): string {
    "Beam API Error (" + ToRadix(status, 10) + "): " + msg
  }

  /** The message a network failure is replaced with (beam.ts:196-198). */
  function ConnectText(url: string): string {
    "Cannot connect to Beam API at " + url + ". Check your network connection and API endpoint."
  }

  /** The `catch` of `doRequest` (beam.ts:189-200): a 'fetch failed' error is replaced, anything else rethrown. */
  function Caught(e: JsError, url: string): JsError {
    if e.ErrorObject? && Contains(e.message, FETCH_FAILED) then ErrorObject(ConnectText(url)) else e
  }

  /** The settled result of one `doRequest` that does not fall back: the reply and its URL. */
  function Attempt<T>(reply: FetchReply<T>, url: string): BeamResult<T> {
    match reply
    case Thrown(e) => Err(Caught(e, url))
    case Response(status, body) =>
      if IsOk(status) then Ok(body)
      else Err(Caught(ErrorObject(ApiErrorText(status, ErrorMessage(body))), url))
  }

  /**
   * What one attempt settles to: an ok response is handed back as parsed; a non-ok response
   * becomes "Beam API Error (status): message", unless that message mentions 'fetch failed', in
   * which case the `catch` that follows turns it into the network message; a thrown error is
   * replaced by the network message exactly when it mentions 'fetch failed'.
   */
  lemma AttemptOutcome<T>(reply: FetchReply<T>, url: string)
    ensures reply.Response? && IsOk(reply.status) ==> Attempt(reply, url) == Ok(reply.body)
    ensures reply.Response? && !IsOk(reply.status) ==>
      Attempt(reply, url) == Err(ErrorObject(
        if Contains(ErrorMessage(reply.body), FETCH_FAILED) then ConnectText(url)
        else ApiErrorText(reply.status, ErrorMessage(reply.body))))
    ensures reply.Thrown? && reply.error.ErrorObject? && Contains(reply.error.message, FETCH_FAILED) ==>
      Attempt(reply, url) == Err(ErrorObject(ConnectText(url)))
    ensures reply.Thrown? && !(reply.error.ErrorObject? && Contains(reply.error.message, FETCH_FAILED)) ==>
      Attempt(reply, url) == Err(reply.error)
  {
    if reply.Response? && !IsOk(reply.status) {
      var msg := ErrorMessage(reply.body);
      var digits := ToRadix(reply.status, 10);
      var prefix := "Beam API Error (" + digits + "): ";
      assert 'f' !in prefix by {
        assert DigitValue('f') == 15;
        assert forall i :: 0 <= i < |digits| ==> digits[i] != 'f';
      }
      assert ApiErrorText(reply.status, msg) == prefix + msg;
      ContainsSkipsPrefix(prefix, msg, FETCH_FAILED);
    }
  }

  /** The fallback condition of beam.ts:172-178. */
  predicate FallbackApplies<T>(envName: string, baseUrl: string, allowFallback: bool, reply: FetchReply<T>) {
    && reply.Response? && !IsOk(reply.status)
    && allowFallback
    && baseUrl == PROD_BASE
    && ErrorCode(reply.body) == Some(INVALID_CREDENTIALS)
    && envName != "production"
  }

  /** The request `doRequest` hands to `fetch` for a base URL (beam.ts:143-156). */
  function RequestTo(cfg: BeamConfig, baseUrl: string, endpoint: string, options: RequestOptions): FetchRequest {
    FetchRequest(options.httpMethod, baseUrl + endpoint, AuthHeader(cfg), options.payload)
  }

  /**
   * `doRequest` (beam.ts:142-202): returns the settled result and the requests sent, in order.
   * A second request is sent exactly when the fallback condition holds for the first reply;
   * it goes to the playground host, and it never falls back itself, so there are at most two.
   * The result is that of the last request.
   */
  method DoRequest<T>(cfg: BeamConfig, endpoint: string, options: RequestOptions, baseUrl: string,
                      allowFallback: bool, fetch: FetchRequest -> FetchReply<T>)
    returns (result: BeamResult<T>, requests: seq<FetchRequest>)
    ensures 1 <= |requests| <= 2
    ensures requests[0] == RequestTo(cfg, baseUrl, endpoint, options)
    ensures |requests| == 2 <==> FallbackApplies(EnvName(cfg.environment), baseUrl, allowFallback, fetch(requests[0]))
    ensures |requests| == 2 ==> requests[1] == RequestTo(cfg, PLAYGROUND_BASE, endpoint, options)
    ensures result == Attempt(fetch(requests[|requests| - 1]), requests[|requests| - 1].url)
    decreases allowFallback
  {
    var request := RequestTo(cfg, baseUrl, endpoint, options);
    var url := request.url;
    requests := [request];
    var reply := fetch(request);
    match reply
    case Thrown(e) =>
      result := Err(Caught(e, url));
    case Response(status, body) =>
      if !IsOk(status) {
        var errorMessage := ErrorMessage(body);
        var isInvalidCreds := ErrorCode(body) == Some(INVALID_CREDENTIALS);
        if allowFallback && baseUrl == PROD_BASE && isInvalidCreds && EnvName(cfg.environment) != "production" {
          var retried, more := DoRequest(cfg, endpoint, options, PLAYGROUND_BASE, false, fetch);
          return retried, requests + more;
        }
        result := Err(Caught(ErrorObject(ApiErrorText(status, errorMessage)), url));
      } else {
        result := Ok(body);
      }
  }

  /** `beamRequest` (beam.ts:138-205): `doRequest` on the configured base with fallback allowed. */
  method BeamRequest<T>(cfg: BeamConfig, endpoint: string, options: RequestOptions,
                        fetch: FetchRequest -> FetchReply<T>)
    returns (result: BeamResult<T>, requests: seq<FetchRequest>)
    ensures 1 <= |requests| <= 2
    ensures requests[0] == RequestTo(cfg, ConfiguredBase(EnvName(cfg.environment)), endpoint, options)
    ensures |requests| == 2 <==>
      && EnvName(cfg.environment) != "playground" && EnvName(cfg.environment) != "production"
      && fetch(requests[0]).Response? && !IsOk(fetch(requests[0]).status)
      && ErrorCode(fetch(requests[0]).body) == Some(INVALID_CREDENTIALS)
    ensures |requests| == 2 ==> requests[1] == RequestTo(cfg, PLAYGROUND_BASE, endpoint, options)
    ensures result == Attempt(fetch(requests[|requests| - 1]), requests[|requests| - 1].url)
  {
    result, requests := DoRequest(cfg, endpoint, options, ConfiguredBase(EnvName(cfg.environment)), true, fetch);
  }

  /** `getCharge` (beam.ts:226-230): GET /charges/{chargeId}. */
  method GetCharge<T>(cfg: BeamConfig, chargeId: string, fetch: FetchRequest -> FetchReply<T>)
    returns (result: BeamResult<T>, requests: seq<FetchRequest>)
    ensures 1 <= |requests| <= 2
    ensures forall i :: 0 <= i < |requests| ==> requests[i].httpMethod == Some("GET") && requests[i].payload == None
    ensures requests[0].url == ConfiguredBase(EnvName(cfg.environment)) + ("/charges/" + chargeId)
    ensures |requests| == 2 ==> requests[1].url == PLAYGROUND_BASE + ("/charges/" + chargeId)
    ensures result == Attempt(fetch(requests[|requests| - 1]), requests[|requests| - 1].url)
  {
    result, requests := BeamRequest(cfg, "/charges/" + chargeId, RequestOptions(Some("GET"), None), fetch);
  }

  /** `createCharge` (beam.ts:212-219): POST /charges with the request's JSON text. */
  method CreateCharge<T>(cfg: BeamConfig, requestJson: string, fetch: FetchRequest -> FetchReply<T>)
    returns (result: BeamResult<T>, requests: seq<FetchRequest>)
    ensures 1 <= |requests| <= 2
    ensures forall i :: 0 <= i < |requests| ==> requests[i].httpMethod == Some("POST") && requests[i].payload == Some(requestJson)
    ensures requests[0].url == ConfiguredBase(EnvName(cfg.environment)) + "/charges"
    ensures |requests| == 2 ==> requests[1].url == PLAYGROUND_BASE + "/charges"
    ensures result == Attempt(fetch(requests[|requests| - 1]), requests[|requests| - 1].url)
  {
    result, requests := BeamRequest(cfg, "/charges", RequestOptions(Some("POST"), Some(requestJson)), fetch);
  }
}
