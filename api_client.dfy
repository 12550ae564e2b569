/**
 * The request executor: the client error and its rendering, the status
 * classifier, the diagnostic log message, the response parser, and the
 * client object whose MakeRequest runs read, check, log and parse in order.
 *
 * Foreign pieces enter as parameters: the transport (an HttpRequest goes in,
 * a Response comes out), the validator for declared result types, and the
 * two formatters of the running Python (`f"{method}"` and `json.dumps`).
 */
module ApiClient {
  import opened Wrappers
  import opened Decimal
  import opened Requests

  /** The numeric levels of Python's logging module. */
  const DEBUG: int := 10
  const ERROR: int := 40

  /** The marker that stands for an empty body in both renderers. */
  const NoContent: string := "*no content*"

  predicate IsPrefix(p: string, s: string) {
    |p| <= |s| && s[..|p|] == p
  }

  predicate IsSuffix(p: string, s: string) {
    |p| <= |s| && s[|s| - |p|..] == p
  }

  /** The body text, or the marker when it is empty (Python: `text if text else '*no content*'`). */
  function OrNoContent(text: string): (s: string)
    ensures s != []
    ensures text != [] ==> s == text
    ensures text == [] ==> s == NoContent
  {
    if text != "" then text else NoContent
  }

  // ---------------------------------------------------------------------------
  // BaseApiClientError

  /** The raised error: the config, status and body text it was built from, unchanged. */
  datatype ApiClientError = ApiClientError(request: RequestConfig, status: int, text: string)

  /** `str(error)`: the status in brackets, a space, then the body or the no-content marker. */
  function ErrorString(e: ApiClientError): (s: string)
    ensures e.text != "" ==> s == "[" + IntToString(e.status) + "] " + e.text
    ensures e.text == "" ==> s == "[" + IntToString(e.status) + "] *no content*"
  {
    "[" + IntToString(e.status) + "] " + OrNoContent(e.text)
  }

  /** The position of the first `c` in `s`, or |s| when there is none. */
  function IndexOf(s: string, c: char): (i: nat)
    ensures i <= |s|
    ensures i < |s| ==> s[i] == c
    ensures forall j :: 0 <= j < i ==> s[j] != c
  {
    if s == [] then 0 else if s[0] == c then 0 else 1 + IndexOf(s[1..], c)
  }

  /** Reads the status back from a rendered error: the integer between '[' and the first ']'. */
  function ParseErrorStatus(s: string): Option<int> {
    var close := IndexOf(s, ']');
    if |s| > 0 && s[0] == '[' && close < |s| then ParseInt(s[1..close]) else None
  }

  /** The status of an error can always be read back from its string form. */
  lemma ErrorStringStatusRoundTrip(e: ApiClientError)
    ensures ParseErrorStatus(ErrorString(e)) == Some(e.status)
    ensures ErrorString(e)[3 + |IntToString(e.status)|..] == OrNoContent(e.text)
  {
    var a := IntToString(e.status);
    var s := ErrorString(e);
    assert s == "[" + a + "] " + OrNoContent(e.text);
    IntToStringHasNoBracket(e.status);
    assert s[1 + |a|] == ']';
    assert forall j :: 0 < j < 1 + |a| ==> s[j] == a[j - 1];
    assert IndexOf(s, ']') == 1 + |a|;
    assert s[1..1 + |a|] == a;
    IntToStringRoundTrip(e.status);
  }

  /**
   * Two errors that render the same carry the same status and the same
   * (marker-substituted) body.
   */
  lemma ErrorStringDeterminesStatus(e1: ApiClientError, e2: ApiClientError)
    requires ErrorString(e1) == ErrorString(e2)
    ensures e1.status == e2.status
    ensures OrNoContent(e1.text) == OrNoContent(e2.text)
  {
    ErrorStringStatusRoundTrip(e1);
    ErrorStringStatusRoundTrip(e2);
  }

  // ---------------------------------------------------------------------------
  // Status classification (check_response)

  datatype Outcome = Succeeded | Tolerated | HardError

  /** The three-way rule: below 400 succeeds; an exactly listed code is tolerated; the rest raise. */
  function Classify(status: int, allowedErrorCodes: seq<int>): (o: Outcome)
    ensures o == Succeeded <==> status < 400
    ensures o == Tolerated <==> 400 <= status && status in allowedErrorCodes
    ensures o == HardError <==> 400 <= status && status !in allowedErrorCodes
  {
    if status < 400 then Succeeded
    else if status !in allowedErrorCodes then HardError
    else Tolerated
  }

  // ---------------------------------------------------------------------------
  // Diagnostic log message (log_request)

  /** The Python runtime's renderings that the model takes as given. */
  datatype Formatting = Formatting(
    methodLabel: HttpMethod -> string,   // f"{config.method}" for the str-mixin enum
    pretty: Json -> string)              // json.dumps(payload, ensure_ascii=False, indent=2)

  datatype LogEvent = LogEvent(level: int, message: string)

  function LogHeader(methodLabel: string, url: string, status: int): string {
    "[" + methodLabel + "] -> " + IntToString(status) + "\nURL: " + url + "\n"
  }

  function PayloadSection(rendered: string): string {
    "PAYLOAD:\n" + rendered + "\n"
  }

  function RespSection(content: string): string {
    "RESP:\n" + OrNoContent(content)
  }

  /**
   * The log line: a header naming the method, the status and the RELATIVE
   * url of the config, a PAYLOAD section exactly when the payload is truthy,
   * and the RESP section with the body or the no-content marker last.
   */
  function LogMessage(fmt: Formatting, config: RequestConfig, status: int, content: string): (msg: string)
    ensures var h := LogHeader(fmt.methodLabel(config.httpMethod), config.url, status);
      IsPrefix(h, msg) &&
      (IsPrefix("PAYLOAD:\n", msg[|h|..]) <==> Truthy(config.payload)) &&
      (Truthy(config.payload) ==> IsPrefix(PayloadSection(fmt.pretty(config.payload)), msg[|h|..])) &&
      |msg| == |h| + (if Truthy(config.payload) then |PayloadSection(fmt.pretty(config.payload))| else 0)
               + |RespSection(content)|
    ensures IsSuffix(RespSection(content), msg)
  {
    var h := LogHeader(fmt.methodLabel(config.httpMethod), config.url, status);
    var p := if Truthy(config.payload) then PayloadSection(fmt.pretty(config.payload)) else "";
    var r := RespSection(content);
    assert (h + p + r)[..|h|] == h;
    assert (h + p + r)[|h|..] == p + r;
    assert (h + p + r)[|h + p|..] == r;
    assert !Truthy(config.payload) ==> (p + r)[0] == 'R';
    h + p + r
  }

  /** What log_request writes: nothing without a logger, otherwise one event at `level`. */
  function LogRequestEvents(loggerPresent: bool, fmt: Formatting, config: RequestConfig,
                            response: Response, level: int): (events: seq<LogEvent>)
    ensures |events| == (if loggerPresent then 1 else 0)
    ensures forall k :: 0 <= k < |events| ==>
      events[k].level == level && events[k].message == LogMessage(fmt, config, response.status, response.text)
  {
    if !loggerPresent then []
    else [LogEvent(level, LogMessage(fmt, config, response.status, response.text))]
  }

  // ---------------------------------------------------------------------------
  // Transport boundary

  /** The outcome of `response.json()` on the cached body. */
  datatype JsonBody = Parsed(value: Json) | Malformed

  /** A response whose body has been read once; text and json are views of that one read. */
  datatype Response = Response(status: int, text: string, json: JsonBody)

  /** What is handed to the transport: method, absolute url, payload (JNull: no body), headers. */
  datatype HttpRequest = HttpRequest(httpMethod: HttpMethod, url: string, body: Json, headers: map<string, string>)

  /** The result of check_response: the events it logged and the error it raises, if any. */
  datatype CheckResult = CheckResult(events: seq<LogEvent>, error: Option<ApiClientError>)

  function CheckResponseSpec(loggerPresent: bool, fmt: Formatting, config: RequestConfig,
                             response: Response): (r: CheckResult)
    ensures response.status < 400 ==> r == CheckResult([], None)
    ensures 400 <= response.status && response.status in config.allowedErrorCodes ==> r == CheckResult([], None)
    ensures 400 <= response.status && response.status !in config.allowedErrorCodes ==>
      r.error == Some(ApiClientError(config, response.status, response.text)) &&
      r.events == LogRequestEvents(loggerPresent, fmt, config, response, ERROR)
  {
    if Classify(response.status, config.allowedErrorCodes) == HardError then
      CheckResult(LogRequestEvents(loggerPresent, fmt, config, response, ERROR),
                  Some(ApiClientError(config, response.status, response.text)))
    else CheckResult([], None)
  }

  // ---------------------------------------------------------------------------
  // Parsing (parse_response)

  /** The decoded result: None for `type(None)`, otherwise a validated value. */
  datatype Value<V> = NoValue | Typed(value: V)

  datatype RequestError =
    | ClientError(error: ApiClientError)   // BaseApiClientError from check_response
    | JsonDecodeError                      // response.json() failed
    | ValidationError(message: string)     // pydantic rejected the value

  /** A Python object as far as the `is None` test sees it. */
  datatype PyObject = PyNone | PyClass(name: string)

  /** `type(t)` for a type object: its metaclass `type`, never None. */
  function TypeOf(t: ReturnType): (r: PyObject)
    ensures r != PyNone
  {
    PyClass("type")
  }

  /**
   * `TypeAdapter(t).validate_python(j)`. For `type(None)` pydantic accepts
   * only None; any other declared type is checked by the given validator.
   */
  function Validate<V>(t: ReturnType, j: Json, validate: (string, Json) -> Result<V, string>)
    : (r: Result<Value<V>, RequestError>)
    ensures t == NoneType ==> (r == Success(NoValue) <==> j == JNull)
    ensures t == NoneType && j != JNull ==> r == Failure(ValidationError("none_required"))
    ensures t.Declared? && validate(t.name, j).Success? ==> r == Success(Typed(validate(t.name, j).value))
    ensures t.Declared? && validate(t.name, j).Failure? ==> r == Failure(ValidationError(validate(t.name, j).error))
  {
    match t
    case NoneType => if j == JNull then Success(NoValue) else Failure(ValidationError("none_required"))
    case Declared(name) =>
      match validate(name, j)
      case Success(v) => Success(Typed(v))
      case Failure(m) => Failure(ValidationError(m))
  }

  /** parse_response as written: the shortcut is guarded by `type(return_type) is None`. */
  function ParseResponse<V>(t: ReturnType, j: Json, validate: (string, Json) -> Result<V, string>)
    : (r: Result<Value<V>, RequestError>)
    ensures t == NoneType ==> (r.Success? <==> j == JNull)
    ensures t.Declared? ==> (r.Success? <==> validate(t.name, j).Success?)
  {
    if TypeOf(t) == PyNone then Success(NoValue)
    else Validate(t, j, validate)
  }

  /** The shortcut can never be taken: every result goes through the validator. */
  lemma ParseResponseAlwaysValidates<V>(t: ReturnType, j: Json, validate: (string, Json) -> Result<V, string>)
    ensures ParseResponse(t, j, validate) == Validate(t, j, validate)
  {
  }

  /** With `type(None)` declared, a body that is not JSON null is rejected rather than ignored. */
  lemma ParseResponseRejectsIgnoredBody<V>(validate: (string, Json) -> Result<V, string>)
    ensures ParseResponse(NoneType, JObject(map["id" := JInt(1)]), validate)
         == Failure(ValidationError("none_required"))
    ensures ParseResponseIntended(NoneType, JObject(map["id" := JInt(1)]), validate) == Success(NoValue)
  {
  }

  /** parse_response with the guard the code evidently means: `return_type is type(None)`. */
  function ParseResponseIntended<V>(t: ReturnType, j: Json, validate: (string, Json) -> Result<V, string>)
    : (r: Result<Value<V>, RequestError>)
    ensures t == NoneType ==> r == Success(NoValue)
    ensures t != NoneType ==> r == ParseResponse(t, j, validate)
  {
    if t == NoneType then Success(NoValue)
    else Validate(t, j, validate)
  }

  // ---------------------------------------------------------------------------
  // The pipeline (make_request)

  /** The events and the outcome of one make_request call. */
  datatype Trace<V> = Trace(events: seq<LogEvent>, result: Result<Value<V>, RequestError>)

  /**
   * make_request on a response already read: check (which may log at ERROR
   * and raise), then log at DEBUG, then `response.json()`, then parse.
   */
  function RequestSpec<V>(loggerPresent: bool, fmt: Formatting, config: RequestConfig, response: Response,
                          validate: (string, Json) -> Result<V, string>): (t: Trace<V>)
    ensures (t.result.Failure? && t.result.error.ClientError?)
        <==> Classify(response.status, config.allowedErrorCodes) == HardError
    ensures response.json == Malformed && Classify(response.status, config.allowedErrorCodes) != HardError
        ==> t.result == Failure(JsonDecodeError)
  {
    var check := CheckResponseSpec(loggerPresent, fmt, config, response);
    if check.error.Some? then Trace(check.events, Failure(ClientError(check.error.value)))
    else
      var events := check.events + LogRequestEvents(loggerPresent, fmt, config, response, DEBUG);
      match response.json
      case Malformed => Trace(events, Failure(JsonDecodeError))
      case Parsed(j) => Trace(events, ParseResponse(config.returnType, j, validate))
  }

  /**
   * make_request as the no-value shortcut evidently means it: after check and
   * log, a `type(None)` return type returns None before `response.json()` is
   * called; any other return type is decoded and parsed as written.
   */
  function RequestSpecIntended<V>(loggerPresent: bool, fmt: Formatting, config: RequestConfig, response: Response,
                                  validate: (string, Json) -> Result<V, string>): (t: Trace<V>)
    ensures t.events == RequestSpec(loggerPresent, fmt, config, response, validate).events
    ensures Classify(response.status, config.allowedErrorCodes) == HardError ==>
      t == RequestSpec(loggerPresent, fmt, config, response, validate)
    ensures Classify(response.status, config.allowedErrorCodes) != HardError && config.returnType == NoneType ==>
      t.result == Success(NoValue)
    ensures config.returnType != NoneType ==> t == RequestSpec(loggerPresent, fmt, config, response, validate)
  {
    var t := RequestSpec(loggerPresent, fmt, config, response, validate);
    if Classify(response.status, config.allowedErrorCodes) != HardError && config.returnType == NoneType then
      Trace(t.events, ParseResponseIntended(config.returnType, JNull, validate))
    else t
  }

  /** The logging sink: records every (level, message) it is given, in order. */
  class Logger {
    var events: seq<LogEvent>

    constructor ()
      ensures events == []
    {
      events := [];
    }

    method Log(level: int, message: string)
      modifies this
      ensures events == old(events) + [LogEvent(level, message)]
    {
      events := events + [LogEvent(level, message)];
    }
  }

  /** BaseApiClient: base url, optional logger and headers, fixed at construction. */
  class BaseApiClient {
    const baseUrl: string
    const logger: Logger?
    const headers: map<string, string>
    const fmt: Formatting

    constructor (baseUrl: string, logger: Logger?, headers: Option<map<string, string>>, fmt: Formatting)
      ensures this.baseUrl == baseUrl && this.logger == logger && this.fmt == fmt
      ensures headers == None ==> this.headers == map[]
      ensures headers != None ==> this.headers == headers.value
    {
      this.baseUrl := baseUrl;
      this.logger := logger;
      this.headers := headers.GetOr(map[]);
      this.fmt := fmt;
    }

    /** The absolute url: the base url followed by `url`, byte for byte, no separator added or removed. */
    function GetUrl(url: string): (r: string)
      ensures |r| == |baseUrl| + |url|
      ensures r[..|baseUrl|] == baseUrl && r[|baseUrl|..] == url
    {
      baseUrl + url
    }

    method LogRequest(response: Response, config: RequestConfig, level: int)
      modifies logger
      ensures logger != null ==>
        logger.events == old(logger.events) + LogRequestEvents(true, fmt, config, response, level)
    {
      if logger == null {
        return;
      }
      var status, content := response.status, response.text;
      var message := LogMessage(fmt, config, status, content);
      logger.Log(level, message);
    }

    /** Returns the error that check_response raises, or None when it returns normally. */
    method CheckResponse(response: Response, config: RequestConfig) returns (raised: Option<ApiClientError>)
      modifies logger
      ensures raised == CheckResponseSpec(logger != null, fmt, config, response).error
      ensures logger != null ==>
        logger.events == old(logger.events) + CheckResponseSpec(true, fmt, config, response).events
    {
      var status, text := response.status, response.text;
      if status < 400 {
        return None;
      }
      if status !in config.allowedErrorCodes {
        LogRequest(response, config, ERROR);
        return Some(ApiClientError(config, status, text));
      }
      return None;
    }

    method MakeRequest<V(==)>(config: RequestConfig, transport: HttpRequest -> Response,
                              validate: (string, Json) -> Result<V, string>)
      returns (r: Result<Value<V>, RequestError>)
      modifies logger
      ensures var response := transport(HttpRequest(config.httpMethod, GetUrl(config.url), config.payload, headers));
        var trace := RequestSpec(logger != null, fmt, config, response, validate);
        r == trace.result &&
        (logger != null ==> logger.events == old(logger.events) + trace.events)
    {
      // The body is read once here; check, log and json() all see this one response.
      var response := transport(HttpRequest(config.httpMethod, GetUrl(config.url), config.payload, headers));
      var raised := CheckResponse(response, config);
      if raised.Some? {
        return Failure(ClientError(raised.value));
      }
      LogRequest(response, config, DEBUG);
      match response.json
      case Malformed =>
        r := Failure(JsonDecodeError);
      case Parsed(j) =>
        r := ParseResponse(config.returnType, j, validate);
    }
  }
}
