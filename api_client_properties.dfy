/**
 * What one make_request call promises, stated over RequestSpec (which
 * BaseApiClient.MakeRequest is proved to follow): how many log events, at
 * which level, which error, and whether parsing is reached.
 */
module ApiClientProperties {
  import opened Wrappers
  import opened Decimal
  import opened Requests
  import opened ApiClient

  /** The level of the single log event: ERROR exactly on the hard-error path, DEBUG otherwise. */
  function ExpectedLevel(config: RequestConfig, response: Response): int {
    if Classify(response.status, config.allowedErrorCodes) == HardError then ERROR else DEBUG
  }

  /**
   * Exactly one log event per call when a logger is present, none otherwise;
   * its message is the same rendering on both paths, only the level differs.
   */
  lemma RequestLogsOnce<V>(loggerPresent: bool, fmt: Formatting, config: RequestConfig, response: Response,
                           validate: (string, Json) -> Result<V, string>)
    ensures var t := RequestSpec(loggerPresent, fmt, config, response, validate);
      |t.events| == (if loggerPresent then 1 else 0) &&
      (loggerPresent ==> t.events[0] == LogEvent(ExpectedLevel(config, response),
                                                 LogMessage(fmt, config, response.status, response.text)))
  {
  }

  /**
   * A status of 400 or more that is not listed raises the client error built
   * from this config, status and body, whose string form is the bracketed
   * status and the body; no DEBUG event is written.
   */
  lemma HardErrorRaises<V>(loggerPresent: bool, fmt: Formatting, config: RequestConfig, response: Response,
                           validate: (string, Json) -> Result<V, string>)
    requires 400 <= response.status && response.status !in config.allowedErrorCodes
    ensures var t := RequestSpec(loggerPresent, fmt, config, response, validate);
      t.result == Failure(ClientError(ApiClientError(config, response.status, response.text))) &&
      ErrorString(t.result.error.error)
        == "[" + IntToString(response.status) + "] " + OrNoContent(response.text) &&
      forall k :: 0 <= k < |t.events| ==> t.events[k].level == ERROR
  {
  }

  /** On the hard-error path parsing is never reached: the validator cannot influence the trace. */
  lemma HardErrorNeverParses<V>(loggerPresent: bool, fmt: Formatting, config: RequestConfig, response: Response,
                                validate1: (string, Json) -> Result<V, string>,
                                validate2: (string, Json) -> Result<V, string>)
    requires Classify(response.status, config.allowedErrorCodes) == HardError
    ensures RequestSpec(loggerPresent, fmt, config, response, validate1)
         == RequestSpec(loggerPresent, fmt, config, response, validate2)
  {
  }

  /**
   * Below 400, or at a listed code, no client error is raised: the DEBUG
   * event is written and the result is what `response.json()` and parsing give.
   */
  lemma NonHardErrorParses<V>(loggerPresent: bool, fmt: Formatting, config: RequestConfig, response: Response,
                              validate: (string, Json) -> Result<V, string>)
    requires response.status < 400 || response.status in config.allowedErrorCodes
    ensures var t := RequestSpec(loggerPresent, fmt, config, response, validate);
      !(t.result.Failure? && t.result.error.ClientError?) &&
      (forall k :: 0 <= k < |t.events| ==> t.events[k].level == DEBUG) &&
      (response.json == Malformed ==> t.result == Failure(JsonDecodeError)) &&
      (response.json.Parsed? ==> t.result == Validate(config.returnType, response.json.value, validate))
  {
  }

  /** Listing more codes as tolerated never turns a call that did not raise into one that does. */
  lemma ToleratingMoreNeverRaises(status: int, fewer: seq<int>, more: seq<int>)
    requires forall code :: code in fewer ==> code in more
    ensures Classify(status, fewer) != HardError ==> Classify(status, more) != HardError
    ensures status < 400 ==> Classify(status, fewer) == Classify(status, more)
  {
  }

  /** DELETE /users/9 answered 404 "not found" with nothing tolerated raises "[404] not found". */
  lemma NotFoundRaises<V>(fmt: Formatting, validate: (string, Json) -> Result<V, string>)
    ensures var config := NewRequestConfig(Delete, "/users/9", None, None, None, map[]);
      var response := Response(404, "not found", Malformed);
      var t := RequestSpec(true, fmt, config, response, validate);
      t.result.Failure? && t.result.error.ClientError? &&
      ErrorString(t.result.error.error) == "[404] not found" &&
      |t.events| == 1 && t.events[0].level == ERROR
  {
    var config := NewRequestConfig(Delete, "/users/9", None, None, None, map[]);
    var response := Response(404, "not found", Malformed);
    assert config.allowedErrorCodes == [];
    var t := RequestSpec(true, fmt, config, response, validate);
    HardErrorRaises(true, fmt, config, response, validate);
    RequestLogsOnce(true, fmt, config, response, validate);
    assert IntToString(404) == "404" by {
      assert NatToString(4) == "4";
      assert NatToString(40) == "40";
    }
    assert ErrorString(ApiClientError(config, 404, "not found")) == "[404] not found";
  }

  /** The same call with 404 tolerated and an empty body parses to None without error. */
  lemma NotFoundTolerated<V>(fmt: Formatting, validate: (string, Json) -> Result<V, string>)
    ensures var config := NewRequestConfig(Delete, "/users/9", None, None, Some([404]), map[]);
      var response := Response(404, "", Parsed(JNull));
      var t := RequestSpec(true, fmt, config, response, validate);
      t.result == Success(NoValue) && |t.events| == 1 && t.events[0].level == DEBUG
  {
  }

  /**
   * With 404 tolerated and the body "not found", `response.json()` fails
   * before parsing as written, so the call raises a decode error; skipping
   * the decode for `type(None)` gives None instead.
   */
  lemma NotFoundToleratedTextBody<V>(fmt: Formatting, validate: (string, Json) -> Result<V, string>)
    ensures var config := NewRequestConfig(Delete, "/users/9", None, None, Some([404]), map[]);
      var response := Response(404, "not found", Malformed);
      RequestSpec(true, fmt, config, response, validate).result == Failure(JsonDecodeError) &&
      RequestSpecIntended(true, fmt, config, response, validate).result == Success(NoValue)
  {
  }
}
