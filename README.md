# api-client2 request executor, modelled in Dafny

This project models the core of a small asynchronous HTTP client wrapper:
the request descriptor (`GenericRequestConfig` and the `HttpMethod` enum), the
client error and its string form, the status classifier (`check_response`),
the diagnostic log message (`log_request`), the response parser
(`parse_response`), the URL join (`get_url`) and the order in which
`make_request` runs its steps: send, read the body once, check, log at DEBUG,
decode JSON, parse.

Layout:

- `wrappers.dfy` (`Wrappers`): `Option` and `Result`. A `Failure` result stands for a raised exception.
- `decimal.dfy` (`Decimal`): Python's `str(int)` as used for the status in both renderers, with its inverse and a round-trip proof.
- `requests.dfy` (`Requests`): `HttpMethod`, JSON payload values with Python truthiness, `ReturnType` and `RequestConfig` with its defaulting constructor.
- `api_client.dfy` (`ApiClient`): the error, the classifier, the log message, the parser, and `RequestSpec`, a function giving the log events and outcome of one call. It also holds two classes. `Logger` is the logging sink. `BaseApiClient` has fields set once at construction; its methods `CheckResponse`, `LogRequest` and `MakeRequest` append to the logger and are proved to follow the spec functions.
- `api_client_properties.dfy` (`ApiClientProperties`): lemmas over `RequestSpec`. Each call logs exactly once when a logger is present. ERROR is used exactly on the hard-error path. Parsing is never reached after a hard error. Two 404 scenarios are checked.

Things outside the model enter as parameters:

- the transport, a function from `HttpRequest` (method, absolute URL, payload, headers) to `Response` (status, body text, outcome of `response.json()`);
- the pydantic validator for declared result types, `(name, json) -> Result`;
- a `Formatting` record with the interpreter's rendering of `f"{config.method}"` and of `json.dumps(payload, ensure_ascii=False, indent=2)`.

A logger that is absent is `null` (Python: a falsy `self.logger`). The log levels are Python's numeric `DEBUG = 10` and `ERROR = 40`.

`MakeRequest` follows the code as written. That includes `parse_response`'s dead no-value shortcut, so a `type(None)` result type is still validated and only JSON null passes. So a declared "no value" result does not ignore the body. Fixing the guard in `parse_response` is not enough on its own, because `make_request` calls `response.json()` before `parse_response` (base_client.py:91). A body that is not JSON, such as "not found", therefore still fails to decode. The finding below records this. It gives the corrected parser `ParseResponseIntended` and the corrected pipeline `RequestSpecIntended`, which returns None for `type(None)` without calling `response.json()`, each with its property proved. The executor itself keeps the as-written steps so that its trace matches the code.

## Model

| member | source | states |
|---|---|---|
| Decimal.IntToString | base_client.py:21 | the status is rendered as an optional '-' followed by digits only |
| Decimal.IntToStringRoundTrip | base_client.py:21 | reading back the rendered status gives the same integer |
| Decimal.IntToStringInjective | base_client.py:21 | distinct statuses render to distinct strings |
| Requests.WireValue | request_config.py:9-14 | each method's wire value is a non-empty lower-case word |
| Requests.WireValueRoundTrip | request_config.py:9-14 | the enum is closed (every member is one of the five); lookup by value `HttpMethod(s)` succeeds exactly on the five wire values and inverts them |
| Requests.WireValueInjective | request_config.py:9-14 | the five wire values are pairwise distinct |
| Requests.FromWire | request_config.py:9-14 | lookup by value `HttpMethod(s)`: a found member has wire value `s`; None (Python's ValueError) exactly when no member has that wire value |
| Requests.Truthy | base_client.py:73 | `if config.payload:` is false exactly for None, False, 0, 0.0, "", [] and {} |
| Requests.NewRequestConfig | request_config.py:18-32 | method, url and the query keywords are stored unchanged. An omitted return type becomes `type(None)` and an omitted payload becomes None. The stored allowed codes are the given list, or the empty list for None. A code is allowed exactly when it was in the given list. The constructor accepts every input |
| Requests.EmptyAllowedCodesLikeNone | request_config.py:31 | because of `or []`, an explicit empty list and None build equal configs |
| ApiClient.OrNoContent | base_client.py:20-21 | a non-empty body is kept and an empty one becomes `*no content*` |
| ApiClient.ErrorString | base_client.py:20-21 | `str(error)` is `"[" + str(status) + "] " + text`, or `"[" + str(status) + "] *no content*"` when the text is empty |
| ApiClient.ErrorStringStatusRoundTrip | base_client.py:20-21 | the status is read back from the string form by taking what lies between '[' and the first ']'; after "] " comes the body or the marker |
| ApiClient.ErrorStringDeterminesStatus | base_client.py:20-21 | errors with equal string forms have equal statuses and equal rendered bodies |
| ApiClient.Classify | base_client.py:48-53 | success iff status < 400; tolerated iff status >= 400 and listed (exact integer match); hard error iff status >= 400 and not listed |
| ApiClient.LogMessage | base_client.py:72-76 | the message starts with `"[" + method + "] -> " + status + "\nURL: " + config.url + "\n"` (the relative url). A PAYLOAD section follows the header iff the payload is truthy, and it holds the pretty-printed payload. The message ends with `"RESP:\n"` followed by the body or `*no content*`. Its length is the sum of these parts |
| ApiClient.CheckResponseSpec | base_client.py:41-53 | below 400, or at a listed code, there is no event and no error. Otherwise it raises an error carrying exactly that config, status and text. Before that it logs one ERROR event if a logger is present |
| ApiClient.LogRequestEvents | base_client.py:67-77 | without a logger nothing is emitted. With one, exactly one event at the given level carrying `LogMessage` of the config, status and body |
| ApiClient.Validate | base_client.py:59 | for `type(None)` only JSON null validates, and anything else fails with `none_required`. For a declared type, the validator's verdict is passed through |
| ApiClient.TypeOf | base_client.py:56 | `type(return_type)` is never None |
| ApiClient.ParseResponse | base_client.py:55-59 | as written: for `type(None)` it succeeds exactly when the JSON is null; for a declared type it succeeds exactly when the validator accepts |
| ApiClient.ParseResponseAlwaysValidates | base_client.py:55-59 | the `type(...) is None` shortcut is never taken, so every result comes from the validator |
| ApiClient.ParseResponseRejectsIgnoredBody | base_client.py:56-59 | as written, an omitted return type and the body `{"id": 1}` give a validation error. The corrected parser gives None |
| ApiClient.ParseResponseIntended | base_client.py:56-57 | corrected parser: a `type(None)` return type yields None whatever the body; for any other type it agrees with the code as written |
| ApiClient.RequestSpec | base_client.py:79-91 | a call fails with a client error exactly on the hard-error path. Otherwise, malformed JSON gives a decode error |
| ApiClient.RequestSpecIntended | base_client.py:88-91 | corrected pipeline. It logs the same events as the code. After a hard error it behaves as the code does. Otherwise a `type(None)` return type gives None, whatever the body and even when the body is not JSON. Any other return type behaves as the code |
| ApiClient.Logger.Log | base_client.py:77 | the sink appends exactly one (level, message) event |
| ApiClient.BaseApiClient.constructor | base_client.py:27-35 | base url, logger and formatting are stored. The headers are stored, or `{}` when None |
| ApiClient.BaseApiClient.GetUrl | base_client.py:37-39 | the absolute url is the base url followed by the relative url, byte for byte: no separator is added or removed |
| ApiClient.BaseApiClient.LogRequest | base_client.py:61-77 | without a logger nothing is written. With one, exactly one event at the given level carrying `LogMessage` is appended |
| ApiClient.BaseApiClient.CheckResponse | base_client.py:41-53 | the error returned and the events appended are those of `CheckResponseSpec` |
| ApiClient.BaseApiClient.MakeRequest | base_client.py:79-91 | the transport receives the config's method, `GetUrl(config.url)`, the payload and the client headers. The result and the appended events are those of `RequestSpec` on the transport's response |
| ApiClientProperties.RequestLogsOnce | base_client.py:88-91 | with a logger, exactly one event per call; without one, none. The level is ERROR exactly on the hard-error path and DEBUG otherwise. The message is the same rendering on both paths |
| ApiClientProperties.HardErrorRaises | base_client.py:51-53 | for an unlisted status >= 400, the call fails with the client error built from that config, status and text. Its string form is `[status] body-or-marker`, and every event is at ERROR (no DEBUG event) |
| ApiClientProperties.HardErrorNeverParses | base_client.py:89-91 | on the hard-error path the trace is independent of the validator: parsing is never reached |
| ApiClientProperties.NonHardErrorParses | base_client.py:88-91 | below 400, or at a listed code, no client error is raised and every event is DEBUG. Malformed JSON gives a decode error; otherwise the result is the validator's |
| ApiClientProperties.ToleratingMoreNeverRaises | base_client.py:48-53 | listing more tolerated codes never turns a call that did not raise into one that raises. Below 400 the list is irrelevant |
| ApiClientProperties.NotFoundRaises | base_client.py:79-91 | DELETE "/users/9" answered 404 "not found" with no tolerated codes raises an error whose string is "[404] not found", after one ERROR event |
| ApiClientProperties.NotFoundTolerated | base_client.py:79-91 | the same call with 404 tolerated and an empty body (which `response.json()` reads as null) returns None, after one DEBUG event |
| ApiClientProperties.NotFoundToleratedTextBody | base_client.py:88-91 | with 404 tolerated and the body "not found", the code fails with a decode error from `response.json()`; the corrected pipeline returns None |

## Left out

- Network I/O (`ClientSession`, `session.request`, `response.read()/text()/json()`): the transport is a function from the outgoing request to a response that has already been read. The response holds the body text and the outcome of `response.json()` as two independent fields. The model does not tie the JSON outcome to the text, so aiohttp's decoding of the cached body is not captured. Because both are plain values, reading either twice gives the same result. Connection errors and aiohttp's content-type check on `json()` are not modelled, apart from a `Malformed` JSON outcome.
- The async/await suspension points and concurrency: the model is the sequential order of the steps.
- pydantic `TypeAdapter(...).validate_python` for declared types: this is a validator parameter. Only its `type(None)` case is concrete (only None validates).
- `json.dumps(..., ensure_ascii=False, indent=2)` and the text of `f"{config.method}"`, which depends on the Python version: both are fields of the `Formatting` parameter.
- The `print` in `get_url` (a stdout side effect).
- The `api_client_error_class` hook (base_client.py:25): the error class is always `BaseApiClientError`.
- `logging.Logger` level filtering, handlers and formatting: the sink records every event it is given.
- Aliasing: `allowed_error_codes or []` keeps the caller's list object when it is non-empty. Later mutation through that alias is not modelled, because configs are values.
- JSON floats are exact reals. NaN, infinities and rounding are not modelled; a float only matters for truthiness and is otherwise passed through.
- Python's keyword-argument binding rules for `**query_args` (a keyword that names a parameter) belong to the language's calling convention and are not modelled.
- `RequestConfig` (request_config.py:35-36) is an empty subclass and adds nothing.

## Findings

| source | as written | input that shows it | evidently intended | confidence | as-written member | corrected member |
|---|---|---|---|---|---|---|
| base_client.py:56-57 | `type(config.return_type) is None` is never true, since `type` of a class is its metaclass. So a `type(None)` return type is sent to pydantic, which accepts only None | return type omitted, status 200, body `{"id": 1}`: a validation error is raised | test `config.return_type is type(None)` and return None. For a body that is not JSON, `make_request` must also skip `response.json()` (base_client.py:91). `ParseResponseIntended` fixes the guard and `RequestSpecIntended` fixes the pipeline | medium, not executed | ApiClient.ParseResponseRejectsIgnoredBody | ApiClient.RequestSpecIntended |
