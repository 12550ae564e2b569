/**
 * The request descriptor: the closed set of HTTP methods, the JSON values a
 * payload may hold, and the configuration value built once per call.
 */
module Requests {
  import opened Wrappers

  /** The five HTTP methods a request may use; the enum is closed. */
  datatype HttpMethod = Get | Post | Put | Patch | Delete

  const AllMethods: set<HttpMethod> := {Get, Post, Put, Patch, Delete}

  /** The wire value each member carries as a `str` enum. */
  function WireValue(m: HttpMethod): (s: string)
    ensures s != [] && forall k :: 0 <= k < |s| ==> 'a' <= s[k] <= 'z'
  {
    match m
    case Get => "get"
    case Post => "post"
    case Put => "put"
    case Patch => "patch"
    case Delete => "delete"
  }

  /** Lookup by value, `HttpMethod(s)`: None where Python raises ValueError. */
  function FromWire(s: string): (r: Option<HttpMethod>)
    ensures r.Some? ==> WireValue(r.value) == s
    ensures r.None? ==> forall m :: WireValue(m) != s
  {
    if s == "get" then Some(Get)
    else if s == "post" then Some(Post)
    else if s == "put" then Some(Put)
    else if s == "patch" then Some(Patch)
    else if s == "delete" then Some(Delete)
    else None
  }

  /** Every method is one of the five, and lookup by value inverts WireValue exactly. */
  lemma WireValueRoundTrip(m: HttpMethod, s: string)
    ensures m in AllMethods
    ensures FromWire(s) == Some(m) <==> WireValue(m) == s
  {
  }

  /** The five wire values are pairwise distinct. */
  lemma WireValueInjective(m1: HttpMethod, m2: HttpMethod)
    ensures WireValue(m1) == WireValue(m2) ==> m1 == m2
  {
    WireValueRoundTrip(m1, WireValue(m2));
  }

  /**
   * A JSON-compatible Python value: dict, list, str, int, float, bool or None.
   * Floats are kept as exact reals; they are only passed through or rendered.
   */
  datatype Json =
    | JNull
    | JBool(b: bool)
    | JInt(i: int)
    | JFloat(f: real)
    | JString(s: string)
    | JArray(items: seq<Json>)
    | JObject(fields: map<string, Json>)

  /** Python truthiness of a JSON value: None, False, 0, 0.0 and empty containers are false. */
  predicate Truthy(j: Json)
    ensures !Truthy(j) <==>
      j in {JNull, JBool(false), JInt(0), JFloat(0.0), JString(""), JArray([]), JObject(map[])}
  {
    match j
    case JNull => false
    case JBool(b) => b
    case JInt(i) => i != 0
    case JFloat(f) => f != 0.0
    case JString(s) => s != ""
    case JArray(items) => items != []
    case JObject(fields) => fields != map[]
  }

  /** The declared result type: `type(None)` or some other type that pydantic validates by name. */
  datatype ReturnType = NoneType | Declared(name: string)

  /** GenericRequestConfig: fields assigned once in the initialiser and never mutated. */
  datatype RequestConfig = RequestConfig(
    httpMethod: HttpMethod,
    url: string,
    payload: Json,
    returnType: ReturnType,
    allowedErrorCodes: seq<int>,
    queryArgs: map<string, string>)

  /**
   * The initialiser. An omitted argument is None here; Python's default
   * (`type(None)`, `None`, `None`) takes its place, and `allowed_error_codes`
   * goes through `or []`. It accepts every input and validates nothing.
   */
  function NewRequestConfig(
    httpMethod: HttpMethod,
    url: string,
    returnType: Option<ReturnType>,
    payload: Option<Json>,
    allowedErrorCodes: Option<seq<int>>,
    queryArgs: map<string, string>): (c: RequestConfig)
    ensures c.httpMethod == httpMethod && c.url == url && c.queryArgs == queryArgs
    ensures returnType == None ==> c.returnType == NoneType
    ensures returnType != None ==> c.returnType == returnType.value
    ensures payload == None ==> c.payload == JNull
    ensures payload != None ==> c.payload == payload.value
    ensures c.allowedErrorCodes == allowedErrorCodes.GetOr([])
    ensures forall code :: code in c.allowedErrorCodes <==>
      allowedErrorCodes != None && code in allowedErrorCodes.value
  {
    var codes := if allowedErrorCodes == None || allowedErrorCodes.value == [] then [] else allowedErrorCodes.value;
    RequestConfig(httpMethod, url, payload.GetOr(JNull), returnType.GetOr(NoneType), codes, queryArgs)
  }

  /** `or []` turns an explicit empty list into a (new) empty list, so None and [] configure alike. */
  lemma EmptyAllowedCodesLikeNone(
    httpMethod: HttpMethod, url: string, returnType: Option<ReturnType>, payload: Option<Json>,
    queryArgs: map<string, string>)
    ensures NewRequestConfig(httpMethod, url, returnType, payload, Some([]), queryArgs)
         == NewRequestConfig(httpMethod, url, returnType, payload, None, queryArgs)
  {
  }
}
