/**
 * The HTTP layer every facade class shares (`DoorayBase` in src/dooray/Dooray.py): the
 * client configuration, the headers and URL of each request, and the classification of
 * the response into success, `BadHttpResponseStatusCode` or `ServerGeneralError`.
 * The transport itself is a parameter: the response a request receives.
 */
module DoorayBase {
  import opened Wrappers
  import opened DoorayExceptions
  import opened Json

  const DefaultEndpoint: string := "https://api.dooray.com"
  const DefaultUserAgent: string := "PyDooray/Python"
  const ServerGeneralErrorText: string := "SERVER_GENERAL_ERROR"

  /**
   * The `external_emails` argument of `get_members`: a string, a list of strings, or
   * `Neither`, which stands for `None` and for a value of any other type (both add no key).
   */
  datatype StrOrList = Str(s: string) | List(items: seq<string>) | Neither

  /** `if v is not None: params[key] = v`. */
  function PutUnlessNull(params: map<string, Json>, key: string, v: Json): map<string, Json>
  {
    if v.JNull? then params else params[key := v]
  }

  /** The statement `if v is not None: params[key] = v`, applied to a dictionary variable. */
  method InsertUnlessNull(params: map<string, Json>, key: string, v: Json) returns (r: map<string, Json>)
    ensures r == PutUnlessNull(params, key, v)
  {
    r := params;
    if !v.JNull? {
      r := r[key := v];
    }
  }

  /** The dictionary after `if v is not None: params[key] = v` for each of the first `n` pairs, in order. */
  function OptionalParams(args: seq<(string, Json)>, n: nat): map<string, Json>
    requires n <= |args|
  {
    if n == 0 then map[] else PutUnlessNull(OptionalParams(args, n - 1), args[n - 1].0, args[n - 1].1)
  }

  predicate DistinctKeys(args: seq<(string, Json)>)
  {
    forall i, j :: 0 <= i < j < |args| ==> args[i].0 != args[j].0
  }

  /**
   * With distinct keys, a key of the first `n` pairs is in the dictionary exactly when its
   * argument is not `None`, with the argument's value, and there are no other keys.
   */
  lemma {:induction false} OptionalParamsSpec(args: seq<(string, Json)>, n: nat)
    requires n <= |args| && DistinctKeys(args)
    ensures forall k :: k in OptionalParams(args, n) ==> exists i :: 0 <= i < n && args[i].0 == k
    ensures forall i :: 0 <= i < n ==> (args[i].0 in OptionalParams(args, n) <==> !args[i].1.JNull?)
    ensures forall i :: 0 <= i < n && !args[i].1.JNull? ==> OptionalParams(args, n)[args[i].0] == args[i].1
  {
    if n > 0 {
      OptionalParamsSpec(args, n - 1);
      forall k | k in OptionalParams(args, n)
        ensures exists i :: 0 <= i < n && args[i].0 == k
      {
        if k != args[n - 1].0 {
          assert k in OptionalParams(args, n - 1);
          var i :| 0 <= i < n - 1 && args[i].0 == k;
        }
      }
    }
  }

  /** A configured client; `userAgent` may be `None`, in which case no agent is sent. */
  datatype Client = Client(token: string, endpoint: string, userAgent: Option<string>)

  /**
   * `DoorayBase(token, endpoint, user_agent)`: token and endpoint must be strings, the
   * user agent a string or `None`; anything else is an assertion failure.
   */
  function NewClient(token: Json, endpoint: Json, userAgent: Json): (r: Result<Client, Error>)
    ensures r.Ok? <==> token.JStr? && endpoint.JStr? && (userAgent.JNull? || userAgent.JStr?)
    ensures r.Ok? ==>
      && r.value.token == token.s && r.value.endpoint == endpoint.s
      && r.value.userAgent == (if userAgent.JStr? then Some(userAgent.s) else None)
    ensures r.Err? ==> r.error == AssertionError
  {
    if !token.JStr? then Err(AssertionError)
    else if !endpoint.JStr? then Err(AssertionError)
    else if !(userAgent.JNull? || userAgent.JStr?) then Err(AssertionError)
    else Ok(Client(token.s, endpoint.s, if userAgent.JStr? then Some(userAgent.s) else None))
  }

  /** A client built with every default but the token. */
  lemma DefaultClient(token: string)
    ensures NewClient(JStr(token), JStr(DefaultEndpoint), JStr(DefaultUserAgent))
            == Ok(Client(token, "https://api.dooray.com", Some("PyDooray/Python")))
  {
  }

  /** `self._request_header`: the authorisation and the user agent. */
  function ClientHeaders(c: Client): (h: map<string, Option<string>>)
    ensures h.Keys == {"Authorization", "User-Agent"}
    ensures h["Authorization"] == Some("dooray-api " + c.token) && h["User-Agent"] == c.userAgent
  {
    map["Authorization" := Some("dooray-api " + c.token), "User-Agent" := c.userAgent]
  }

  /** An outgoing request: HTTP method (`verb`), full URL, headers, query parameters and JSON body. */
  datatype Request = Request(
    verb: string, url: string, headers: map<string, Option<string>>,
    params: map<string, Json>, body: Option<Json>)

  /**
   * The request `_request(method, path, ...)` sends: to `endpoint + path`, with the caller's
   * headers (if any) updated by the client's, so the client's values win on a clash and
   * every other caller header is kept.
   */
  function BuildRequest(
    c: Client, verb: string, path: string, callerHeaders: Option<map<string, Option<string>>>,
    params: map<string, Json>, body: Option<Json>): (r: Request)
    ensures r.verb == verb && r.url == c.endpoint + path && r.params == params && r.body == body
    ensures r.headers.Keys == ClientHeaders(c).Keys + (if callerHeaders.Some? then callerHeaders.value.Keys else {})
    ensures r.headers["Authorization"] == Some("dooray-api " + c.token) && r.headers["User-Agent"] == c.userAgent
    ensures callerHeaders.Some? ==>
      forall k :: k in callerHeaders.value && k !in ClientHeaders(c) ==> r.headers[k] == callerHeaders.value[k]
  {
    var headers := if callerHeaders.Some? then callerHeaders.value + ClientHeaders(c) else ClientHeaders(c);
    Request(verb, c.endpoint + path, headers, params, body)
  }

  /** The response a request receives: status code, body text and the body parsed as JSON, if it parses. */
  datatype HttpResponse = HttpResponse(status: int, text: string, json: Option<Json>)

  /**
   * The checks `_request` applies: a status other than 200 raises `BadHttpResponseStatusCode`
   * whatever the body; a 200 whose text is exactly `SERVER_GENERAL_ERROR` raises
   * `ServerGeneralError`; anything else is returned as it is.
   */
  function CheckResponse(resp: HttpResponse): (r: Result<HttpResponse, Error>)
    ensures r.Ok? <==> resp.status == 200 && resp.text != ServerGeneralErrorText
    ensures r.Ok? ==> r.value == resp
    ensures resp.status != 200 ==> r == Err(Dooray(BadHttpResponseStatusCode(resp.status)))
    ensures resp.status == 200 && resp.text == ServerGeneralErrorText ==> r == Err(Dooray(ServerGeneralError))
  {
    if resp.status != 200 then Err(Dooray(BadHttpResponseStatusCode(resp.status)))
    else if resp.text == ServerGeneralErrorText then Err(Dooray(ServerGeneralError))
    else Ok(resp)
  }

  /** Every error `_request` raises is a `DoorayException`, and its message names the status code. */
  lemma CheckResponseRaisesDoorayException(resp: HttpResponse)
    requires CheckResponse(resp).Err?
    ensures Catches(DoorayExceptionClass, CheckResponse(resp).error)
    ensures resp.status != 200 ==>
      var m := Message(CheckResponse(resp).error.exception);
      StatusCodeMessagePrefix <= m && ParseInt(m[|StatusCodeMessagePrefix|..]) == Some(resp.status)
  {
  }

  /** `resp.json()`: the parsed body, or a decoding error when the text is not JSON. */
  function ResponseJson(resp: HttpResponse): (r: Result<Json, Error>)
    ensures r.Ok? <==> resp.json.Some?
    ensures r.Ok? ==> r.value == resp.json.value
    ensures r.Err? ==> r.error == JsonDecodeError
  {
    if resp.json.Some? then Ok(resp.json.value) else Err(JsonDecodeError)
  }

  /**
   * A facade call: the request it sent (`None` when it raised before sending one) and what
   * it returned or raised.
   */
  datatype Call<T> = Call(request: Option<Request>, outcome: Result<T, Error>)

  /**
   * `outcome` is what a facade method returns or raises once its request was answered with
   * `resp` and the body is decoded with `decode`: the errors of `_request` first (a bad
   * status before the body text), then that of `resp.json()`, then the decoder's result.
   */
  predicate Handles<T(==)>(outcome: Result<T, Error>, resp: HttpResponse, decode: Json -> Result<T, Error>)
  {
    if resp.status != 200 then outcome == Err(Dooray(BadHttpResponseStatusCode(resp.status)))
    else if resp.text == ServerGeneralErrorText then outcome == Err(Dooray(ServerGeneralError))
    else if resp.json.None? then outcome == Err(JsonDecodeError)
    else outcome == decode(resp.json.value)
  }

  /** A facade call that sends `req` and handles the answer `resp` with `decode`. */
  function Exchange<T(==)>(req: Request, resp: HttpResponse, decode: Json -> Result<T, Error>): (r: Call<T>)
    ensures r.request == Some(req)
    ensures r.outcome.Ok? <==> CheckResponse(resp).Ok? && resp.json.Some? && decode(resp.json.value).Ok?
    ensures Handles(r.outcome, resp, decode)
  {
    Call(Some(req), Receive(resp, decode))
  }

  /** The outcome half of `Exchange`. */
  function Receive<T>(resp: HttpResponse, decode: Json -> Result<T, Error>): Result<T, Error>
  {
    var checked :- CheckResponse(resp);
    var data :- ResponseJson(checked);
    decode(data)
  }
}
