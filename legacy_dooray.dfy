/**
 * The older facade (dooray/Dooray.py). Its constructor makes the same checks and headers as
 * `DoorayBase.NewClient`; `_request` takes a full URL and checks only the status code;
 * `get_members` prefixes the endpoint itself and keeps the caller's paging.
 */
module LegacyDooray {
  import opened Wrappers
  import opened DoorayExceptions
  import opened Json
  import opened DoorayObjects
  import opened DoorayBase
  import opened DoorayCommon
  import opened LegacyDoorayObjects
  import opened LegacyMember

  /** The older `_request(method, url, ...)`: the URL is sent as it is given, with the same header merge. */
  function LegacyBuildRequest(
    c: Client, verb: string, url: string, callerHeaders: Option<map<string, Option<string>>>,
    params: map<string, Json>, body: Option<Json>): (r: Request)
    ensures r.verb == verb && r.url == url && r.params == params && r.body == body
    ensures r.headers.Keys == ClientHeaders(c).Keys + (if callerHeaders.Some? then callerHeaders.value.Keys else {})
    ensures r.headers["Authorization"] == Some("dooray-api " + c.token) && r.headers["User-Agent"] == c.userAgent
    ensures callerHeaders.Some? ==>
      forall k :: k in callerHeaders.value && k !in ClientHeaders(c) ==> r.headers[k] == callerHeaders.value[k]
  {
    var headers := if callerHeaders.Some? then callerHeaders.value + ClientHeaders(c) else ClientHeaders(c);
    Request(verb, url, headers, params, body)
  }

  /** Given the endpoint-prefixed URL, the older request is the newer one for the bare path. */
  lemma LegacyRequestIsPrefixedRequest(
    c: Client, verb: string, path: string, callerHeaders: Option<map<string, Option<string>>>,
    params: map<string, Json>, body: Option<Json>)
    ensures LegacyBuildRequest(c, verb, c.endpoint + path, callerHeaders, params, body)
         == BuildRequest(c, verb, path, callerHeaders, params, body)
  {
  }

  /** The older checks: a status other than 200 raises `BadHttpResponseStatusCode`; nothing else does. */
  function LegacyCheckResponse(resp: HttpResponse): (r: Result<HttpResponse, Error>)
    ensures r.Ok? <==> resp.status == 200
    ensures r.Ok? ==> r.value == resp
    ensures r.Err? ==> r.error == Dooray(BadHttpResponseStatusCode(resp.status))
  {
    if resp.status != 200 then Err(Dooray(BadHttpResponseStatusCode(resp.status))) else Ok(resp)
  }

  /**
   * The two checks agree except on a 200 whose text is `SERVER_GENERAL_ERROR`: the older one
   * returns it, the newer one raises `ServerGeneralError`.
   */
  lemma ChecksDifferOnlyOnServerGeneralError(resp: HttpResponse)
    ensures resp.status == 200 && resp.text == ServerGeneralErrorText ==>
      LegacyCheckResponse(resp) == Ok(resp) && CheckResponse(resp) == Err(Dooray(ServerGeneralError))
    ensures !(resp.status == 200 && resp.text == ServerGeneralErrorText) ==> LegacyCheckResponse(resp) == CheckResponse(resp)
  {
  }

  /**
   * The older `get_members(...)`: the same query as the newer one, a GET of
   * `endpoint + '/common/v1/members'`, and the body decoded with the older list envelope and
   * member decoder with the caller's `page` and `size`.
   */
  method LegacyGetMembers(
    c: Client, name: Json, userCode: Json, userCodeExact: Json, idProviderUserId: Json,
    externalEmails: StrOrList, page: Json, size: Json, resp: HttpResponse)
    returns (r: Call<DoorayListResponse<LegacyMember>>)
    ensures r.request == Some(Request("GET", c.endpoint + "/common/v1/members", ClientHeaders(c),
                                      MembersQuery(name, userCode, userCodeExact, idProviderUserId, externalEmails, page, size), None))
    ensures resp.status != 200 ==> r.outcome == Err(Dooray(BadHttpResponseStatusCode(resp.status)))
    ensures resp.status == 200 && resp.json.None? ==> r.outcome == Err(JsonDecodeError)
    ensures resp.status == 200 && resp.json.Some? ==>
      r.outcome == DecodeLegacyListResponse(resp.json.value, DecodeLegacyMember, page, size)
  {
    var params := BuildMembersQuery(name, userCode, userCodeExact, idProviderUserId, externalEmails, page, size);
    var req := LegacyBuildRequest(c, "GET", c.endpoint + "/common/v1/members", None, params, None);
    var checked := LegacyCheckResponse(resp);
    if checked.Err? {
      return Call(Some(req), Err(checked.error));
    }
    var data := ResponseJson(resp);
    if data.Err? {
      return Call(Some(req), Err(data.error));
    }
    var result := NewLegacyListResponse(data.value, DecodeLegacyMember, page, size);
    r := Call(Some(req), result);
  }
}
