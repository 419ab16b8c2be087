/**
 * The `DoorayProject` facade class (src/dooray/Dooray.py): project creation and lookup,
 * workflows, e-mail addresses, tags, milestones, hooks, members and member groups.
 * The decoders of milestones, project members and member groups are not part of this model;
 * the calls that use them take the decoder as a parameter.
 */
module DoorayProject {
  import opened Wrappers
  import opened DoorayExceptions
  import opened Json
  import opened DoorayObjects
  import opened Project
  import opened DoorayBase

  // ---- is_creatable

  /**
   * `is_creatable(code)`: POSTs `{code}` to `/project/v1/projects/is-creatable` and catches
   * `BadHttpResponseStatusCode` only. So the answer is `False` exactly for a bad status,
   * `True` exactly when `_request` returns, and the raised error otherwise, which can only be
   * `ServerGeneralError`. The body is never parsed.
   */
  function IsCreatable(p: Client, code: Json, resp: HttpResponse): (r: Call<bool>)
    ensures r.request == Some(Request("POST", p.endpoint + "/project/v1/projects/is-creatable", ClientHeaders(p), map[],
                                      Some(JObj(map["code" := code]))))
    ensures r.outcome == Ok(false) <==> resp.status != 200
    ensures r.outcome == Ok(true) <==> CheckResponse(resp).Ok?
    ensures r.outcome.Err? <==> resp.status == 200 && resp.text == ServerGeneralErrorText
    ensures r.outcome.Err? ==> r.outcome.error == Dooray(ServerGeneralError)
  {
    var req := BuildRequest(p, "POST", "/project/v1/projects/is-creatable", None, map[], Some(JObj(map["code" := code])));
    match CheckResponse(resp)
    case Ok(_) => Call(Some(req), Ok(true))
    case Err(e) => if Catches(BadHttpResponseStatusCodeClass, e) then Call(Some(req), Ok(false)) else Call(Some(req), Err(e))
  }

  /** Whatever `is_creatable` raises is a `DoorayException` that a `BadHttpResponseStatusCode` handler would not catch. */
  lemma IsCreatableLetsOnlyServerGeneralErrorThrough(p: Client, code: Json, resp: HttpResponse)
    requires IsCreatable(p, code, resp).outcome.Err?
    ensures Catches(DoorayExceptionClass, IsCreatable(p, code, resp).outcome.error)
    ensures !Catches(BadHttpResponseStatusCodeClass, IsCreatable(p, code, resp).outcome.error)
    ensures CheckResponse(resp) == Err(IsCreatable(p, code, resp).outcome.error)
  {
  }

  // ---- Projects

  const DefaultScope: string := "private"

  /** `create(code, description, scope)`: a POST of `{code, description, scope}`, decoded as the new project's `Relation`. */
  function CreateProject(p: Client, code: Json, description: Json, scope: Json, resp: HttpResponse)
    : (r: Call<DoorayResponse<Relation>>)
    ensures r.request == Some(Request("POST", p.endpoint + "/project/v1/projects", ClientHeaders(p), map[],
                                      Some(JObj(map["code" := code, "description" := description, "scope" := scope]))))
    ensures Handles(r.outcome, resp, data => DecodeResponse(data, Some(DecodeRelation)))
  {
    Exchange(BuildRequest(p, "POST", "/project/v1/projects", None, map[], Some(JObj(map["code" := code, "description" := description, "scope" := scope]))),
             resp, data => DecodeResponse(data, Some(DecodeRelation)))
  }

  /** `create` with its default scope sends `scope: "private"`. */
  lemma DefaultScopeSent(p: Client, code: Json, description: Json, resp: HttpResponse)
    ensures CreateProject(p, code, description, JStr(DefaultScope), resp).request.value.body
         == Some(JObj(map["code" := code, "description" := description, "scope" := JStr("private")]))
  {
  }

  /** `get(project_id)`: a GET of `/project/v1/projects/<id>`, decoded as a project. */
  function GetProject(p: Client, projectId: string, resp: HttpResponse): (r: Call<DoorayResponse<Project>>)
    ensures r.request == Some(Request("GET", p.endpoint + ("/project/v1/projects/" + projectId), ClientHeaders(p), map[], None))
    ensures Handles(r.outcome, resp, data => DecodeResponse(data, Some(DecodeProject)))
  {
    Exchange(BuildRequest(p, "GET", "/project/v1/projects/" + projectId, None, map[], None), resp, data => DecodeResponse(data, Some(DecodeProject)))
  }

  /**
   * `get_workflows(project_id)`: a GET of `.../workflows`, decoded as a list of workflows with
   * the list's default paging, which a decoded list keeps (page 0, size 20).
   */
  function GetWorkflows(p: Client, projectId: string, resp: HttpResponse): (r: Call<DoorayListResponse<Workflow>>)
    ensures r.request == Some(Request("GET", p.endpoint + ("/project/v1/projects/" + projectId + "/workflows"), ClientHeaders(p),
                                      map[], None))
    ensures Handles(r.outcome, resp, data => DecodeListResponse(data, DecodeWorkflow, JInt(0), JInt(20)))
    ensures r.outcome.Ok? ==> r.outcome.value.page == JInt(0) && r.outcome.value.size == JInt(20)
  {
    Exchange(BuildRequest(p, "GET", "/project/v1/projects/" + projectId + "/workflows", None, map[], None),
             resp, data => DecodeListResponse(data, DecodeWorkflow, JInt(0), JInt(20)))
  }

  // ---- E-mail addresses and tags

  /** `create_email_address(project_id, email_address, name)`: a POST of `{emailAddress, name}`. */
  function CreateEmailAddress(p: Client, projectId: string, emailAddress: Json, name: Json, resp: HttpResponse)
    : (r: Call<DoorayResponse<Relation>>)
    ensures r.request == Some(Request("POST", p.endpoint + ("/project/v1/projects/" + projectId + "/email-addresses"),
                                      ClientHeaders(p), map[], Some(JObj(map["emailAddress" := emailAddress, "name" := name]))))
    ensures Handles(r.outcome, resp, data => DecodeResponse(data, Some(DecodeRelation)))
  {
    Exchange(BuildRequest(p, "POST", "/project/v1/projects/" + projectId + "/email-addresses", None, map[],
                    Some(JObj(map["emailAddress" := emailAddress, "name" := name]))),
             resp, data => DecodeResponse(data, Some(DecodeRelation)))
  }

  /** `get_email_address(project_id, email_address_id)`, decoded as an e-mail address. */
  function GetEmailAddress(p: Client, projectId: string, emailAddressId: string, resp: HttpResponse)
    : (r: Call<DoorayResponse<EmailAddress>>)
    ensures r.request == Some(Request("GET", p.endpoint + ("/project/v1/projects/" + projectId + "/email-addresses/" + emailAddressId),
                                      ClientHeaders(p), map[], None))
    ensures Handles(r.outcome, resp, data => DecodeResponse(data, Some(DecodeEmailAddress)))
  {
    Exchange(BuildRequest(p, "GET", "/project/v1/projects/" + projectId + "/email-addresses/" + emailAddressId, None, map[], None),
             resp, data => DecodeResponse(data, Some(DecodeEmailAddress)))
  }

  /**
   * `create_tag(project_id, name, color)`: `name` and `color` must be strings, else the
   * assertion fails before any request; then a POST of `{name, color}`.
   */
  function CreateTag(p: Client, projectId: string, name: Json, color: Json, resp: HttpResponse)
    : (r: Call<DoorayResponse<Relation>>)
    ensures r.request.None? <==> !(name.JStr? && color.JStr?)
    ensures r.request.None? ==> r.outcome == Err(AssertionError)
    ensures r.request.Some? ==>
      && r.request.value == Request("POST", p.endpoint + ("/project/v1/projects/" + projectId + "/tags"), ClientHeaders(p), map[],
                                    Some(JObj(map["name" := name, "color" := color])))
      && Handles(r.outcome, resp, data => DecodeResponse(data, Some(DecodeRelation)))
  {
    if !name.JStr? || !color.JStr? then Call(None, Err(AssertionError))
    else
      Exchange(BuildRequest(p, "POST", "/project/v1/projects/" + projectId + "/tags", None, map[], Some(JObj(map["name" := name, "color" := color]))),
               resp, data => DecodeResponse(data, Some(DecodeRelation)))
  }

  /** `get_tag(project_id, tag_id)`, decoded as a tag. */
  function GetTag(p: Client, projectId: string, tagId: string, resp: HttpResponse): (r: Call<DoorayResponse<Tag>>)
    ensures r.request == Some(Request("GET", p.endpoint + ("/project/v1/projects/" + projectId + "/tags/" + tagId),
                                      ClientHeaders(p), map[], None))
    ensures Handles(r.outcome, resp, data => DecodeResponse(data, Some(DecodeTag)))
  {
    Exchange(BuildRequest(p, "GET", "/project/v1/projects/" + projectId + "/tags/" + tagId, None, map[], None), resp, data => DecodeResponse(data, Some(DecodeTag)))
  }

  // ---- Milestones

  /**
   * The check `assert d is not None and (isinstance(d, str) or isinstance(d, datetime))` on a
   * milestone date: `None` fails the assertion, a string passes, and any other value reaches
   * `isinstance(d, datetime)`, which raises `TypeError` because `datetime` there is the module.
   */
  function DateArgumentError(d: Json): (e: Option<Error>)
    ensures e.None? <==> d.JStr?
    ensures d.JNull? ==> e == Some(AssertionError)
    ensures !d.JNull? && !d.JStr? ==> e == Some(TypeError)
  {
    if d.JNull? then Some(AssertionError) else if d.JStr? then None else Some(TypeError)
  }

  /**
   * `create_milestone(project_id, name, start_at, end_at)`: `name` must be a string and both
   * dates pass `DateArgumentError`, checked in that order before any request; then a POST of
   * `{name, startedAt, endedAt}`.
   */
  function CreateMilestone(p: Client, projectId: string, name: Json, startAt: Json, endAt: Json, resp: HttpResponse)
    : (r: Call<DoorayResponse<Relation>>)
    ensures r.request.Some? <==> name.JStr? && startAt.JStr? && endAt.JStr?
    ensures !name.JStr? ==> r.outcome == Err(AssertionError)
    ensures name.JStr? && !startAt.JStr? ==> r.outcome == Err(DateArgumentError(startAt).value)
    ensures name.JStr? && startAt.JStr? && !endAt.JStr? ==> r.outcome == Err(DateArgumentError(endAt).value)
    ensures r.request.Some? ==>
      && r.request.value == Request("POST", p.endpoint + ("/project/v1/projects/" + projectId + "/milestones"), ClientHeaders(p),
                                    map[], Some(JObj(map["name" := name, "startedAt" := startAt, "endedAt" := endAt])))
      && Handles(r.outcome, resp, data => DecodeResponse(data, Some(DecodeRelation)))
  {
    if !name.JStr? then Call(None, Err(AssertionError))
    else if DateArgumentError(startAt).Some? then Call(None, Err(DateArgumentError(startAt).value))
    else if DateArgumentError(endAt).Some? then Call(None, Err(DateArgumentError(endAt).value))
    else
      Exchange(BuildRequest(p, "POST", "/project/v1/projects/" + projectId + "/milestones", None, map[],
                      Some(JObj(map["name" := name, "startedAt" := startAt, "endedAt" := endAt]))),
               resp, data => DecodeResponse(data, Some(DecodeRelation)))
  }

  /** The query of `get_milestones`: each of `page`, `size` and `status` is present exactly when it is not `None`. */
  function MilestonesQuery(page: Json, size: Json, status: Json): (q: map<string, Json>)
    ensures q.Keys <= {"page", "size", "status"}
    ensures ("page" in q <==> !page.JNull?) && (!page.JNull? ==> q["page"] == page)
    ensures ("size" in q <==> !size.JNull?) && (!size.JNull? ==> q["size"] == size)
    ensures ("status" in q <==> !status.JNull?) && (!status.JNull? ==> q["status"] == status)
  {
    PutUnlessNull(PutUnlessNull(PutUnlessNull(map[], "page", page), "size", size), "status", status)
  }

  /**
   * `get_milestones(project_id, page, size, status)`: the query filled one conditional insert
   * at a time, a GET of `.../milestones`, the body decoded as a list with the caller's paging.
   */
  method GetMilestones<M(==)>(
    p: Client, projectId: string, page: Json, size: Json, status: Json,
    decodeMilestone: Json -> Result<M, Error>, resp: HttpResponse)
    returns (r: Call<DoorayListResponse<M>>)
    ensures r.request == Some(Request("GET", p.endpoint + ("/project/v1/projects/" + projectId + "/milestones"), ClientHeaders(p),
                                      MilestonesQuery(page, size, status), None))
    ensures Handles(r.outcome, resp, data => DecodeListResponse(data, decodeMilestone, page, size))
  {
    var params: map<string, Json> := map[];
    params := InsertUnlessNull(params, "page", page);
    params := InsertUnlessNull(params, "size", size);
    params := InsertUnlessNull(params, "status", status);
    r := Exchange(BuildRequest(p, "GET", "/project/v1/projects/" + projectId + "/milestones", None, params, None),
                  resp, data => DecodeListResponse(data, decodeMilestone, page, size));
  }

  /** `get_milestone(project_id, milestone_id)`, decoded with the milestone decoder. */
  function GetMilestone<M(==)>(
    p: Client, projectId: string, milestoneId: string, decodeMilestone: Json -> Result<M, Error>, resp: HttpResponse)
    : (r: Call<DoorayResponse<M>>)
    ensures r.request == Some(Request("GET", p.endpoint + ("/project/v1/projects/" + projectId + "/milestones/" + milestoneId),
                                      ClientHeaders(p), map[], None))
    ensures Handles(r.outcome, resp, data => DecodeResponse(data, Some(decodeMilestone)))
  {
    Exchange(BuildRequest(p, "GET", "/project/v1/projects/" + projectId + "/milestones/" + milestoneId, None, map[], None),
             resp, data => DecodeResponse(data, Some(decodeMilestone)))
  }

  /**
   * `update_milestone(...)`: `name` and `status` must be strings (the dates are not checked);
   * then a PUT of `{name, status, startedAt, endedAt}`.
   */
  function UpdateMilestone(
    p: Client, projectId: string, milestoneId: string, name: Json, status: Json, startAt: Json, endAt: Json, resp: HttpResponse)
    : (r: Call<Acknowledgement>)
    ensures r.request.None? <==> !(name.JStr? && status.JStr?)
    ensures r.request.None? ==> r.outcome == Err(AssertionError)
    ensures r.request.Some? ==>
      && r.request.value == Request("PUT", p.endpoint + ("/project/v1/projects/" + projectId + "/milestones/" + milestoneId),
                                    ClientHeaders(p), map[],
                                    Some(JObj(map["name" := name, "status" := status, "startedAt" := startAt, "endedAt" := endAt])))
      && Handles(r.outcome, resp, DecodeAcknowledgement)
  {
    if !name.JStr? || !status.JStr? then Call(None, Err(AssertionError))
    else
      Exchange(BuildRequest(p, "PUT", "/project/v1/projects/" + projectId + "/milestones/" + milestoneId, None, map[],
                      Some(JObj(map["name" := name, "status" := status, "startedAt" := startAt, "endedAt" := endAt]))),
               resp, DecodeAcknowledgement)
  }

  /** `delete_milestone(project_id, milestone_id)`: a DELETE with no body. */
  function DeleteMilestone(p: Client, projectId: string, milestoneId: string, resp: HttpResponse): (r: Call<Acknowledgement>)
    ensures r.request == Some(Request("DELETE", p.endpoint + ("/project/v1/projects/" + projectId + "/milestones/" + milestoneId),
                                      ClientHeaders(p), map[], None))
    ensures Handles(r.outcome, resp, DecodeAcknowledgement)
  {
    Exchange(BuildRequest(p, "DELETE", "/project/v1/projects/" + projectId + "/milestones/" + milestoneId, None, map[], None), resp, DecodeAcknowledgement)
  }

  // ---- Hooks and members

  /** `create_hook(project_id, url, send_events)`: `url` must be a string and `send_events` a list; then a POST of `{url, sendEvents}`. */
  function CreateHook(p: Client, projectId: string, url: Json, sendEvents: Json, resp: HttpResponse)
    : (r: Call<DoorayResponse<Relation>>)
    ensures r.request.None? <==> !(url.JStr? && sendEvents.JArr?)
    ensures r.request.None? ==> r.outcome == Err(AssertionError)
    ensures r.request.Some? ==>
      && r.request.value == Request("POST", p.endpoint + ("/project/v1/projects/" + projectId + "/hooks"), ClientHeaders(p), map[],
                                    Some(JObj(map["url" := url, "sendEvents" := sendEvents])))
      && Handles(r.outcome, resp, data => DecodeResponse(data, Some(DecodeRelation)))
  {
    if !url.JStr? || !sendEvents.JArr? then Call(None, Err(AssertionError))
    else
      Exchange(BuildRequest(p, "POST", "/project/v1/projects/" + projectId + "/hooks", None, map[], Some(JObj(map["url" := url, "sendEvents" := sendEvents]))),
               resp, data => DecodeResponse(data, Some(DecodeRelation)))
  }

  const DefaultRole: string := "member"

  /** `add_member(project_id, member_id, role)`: both must be strings; then a POST of `{organizationMemberId, role}`. */
  function AddMember<PM(==)>(
    p: Client, projectId: string, memberId: Json, role: Json, decodeMember: Json -> Result<PM, Error>, resp: HttpResponse)
    : (r: Call<DoorayResponse<PM>>)
    ensures r.request.None? <==> !(memberId.JStr? && role.JStr?)
    ensures r.request.None? ==> r.outcome == Err(AssertionError)
    ensures r.request.Some? ==>
      && r.request.value == Request("POST", p.endpoint + ("/project/v1/projects/" + projectId + "/members"), ClientHeaders(p), map[],
                                    Some(JObj(map["organizationMemberId" := memberId, "role" := role])))
      && Handles(r.outcome, resp, data => DecodeResponse(data, Some(decodeMember)))
  {
    if !memberId.JStr? || !role.JStr? then Call(None, Err(AssertionError))
    else
      Exchange(BuildRequest(p, "POST", "/project/v1/projects/" + projectId + "/members", None, map[],
                      Some(JObj(map["organizationMemberId" := memberId, "role" := role]))),
               resp, data => DecodeResponse(data, Some(decodeMember)))
  }

  /** `add_member` with its default role passes the assertions and sends `role: "member"`. */
  lemma DefaultRoleSent<PM>(p: Client, projectId: string, memberId: string, decodeMember: Json -> Result<PM, Error>, resp: HttpResponse)
    ensures AddMember(p, projectId, JStr(memberId), JStr(DefaultRole), decodeMember, resp).request.Some?
    ensures AddMember(p, projectId, JStr(memberId), JStr(DefaultRole), decodeMember, resp).request.value.body
         == Some(JObj(map["organizationMemberId" := JStr(memberId), "role" := JStr("member")]))
  {
  }

  /** `get_member(project_id, member_id)`, decoded with the project-member decoder. */
  function GetMember<PM(==)>(
    p: Client, projectId: string, memberId: string, decodeMember: Json -> Result<PM, Error>, resp: HttpResponse)
    : (r: Call<DoorayResponse<PM>>)
    ensures r.request == Some(Request("GET", p.endpoint + ("/project/v1/projects/" + projectId + "/members/" + memberId),
                                      ClientHeaders(p), map[], None))
    ensures Handles(r.outcome, resp, data => DecodeResponse(data, Some(decodeMember)))
  {
    Exchange(BuildRequest(p, "GET", "/project/v1/projects/" + projectId + "/members/" + memberId, None, map[], None),
             resp, data => DecodeResponse(data, Some(decodeMember)))
  }

  /** The query of `get_member_groups`: `page` and `size`, each present exactly when it is not `None`. */
  function PagingQuery(page: Json, size: Json): (q: map<string, Json>)
    ensures q.Keys <= {"page", "size"}
    ensures ("page" in q <==> !page.JNull?) && (!page.JNull? ==> q["page"] == page)
    ensures ("size" in q <==> !size.JNull?) && (!size.JNull? ==> q["size"] == size)
  {
    PutUnlessNull(PutUnlessNull(map[], "page", page), "size", size)
  }

  /** `get_member_groups(project_id, page, size)`: the query filled step by step, the body decoded as a list with the caller's paging. */
  method GetMemberGroups<G(==)>(
    p: Client, projectId: string, page: Json, size: Json, decodeGroup: Json -> Result<G, Error>, resp: HttpResponse)
    returns (r: Call<DoorayListResponse<G>>)
    ensures r.request == Some(Request("GET", p.endpoint + ("/project/v1/projects/" + projectId + "/member-groups"), ClientHeaders(p),
                                      PagingQuery(page, size), None))
    ensures Handles(r.outcome, resp, data => DecodeListResponse(data, decodeGroup, page, size))
  {
    var params: map<string, Json> := map[];
    params := InsertUnlessNull(params, "page", page);
    params := InsertUnlessNull(params, "size", size);
    r := Exchange(BuildRequest(p, "GET", "/project/v1/projects/" + projectId + "/member-groups", None, params, None),
                  resp, data => DecodeListResponse(data, decodeGroup, page, size));
  }

  /** `get_member_group(project_id, member_group_id)`, decoded with the member-group decoder. */
  function GetMemberGroup<G(==)>(
    p: Client, projectId: string, memberGroupId: string, decodeGroup: Json -> Result<G, Error>, resp: HttpResponse)
    : (r: Call<DoorayResponse<G>>)
    ensures r.request == Some(Request("GET", p.endpoint + ("/project/v1/projects/" + projectId + "/member-groups/" + memberGroupId),
                                      ClientHeaders(p), map[], None))
    ensures Handles(r.outcome, resp, data => DecodeResponse(data, Some(decodeGroup)))
  {
    Exchange(BuildRequest(p, "GET", "/project/v1/projects/" + projectId + "/member-groups/" + memberGroupId, None, map[], None),
             resp, data => DecodeResponse(data, Some(decodeGroup)))
  }
}
