/** The `DoorayMessenger` facade class: channels, messages and channel membership (src/dooray/Dooray.py). */
module DoorayMessenger {
  import opened Wrappers
  import opened DoorayExceptions
  import opened Json
  import opened DoorayObjects
  import opened Messenger
  import opened DoorayBase

  // ---- _get_member_id_list

  /**
   * `_get_member_id_list(member_ids)`: a string becomes a one-element list, a list of any
   * elements is copied unchanged, anything else (`None` included) fails the assertion.
   */
  function MemberIdList(memberIds: Json): (r: Result<seq<Json>, Error>)
    ensures r.Ok? <==> memberIds.JStr? || memberIds.JArr?
    ensures memberIds.JStr? ==> r == Ok([memberIds])
    ensures memberIds.JArr? ==> r == Ok(memberIds.items)
    ensures r.Err? ==> r.error == AssertionError
  {
    match memberIds
    case JStr(_) => Ok([memberIds])
    case JArr(items) => Ok(items)
    case _ => Err(AssertionError)
  }

  /** The static method as written: `append` of a string or `extend` by a list, on a fresh empty list. */
  method GetMemberIdList(memberIds: Json) returns (r: Result<seq<Json>, Error>)
    ensures r == MemberIdList(memberIds)
  {
    var memberIdList: seq<Json> := [];
    if memberIds.JStr? {
      memberIdList := memberIdList + [memberIds];
      assert memberIdList == [memberIds];
    } else if memberIds.JArr? {
      memberIdList := memberIdList + memberIds.items;
      assert memberIdList == memberIds.items;
    } else {
      return Err(AssertionError);
    }
    r := Ok(memberIdList);
  }

  // ---- Channels

  /**
   * `get_channels()`: a GET of `/messenger/v1/channels`, decoded as a list of channels with
   * no page size, so a decoded list always reports page 0 and a size equal to its total count.
   */
  function GetChannels(m: Client, resp: HttpResponse): (r: Call<DoorayListResponse<Channel>>)
    ensures r.request == Some(Request("GET", m.endpoint + "/messenger/v1/channels", ClientHeaders(m), map[], None))
    ensures Handles(r.outcome, resp, data => DecodeListResponse(data, DecodeChannel, JInt(0), JNull))
    ensures r.outcome.Ok? ==> r.outcome.value.page == JInt(0) && r.outcome.value.size == r.outcome.value.totalCount
  {
    Exchange(BuildRequest(m, "GET", "/messenger/v1/channels", None, map[], None),
             resp, data => DecodeListResponse(data, DecodeChannel, JInt(0), JNull))
  }

  /** `send_direct_message(member_id, text)`: a POST of `{text, organizationMemberId}` to `/messenger/v1/channels/direct-send`. */
  function SendDirectMessage(m: Client, memberId: Json, text: Json, resp: HttpResponse): (r: Call<Acknowledgement>)
    ensures r.request == Some(Request("POST", m.endpoint + "/messenger/v1/channels/direct-send", ClientHeaders(m), map[],
                                      Some(JObj(map["text" := text, "organizationMemberId" := memberId]))))
    ensures Handles(r.outcome, resp, DecodeAcknowledgement)
  {
    var data := JObj(map["text" := text, "organizationMemberId" := memberId]);
    Exchange(BuildRequest(m, "POST", "/messenger/v1/channels/direct-send", None, map[], Some(data)), resp, DecodeAcknowledgement)
  }

  /** `send_channel_message(channel_id, text)`: a POST of `{text}` to `/messenger/v1/channels/<id>/logs`. */
  function SendChannelMessage(m: Client, channelId: string, text: Json, resp: HttpResponse): (r: Call<Acknowledgement>)
    ensures r.request == Some(Request("POST", m.endpoint + ("/messenger/v1/channels/" + channelId + "/logs"), ClientHeaders(m),
                                      map[], Some(JObj(map["text" := text]))))
    ensures Handles(r.outcome, resp, DecodeAcknowledgement)
  {
    Exchange(BuildRequest(m, "POST", "/messenger/v1/channels/" + channelId + "/logs", None, map[], Some(JObj(map["text" := text]))),
             resp, DecodeAcknowledgement)
  }

  /** `send_channel_log`: an alias, the same request and the same outcome as `send_channel_message`. */
  function SendChannelLog(m: Client, channelId: string, text: Json, resp: HttpResponse): (r: Call<Acknowledgement>)
    ensures r == SendChannelMessage(m, channelId, text, resp)
    ensures r.request.Some? && r.request.value.url == m.endpoint + ("/messenger/v1/channels/" + channelId + "/logs")
  {
    SendChannelMessage(m, channelId, text, resp)
  }

  /**
   * A POST of `{memberIds}` to `/messenger/v1/channels/<id>/members/<action>`; when the ids
   * are neither a string nor a list, the assertion fails before any request.
   */
  function MembershipCall(m: Client, channelId: string, action: string, memberIds: Json, resp: HttpResponse)
    : (r: Call<Acknowledgement>)
    ensures !(memberIds.JStr? || memberIds.JArr?) ==> r == Call(None, Err(AssertionError))
    ensures (memberIds.JStr? || memberIds.JArr?) ==>
      && r.request == Some(Request("POST", m.endpoint + ("/messenger/v1/channels/" + channelId + "/members/" + action),
                                   ClientHeaders(m), map[],
                                   Some(JObj(map["memberIds" := JArr(MemberIdList(memberIds).value)]))))
      && Handles(r.outcome, resp, DecodeAcknowledgement)
  {
    match MemberIdList(memberIds)
    case Err(e) => Call(None, Err(e))
    case Ok(ids) =>
      var path := "/messenger/v1/channels/" + channelId + "/members/" + action;
      Exchange(BuildRequest(m, "POST", path, None, map[], Some(JObj(map["memberIds" := JArr(ids)]))),
               resp, DecodeAcknowledgement)
  }

  /** `join_channel(channel_id, member_ids)`. */
  function JoinChannel(m: Client, channelId: string, memberIds: Json, resp: HttpResponse): (r: Call<Acknowledgement>)
    ensures !(memberIds.JStr? || memberIds.JArr?) ==> r == Call(None, Err(AssertionError))
    ensures (memberIds.JStr? || memberIds.JArr?) ==>
      && r.request == Some(Request("POST", m.endpoint + ("/messenger/v1/channels/" + channelId + "/members/join"),
                                   ClientHeaders(m), map[], Some(JObj(map["memberIds" := JArr(MemberIdList(memberIds).value)]))))
      && Handles(r.outcome, resp, DecodeAcknowledgement)
  {
    assert "/messenger/v1/channels/" + channelId + "/members/" + "join" == "/messenger/v1/channels/" + channelId + "/members/join";
    MembershipCall(m, channelId, "join", memberIds, resp)
  }

  /** `leave_channel(channel_id, member_ids)`. */
  function LeaveChannel(m: Client, channelId: string, memberIds: Json, resp: HttpResponse): (r: Call<Acknowledgement>)
    ensures !(memberIds.JStr? || memberIds.JArr?) ==> r == Call(None, Err(AssertionError))
    ensures (memberIds.JStr? || memberIds.JArr?) ==>
      && r.request == Some(Request("POST", m.endpoint + ("/messenger/v1/channels/" + channelId + "/members/leave"),
                                   ClientHeaders(m), map[], Some(JObj(map["memberIds" := JArr(MemberIdList(memberIds).value)]))))
      && Handles(r.outcome, resp, DecodeAcknowledgement)
  {
    assert "/messenger/v1/channels/" + channelId + "/members/" + "leave" == "/messenger/v1/channels/" + channelId + "/members/leave";
    MembershipCall(m, channelId, "leave", memberIds, resp)
  }

  const DefaultIdType: string := "memberId"
  const DefaultChannelType: string := "private"
  const DefaultCapacity: int := 100

  /**
   * `create_channel(title, member_ids, id_type, channel_type, capacity)`: a POST to
   * `/messenger/v1/channels` with the query `{idType}` and the body
   * `{memberIds, capacity, type, title}`, decoded as the new channel's `Relation`.
   */
  function CreateChannel(
    m: Client, title: Json, memberIds: Json, idType: Json, channelType: Json, capacity: Json, resp: HttpResponse)
    : (r: Call<DoorayResponse<Relation>>)
    ensures !(memberIds.JStr? || memberIds.JArr?) ==> r == Call(None, Err(AssertionError))
    ensures (memberIds.JStr? || memberIds.JArr?) ==>
      && r.request == Some(Request("POST", m.endpoint + "/messenger/v1/channels", ClientHeaders(m), map["idType" := idType],
                                   Some(JObj(map["memberIds" := JArr(MemberIdList(memberIds).value),
                                                 "capacity" := capacity, "type" := channelType, "title" := title]))))
      && Handles(r.outcome, resp, data => DecodeResponse(data, Some(DecodeRelation)))
  {
    match MemberIdList(memberIds)
    case Err(e) => Call(None, Err(e))
    case Ok(ids) =>
      var data := JObj(map["memberIds" := JArr(ids), "capacity" := capacity, "type" := channelType, "title" := title]);
      Exchange(BuildRequest(m, "POST", "/messenger/v1/channels", None, map["idType" := idType], Some(data)),
               resp, data => DecodeResponse(data, Some(DecodeRelation)))
  }

  /** A single id given as a string and as a one-element list produce the same calls. */
  lemma SingleMemberIdAsStringOrList(m: Client, channelId: string, memberId: string, title: Json, resp: HttpResponse)
    ensures JoinChannel(m, channelId, JStr(memberId), resp) == JoinChannel(m, channelId, JArr([JStr(memberId)]), resp)
    ensures LeaveChannel(m, channelId, JStr(memberId), resp) == LeaveChannel(m, channelId, JArr([JStr(memberId)]), resp)
    ensures CreateChannel(m, title, JStr(memberId), JStr(DefaultIdType), JStr(DefaultChannelType), JInt(DefaultCapacity), resp)
         == CreateChannel(m, title, JArr([JStr(memberId)]), JStr(DefaultIdType), JStr(DefaultChannelType), JInt(DefaultCapacity), resp)
  {
  }
}
