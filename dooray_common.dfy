/** The `Dooray` facade class: construction of the three clients, members and incoming hooks (src/dooray/Dooray.py). */
module DoorayCommon {
  import opened Wrappers
  import opened DoorayExceptions
  import opened Json
  import opened DoorayObjects
  import opened Member
  import opened IncomingHook
  import opened DoorayBase

  /** An instance of the `Dooray` class: the common client plus the messenger and project clients it creates. */
  datatype DoorayClient = DoorayClient(common: Client, messenger: Client, project: Client)

  /** All three clients are built from the same arguments, with the same checks. */
  function NewDooray(token: Json, endpoint: Json, userAgent: Json): (r: Result<DoorayClient, Error>)
    ensures r.Ok? <==> NewClient(token, endpoint, userAgent).Ok?
    ensures r.Ok? ==>
      var c := NewClient(token, endpoint, userAgent).value;
      r.value.common == c && r.value.messenger == c && r.value.project == c
    ensures r.Err? ==> r.error == AssertionError
  {
    var c :- NewClient(token, endpoint, userAgent);
    Ok(DoorayClient(c, c, c))
  }

  // ---- Comma-joined lists

  /** `sep.join(items)`. */
  function Join(items: seq<string>, sep: char): (s: string)
    ensures |items| == 1 ==> s == items[0]
    decreases |items|
  {
    if items == [] then "" else if |items| == 1 then items[0] else items[0] + [sep] + Join(items[1..], sep)
  }

  /** `s.split(sep)`: the pieces between separators, always at least one. */
  function Split(s: string, sep: char): (pieces: seq<string>)
    ensures |pieces| > 0
    decreases |s|
  {
    if s == [] then [""]
    else
      var rest := Split(s[1..], sep);
      if s[0] == sep then [""] + rest else [[s[0]] + rest[0]] + rest[1..]
  }

  lemma {:induction false} SplitWithoutSeparator(a: string, sep: char)
    requires sep !in a
    ensures Split(a, sep) == [a]
    decreases |a|
  {
    if a != [] {
      SplitWithoutSeparator(a[1..], sep);
      assert [a[0]] + a[1..] == a;
    }
  }

  lemma {:induction false} SplitAtSeparator(a: string, sep: char, b: string)
    requires sep !in a
    ensures Split(a + [sep] + b, sep) == [a] + Split(b, sep)
    decreases |a|
  {
    if a == [] {
      assert a + [sep] + b == [sep] + b;
      assert ([sep] + b)[1..] == b;
    } else {
      assert (a + [sep] + b)[1..] == a[1..] + [sep] + b;
      SplitAtSeparator(a[1..], sep, b);
      assert [a[0]] + a[1..] == a;
    }
  }

  /** Joining a non-empty list whose items hold no separator can be split back into it. */
  lemma {:induction false} SplitJoin(items: seq<string>, sep: char)
    requires |items| > 0 && forall i :: 0 <= i < |items| ==> sep !in items[i]
    ensures Split(Join(items, sep), sep) == items
    decreases |items|
  {
    if |items| == 1 {
      SplitWithoutSeparator(items[0], sep);
    } else {
      SplitJoin(items[1..], sep);
      SplitAtSeparator(items[0], sep, Join(items[1..], sep));
      assert [items[0]] + items[1..] == items;
    }
  }

  // ---- get_members

  /** The query value of `external_emails`: a string as it is, a list comma-joined, anything else no value (`None`). */
  function EmailsParam(externalEmails: StrOrList): (v: Json)
    ensures v.JNull? <==> externalEmails.Neither?
    ensures externalEmails.Str? ==> v == JStr(externalEmails.s)
    ensures externalEmails.List? ==> v.JStr?
    ensures externalEmails.List? && |externalEmails.items| > 0
            && (forall i :: 0 <= i < |externalEmails.items| ==> ',' !in externalEmails.items[i])
            ==> Split(v.s, ',') == externalEmails.items
  {
    match externalEmails
    case Str(s) => JStr(s)
    case List(items) => SplitJoinIfSeparable(items); JStr(Join(items, ','))
    case Neither => JNull
  }

  /** `SplitJoin` where its requirement holds, for use inside a function. */
  lemma SplitJoinIfSeparable(items: seq<string>)
    ensures |items| > 0 && (forall i :: 0 <= i < |items| ==> ',' !in items[i]) ==> Split(Join(items, ','), ',') == items
  {
    if |items| > 0 && (forall i :: 0 <= i < |items| ==> ',' !in items[i]) {
      SplitJoin(items, ',');
    }
  }

  /** The optional arguments of `get_members`, in the order it inserts them, under their query keys. */
  function MembersArgs(
    name: Json, userCode: Json, userCodeExact: Json, idProviderUserId: Json,
    externalEmails: StrOrList, page: Json, size: Json): seq<(string, Json)>
  {
    [("name", name), ("userCode", userCode), ("userCodeExact", userCodeExact),
     ("idProviderUserId", idProviderUserId), ("externalEmailAddresses", EmailsParam(externalEmails)),
     ("page", page), ("size", size)]
  }

  /** The seven query keys of `get_members` are distinct. */
  lemma MembersArgsDistinct(args: seq<(string, Json)>)
    requires |args| == 7
    requires args[0].0 == "name" && args[1].0 == "userCode" && args[2].0 == "userCodeExact"
    requires args[3].0 == "idProviderUserId" && args[4].0 == "externalEmailAddresses"
    requires args[5].0 == "page" && args[6].0 == "size"
    ensures DistinctKeys(args)
  {
  }

  /**
   * The query `get_members` sends: each of `name`, `userCode`, `userCodeExact`,
   * `idProviderUserId`, `page` and `size` is present exactly when its argument is not
   * `None`, with the argument's value; `externalEmailAddresses` as `EmailsParam` says.
   */
  function MembersQuery(
    name: Json, userCode: Json, userCodeExact: Json, idProviderUserId: Json,
    externalEmails: StrOrList, page: Json, size: Json): (p: map<string, Json>)
    ensures p.Keys <= {"name", "userCode", "userCodeExact", "idProviderUserId", "externalEmailAddresses", "page", "size"}
    ensures ("name" in p <==> !name.JNull?) && (!name.JNull? ==> p["name"] == name)
    ensures ("userCode" in p <==> !userCode.JNull?) && (!userCode.JNull? ==> p["userCode"] == userCode)
    ensures ("userCodeExact" in p <==> !userCodeExact.JNull?) && (!userCodeExact.JNull? ==> p["userCodeExact"] == userCodeExact)
    ensures ("idProviderUserId" in p <==> !idProviderUserId.JNull?)
            && (!idProviderUserId.JNull? ==> p["idProviderUserId"] == idProviderUserId)
    ensures ("externalEmailAddresses" in p <==> !externalEmails.Neither?)
            && (!externalEmails.Neither? ==> p["externalEmailAddresses"] == EmailsParam(externalEmails))
    ensures ("page" in p <==> !page.JNull?) && (!page.JNull? ==> p["page"] == page)
    ensures ("size" in p <==> !size.JNull?) && (!size.JNull? ==> p["size"] == size)
  {
    var args := MembersArgs(name, userCode, userCodeExact, idProviderUserId, externalEmails, page, size);
    MembersArgsDistinct(args);
    OptionalParamsSpec(args, 7);
    assert args[0].0 == "name" && args[1].0 == "userCode" && args[2].0 == "userCodeExact";
    assert args[3].0 == "idProviderUserId" && args[4].0 == "externalEmailAddresses";
    assert args[5].0 == "page" && args[6].0 == "size";
    OptionalParams(args, 7)
  }

  /** The parameter dictionary as `get_members` fills it, one conditional insert at a time. */
  method BuildMembersQuery(
    name: Json, userCode: Json, userCodeExact: Json, idProviderUserId: Json,
    externalEmails: StrOrList, page: Json, size: Json) returns (params: map<string, Json>)
    ensures params == MembersQuery(name, userCode, userCodeExact, idProviderUserId, externalEmails, page, size)
  {
    ghost var args := MembersArgs(name, userCode, userCodeExact, idProviderUserId, externalEmails, page, size);
    params := map[];
    params := InsertUnlessNull(params, "name", name);
    assert params == OptionalParams(args, 1);
    params := InsertUnlessNull(params, "userCode", userCode);
    assert params == OptionalParams(args, 2);
    params := InsertUnlessNull(params, "userCodeExact", userCodeExact);
    assert params == OptionalParams(args, 3);
    params := InsertUnlessNull(params, "idProviderUserId", idProviderUserId);
    assert params == OptionalParams(args, 4);
    match externalEmails {
      case Str(s) =>
        params := params["externalEmailAddresses" := JStr(s)];
      case List(items) =>
        params := params["externalEmailAddresses" := JStr(Join(items, ','))];
      case Neither =>
    }
    assert params == OptionalParams(args, 5);
    params := InsertUnlessNull(params, "page", page);
    assert params == OptionalParams(args, 6);
    params := InsertUnlessNull(params, "size", size);
  }

  /** With no filter and the default paging, the query holds `page` and `size` only (no `name` is added). */
  lemma DefaultMembersQuery()
    ensures MembersQuery(JNull, JNull, JNull, JNull, Neither, JInt(0), JInt(20)) == map["page" := JInt(0), "size" := JInt(20)]
  {
    var p := MembersQuery(JNull, JNull, JNull, JNull, Neither, JInt(0), JInt(20));
    assert p.Keys == {"page", "size"};
  }

  /**
   * `get_members(...)`: a GET of `/common/v1/members` with that query, its body decoded as a
   * list of members with the caller's `page` and `size`.
   */
  method GetMembers(
    d: DoorayClient, name: Json, userCode: Json, userCodeExact: Json, idProviderUserId: Json,
    externalEmails: StrOrList, page: Json, size: Json, resp: HttpResponse)
    returns (r: Call<DoorayListResponse<Member>>)
    ensures r.request == Some(Request("GET", d.common.endpoint + "/common/v1/members", ClientHeaders(d.common),
                                      MembersQuery(name, userCode, userCodeExact, idProviderUserId, externalEmails, page, size), None))
    ensures Handles(r.outcome, resp, data => DecodeListResponse(data, DecodeMember, page, size))
  {
    var params := BuildMembersQuery(name, userCode, userCodeExact, idProviderUserId, externalEmails, page, size);
    var req := BuildRequest(d.common, "GET", "/common/v1/members", None, params, None);
    var checked := CheckResponse(resp);
    if checked.Err? {
      return Call(Some(req), Err(checked.error));
    }
    var data := ResponseJson(resp);
    if data.Err? {
      return Call(Some(req), Err(data.error));
    }
    var result := NewDoorayListResponse(data.value, DecodeMember, page, size);
    r := Call(Some(req), result);
  }

  /** `get_incoming_hook(id)`: a GET of `/common/v1/incoming-hooks/<id>`, decoded as an incoming hook. */
  function GetIncomingHook(d: DoorayClient, incomingHookId: string, resp: HttpResponse): (r: Call<DoorayResponse<IncomingHook>>)
    ensures r.request == Some(Request("GET", d.common.endpoint + ("/common/v1/incoming-hooks/" + incomingHookId),
                                      ClientHeaders(d.common), map[], None))
    ensures Handles(r.outcome, resp, data => DecodeResponse(data, Some(DecodeIncomingHook)))
  {
    Exchange(BuildRequest(d.common, "GET", "/common/v1/incoming-hooks/" + incomingHookId, None, map[], None),
             resp, data => DecodeResponse(data, Some(DecodeIncomingHook)))
  }
}
