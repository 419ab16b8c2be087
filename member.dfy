/** The organisation member record (src/dooray/Member.py). */
module Member {
  import opened Wrappers
  import opened DoorayExceptions
  import opened Json

  /** `userCode` and `externalEmailAddress` are `None` when their key is absent. */
  datatype Member = Member(id: Json, name: Json, userCode: Option<Json>, externalEmailAddress: Option<Json>)

  /**
   * `Member(data)`: `id` and `name` are required; each optional field is present exactly
   * when its own key is, and then holds that value unchanged (even `null` or `""`).
   */
  function DecodeMember(data: Json): (r: Result<Member, Error>)
    ensures r.Ok? <==> HasKeys(data, ["id", "name"])
    ensures r.Ok? ==>
      && r.value.id == data.fields["id"]
      && r.value.name == data.fields["name"]
      && (r.value.userCode.Some? <==> "userCode" in data.fields)
      && (r.value.userCode.Some? ==> r.value.userCode.value == data.fields["userCode"])
      && (r.value.externalEmailAddress.Some? <==> "externalEmailAddress" in data.fields)
      && (r.value.externalEmailAddress.Some? ==> r.value.externalEmailAddress.value == data.fields["externalEmailAddress"])
    ensures r.Err? ==> r.error == FirstMissing(data, ["id", "name"])
  {
    var id :- Get(data, "id");
    var name :- Get(data, "name");
    Ok(Member(id, name, GetOptional(data.fields, "userCode"), GetOptional(data.fields, "externalEmailAddress")))
  }

  /** The JSON object a member is sent as: the optional keys only when set. */
  function EncodeMember(m: Member): Json
  {
    var base := map["id" := m.id, "name" := m.name];
    var withCode := if m.userCode.Some? then base["userCode" := m.userCode.value] else base;
    JObj(if m.externalEmailAddress.Some? then withCode["externalEmailAddress" := m.externalEmailAddress.value] else withCode)
  }

  /** Every member, with or without its optional fields, decodes back from its JSON form. */
  lemma MemberRoundTrip(m: Member)
    ensures DecodeMember(EncodeMember(m)) == Ok(m)
  {
  }

  /** `{id, name}` alone decodes, with both optional fields absent. */
  lemma MinimalMemberDecodes(id: Json, name: Json)
    ensures DecodeMember(JObj(map["id" := id, "name" := name])) == Ok(Member(id, name, None, None))
  {
  }

  /** Keys the decoder does not read never change its result. */
  lemma MemberIgnoresUnknownKeys(fields: map<string, Json>, extra: map<string, Json>)
    requires extra.Keys !! {"id", "name", "userCode", "externalEmailAddress"}
    ensures DecodeMember(JObj(fields + extra)) == DecodeMember(JObj(fields))
  {
    var r1, r2 := DecodeMember(JObj(fields + extra)), DecodeMember(JObj(fields));
    if r2.Ok? {
      assert r1.Ok?;
      assert r1.value == r2.value;
    } else {
      assert r1.Err?;
      assert "id" !in fields ==> "id" !in fields + extra;
    }
  }
}
