/** The older member record (dooray/Member.py): all four keys are required. */
module LegacyMember {
  import opened Wrappers
  import opened DoorayExceptions
  import opened Json
  import Member

  datatype LegacyMember = LegacyMember(id: Json, name: Json, userCode: Json, externalEmailAddress: Json)

  const LegacyMemberKeys: seq<string> := ["id", "name", "userCode", "externalEmailAddress"]

  /** The older `Member(data)`: four direct key reads, so a missing key of any of them fails. */
  function DecodeLegacyMember(data: Json): (r: Result<LegacyMember, Error>)
    ensures r.Ok? <==> HasKeys(data, LegacyMemberKeys)
    ensures r.Ok? ==>
      r.value == LegacyMember(data.fields["id"], data.fields["name"], data.fields["userCode"], data.fields["externalEmailAddress"])
    ensures r.Err? ==> r.error == FirstMissing(data, LegacyMemberKeys)
  {
    var id :- Get(data, "id");
    var name :- Get(data, "name");
    var userCode :- Get(data, "userCode");
    var externalEmailAddress :- Get(data, "externalEmailAddress");
    Ok(LegacyMember(id, name, userCode, externalEmailAddress))
  }

  function EncodeLegacyMember(m: LegacyMember): Json
  {
    JObj(map["id" := m.id, "name" := m.name, "userCode" := m.userCode, "externalEmailAddress" := m.externalEmailAddress])
  }

  lemma LegacyMemberRoundTrip(m: LegacyMember)
    ensures DecodeLegacyMember(EncodeLegacyMember(m)) == Ok(m)
  {
  }

  /** `{id, name}` alone fails on `userCode` here, where the newer decoder accepts it. */
  lemma MinimalMemberRejected(id: Json, name: Json)
    ensures DecodeLegacyMember(JObj(map["id" := id, "name" := name])) == Err(KeyError("userCode"))
    ensures Member.DecodeMember(JObj(map["id" := id, "name" := name])).Ok?
  {
    var data := JObj(map["id" := id, "name" := name]);
    assert "userCode" !in data.fields;
  }

  /** Whatever the older decoder accepts the newer one accepts too, with the same four values. */
  lemma LegacyAgreesWithMember(data: Json)
    requires DecodeLegacyMember(data).Ok?
    ensures Member.DecodeMember(data).Ok?
    ensures var older, newer := DecodeLegacyMember(data).value, Member.DecodeMember(data).value;
      && older.id == newer.id && older.name == newer.name
      && newer.userCode == Some(older.userCode) && newer.externalEmailAddress == Some(older.externalEmailAddress)
  {
    assert HasKeys(data, ["id", "name"]);
  }
}
