/** The older project record (dooray/Project.py): nested objects are cut down to `{'id': ...}` dictionaries. */
module LegacyProject {
  import opened Wrappers
  import opened DoorayExceptions
  import opened Json
  import opened DoorayObjects
  import Project

  /** `organization`, `wiki` and `drive` are the JSON objects `{'id': ...}`. */
  datatype LegacyProject = LegacyProject(
    id: Json, code: Json, description: Json, scope: Json, state: Json, projectType: Json,
    organization: Json, wiki: Json, drive: Json)

  /** `{'id': data[key]['id']}`. */
  function IdStub(data: Json, key: string): (r: Result<Json, Error>)
    ensures r.Ok? <==> data.JObj? && key in data.fields && HasKeys(data.fields[key], ["id"])
    ensures r.Ok? ==> r.value == JObj(map["id" := data.fields[key].fields["id"]])
    ensures r.Err? ==> IsLookupError(r.error)
  {
    var nested :- Get(data, key);
    var id :- Get(nested, "id");
    Ok(JObj(map["id" := id]))
  }

  /** The older `Project(data)`: the nine keys of the newer one, each stub needing its `id`. */
  function DecodeLegacyProject(data: Json): (r: Result<LegacyProject, Error>)
    ensures r.Ok? <==>
      && Project.HasProjectKeys(data)
      && Project.HasRelation(data, "organization") && Project.HasRelation(data, "wiki") && Project.HasRelation(data, "drive")
    ensures r.Ok? ==>
      && r.value.id == data.fields["id"] && r.value.code == data.fields["code"]
      && r.value.description == data.fields["description"] && r.value.scope == data.fields["scope"]
      && r.value.state == data.fields["state"] && r.value.projectType == data.fields["type"]
      && r.value.organization == JObj(map["id" := data.fields["organization"].fields["id"]])
      && r.value.wiki == JObj(map["id" := data.fields["wiki"].fields["id"]])
      && r.value.drive == JObj(map["id" := data.fields["drive"].fields["id"]])
    ensures r.Err? ==> IsLookupError(r.error)
  {
    var id :- Get(data, "id");
    var code :- Get(data, "code");
    var description :- Get(data, "description");
    var scope :- Get(data, "scope");
    var state :- Get(data, "state");
    var projectType :- Get(data, "type");
    var organization :- IdStub(data, "organization");
    var wiki :- IdStub(data, "wiki");
    var drive :- IdStub(data, "drive");
    Ok(LegacyProject(id, code, description, scope, state, projectType, organization, wiki, drive))
  }

  /**
   * Both decoders accept the same bodies, copy the same six scalars, and the older stubs
   * are exactly the JSON form of the newer `Relation`s.
   */
  lemma LegacyAgreesWithProject(data: Json)
    ensures DecodeLegacyProject(data).Ok? <==> Project.DecodeProject(data).Ok?
    ensures DecodeLegacyProject(data).Ok? ==>
      var older, newer := DecodeLegacyProject(data).value, Project.DecodeProject(data).value;
      && older.id == newer.id && older.code == newer.code && older.description == newer.description
      && older.scope == newer.scope && older.state == newer.state && older.projectType == newer.projectType
      && older.organization == EncodeRelation(newer.organization)
      && older.wiki == EncodeRelation(newer.wiki) && older.drive == EncodeRelation(newer.drive)
  {
  }

  /** Keys of a nested object other than `id` are dropped from its stub. */
  lemma NestedKeysDropped(data: Json, id: Json, extra: string, v: Json)
    requires DecodeLegacyProject(data).Ok?
    requires extra != "id"
    ensures var wider := JObj(data.fields["organization" := JObj(map["id" := id, extra := v])]);
      DecodeLegacyProject(wider).Ok? && DecodeLegacyProject(wider).value.organization == JObj(map["id" := id])
  {
    var wider := JObj(data.fields["organization" := JObj(map["id" := id, extra := v])]);
    assert Project.HasProjectKeys(wider);
  }
}
