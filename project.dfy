/** Project records: project, workflow with its localised names, e-mail address, tag (src/dooray/Project.py). */
module Project {
  import opened Wrappers
  import opened DoorayExceptions
  import opened Json
  import opened DoorayObjects

  // ---- Project

  datatype Project = Project(
    id: Json, code: Json, description: Json, scope: Json, state: Json, projectType: Json,
    organization: Relation, wiki: Relation, drive: Relation)

  const ProjectScalarKeys: seq<string> := ["id", "code", "description", "scope", "state", "type"]

  /** `data` is an object holding all nine keys a project reads. */
  predicate HasProjectKeys(data: Json)
  {
    && data.JObj?
    && "id" in data.fields && "code" in data.fields && "description" in data.fields
    && "scope" in data.fields && "state" in data.fields && "type" in data.fields
    && "organization" in data.fields && "wiki" in data.fields && "drive" in data.fields
  }

  /** `data[key]` is an id-bearing stub. */
  predicate HasRelation(data: Json, key: string)
    requires data.JObj?
  {
    key in data.fields && HasKeys(data.fields[key], ["id"])
  }

  /**
   * `Project(data)`: all nine keys are required, and `organization`, `wiki` and `drive`
   * are each decoded as a `Relation`, so each needs its own `id`.
   */
  function DecodeProject(data: Json): (r: Result<Project, Error>)
    ensures r.Ok? <==>
      && HasProjectKeys(data)
      && HasRelation(data, "organization") && HasRelation(data, "wiki") && HasRelation(data, "drive")
    ensures r.Ok? ==>
      && r.value.id == data.fields["id"] && r.value.code == data.fields["code"]
      && r.value.description == data.fields["description"] && r.value.scope == data.fields["scope"]
      && r.value.state == data.fields["state"] && r.value.projectType == data.fields["type"]
      && r.value.organization == Relation(data.fields["organization"].fields["id"])
      && r.value.wiki == Relation(data.fields["wiki"].fields["id"])
      && r.value.drive == Relation(data.fields["drive"].fields["id"])
    ensures !HasKeys(data, ProjectScalarKeys) ==> r == Err(FirstMissing(data, ProjectScalarKeys))
    ensures r.Err? ==> IsLookupError(r.error)
  {
    var id :- Get(data, "id");
    var code :- Get(data, "code");
    var description :- Get(data, "description");
    var scope :- Get(data, "scope");
    var state :- Get(data, "state");
    var projectType :- Get(data, "type");
    var organizationData :- Get(data, "organization");
    var organization :- DecodeRelation(organizationData);
    var wikiData :- Get(data, "wiki");
    var wiki :- DecodeRelation(wikiData);
    var driveData :- Get(data, "drive");
    var drive :- DecodeRelation(driveData);
    Ok(Project(id, code, description, scope, state, projectType, organization, wiki, drive))
  }

  function EncodeProject(p: Project): Json
  {
    JObj(map[
      "id" := p.id, "code" := p.code, "description" := p.description, "scope" := p.scope,
      "state" := p.state, "type" := p.projectType, "organization" := EncodeRelation(p.organization),
      "wiki" := EncodeRelation(p.wiki), "drive" := EncodeRelation(p.drive)])
  }

  lemma ProjectRoundTrip(p: Project)
    ensures DecodeProject(EncodeProject(p)) == Ok(p)
  {
    var data := EncodeProject(p);
    assert HasProjectKeys(data);
  }

  /** A body with only `id`, `code`, `description` and `scope` (the documented keys) fails on `state`. */
  lemma DocumentedKeysAloneFail(id: Json, code: Json, description: Json, scope: Json)
    ensures DecodeProject(JObj(map["id" := id, "code" := code, "description" := description, "scope" := scope]))
            == Err(KeyError("state"))
  {
    var data := JObj(map["id" := id, "code" := code, "description" := description, "scope" := scope]);
    assert "state" !in data.fields;
  }

  // ---- DisplayName

  datatype DisplayName = DisplayName(locale: Json, name: Json)

  function DecodeDisplayName(data: Json): (r: Result<DisplayName, Error>)
    ensures r.Ok? <==> HasKeys(data, ["locale", "name"])
    ensures r.Ok? ==> r.value == DisplayName(data.fields["locale"], data.fields["name"])
    ensures r.Err? ==> r.error == FirstMissing(data, ["locale", "name"])
  {
    var locale :- Get(data, "locale");
    var name :- Get(data, "name");
    Ok(DisplayName(locale, name))
  }

  function EncodeDisplayName(d: DisplayName): Json
  {
    JObj(map["locale" := d.locale, "name" := d.name])
  }

  // ---- Workflow

  /** `workflowClass` is read from the JSON key `class`. */
  datatype Workflow = Workflow(id: Json, name: Json, order: Json, workflowClass: Json, names: seq<DisplayName>)

  const WorkflowKeys: seq<string> := ["id", "name", "order", "class", "names"]

  /**
   * `Workflow(data)`: requires `id`, `name`, `order`, `class` and `names`; `names` holds
   * one `DisplayName` per element of `data['names']`, same length, same order.
   */
  function DecodeWorkflow(data: Json): (r: Result<Workflow, Error>)
    ensures r.Ok? <==>
      && HasKeys(data, WorkflowKeys) && Iterate(data.fields["names"]).Ok?
      && DecodeEach(Iterate(data.fields["names"]).value, DecodeDisplayName).Ok?
    ensures r.Ok? ==>
      && r.value.id == data.fields["id"] && r.value.name == data.fields["name"]
      && r.value.order == data.fields["order"] && r.value.workflowClass == data.fields["class"]
      && var xs := Iterate(data.fields["names"]).value;
         |r.value.names| == |xs| && forall i :: 0 <= i < |xs| ==> DecodeDisplayName(xs[i]) == Ok(r.value.names[i])
    ensures !HasKeys(data, WorkflowKeys) ==> r == Err(FirstMissing(data, WorkflowKeys))
  {
    var id :- Get(data, "id");
    var name :- Get(data, "name");
    var order :- Get(data, "order");
    var workflowClass :- Get(data, "class");
    var namesData :- Get(data, "names");
    var elements :- Iterate(namesData);
    var names :- DecodeEach(elements, DecodeDisplayName);
    Ok(Workflow(id, name, order, workflowClass, names))
  }

  /** The constructor as written: field reads, then an append loop over `data['names']`. */
  method NewWorkflow(data: Json) returns (r: Result<Workflow, Error>)
    ensures r == DecodeWorkflow(data)
  {
    var id :- Get(data, "id");
    var name :- Get(data, "name");
    var order :- Get(data, "order");
    var workflowClass :- Get(data, "class");
    var namesData :- Get(data, "names");
    var elements :- Iterate(namesData);
    var names :- AppendDecoded(elements, DecodeDisplayName);
    r := Ok(Workflow(id, name, order, workflowClass, names));
  }

  function EncodeWorkflow(w: Workflow): Json
  {
    JObj(map[
      "id" := w.id, "name" := w.name, "order" := w.order, "class" := w.workflowClass,
      "names" := JArr(EncodeEach(w.names, EncodeDisplayName))])
  }

  lemma WorkflowRoundTrip(w: Workflow)
    ensures DecodeWorkflow(EncodeWorkflow(w)) == Ok(w)
  {
    DecodeEachOfEncoded(w.names, EncodeDisplayName, DecodeDisplayName);
    assert HasKeys(EncodeWorkflow(w), WorkflowKeys);
  }

  // ---- EmailAddress

  /** `emailAddress` is read from the JSON key `emailAddress`. */
  datatype EmailAddress = EmailAddress(id: Json, name: Json, emailAddress: Json)

  function DecodeEmailAddress(data: Json): (r: Result<EmailAddress, Error>)
    ensures r.Ok? <==> HasKeys(data, ["id", "name", "emailAddress"])
    ensures r.Ok? ==> r.value == EmailAddress(data.fields["id"], data.fields["name"], data.fields["emailAddress"])
    ensures r.Err? ==> r.error == FirstMissing(data, ["id", "name", "emailAddress"])
  {
    var id :- Get(data, "id");
    var name :- Get(data, "name");
    var emailAddress :- Get(data, "emailAddress");
    Ok(EmailAddress(id, name, emailAddress))
  }

  function EncodeEmailAddress(e: EmailAddress): Json
  {
    JObj(map["id" := e.id, "name" := e.name, "emailAddress" := e.emailAddress])
  }

  lemma EmailAddressRoundTrip(e: EmailAddress)
    ensures DecodeEmailAddress(EncodeEmailAddress(e)) == Ok(e)
  {
  }

  // ---- Tag

  datatype Tag = Tag(id: Json, name: Json, color: Json)

  /** `Tag(data)`: copies `id`, `name` and `color`; the colour's format is not checked. */
  function DecodeTag(data: Json): (r: Result<Tag, Error>)
    ensures r.Ok? <==> HasKeys(data, ["id", "name", "color"])
    ensures r.Ok? ==> r.value == Tag(data.fields["id"], data.fields["name"], data.fields["color"])
    ensures r.Err? ==> r.error == FirstMissing(data, ["id", "name", "color"])
  {
    var id :- Get(data, "id");
    var name :- Get(data, "name");
    var color :- Get(data, "color");
    Ok(Tag(id, name, color))
  }

  function EncodeTag(t: Tag): Json
  {
    JObj(map["id" := t.id, "name" := t.name, "color" := t.color])
  }

  lemma TagRoundTrip(t: Tag)
    ensures DecodeTag(EncodeTag(t)) == Ok(t)
  {
  }
}
