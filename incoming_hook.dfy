/** Incoming-hook record (src/dooray/IncomingHook.py). */
module IncomingHook {
  import opened Wrappers
  import opened DoorayExceptions
  import opened Json
  import opened DoorayObjects

  datatype IncomingHook = IncomingHook(id: Json, name: Json, serviceType: Json, url: Json, projects: seq<Relation>)

  const IncomingHookKeys: seq<string> := ["id", "name", "serviceType", "url", "projects"]

  /**
   * `IncomingHook(data)`: requires `id`, `name`, `serviceType`, `url` and `projects`;
   * `projects` holds one `Relation` per element of `data['projects']`, same length, same
   * order. Any other key (the undocumented `channels`, say) is ignored.
   */
  function DecodeIncomingHook(data: Json): (r: Result<IncomingHook, Error>)
    ensures r.Ok? <==>
      && HasKeys(data, IncomingHookKeys) && Iterate(data.fields["projects"]).Ok?
      && DecodeEach(Iterate(data.fields["projects"]).value, DecodeRelation).Ok?
    ensures r.Ok? ==>
      && r.value.id == data.fields["id"] && r.value.name == data.fields["name"]
      && r.value.serviceType == data.fields["serviceType"] && r.value.url == data.fields["url"]
      && var xs := Iterate(data.fields["projects"]).value;
         |r.value.projects| == |xs| && forall i :: 0 <= i < |xs| ==> DecodeRelation(xs[i]) == Ok(r.value.projects[i])
    ensures !HasKeys(data, IncomingHookKeys) ==> r == Err(FirstMissing(data, IncomingHookKeys))
    ensures r.Err? ==> IsLookupError(r.error)
  {
    var id :- Get(data, "id");
    var name :- Get(data, "name");
    var serviceType :- Get(data, "serviceType");
    var url :- Get(data, "url");
    var projectsData :- Get(data, "projects");
    var elements :- Iterate(projectsData);
    var projects :- DecodeEach(elements, DecodeRelation);
    Ok(IncomingHook(id, name, serviceType, url, projects))
  }

  /** The constructor as written: field reads, then an append loop over `data['projects']`. */
  method NewIncomingHook(data: Json) returns (r: Result<IncomingHook, Error>)
    ensures r == DecodeIncomingHook(data)
  {
    var id :- Get(data, "id");
    var name :- Get(data, "name");
    var serviceType :- Get(data, "serviceType");
    var url :- Get(data, "url");
    var projectsData :- Get(data, "projects");
    var elements :- Iterate(projectsData);
    var projects :- AppendDecoded(elements, DecodeRelation);
    r := Ok(IncomingHook(id, name, serviceType, url, projects));
  }

  function EncodeIncomingHook(h: IncomingHook): Json
  {
    JObj(map[
      "id" := h.id, "name" := h.name, "serviceType" := h.serviceType, "url" := h.url,
      "projects" := JArr(EncodeEach(h.projects, EncodeRelation))])
  }

  lemma {:induction false} IncomingHookRoundTrip(h: IncomingHook)
    ensures DecodeIncomingHook(EncodeIncomingHook(h)) == Ok(h)
  {
    forall i | 0 <= i < |h.projects|
      ensures DecodeRelation(EncodeRelation(h.projects[i])) == Ok(h.projects[i])
    {
      RelationRoundTrip(h.projects[i]);
    }
    DecodeEachOfEncoded(h.projects, EncodeRelation, DecodeRelation);
    assert HasKeys(EncodeIncomingHook(h), IncomingHookKeys);
  }

  /** The undocumented `channels` key the service also sends changes nothing. */
  lemma {:induction false} ChannelsKeyIgnored(h: IncomingHook, channels: Json)
    ensures DecodeIncomingHook(JObj(EncodeIncomingHook(h).fields["channels" := channels])) == Ok(h)
  {
    IncomingHookRoundTrip(h);
    var data := JObj(EncodeIncomingHook(h).fields["channels" := channels]);
    assert HasKeys(data, IncomingHookKeys);
    assert data.fields["projects"] == EncodeIncomingHook(h).fields["projects"];
  }
}
