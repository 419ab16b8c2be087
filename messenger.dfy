/** Messenger records: channel, its participants and the caller's own membership (src/dooray/Messenger.py). */
module Messenger {
  import opened Wrappers
  import opened DoorayExceptions
  import opened Json
  import opened DoorayObjects

  // ---- OrganizationMember

  datatype OrganizationMember = OrganizationMember(organizationMemberId: Json)

  function DecodeOrganizationMember(data: Json): (r: Result<OrganizationMember, Error>)
    ensures r.Ok? <==> HasKeys(data, ["organizationMemberId"])
    ensures r.Ok? ==> r.value.organizationMemberId == data.fields["organizationMemberId"]
    ensures r.Err? ==> r.error == FirstMissing(data, ["organizationMemberId"])
  {
    var id :- Get(data, "organizationMemberId");
    Ok(OrganizationMember(id))
  }

  function EncodeOrganizationMember(m: OrganizationMember): Json
  {
    JObj(map["organizationMemberId" := m.organizationMemberId])
  }

  // ---- Participant

  datatype Participant = Participant(participantType: Json, member: OrganizationMember)

  /** `Participant(data)`: `type` copied unchecked, `member` decoded as an organisation member. */
  function DecodeParticipant(data: Json): (r: Result<Participant, Error>)
    ensures r.Ok? <==> HasKeys(data, ["type", "member"]) && HasKeys(data.fields["member"], ["organizationMemberId"])
    ensures r.Ok? ==>
      && r.value.participantType == data.fields["type"]
      && r.value.member.organizationMemberId == data.fields["member"].fields["organizationMemberId"]
    ensures !HasKeys(data, ["type", "member"]) ==> r == Err(FirstMissing(data, ["type", "member"]))
    ensures r.Err? ==> IsLookupError(r.error)
  {
    var participantType :- Get(data, "type");
    var memberData :- Get(data, "member");
    var member :- DecodeOrganizationMember(memberData);
    Ok(Participant(participantType, member))
  }

  function EncodeParticipantFields(p: Participant): map<string, Json>
  {
    map["type" := p.participantType, "member" := EncodeOrganizationMember(p.member)]
  }

  function EncodeParticipant(p: Participant): Json
  {
    JObj(EncodeParticipantFields(p))
  }

  lemma ParticipantRoundTrip(p: Participant)
    ensures DecodeParticipant(EncodeParticipant(p)) == Ok(p)
  {
  }

  // ---- Me

  /** The caller's own membership: a participant plus its `role`. */
  datatype Me = Me(participant: Participant, role: Json)

  /**
   * `Me(data)`: exactly the participant decoded from the same object, plus `role`;
   * fails when that participant fails or `role` is missing.
   */
  function DecodeMe(data: Json): (r: Result<Me, Error>)
    ensures r.Ok? <==> DecodeParticipant(data).Ok? && "role" in data.fields
    ensures r.Ok? ==> r.value.participant == DecodeParticipant(data).value && r.value.role == data.fields["role"]
    ensures DecodeParticipant(data).Ok? && "role" !in data.fields ==> r == Err(KeyError("role"))
    ensures DecodeParticipant(data).Err? ==> r == Err(DecodeParticipant(data).error)
    ensures r.Err? ==> IsLookupError(r.error)
  {
    var participant :- DecodeParticipant(data);
    var role :- Get(data, "role");
    Ok(Me(participant, role))
  }

  function EncodeMe(m: Me): Json
  {
    JObj(EncodeParticipantFields(m.participant)["role" := m.role])
  }

  lemma MeRoundTrip(m: Me)
    ensures DecodeMe(EncodeMe(m)) == Ok(m)
  {
  }

  // ---- Users

  datatype Users = Users(participants: seq<Participant>)

  /** `Users(data)`: one participant per element of `data['participants']`, same length and order. */
  function DecodeUsers(data: Json): (r: Result<Users, Error>)
    ensures r.Ok? <==>
      && HasKeys(data, ["participants"]) && Iterate(data.fields["participants"]).Ok?
      && DecodeEach(Iterate(data.fields["participants"]).value, DecodeParticipant).Ok?
    ensures r.Ok? ==>
      var xs := Iterate(data.fields["participants"]).value;
      |r.value.participants| == |xs| && forall i :: 0 <= i < |xs| ==> DecodeParticipant(xs[i]) == Ok(r.value.participants[i])
    ensures r.Err? ==> IsLookupError(r.error)
  {
    var participantsData :- Get(data, "participants");
    var elements :- Iterate(participantsData);
    var participants :- DecodeEach(elements, DecodeParticipant);
    Ok(Users(participants))
  }

  function EncodeUsers(u: Users): Json
  {
    JObj(map["participants" := JArr(EncodeEach(u.participants, EncodeParticipant))])
  }

  lemma {:induction false} UsersRoundTrip(u: Users)
    ensures DecodeUsers(EncodeUsers(u)) == Ok(u)
  {
    forall i | 0 <= i < |u.participants|
      ensures DecodeParticipant(EncodeParticipant(u.participants[i])) == Ok(u.participants[i])
    {
      ParticipantRoundTrip(u.participants[i]);
    }
    DecodeEachOfEncoded(u.participants, EncodeParticipant, DecodeParticipant);
  }

  // ---- Channel

  datatype Channel = Channel(
    id: Json, title: Json, organization: Relation, channelType: Json, users: Users, me: Me,
    capacity: Json, status: Json, createdAt: Json, updatedAt: Json, archivedAt: Json, displayed: Json)

  /** The keys read after the nested records, all copied as they are. */
  const ChannelScalarKeys: seq<string> := ["capacity", "status", "createdAt", "updatedAt", "archivedAt", "displayed"]

  /** `data` is an object holding all twelve keys a channel reads. */
  predicate HasChannelKeys(data: Json)
  {
    && data.JObj?
    && "id" in data.fields && "title" in data.fields && "organization" in data.fields
    && "type" in data.fields && "users" in data.fields && "me" in data.fields
    && "capacity" in data.fields && "status" in data.fields && "createdAt" in data.fields
    && "updatedAt" in data.fields && "archivedAt" in data.fields && "displayed" in data.fields
  }

  /**
   * `Channel(data)`: all twelve keys are required (`archivedAt` may hold `null`, which is
   * kept); the nested organisation, users and me are decoded by their own decoders;
   * `type` and `status` are copied without checking them against the documented values.
   */
  function DecodeChannel(data: Json): (r: Result<Channel, Error>)
    ensures r.Ok? <==>
      && HasChannelKeys(data)
      && DecodeRelation(data.fields["organization"]).Ok?
      && DecodeUsers(data.fields["users"]).Ok?
      && DecodeMe(data.fields["me"]).Ok?
    ensures r.Ok? ==>
      && r.value.id == data.fields["id"] && r.value.title == data.fields["title"]
      && Ok(r.value.organization) == DecodeRelation(data.fields["organization"])
      && r.value.channelType == data.fields["type"]
      && Ok(r.value.users) == DecodeUsers(data.fields["users"])
      && Ok(r.value.me) == DecodeMe(data.fields["me"])
      && r.value.capacity == data.fields["capacity"] && r.value.status == data.fields["status"]
      && r.value.createdAt == data.fields["createdAt"] && r.value.updatedAt == data.fields["updatedAt"]
      && r.value.archivedAt == data.fields["archivedAt"] && r.value.displayed == data.fields["displayed"]
    ensures !HasKeys(data, ["id", "title"]) ==> r == Err(FirstMissing(data, ["id", "title"]))
    ensures r.Err? ==> IsLookupError(r.error)
  {
    var id :- Get(data, "id");
    var title :- Get(data, "title");
    var organization :- DecodeField(data, "organization", DecodeRelation);
    var channelType :- Get(data, "type");
    var users :- DecodeField(data, "users", DecodeUsers);
    var me :- DecodeField(data, "me", DecodeMe);
    var rest :- GetAll(data, ChannelScalarKeys);
    Ok(Channel(id, title, organization, channelType, users, me, rest[0], rest[1], rest[2], rest[3], rest[4], rest[5]))
  }

  function EncodeChannel(c: Channel): Json
  {
    JObj(map[
      "id" := c.id, "title" := c.title, "organization" := EncodeRelation(c.organization),
      "type" := c.channelType, "users" := EncodeUsers(c.users), "me" := EncodeMe(c.me),
      "capacity" := c.capacity, "status" := c.status, "createdAt" := c.createdAt,
      "updatedAt" := c.updatedAt, "archivedAt" := c.archivedAt, "displayed" := c.displayed])
  }

  lemma {:induction false} ChannelRoundTrip(c: Channel)
    ensures DecodeChannel(EncodeChannel(c)) == Ok(c)
  {
    var data := EncodeChannel(c);
    assert HasChannelKeys(data);
    RelationRoundTrip(c.organization);
    UsersRoundTrip(c.users);
    MeRoundTrip(c.me);
    assert DecodeRelation(data.fields["organization"]) == Ok(c.organization);
    assert DecodeUsers(data.fields["users"]) == Ok(c.users);
    assert DecodeMe(data.fields["me"]) == Ok(c.me);
  }

  /** A channel that was never archived keeps `archivedAt` as `null`. */
  lemma NullArchivedAtKept(c: Channel)
    requires c.archivedAt == JNull
    ensures DecodeChannel(EncodeChannel(c)).Ok? && DecodeChannel(EncodeChannel(c)).value.archivedAt == JNull
  {
    ChannelRoundTrip(c);
  }

  /**
   * Removing `archivedAt` (rather than setting it to `null`) from any body that decodes as a
   * channel makes the decoding fail on exactly that key.
   */
  lemma MissingArchivedAtFails(data: Json)
    requires DecodeChannel(data).Ok?
    ensures DecodeChannel(JObj(data.fields - {"archivedAt"})) == Err(KeyError("archivedAt"))
  {
    var rest := JObj(data.fields - {"archivedAt"});
    NestedReadsKept(data);
    ArchivedAtFirstMissing(rest);
    ScalarFailureIsChannelFailure(rest);
  }

  /** Removing `archivedAt` from a full channel body leaves every read before the scalars as it was. */
  lemma NestedReadsKept(data: Json)
    requires HasChannelKeys(data)
    requires DecodeRelation(data.fields["organization"]).Ok?
    requires DecodeUsers(data.fields["users"]).Ok? && DecodeMe(data.fields["me"]).Ok?
    ensures var rest := JObj(data.fields - {"archivedAt"});
      && "id" in rest.fields && "title" in rest.fields && "type" in rest.fields
      && "capacity" in rest.fields && "status" in rest.fields
      && "createdAt" in rest.fields && "updatedAt" in rest.fields && "archivedAt" !in rest.fields
      && DecodeField(rest, "organization", DecodeRelation).Ok?
      && DecodeField(rest, "users", DecodeUsers).Ok?
      && DecodeField(rest, "me", DecodeMe).Ok?
  {
    var rest := JObj(data.fields - {"archivedAt"});
    assert rest.fields["organization"] == data.fields["organization"];
    assert rest.fields["users"] == data.fields["users"];
    assert rest.fields["me"] == data.fields["me"];
  }

  /** Among the scalar keys, a body lacking only `archivedAt` fails first on `archivedAt`. */
  lemma ArchivedAtFirstMissing(data: Json)
    requires data.JObj? && "archivedAt" !in data.fields
    requires "capacity" in data.fields && "status" in data.fields
    requires "createdAt" in data.fields && "updatedAt" in data.fields
    ensures GetAll(data, ChannelScalarKeys) == Err(KeyError("archivedAt"))
  {
    var keys := ChannelScalarKeys;
    assert keys[1..][1..][1..][1..] == ["archivedAt", "displayed"];
    calc {
      FirstMissing(data, keys);
      FirstMissing(data, keys[1..]);
      FirstMissing(data, keys[1..][1..]);
      FirstMissing(data, keys[1..][1..][1..]);
      FirstMissing(data, keys[1..][1..][1..][1..]);
      KeyError("archivedAt");
    }
  }

  /** When every read before the scalar keys succeeds, a channel fails exactly as those reads do. */
  lemma ScalarFailureIsChannelFailure(data: Json)
    requires data.JObj? && "id" in data.fields && "title" in data.fields && "type" in data.fields
    requires DecodeField(data, "organization", DecodeRelation).Ok?
    requires DecodeField(data, "users", DecodeUsers).Ok?
    requires DecodeField(data, "me", DecodeMe).Ok?
    requires GetAll(data, ChannelScalarKeys).Err?
    ensures DecodeChannel(data) == Err(GetAll(data, ChannelScalarKeys).error)
  {
  }
}
