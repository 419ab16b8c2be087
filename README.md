# PyDooray in Dafny

A model of the core of PyDooray, a Python client for the Dooray! REST API, with proofs about it.
PyDooray does three things, and all three are modelled:

- **Decoding responses.** It decodes the JSON answers of the server into records: the response envelope with its header, paged lists, members, projects, workflows, channels, incoming hooks and more.
- **Building requests.** It builds the request of every facade method: HTTP method, URL, headers, query parameters and JSON body. It classifies the server's answer into a result or one of the library's exceptions.
- **Posting to messenger hooks.** It posts messages to a messenger incoming hook, with an attachment builder that can be reused as a template.

The older copy of the same layer that lives in the `dooray/` directory is modelled beside it. Lemmas state exactly where the two copies differ.

JSON values, and the Python values passed to the API, are one datatype `Json`; Python's `None` is `JNull`. Every operation that can raise returns a `Result`. Its error is one of:

- a `DoorayException` (`BadHttpResponseStatusCode(status)` or `ServerGeneralError`);
- `KeyError(key)` for a missing dict key;
- `TypeError`, for a subscript on a non-dict, a `for` over a value that is neither a list nor a string (`Json.Iterate`), an `isinstance` against a module, and the explicit `raise TypeError` checks of `MessengerHook.__init__` and `send`;
- `AssertionError`, for a failed argument `assert`;
- `JsonDecodeError`, for a body that is not JSON.

The transport is a parameter. A facade call takes the response its request receives, `HttpResponse(status, text, json)`. It returns a `Call`: the `Request` it sent (`None` when it raised before sending) and its outcome. `DoorayBase.Handles` states the order of the checks in one place:

1. a bad status;
2. then `SERVER_GENERAL_ERROR`;
3. then an unparsable body;
4. then the decoder.

Modules follow the source files:

- `DoorayExceptions`: `src/dooray/DoorayExceptions.py`.
- `Json`: dict and list access shared by the decoders.
- `DoorayObjects`, `Member`, `Project`, `Messenger`, `IncomingHook`: the files of the same names under `src/dooray`.
- `MessengerHook`: `src/dooray/MessengerHook.py`.
- `DoorayBase`, `DoorayCommon`, `DoorayMessenger`, `DoorayProject`: the classes of `src/dooray/Dooray.py`.
- `LegacyDoorayObjects`, `LegacyMember`, `LegacyProject`, `LegacyDooray`: the files under `dooray/`.

Some source is the same in both copies, so the model reuses it:

- The older response header decode (`dooray/DoorayObjects.py:1-5`) is the same code as the newer one, so `DoorayObjects.DecodeResponseHeader` models both.
- The older constructor (`dooray/Dooray.py:13-28`) is the same code as `DoorayBase.__init__`, so `DoorayBase.NewClient` and `DoorayBase.ClientHeaders` model both.
- The older `get_members` builds its query with the same statements as the newer one, so it reuses `DoorayCommon.BuildMembersQuery`.

With their decoders, the older `DoorayListResponse` and `Member` are `DoorayObjects.DoorayListResponse` and `LegacyMember.LegacyMember`.

Loops and step-by-step updates in the source are methods, each proved equal to a specification function. Those functions' properties are proved as contracts and lemmas:

- the append loops of the list envelope, `Workflow` and `IncomingHook`;
- the query builders of `get_members`, `get_milestones` and `get_member_groups`;
- `_get_member_id_list`;
- the attachment builder, which is a class whose `attachments` field the methods update.

`send` is a method too. Its contract states the post it builds directly: the full payload, its keys and the headers.

## Model

| member | source | states |
|---|---|---|
| DoorayExceptions.Catches | src/dooray/DoorayExceptions.py:1-15 | an `except` clause for `DoorayException` catches exactly the library's exceptions; one for a subclass catches exactly that subclass |
| DoorayExceptions.SubclassHandlersDisjoint | src/dooray/DoorayExceptions.py:8-15 | no error is caught by both subclass handlers, and an error is caught by one of them exactly when the base-class handler catches it |
| DoorayExceptions.Message | src/dooray/DoorayExceptions.py:9-15 | the status-code message is the fixed prefix followed by a rendering of the status code that parses back to it; the general-error message is a constant |
| DoorayExceptions.MessagesDistinguishExceptions | src/dooray/DoorayExceptions.py:10-15 | two exceptions with the same message are the same exception (same kind, same status code) |
| DoorayExceptions.NatParsesBack | src/dooray/DoorayExceptions.py:10 | the decimal rendering of a natural number parses back to it |
| DoorayExceptions.IntParsesBack | src/dooray/DoorayExceptions.py:10 | the decimal rendering of any status code, negative ones included, parses back to it |
| Json.Get | src/dooray/Member.py:3 | `data[key]` succeeds exactly on a dict holding the key, with its value; otherwise `KeyError(key)`, or `TypeError` on a non-dict |
| Json.GetOptional | src/dooray/Member.py:7-9 | `data[key] if key in data else None`: a value exactly when the key is present, and then the key's value |
| Json.Iterate | src/dooray/DoorayObjects.py:108 | `for e in v` visits the items of a list and the characters of a string; any other value raises `TypeError` |
| Json.DecodeEach | src/dooray/Messenger.py:53 | one decoded value per element, in order; the first failing element's error otherwise |
| Json.AppendDecoded | src/dooray/DoorayObjects.py:102-109 | the append loop over a list's elements returns exactly `DecodeEach` of them, its error included |
| Json.DecodeEachOfEncoded | src/dooray/Messenger.py:53 | decoding the encodings of values whose encoding round-trips gives back exactly those values |
| DoorayObjects.DecodeResponseHeader | src/dooray/DoorayObjects.py:3-15 | succeeds exactly when `isSuccessful`, `resultCode` and `resultMessage` are present, whatever their values (even `isSuccessful == false`); they are copied; the error is the first missing key's |
| DoorayObjects.ResponseHeaderRoundTrip | src/dooray/DoorayObjects.py:3-15 | every header decodes back from its JSON object |
| DoorayObjects.DecodeRelation | src/dooray/DoorayObjects.py:119-121 | a relation is exactly `data['id']` and fails exactly when `id` is missing |
| DoorayObjects.RelationRoundTrip | src/dooray/DoorayObjects.py:119-121 | every relation decodes back from `{'id': ...}` |
| DoorayObjects.DecodeResponse | src/dooray/DoorayObjects.py:44-52 | without a decoder only `header` is needed and `result` stays unset; with one, `result` is the decoder applied to `data['result']`, and the envelope fails exactly when that decode or the header fails |
| DoorayObjects.DecodeAcknowledgement | src/dooray/DoorayObjects.py:44-52 | the envelope read with no decoder succeeds exactly when the header decodes and holds no result |
| DoorayObjects.DecodeListResponse | src/dooray/DoorayObjects.py:82-112 | needs header, `totalCount` and an iterable `result`; yields one element per element of `data['result']`, element i decoded from element i; any failing element fails the whole; `total_count` is `data['totalCount']`; with `size` None the page is 0 and the size the total count, otherwise both are the caller's |
| DoorayObjects.NewDoorayListResponse | src/dooray/DoorayObjects.py:82-112 | the constructor's assignments, append loop and page/size reset give exactly `DecodeListResponse` |
| DoorayObjects.UnpaginatedIgnoresPage | src/dooray/DoorayObjects.py:110-112 | with no size, the page the caller passed makes no difference to the result |
| DoorayObjects.TotalCountIndependentOfElements | src/dooray/DoorayObjects.py:84-112 | for any page and size, a well-formed body decodes with the server's header and `totalCount` and one element per returned element; with no size the page is 0 and the size is `totalCount`, not the number of elements returned; otherwise both are the caller's |
| Member.DecodeMember | src/dooray/Member.py:2-9 | fails exactly when `id` or `name` is missing; each optional field is present exactly when its own key is and then holds that value unchanged, `null` or `""` included |
| Member.MemberRoundTrip | src/dooray/Member.py:3-9 | every member, with any combination of optional fields, decodes back from its JSON object |
| Member.MinimalMemberDecodes | src/dooray/Member.py:7-9 | `{id, name}` alone decodes, with both optional fields absent |
| Member.MemberIgnoresUnknownKeys | src/dooray/Member.py:2-9 | adding keys the decoder does not read never changes its result, success or error |
| Project.DecodeProject | src/dooray/Project.py:5-14 | succeeds exactly when all nine keys are present and `organization`, `wiki` and `drive` each carry an `id`; scalars copied, nested values decoded as relations; a missing scalar yields the first missing key's `KeyError` |
| Project.ProjectRoundTrip | src/dooray/Project.py:5-14 | every project decodes back from its JSON object |
| Project.DocumentedKeysAloneFail | src/dooray/Project.py:10-15 | a body with only the documented `id`, `code`, `description` and `scope` fails with `KeyError('state')` |
| Project.DecodeDisplayName | src/dooray/Project.py:24-26 | succeeds exactly when `locale` and `name` are present, copying both |
| Project.DecodeWorkflow | src/dooray/Project.py:33-40 | requires `id`, `name`, `order`, `class` and `names`; `class` becomes `workflowClass`; `names` has the length and order of `data['names']`, each a display name |
| Project.NewWorkflow | src/dooray/Project.py:33-40 | the constructor with its append loop gives exactly `DecodeWorkflow` |
| Project.WorkflowRoundTrip | src/dooray/Project.py:33-40 | every workflow decodes back from its JSON object |
| Project.DecodeEmailAddress | src/dooray/Project.py:48-51 | succeeds exactly when `id`, `name` and `emailAddress` are present, copying all three |
| Project.EmailAddressRoundTrip | src/dooray/Project.py:48-51 | every e-mail address decodes back from its JSON object |
| Project.DecodeTag | src/dooray/Project.py:58-61 | succeeds exactly when `id`, `name` and `color` are present, copying them with no check of the colour's format |
| Project.TagRoundTrip | src/dooray/Project.py:58-61 | every tag decodes back from its JSON object |
| Messenger.DecodeOrganizationMember | src/dooray/Messenger.py:90-91 | the record is exactly `data['organizationMemberId']` |
| Messenger.DecodeParticipant | src/dooray/Messenger.py:63-68 | succeeds exactly when `type` and `member` are present and `member` holds `organizationMemberId`; `type` is copied unchecked and the member id equals the nested one |
| Messenger.ParticipantRoundTrip | src/dooray/Messenger.py:63-68 | every participant decodes back from its JSON object |
| Messenger.DecodeMe | src/dooray/Messenger.py:77-80 | succeeds exactly when the participant decoded from the same object does and `role` is present; carries that very participant plus `role`; a missing role is `KeyError('role')` |
| Messenger.MeRoundTrip | src/dooray/Messenger.py:77-80 | every `Me` decodes back from its JSON object |
| Messenger.DecodeUsers | src/dooray/Messenger.py:52-53 | one participant per element of `data['participants']`, same length and order |
| Messenger.UsersRoundTrip | src/dooray/Messenger.py:52-53 | every participant list decodes back from its JSON object |
| Messenger.DecodeChannel | src/dooray/Messenger.py:5-38 | succeeds exactly when all twelve keys are present and organization, users and me decode; scalars (`type`, `status` included) copied unchecked; nested records as their decoders give them |
| Messenger.ChannelRoundTrip | src/dooray/Messenger.py:5-38 | every channel decodes back from its JSON object |
| Messenger.NullArchivedAtKept | src/dooray/Messenger.py:36 | a channel whose `archivedAt` is null decodes with `archivedAt` null |
| Messenger.MissingArchivedAtFails | src/dooray/Messenger.py:5-38 | removing `archivedAt` from any body that decodes as a channel makes it fail with exactly `KeyError('archivedAt')`, since every earlier read still succeeds |
| IncomingHook.DecodeIncomingHook | src/dooray/IncomingHook.py:5-12 | `id`, `name`, `url` copied and `serviceType` mapped; `projects` has one relation per element of `data['projects']` in order; fails when `projects` is missing or an element lacks `id` |
| IncomingHook.NewIncomingHook | src/dooray/IncomingHook.py:5-12 | the constructor with its append loop gives exactly `DecodeIncomingHook` |
| IncomingHook.IncomingHookRoundTrip | src/dooray/IncomingHook.py:5-12 | every incoming hook decodes back from its JSON object |
| IncomingHook.ChannelsKeyIgnored | src/dooray/IncomingHook.py:13 | an extra `channels` key does not change the result |
| MessengerHook.NewMessengerHook | src/dooray/MessengerHook.py:28-42 | succeeds exactly when url, name and icon are strings and the user agent is a string or None, keeping them; otherwise `TypeError` |
| MessengerHook.RequestHeader | src/dooray/MessengerHook.py:40-42 | the only header is `User-Agent`, holding the configured agent |
| MessengerHook.DefaultsAccepted | src/dooray/MessengerHook.py:11-17 | the default name, icon and user agent are accepted as they are |
| MessengerHook.Send | src/dooray/MessengerHook.py:58-71 | rejects a non-string text or non-list, non-None attachments with `TypeError` and posts nothing; otherwise posts to the hook URL with its header a payload with exactly `botName`, `botIconImage`, `text`, plus `attachments` exactly when given, and answers whether the status is 200 |
| MessengerHook.AttachmentOf | src/dooray/MessengerHook.py:91-104 | no record exactly when all four arguments are None; otherwise its keys are exactly the non-None arguments (`title_link` as `titleLink`) with their values |
| MessengerHook.CreateAttachment | src/dooray/MessengerHook.py:91-104 | the key-by-key construction gives exactly `AttachmentOf` |
| MessengerHook.MessengerHookAttachments.constructor | src/dooray/MessengerHook.py:87-88 | a new builder holds no records |
| MessengerHook.MessengerHookAttachments.Builder | src/dooray/MessengerHook.py:106-111 | `builder()` returns a new, empty builder |
| MessengerHook.MessengerHookAttachments.AddAttachment | src/dooray/MessengerHook.py:113-135 | appends the record when there is one and otherwise leaves the state unchanged; returns the builder itself |
| MessengerHook.MessengerHookAttachments.Create | src/dooray/MessengerHook.py:137-144 | returns a new list equal to the state, leaving the builder unchanged |
| MessengerHook.TemplateReuse | src/dooray/MessengerHook.py:137-144 | for any builder and any record replaced in the first list it creates, a second `create()` is a distinct list equal to the builder's records, which stay unchanged |
| DoorayBase.InsertUnlessNull | src/dooray/Dooray.py:87-88 | `if v is not None: params[key] = v` |
| DoorayBase.OptionalParamsSpec | src/dooray/Dooray.py:86-103 | after conditional inserts with distinct keys, a key is present exactly when its argument is not None, with that value, and no other key is present |
| DoorayBase.NewClient | src/dooray/Dooray.py:18-29 | succeeds exactly when token and endpoint are strings and the user agent a string or None; otherwise `AssertionError` |
| DoorayBase.DefaultClient | src/dooray/Dooray.py:18-23 | the default endpoint and user agent are accepted |
| DoorayBase.ClientHeaders | src/dooray/Dooray.py:30-33 | exactly `Authorization: dooray-api <token>` and `User-Agent` |
| DoorayBase.BuildRequest | src/dooray/Dooray.py:35-41 | the URL is endpoint followed by path; the client's headers are added to the caller's, win on a clash, and keep every other caller header |
| DoorayBase.CheckResponse | src/dooray/Dooray.py:43-48 | a status other than 200 raises `BadHttpResponseStatusCode`, whatever the text; a 200 with text `SERVER_GENERAL_ERROR` raises `ServerGeneralError`; anything else is returned unchanged |
| DoorayBase.CheckResponseRaisesDoorayException | src/dooray/Dooray.py:43-46 | every error raised by `_request` is a `DoorayException`; a bad status's message names that status |
| DoorayBase.ResponseJson | src/dooray/Dooray.py:107 | `resp.json()` is the parsed body, or a decoding error |
| DoorayBase.Exchange | src/dooray/Dooray.py:41-48 | a call sends its request and then handles the answer as `Handles` orders it: a bad status, then the general error, then a body that is not JSON, then the decoder; it succeeds exactly when all of them pass |
| DoorayCommon.NewDooray | src/dooray/Dooray.py:55-63 | the facade and its messenger and project clients are built from the same arguments with the same checks |
| DoorayCommon.Join | src/dooray/Dooray.py:99 | `','.join` of one item is that item |
| DoorayCommon.SplitJoin | src/dooray/Dooray.py:99 | a non-empty list of comma-free items is recovered by splitting its comma-join |
| DoorayCommon.EmailsParam | src/dooray/Dooray.py:95-99 | a string passes through; a list becomes a string whose split gives the list back when its items are comma-free; any other value gives no value |
| DoorayCommon.MembersQuery | src/dooray/Dooray.py:86-103 | each of `name`, `userCode`, `userCodeExact`, `idProviderUserId`, `page`, `size` is a key exactly when its argument is not None, with the value unchanged; `externalEmailAddresses` as `EmailsParam` decides; no other key |
| DoorayCommon.BuildMembersQuery | src/dooray/Dooray.py:86-103 | the conditional inserts, one after another, give exactly `MembersQuery` |
| DoorayCommon.DefaultMembersQuery | src/dooray/Dooray.py:65-74 | with no filter, the query is exactly `{page: 0, size: 20}`; no `name` key is added |
| DoorayCommon.GetMembers | src/dooray/Dooray.py:65-107 | a GET of `endpoint/common/v1/members` with that query and the client's headers; the body decoded as a member list with the caller's paging |
| DoorayCommon.GetIncomingHook | src/dooray/Dooray.py:109-117 | a GET of `.../incoming-hooks/<id>`, the result decoded as an incoming hook |
| DoorayMessenger.MemberIdList | src/dooray/Dooray.py:133-142 | a string becomes the one-element list holding it; a list, whatever its elements, an equal list; any other value (`None` included) fails the assertion |
| DoorayMessenger.GetMemberIdList | src/dooray/Dooray.py:133-142 | the append/extend on a new list gives exactly `MemberIdList` |
| DoorayMessenger.GetChannels | src/dooray/Dooray.py:144-152 | a GET of `/messenger/v1/channels` decoded as a channel list with no size, so every decoded list has page 0 and size equal to its total count |
| DoorayMessenger.SendDirectMessage | src/dooray/Dooray.py:154-168 | a POST of exactly `{text, organizationMemberId}` to `.../direct-send`; the envelope without a result |
| DoorayMessenger.SendChannelMessage | src/dooray/Dooray.py:170-183 | a POST of exactly `{text}` to `.../channels/<id>/logs` |
| DoorayMessenger.SendChannelLog | src/dooray/Dooray.py:185-189 | the same request and outcome as `send_channel_message` |
| DoorayMessenger.MembershipCall | src/dooray/Dooray.py:191-219 | ids neither string nor list fail the assertion before any request; otherwise a POST to `.../members/<action>` with the client's headers, no query and exactly `{memberIds}`, the ids sent unchanged |
| DoorayMessenger.JoinChannel | src/dooray/Dooray.py:191-204 | no request and an `AssertionError` for bad ids; otherwise a POST to `.../members/join` with the client's headers, no query and exactly `{memberIds}` holding the normalised list |
| DoorayMessenger.LeaveChannel | src/dooray/Dooray.py:206-219 | the same request to `.../members/leave` |
| DoorayMessenger.CreateChannel | src/dooray/Dooray.py:221-244 | bad ids: no request; otherwise a POST of `{memberIds, capacity, type, title}` with query `{idType}`, the result a relation |
| DoorayMessenger.SingleMemberIdAsStringOrList | src/dooray/Dooray.py:198-199 | `"m"` and `["m"]` give the same join, leave and create calls |
| DoorayProject.IsCreatable | src/dooray/Dooray.py:260-272 | `False` exactly on a bad status, `True` exactly when `_request` returns; otherwise it raises, and then only `ServerGeneralError`; the body is never parsed |
| DoorayProject.IsCreatableLetsOnlyServerGeneralErrorThrough | src/dooray/Dooray.py:267-272 | what escapes is the `_request` error, a `DoorayException` that the `BadHttpResponseStatusCode` handler does not catch |
| DoorayProject.CreateProject | src/dooray/Dooray.py:274-285 | a POST of exactly `{code, description, scope}`, the result a relation |
| DoorayProject.DefaultScopeSent | src/dooray/Dooray.py:274-285 | `create` with its default scope sends `scope: "private"` |
| DoorayProject.GetProject | src/dooray/Dooray.py:287-295 | a GET of `.../projects/<id>`, the result a project |
| DoorayProject.GetWorkflows | src/dooray/Dooray.py:297-305 | a GET of `.../workflows`, decoded with the default paging, which decoded lists keep (page 0, size 20) |
| DoorayProject.CreateEmailAddress | src/dooray/Dooray.py:307-317 | a POST of exactly `{emailAddress, name}` |
| DoorayProject.GetEmailAddress | src/dooray/Dooray.py:319-329 | a GET of `.../email-addresses/<id>`, the result an e-mail address |
| DoorayProject.CreateTag | src/dooray/Dooray.py:331-350 | no request and an `AssertionError` exactly when name or colour is not a string; otherwise a POST of `{name, color}` |
| DoorayProject.GetTag | src/dooray/Dooray.py:352-362 | a GET of `.../tags/<id>`, the result a tag |
| DoorayProject.DateArgumentError | src/dooray/Dooray.py:374-375 | a date passes exactly when it is a string; None fails the assertion; any other value raises `TypeError` from the `isinstance` against the `datetime` module |
| DoorayProject.CreateMilestone | src/dooray/Dooray.py:364-388 | a request exactly when name, start and end are strings; the first failed check's error otherwise; then a POST of `{name, startedAt, endedAt}` |
| DoorayProject.MilestonesQuery | src/dooray/Dooray.py:399-405 | `page`, `size`, `status` each a key exactly when not None, with its value; no other key |
| DoorayProject.GetMilestones | src/dooray/Dooray.py:390-409 | a GET with that query, decoded as a list with the caller's paging |
| DoorayProject.GetMilestone | src/dooray/Dooray.py:411-422 | a GET of `.../milestones/<id>` |
| DoorayProject.UpdateMilestone | src/dooray/Dooray.py:424-448 | no request and an `AssertionError` exactly when name or status is not a string; otherwise a PUT of `{name, status, startedAt, endedAt}`, dates unchecked |
| DoorayProject.DeleteMilestone | src/dooray/Dooray.py:450-460 | a DELETE of `.../milestones/<id>` with no body |
| DoorayProject.CreateHook | src/dooray/Dooray.py:462-481 | no request and an `AssertionError` exactly when the url is not a string or the events not a list; otherwise a POST of `{url, sendEvents}` |
| DoorayProject.AddMember | src/dooray/Dooray.py:483-503 | no request and an `AssertionError` exactly when member id or role is not a string; otherwise a POST of `{organizationMemberId, role}` |
| DoorayProject.DefaultRoleSent | src/dooray/Dooray.py:483-503 | `add_member` with its default role passes its assertions and sends `role: "member"` |
| DoorayProject.GetMember | src/dooray/Dooray.py:505-514 | a GET of `.../members/<id>` |
| DoorayProject.PagingQuery | src/dooray/Dooray.py:524-530 | `page` and `size` each a key exactly when not None; no other key |
| DoorayProject.GetMemberGroups | src/dooray/Dooray.py:516-535 | a GET of `.../member-groups` with that query, decoded with the caller's paging |
| DoorayProject.GetMemberGroup | src/dooray/Dooray.py:537-547 | a GET of `.../member-groups/<id>` |
| LegacyDoorayObjects.LegacyResponseKeepsOnlyHeader | dooray/DoorayObjects.py:12-15 | the older envelope reads only the header and never holds a result, even where the newer one decodes one |
| LegacyDoorayObjects.DecodeLegacyListResponse | dooray/DoorayObjects.py:21-29 | header, `totalCount`, one element per element of `data['result']` in order; page and size always the caller's |
| LegacyDoorayObjects.NewLegacyListResponse | dooray/DoorayObjects.py:21-29 | the constructor with its append loop gives exactly `DecodeLegacyListResponse` |
| LegacyDoorayObjects.ListResponsesDifferOnlyInPaging | dooray/DoorayObjects.py:25-26 | both list envelopes accept the same bodies and agree whenever a size is given; with no size only the newer one resets page and size |
| LegacyMember.DecodeLegacyMember | dooray/Member.py:2-6 | succeeds exactly when all four keys are present, copying them; the first missing key's error otherwise |
| LegacyMember.LegacyMemberRoundTrip | dooray/Member.py:3-6 | every full record decodes back from its JSON object |
| LegacyMember.MinimalMemberRejected | dooray/Member.py:5-6 | `{id, name}` fails with `KeyError('userCode')`, where the newer decoder accepts it |
| LegacyMember.LegacyAgreesWithMember | dooray/Member.py:3-6 | whatever the older decoder accepts the newer one accepts, with the same four values |
| LegacyProject.IdStub | dooray/Project.py:9-11 | `{'id': data[key]['id']}`: only the nested `id` is kept, and its absence fails |
| LegacyProject.DecodeLegacyProject | dooray/Project.py:2-11 | all nine keys required and each stub needs its `id`; scalars copied; stubs reduced to `{'id': ...}` |
| LegacyProject.LegacyAgreesWithProject | dooray/Project.py:3-11 | the two project decoders accept the same bodies, copy the same scalars, and the older stubs are the JSON form of the newer relations |
| LegacyProject.NestedKeysDropped | dooray/Project.py:9-11 | other keys of a nested object are dropped from its stub |
| LegacyDooray.LegacyBuildRequest | dooray/Dooray.py:30-36 | the URL is sent as given, with the same header merge |
| LegacyDooray.LegacyRequestIsPrefixedRequest | dooray/Dooray.py:36 | given the endpoint-prefixed URL, the older request equals the newer one for the bare path |
| LegacyDooray.LegacyCheckResponse | dooray/Dooray.py:38-41 | only a status other than 200 raises |
| LegacyDooray.ChecksDifferOnlyOnServerGeneralError | dooray/Dooray.py:38-41 | the two checks agree except on a 200 `SERVER_GENERAL_ERROR` body, which only the newer one rejects |
| LegacyDooray.LegacyGetMembers | dooray/Dooray.py:43-74 | the same query as the newer `get_members`, sent to `endpoint/common/v1/members`; the body decoded with the older envelope and member, keeping the caller's paging |

## Left out

- HTTP itself (`requests.request`, `requests.post`) and the parsing done by `resp.json()` are not modelled. The response is an input, `HttpResponse(status, text, json)`, and the request is returned as a `Request` value.
- `__repr__` of every class is not modelled: it is presentation only.
- `PostBuilder`, `TemplateBuilder` and the template, post and post-log endpoints are not part of this model. Their source is not among the files modelled, and `src/dooray/Dooray.py:549-551` marks them as not written.
- The decoders `Project.Milestone`, `Project.ProjectMember` and `Project.MemberGroup` are not in the `Project.py` that is modelled. The calls that use them take the decoder as a parameter.
- `Json.Iterate`: iterating a dict visits its keys in Python. Here it raises `TypeError`, because a JSON object's key order is not modelled and no decoder is given an object where a list is expected.
- `str()` of a non-string list element in the comma-join of `external_emails` is not modelled: `DoorayBase.StrOrList` holds lists of strings. Path ids in f-strings are not modelled either; they are strings. (Member ids are any Python value, so lists of non-string ids are modelled.)
- `StrOrList` covers the `isinstance` tests on `external_emails`. `Neither` stands both for `None` and for a value of any other type; either way no key is added.
- `_request` updates a caller's `headers` dict in place. No modelled call passes one, and the model returns the merged headers as a new value without modelling the aliasing.
- A header whose value is `None` is kept in the `Request` (as `None`). `requests` drops such headers when it sends.
- The `datetime` branch of `create_milestone` is modelled as written: a non-string, non-None date raises `TypeError`, because `datetime` there is the module. Date objects are not part of the `Json` type.
- The messages carried by `TypeError`, `KeyError` and `AssertionError` are not modelled, only their kinds.
- Some tests disagree with the source. The model follows the source:
  - the common tests expect `get_members()` to add `name=''`, which the code does not do (`DoorayCommon.DefaultMembersQuery`);
  - the hook tests expect `AssertionError` where `MessengerHook.__init__` raises `TypeError`;
  - the project fixtures lack keys that `Project` requires (`Project.DocumentedKeysAloneFail`).
- Python's `-O` flag, which removes the `assert` statements, is not modelled.
