/** Messenger incoming-hook client and its attachment builder (src/dooray/MessengerHook.py). */
module MessengerHook {
  import opened Wrappers
  import opened DoorayExceptions
  import opened Json

  const DefaultHookName: string := "My Bot"
  const DefaultHookIcon: string := "https://static.dooray.com/static_images/dooray-bot.png"
  const DefaultUserAgent: string := "PyDooray/Python"

  /** A configured hook; it is never changed after construction. `userAgent` may be `None`. */
  datatype MessengerHook = MessengerHook(hookUrl: string, hookName: string, hookIcon: string, userAgent: Option<string>)

  /** The headers every post carries: `{'User-Agent': user_agent}`. */
  function RequestHeader(hook: MessengerHook): (h: map<string, Option<string>>)
    ensures h.Keys == {"User-Agent"} && h["User-Agent"] == hook.userAgent
  {
    map["User-Agent" := hook.userAgent]
  }

  /**
   * `MessengerHook(hook_url, hook_name, hook_icon, user_agent)`: url, name and icon must be
   * strings and the user agent a string or `None`; anything else raises `TypeError`.
   */
  function NewMessengerHook(hookUrl: Json, hookName: Json, hookIcon: Json, userAgent: Json): (r: Result<MessengerHook, Error>)
    ensures r.Ok? <==> hookUrl.JStr? && hookName.JStr? && hookIcon.JStr? && (userAgent.JNull? || userAgent.JStr?)
    ensures r.Ok? ==>
      && r.value.hookUrl == hookUrl.s && r.value.hookName == hookName.s && r.value.hookIcon == hookIcon.s
      && r.value.userAgent == (if userAgent.JStr? then Some(userAgent.s) else None)
    ensures r.Err? ==> r.error == TypeError
  {
    if !hookUrl.JStr? then Err(TypeError)
    else if !hookName.JStr? then Err(TypeError)
    else if !hookIcon.JStr? then Err(TypeError)
    else if !userAgent.JNull? && !userAgent.JStr? then Err(TypeError)
    else Ok(MessengerHook(hookUrl.s, hookName.s, hookIcon.s, if userAgent.JStr? then Some(userAgent.s) else None))
  }

  /** `MessengerHook(hook_url)` with every other argument left at its default. */
  lemma DefaultsAccepted(hookUrl: string)
    ensures NewMessengerHook(JStr(hookUrl), JStr(DefaultHookName), JStr(DefaultHookIcon), JStr(DefaultUserAgent))
            == Ok(MessengerHook(hookUrl, "My Bot", "https://static.dooray.com/static_images/dooray-bot.png", Some("PyDooray/Python")))
  {
  }

  /** The POST a hook sends: target URL, JSON body and headers. */
  datatype HookPost = HookPost(url: string, payload: map<string, Json>, headers: map<string, Option<string>>)

  /**
   * `send(text, attachments)`: `text` must be a string and `attachments` `None` or a list,
   * else `TypeError` is raised and nothing is posted. The body always carries `botName`,
   * `botIconImage` and `text`, and carries `attachments` exactly when it is not `None`.
   * `status` is the status code the hook answers the post with; the result is whether it is 200.
   */
  method Send(hook: MessengerHook, text: Json, attachments: Json, status: int) returns (post: Option<HookPost>, r: Result<bool, Error>)
    ensures r.Ok? <==> text.JStr? && (attachments.JNull? || attachments.JArr?)
    ensures r.Err? ==> r.error == TypeError && post == None
    ensures r.Ok? ==>
      && post.Some? && post.value.url == hook.hookUrl && post.value.headers == RequestHeader(hook)
      && post.value.payload.Keys == {"botName", "botIconImage", "text"} + (if attachments.JNull? then {} else {"attachments"})
      && post.value.payload["botName"] == JStr(hook.hookName)
      && post.value.payload["botIconImage"] == JStr(hook.hookIcon)
      && post.value.payload["text"] == text
      && (!attachments.JNull? ==> post.value.payload["attachments"] == attachments)
      && r.value == (status == 200)
  {
    if !text.JStr? {
      return None, Err(TypeError);
    }
    if !attachments.JNull? && !attachments.JArr? {
      return None, Err(TypeError);
    }
    var payload := map["botName" := JStr(hook.hookName), "botIconImage" := JStr(hook.hookIcon), "text" := text];
    if !attachments.JNull? {
      payload := payload["attachments" := attachments];
    }
    post := Some(HookPost(hook.hookUrl, payload, RequestHeader(hook)));
    r := Ok(status == 200);
  }

  // ---- Attachments

  /** One attachment record: a JSON object with some of `title`, `titleLink`, `text`, `color`. */
  type Attachment = map<string, Json>

  /**
   * `_create_attachment(title, title_link, text, color)`: the record holds exactly the
   * arguments that are not `None` (`title_link` under the key `titleLink`); when all four
   * are `None` there is no record at all.
   */
  function AttachmentOf(title: Json, titleLink: Json, text: Json, color: Json): (e: Option<Attachment>)
    ensures e.None? <==> title.JNull? && titleLink.JNull? && text.JNull? && color.JNull?
    ensures e.Some? ==>
      && e.value.Keys <= {"title", "titleLink", "text", "color"}
      && ("title" in e.value <==> !title.JNull?) && ("titleLink" in e.value <==> !titleLink.JNull?)
      && ("text" in e.value <==> !text.JNull?) && ("color" in e.value <==> !color.JNull?)
      && (!title.JNull? ==> e.value["title"] == title) && (!titleLink.JNull? ==> e.value["titleLink"] == titleLink)
      && (!text.JNull? ==> e.value["text"] == text) && (!color.JNull? ==> e.value["color"] == color)
  {
    var e0: Attachment := map[];
    var e1 := if title.JNull? then e0 else e0["title" := title];
    var e2 := if titleLink.JNull? then e1 else e1["titleLink" := titleLink];
    var e3 := if text.JNull? then e2 else e2["text" := text];
    var e := if color.JNull? then e3 else e3["color" := color];
    assert !title.JNull? ==> "title" in e.Keys;
    assert !titleLink.JNull? ==> "titleLink" in e.Keys;
    assert !text.JNull? ==> "text" in e.Keys;
    assert !color.JNull? ==> "color" in e.Keys;
    if e.Keys == {} then None else Some(e)
  }

  /** The static helper as written: conditional inserts into an empty dictionary. */
  method CreateAttachment(title: Json, titleLink: Json, text: Json, color: Json) returns (e: Option<Attachment>)
    ensures e == AttachmentOf(title, titleLink, text, color)
  {
    var m: Attachment := map[];
    if !title.JNull? {
      m := m["title" := title];
    }
    if !titleLink.JNull? {
      m := m["titleLink" := titleLink];
    }
    if !text.JNull? {
      m := m["text" := text];
    }
    if !color.JNull? {
      m := m["color" := color];
    }
    if |m.Keys| == 0 {
      e := None;
    } else {
      e := Some(m);
    }
  }

  /** Builder of attachment lists; `create` hands out copies, so one builder serves as a template. */
  class MessengerHookAttachments {
    var attachments: seq<Attachment>

    constructor ()
      ensures attachments == []
    {
      attachments := [];
    }

    /** `builder()`: a new, empty builder. */
    static method Builder() returns (b: MessengerHookAttachments)
      ensures fresh(b) && b.attachments == []
    {
      b := new MessengerHookAttachments();
    }

    /** `add_attachment(...)`: appends the record when there is one; returns the builder itself. */
    method AddAttachment(title: Json, titleLink: Json, text: Json, color: Json) returns (self: MessengerHookAttachments)
      modifies this
      ensures self == this
      ensures attachments == old(attachments) + (match AttachmentOf(title, titleLink, text, color)
                                                 case Some(e) => [e]
                                                 case None => [])
    {
      var e := CreateAttachment(title, titleLink, text, color);
      if e.Some? {
        attachments := attachments + [e.value];
      }
      self := this;
    }

    /** `create()`: a fresh list holding the records, leaving the builder as it was. */
    method Create() returns (list: array<Attachment>)
      ensures fresh(list) && list[..] == attachments
    {
      list := new Attachment[|attachments|](i requires 0 <= i < |attachments| reads this => attachments[i]);
    }
  }

  /**
   * Reuse of a builder as a template: for any builder and any record replaced in the first
   * list it creates, a second `create()` is a distinct list equal to the builder's records,
   * and the builder itself is unchanged.
   */
  method TemplateReuse(builder: MessengerHookAttachments, i: nat, e: Attachment)
    returns (first: array<Attachment>, second: array<Attachment>)
    requires i < |builder.attachments|
    ensures first != second
    ensures first[..] == builder.attachments[i := e]
    ensures second[..] == builder.attachments
  {
    first := builder.Create();
    first[i] := e;
    second := builder.Create();
  }
}
