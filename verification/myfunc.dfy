/** Message normalisation: `smsg` decorates an inbound message object with
    fields derived from its key and its content. */
module MyFunc {
  import opened Wrappers
  import opened Text
  import opened WaMessage

  /** Ids the Baileys library generates for its own messages. */
  predicate IsBaileysId(id: string)
  {
    StartsWith(id, "BAE5") && |id| == 16
  }

  /** Group chats have JIDs on the `g.us` server. */
  predicate IsGroupJid(jid: string)
  {
    EndsWith(jid, "@g.us")
  }

  /** `getContentType`: the first property name of the message object. */
  function ContentType(entries: seq<Entry>): (t: Option<string>)
    ensures t.Some? <==> entries != []
    ensures t.Some? ==> Lookup(entries, t.value).Some?
  {
    if entries == [] then None else Some(entries[0].name)
  }

  /** `message[type]`, the content stored under the content type. */
  function TypedContent(entries: seq<Entry>): (c: Option<Content>)
    ensures c.Some? <==> entries != []
    ensures c.Some? ==> c == Lookup(entries, ContentType(entries).value)
  {
    if entries == [] then None else Some(entries[0].content)
  }

  /** `message.conversation` when it is a non-empty string. */
  function Conversation(entries: seq<Entry>): Option<string>
  {
    var c := Lookup(entries, "conversation");
    if c.Some? && c.value.Text? && c.value.s != "" then Some(c.value.s) else None
  }

  /** One of the string fields of the typed content, when the content is an
      object that has it. */
  datatype TextField = TextOf | CaptionOf | ContentTextOf

  function TypedField(entries: seq<Entry>, f: TextField): Option<string>
  {
    var c := TypedContent(entries);
    if c.Some? && c.value.Payload? then
      match f
      case TextOf => c.value.text
      case CaptionOf => c.value.caption
      case ContentTextOf => c.value.contentText
    else None
  }

  /** `m.body`: the conversation text, else the typed content's `text`,
      `caption` or `contentText`, the first that is non-empty, else the
      content type itself. It is undefined only for an empty message object,
      a non-empty conversation always wins, and a text field, or at last the
      content type, is used only when every field before it is empty. */
  function SmsgBody(entries: seq<Entry>): (b: Option<string>)
    ensures b.None? <==> entries == []
    ensures Conversation(entries).Some? ==> b == Conversation(entries)
    ensures b == Conversation(entries)
      || (b == TypedField(entries, TextOf) && Truthy(b))
      || (b == TypedField(entries, CaptionOf) && Truthy(b) && !Truthy(TypedField(entries, TextOf)))
      || (b == TypedField(entries, ContentTextOf) && Truthy(b)
            && !Truthy(TypedField(entries, TextOf)) && !Truthy(TypedField(entries, CaptionOf)))
      || (b == ContentType(entries) && Conversation(entries).None?
            && !Truthy(TypedField(entries, TextOf)) && !Truthy(TypedField(entries, CaptionOf))
            && !Truthy(TypedField(entries, ContentTextOf)))
    ensures b == ContentType(entries) || Truthy(b)
  {
    if Conversation(entries).Some? then Conversation(entries)
    else if Truthy(TypedField(entries, TextOf)) then TypedField(entries, TextOf)
    else if Truthy(TypedField(entries, CaptionOf)) then TypedField(entries, CaptionOf)
    else if Truthy(TypedField(entries, ContentTextOf)) then TypedField(entries, ContentTextOf)
    else ContentType(entries)
  }

  /** A text-only message: its body is its text. */
  lemma PlainTextBody(s: string)
    requires s != ""
    ensures SmsgBody([Entry("conversation", Text(s))]) == Some(s)
  {
  }

  /** An image with a caption and no text: the caption is the body. */
  lemma CaptionBody(name: string, caption: string, url: Option<string>)
    requires name != "conversation" && caption != ""
    ensures SmsgBody([Entry(name, Payload(None, Some(caption), None, url, false))]) == Some(caption)
  {
  }

  /** A message with no text at all falls back to its content type. */
  lemma TypeNameBody(entries: seq<Entry>)
    requires entries != [] && !entries[0].content.Payload?
    requires Conversation(entries).None?
    ensures SmsgBody(entries) == Some(entries[0].name)
  {
  }

  /** `m.msg && m.msg.url`: the typed content carries a media URL. */
  predicate Downloadable(entries: seq<Entry>)
  {
    var c := TypedContent(entries);
    c.Some? && c.value.Payload? && Truthy(c.value.url)
  }

  /** The message object `smsg` decorates. Fields the function has not set
      are `None`; `download` says whether a download action is attached. */
  class MessageObject {
    const key: Option<Key>
    const message: Option<seq<Entry>>
    var id: Option<string>
    var isBaileys: Option<bool>
    var chat: Option<string>
    var fromMe: Option<bool>
    var isGroup: Option<bool>
    var contentType: Option<Option<string>>   // `m.type`, possibly undefined
    var mtype: Option<Option<string>>
    var body: Option<Option<string>>
    var msg: Option<Option<Content>>
    var download: bool

    constructor(key: Option<Key>, message: Option<seq<Entry>>)
      ensures this.key == key && this.message == message
      ensures id.None? && isBaileys.None? && chat.None? && fromMe.None? && isGroup.None?
      ensures contentType.None? && mtype.None? && body.None? && msg.None? && !download
    {
      this.key := key;
      this.message := message;
      id, isBaileys, chat, fromMe, isGroup := None, None, None, None, None;
      contentType, mtype, body, msg := None, None, None, None;
      download := false;
    }

    /** The derivations of `smsg`: the key fields only when there is a key,
        the content fields only when there is a message, and a download
        action only for content with a media URL. */
    method Derive()
      modifies this
      ensures key.Some? ==>
        && id == Some(key.value.id)
        && isBaileys == Some(IsBaileysId(key.value.id))
        && chat == Some(key.value.remoteJid)
        && fromMe == Some(key.value.fromMe)
        && isGroup == Some(IsGroupJid(key.value.remoteJid))
      ensures key.None? ==>
        id == old(id) && isBaileys == old(isBaileys) && chat == old(chat)
        && fromMe == old(fromMe) && isGroup == old(isGroup)
      ensures message.Some? ==>
        && contentType == Some(ContentType(message.value))
        && mtype == contentType
        && body == Some(SmsgBody(message.value))
        && msg == Some(TypedContent(message.value))
        && download == (old(download) || Downloadable(message.value))
      ensures message.None? ==>
        contentType == old(contentType) && mtype == old(mtype) && body == old(body)
        && msg == old(msg) && download == old(download)
    {
      if key.Some? {
        DeriveKey(key.value);
      }
      if message.Some? {
        DeriveContent(message.value);
      }
    }

    /** The fields `smsg` reads off the key. */
    method DeriveKey(k: Key)
      modifies this
      ensures id == Some(k.id) && isBaileys == Some(IsBaileysId(k.id))
      ensures chat == Some(k.remoteJid) && fromMe == Some(k.fromMe) && isGroup == Some(IsGroupJid(k.remoteJid))
      ensures contentType == old(contentType) && mtype == old(mtype) && body == old(body)
      ensures msg == old(msg) && download == old(download)
    {
      id := Some(k.id);
      isBaileys := Some(IsBaileysId(id.value));
      chat := Some(k.remoteJid);
      fromMe := Some(k.fromMe);
      isGroup := Some(IsGroupJid(chat.value));
    }

    /** The fields `smsg` reads off the content. */
    method DeriveContent(entries: seq<Entry>)
      modifies this
      ensures contentType == Some(ContentType(entries)) && mtype == contentType
      ensures body == Some(SmsgBody(entries)) && msg == Some(TypedContent(entries))
      ensures download == (old(download) || Downloadable(entries))
      ensures id == old(id) && isBaileys == old(isBaileys) && chat == old(chat)
      ensures fromMe == old(fromMe) && isGroup == old(isGroup)
    {
      contentType := Some(ContentType(entries));
      mtype := contentType;
      body := Some(SmsgBody(entries));
      msg := Some(TypedContent(entries));
      if Downloadable(entries) {
        download := true;
      }
    }
  }

  datatype JsError = ReferenceError(name: string)

  /** `smsg` as written: a missing message is returned as is; for any other
      message the read of the undeclared `proto` throws before any field is
      derived. */
  method SmsgAsWritten(m: MessageObject?) returns (r: Result<MessageObject?, JsError>)
    ensures m == null ==> r == Ok(null)
    ensures m != null ==> r.Err? && r.error.name == "proto"
  {
    if m == null {
      return Ok(m);
    }
    return Err(ReferenceError("proto"));
  }

  /** `smsg` without the stray `proto` read: a missing message is returned as
      is; any other message is returned decorated with its derived fields. */
  method Smsg(m: MessageObject?) returns (r: MessageObject?)
    modifies m
    ensures r == m
    ensures m != null && m.key.Some? ==>
      && m.id == Some(m.key.value.id)
      && m.isBaileys == Some(IsBaileysId(m.key.value.id))
      && m.chat == Some(m.key.value.remoteJid)
      && m.fromMe == Some(m.key.value.fromMe)
      && m.isGroup == Some(IsGroupJid(m.key.value.remoteJid))
    ensures m != null && m.key.None? ==>
      m.id == old(m.id) && m.isBaileys == old(m.isBaileys) && m.chat == old(m.chat)
      && m.fromMe == old(m.fromMe) && m.isGroup == old(m.isGroup)
    ensures m != null && m.message.Some? ==>
      && m.contentType == Some(ContentType(m.message.value))
      && m.mtype == m.contentType
      && m.body == Some(SmsgBody(m.message.value))
      && m.msg == Some(TypedContent(m.message.value))
      && m.download == (old(m.download) || Downloadable(m.message.value))
    ensures m != null && m.message.None? ==>
      m.contentType == old(m.contentType) && m.mtype == old(m.mtype) && m.body == old(m.body)
      && m.msg == old(m.msg) && m.download == old(m.download)
  {
    if m == null {
      return m;
    }
    m.Derive();
    return m;
  }
}
