/** The shape of an inbound message as the transport delivers it: a key
    (chat, sender flag, id) and a `message` object whose first property name
    is the content type. */
module WaMessage {
  import opened Wrappers

  datatype Key = Key(remoteJid: string, fromMe: bool, id: string, participant: Option<string>)

  /** The value stored under one property of `message`. */
  datatype Content =
    | Text(s: string)     // a string-valued entry such as `conversation`
    | Payload(text: Option<string>, caption: Option<string>, contentText: Option<string>,
              url: Option<string>, quotedImage: bool)
                          // an object-valued entry such as `extendedTextMessage`;
                          // quotedImage: contextInfo.quotedMessage.imageMessage is set
    | Null                // null

  /** One property of the `message` object, in property order. */
  datatype Entry = Entry(name: string, content: Content)

  datatype Msg = Msg(key: Option<Key>, message: Option<seq<Entry>>, pushName: Option<string>)

  /** JavaScript truthiness of an optional string. */
  predicate Truthy(s: Option<string>)
  {
    s.Some? && s.value != ""
  }

  /** JavaScript truthiness of a property value. */
  predicate ContentTruthy(c: Option<Content>)
  {
    match c
    case None => false
    case Some(Text(s)) => s != ""
    case Some(Payload(_, _, _, _, _)) => true
    case Some(Null) => false
  }

  /** `Object.keys(message)[0]` */
  function FirstKey(entries: seq<Entry>): (k: Option<string>)
    ensures k.Some? <==> entries != []
  {
    if entries == [] then None else Some(entries[0].name)
  }

  /** `message[name]`: the first property with that name, if any. */
  function Lookup(entries: seq<Entry>, name: string): (c: Option<Content>)
    ensures c.Some? <==> exists i :: 0 <= i < |entries| && entries[i].name == name
  {
    if entries == [] then None
    else if entries[0].name == name then Some(entries[0].content)
    else Lookup(entries[1..], name)
  }

  /** `message[name]?.field` for one of the string fields of an object value. */
  function TextField(c: Option<Content>): Option<string>
  {
    if c.Some? && c.value.Payload? then c.value.text else None
  }

  /** The sends attempted when the send at index failAt throws: that one and
      those before it. */
  function Attempted<T>(planned: seq<T>, failAt: Option<nat>): (r: seq<T>)
    ensures r <= planned
    ensures failAt.Some? && failAt.value < |planned| ==> |r| == failAt.value + 1
    ensures failAt.None? || failAt.value >= |planned| ==> r == planned
  {
    if failAt.Some? && failAt.value < |planned| then planned[..failAt.value + 1] else planned
  }

}
