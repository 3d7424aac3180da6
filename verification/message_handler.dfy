/** The dashboard-independent message handler: per-user message counters in
    a user store, the fixed command table with its canned replies, the
    occasional auto-reply to plain chat, and the group welcome/goodbye
    notices. */
module MessageHandler {
  import opened Wrappers
  import opened Text
  import opened WaMessage
  import opened App

  /** One entry of the user store (data/users.json), keyed by chat JID.
      `lastActive` holds the formatted local time of the last message. */
  datatype UserRecord = UserRecord(id: string, messageCount: nat, lastActive: string)

  type Users = map<string, UserRecord>

  /** The store after one more message from `from` at time `jam`: a new chat
      starts at one, a known chat goes up by one and keeps its id, and no
      other entry changes. */
  function Touch(users: Users, from: string, jam: string): (r: Users)
    ensures r.Keys == users.Keys + {from}
    ensures from !in users ==> r[from] == UserRecord(from, 1, jam)
    ensures from in users ==>
      && r[from].id == users[from].id
      && r[from].messageCount == users[from].messageCount + 1
      && r[from].lastActive == jam
    ensures forall k :: k in users && k != from ==> r[k] == users[k]
  {
    var user := if from in users then users[from] else UserRecord(from, 0, jam);
    users[from := user.(messageCount := user.messageCount + 1, lastActive := jam)]
  }

  /** The message count of a chat, zero when it is not in the store. */
  function CountOf(users: Users, from: string): nat
  {
    if from in users then users[from].messageCount else 0
  }

  /** Messages are not de-duplicated: the same message delivered twice is
      counted twice, and other chats are unaffected. */
  lemma RedeliveryCountedTwice(users: Users, from: string, jam1: string, jam2: string, other: string)
    requires other != from
    ensures CountOf(Touch(Touch(users, from, jam1), from, jam2), from) == CountOf(users, from) + 2
    ensures CountOf(Touch(Touch(users, from, jam1), from, jam2), other) == CountOf(users, other)
  {
  }

  /** The text the handler works on. `None` when reading it throws, which
      happens only for an `extendedTextMessage` whose value is null. A
      `conversation` that is null and one that is an object both leave the
      command step without a reply (the first as a falsy body, the second by
      a caught exception), so both are modelled as the empty body. */
  function MessageBody(entries: seq<Entry>): (b: Option<string>)
    ensures b.None? <==> entries != [] && entries[0].name == "extendedTextMessage" && entries[0].content.Null?
    ensures b.Some? && b.value != "" ==>
      entries != [] && (entries[0].name == "conversation" || entries[0].name == "extendedTextMessage")
  {
    if entries == [] then Some("")
    else if entries[0].name == "conversation" then
      (if entries[0].content.Text? then Some(entries[0].content.s) else Some(""))
    else if entries[0].name == "extendedTextMessage" then
      match entries[0].content
      case Null => None
      case Text(_) => Some("")
      case Payload(text, _, _, _, _) => Some(if text.Some? then text.value else "")
    else Some("")
  }

  /** The message carries an image, or quotes one. */
  predicate HasImage(entries: seq<Entry>)
  {
    || ContentTruthy(Lookup(entries, "imageMessage"))
    || (var ext := Lookup(entries, "extendedTextMessage");
        ext.Some? && ext.value.Payload? && ext.value.quotedImage)
  }

  /** The switch key: the whole body, lower-cased and trimmed. */
  function CommandKey(body: string): string
  {
    Trim(ToLower(body))
  }

  datatype Command = Menu | Download | Game | Ai | Sticker | Voice | Info | Ping | Owner | Chat

  /** The commands the switch recognises. */
  const CommandKeys: set<string> :=
    {"!menu", ".menu", "menu", "!download", "!game", "!ai", "!sticker", "!voice", "!info", "!ping", "!owner"}

  function Classify(key: string): Command
  {
    if key == "!menu" || key == ".menu" || key == "menu" then Menu
    else if key == "!download" then Download
    else if key == "!game" then Game
    else if key == "!ai" then Ai
    else if key == "!sticker" then Sticker
    else if key == "!voice" then Voice
    else if key == "!info" then Info
    else if key == "!ping" then Ping
    else if key == "!owner" then Owner
    else Chat
  }

  /** The switch falls to its default branch exactly for the keys outside
      the command table, and the three menu spellings share one branch. */
  lemma ClassifyTable(key: string)
    ensures Classify(key) == Chat <==> key !in CommandKeys
    ensures Classify(key) == Menu <==> key == "!menu" || key == ".menu" || key == "menu"
  {
  }

  /** Case and surrounding white space do not change the command. */
  lemma CommandKeyIgnoresPadding(pre: string, body: string, post: string)
    requires AllSpace(pre) && AllSpace(post)
    ensures CommandKey(pre + body + post) == CommandKey(body)
    ensures CommandKey(ToLower(body)) == CommandKey(body)
  {
    ToLowerIdempotent(body);
    LowerOfSpaces(pre);
    LowerOfSpaces(post);
    ToLowerAppend(pre + body, post);
    ToLowerAppend(pre, body);
    TrimIgnoresPadding(pre, ToLower(body), post);
  }

  /** White space has no upper case. */
  lemma LowerOfSpaces(s: string)
    requires AllSpace(s)
    ensures ToLower(s) == s
  {
    assert forall i :: 0 <= i < |s| ==> !IsUpper(s[i]);
  }

  /** A command followed by arguments is not recognised: the switch compares
      the whole key, so "!ai question" falls through to the default branch. */
  lemma ArgumentsNotRecognised(key: string)
    requires ' ' in key
    ensures Classify(key) == Chat
  {
    assert ' ' !in "!menu" && ' ' !in ".menu" && ' ' !in "menu" && ' ' !in "!download";
    assert ' ' !in "!game" && ' ' !in "!ai" && ' ' !in "!sticker" && ' ' !in "!voice";
    assert ' ' !in "!info" && ' ' !in "!ping" && ' ' !in "!owner";
  }

  datatype Reply =
    | MenuButtons                          // the main menu template
    | DownloadButtons                      // the downloader template
    | GameButtons                          // the games template
    | AiInfo                               // the AI feature notice
    | StickerAck                           // sent when an image is attached or quoted
    | StickerHowTo                         // sent otherwise
    | VoiceInfo
    | BotInfo(userCount: nat)              // includes the number of stored users
    | Pinging
    | Pong
    | OwnerInfo
    | AutoReply(template: nat, name: string)  // one of three greeting templates
    | Apology                              // the error notice after a failed send
    | Welcome(name: string, mention: string)
    | Goodbye(name: string)

  datatype Send = Send(to: string, reply: Reply)

  /** The auto-reply only answers text that does not look like a command. */
  predicate LooksLikeCommand(body: string)
  {
    StartsWith(body, "!") || StartsWith(body, ".") || StartsWith(body, "/")
  }

  /** The auto-reply acceptance probability, 0.3. */
  const AutoReplyRate: real := 0.3

  /** `Math.floor(pick * 3)`, the template chosen by a draw from [0, 1). */
  function TemplateIndex(pick: real): (i: nat)
    requires 0.0 <= pick < 1.0
    ensures i < 3
    ensures i as real <= pick * 3.0 < i as real + 1.0
  {
    (pick * 3.0).Floor
  }

  /** `m.pushName || 'User'` */
  function DisplayName(pushName: Option<string>): (n: string)
    ensures n != []
    ensures Truthy(pushName) ==> n == pushName.value
  {
    if Truthy(pushName) then pushName.value else "User"
  }

  /** What the command step plans to send for a non-empty body, before any
      send fails. `pick` and `accept` are the two draws of `Math.random`. */
  function PlannedReplies(cmd: Command, from: string, body: string, hasImage: bool, userCount: nat,
                          pushName: Option<string>, pick: real, accept: real): seq<Send>
    requires 0.0 <= pick < 1.0
  {
    match cmd
    case Menu => [Send(from, MenuButtons)]
    case Download => [Send(from, DownloadButtons)]
    case Game => [Send(from, GameButtons)]
    case Ai => [Send(from, AiInfo)]
    case Sticker => [Send(from, if hasImage then StickerAck else StickerHowTo)]
    case Voice => [Send(from, VoiceInfo)]
    case Info => [Send(from, BotInfo(userCount))]
    case Ping => [Send(from, Pinging), Send(from, Pong)]
    case Owner => [Send(from, OwnerInfo)]
    case Chat =>
      if !LooksLikeCommand(body) && accept < AutoReplyRate
      then [Send(from, AutoReply(TemplateIndex(pick), DisplayName(pushName)))]
      else []
  }

  /** The `try`/`catch` around a branch: its sends up to the one that
      throws, then one apology when a send threw. */
  function Guarded(from: string, planned: seq<Send>, failAt: Option<nat>): seq<Send>
  {
    Attempted(planned, failAt)
      + (if failAt.Some? && failAt.value < |planned| then [Send(from, Apology)] else [])
  }

  /** When no planned send is an apology and all go to the sender, the
      guarded sends all go to the sender, contain an apology exactly when a
      send threw, and only as the last send. */
  lemma {:induction false} GuardedShape(from: string, planned: seq<Send>, failAt: Option<nat>)
    requires forall i :: 0 <= i < |planned| ==> planned[i].to == from && planned[i].reply != Apology
    ensures var s := Guarded(from, planned, failAt);
      && (forall i :: 0 <= i < |s| ==> s[i].to == from)
      && ((exists i :: 0 <= i < |s| && s[i].reply == Apology) <==> failAt.Some? && failAt.value < |planned|)
      && (forall i :: 0 <= i < |s| - 1 ==> s[i].reply != Apology)
      && (forall i :: 0 <= i < |s| ==> s[i].reply == Apology || (i < |planned| && s[i] == planned[i]))
  {
    var a := Attempted(planned, failAt);
    var s := Guarded(from, planned, failAt);
    assert forall i :: 0 <= i < |a| ==> a[i] == planned[i];
    if failAt.Some? && failAt.value < |planned| {
      assert s == a + [Send(from, Apology)];
      assert s[|s| - 1].reply == Apology;
    } else {
      assert s == a;
    }
  }

  /** Everything the command step sends: nothing for an empty body; else
      the planned replies up to the one whose send throws, followed by one
      apology. */
  function CommandSends(from: string, body: string, hasImage: bool, userCount: nat,
                        pushName: Option<string>, pick: real, accept: real,
                        failAt: Option<nat>): seq<Send>
    requires 0.0 <= pick < 1.0
  {
    if body == "" then []
    else Guarded(from, PlannedReplies(Classify(CommandKey(body)), from, body, hasImage, userCount, pushName, pick, accept), failAt)
  }

  /** Every planned reply goes to the chat the message came from and none
      is the apology. */
  lemma PlannedToSender(cmd: Command, from: string, body: string, hasImage: bool, userCount: nat,
                        pushName: Option<string>, pick: real, accept: real)
    requires 0.0 <= pick < 1.0
    ensures var p := PlannedReplies(cmd, from, body, hasImage, userCount, pushName, pick, accept);
      forall i :: 0 <= i < |p| ==> p[i].to == from && p[i].reply != Apology
  {
  }

  /** At most two replies are planned, two only for `!ping`; nothing is
      planned only for chat text that looks like a command or loses the
      draw. */
  lemma PlannedShape(cmd: Command, from: string, body: string, hasImage: bool, userCount: nat,
                     pushName: Option<string>, pick: real, accept: real)
    requires 0.0 <= pick < 1.0
    ensures var p := PlannedReplies(cmd, from, body, hasImage, userCount, pushName, pick, accept);
      && |p| <= 2
      && (|p| == 2 <==> cmd == Ping)
      && (p == [] <==> cmd == Chat && (LooksLikeCommand(body) || accept >= AutoReplyRate))
  {
  }

  /** A planned auto-reply comes from the default branch, for text that
      does not look like a command and a draw under the rate, and uses one
      of the three templates. */
  lemma PlannedAutoReply(cmd: Command, from: string, body: string, hasImage: bool, userCount: nat,
                         pushName: Option<string>, pick: real, accept: real)
    requires 0.0 <= pick < 1.0
    ensures var p := PlannedReplies(cmd, from, body, hasImage, userCount, pushName, pick, accept);
      forall i :: 0 <= i < |p| && p[i].reply.AutoReply? ==>
        cmd == Chat && !LooksLikeCommand(body) && accept < AutoReplyRate && p[i].reply.template < 3
  {
  }

  /** An auto-reply is sent only for text outside the command table that does
      not start with `!`, `.` or `/`. */
  lemma AutoReplyOnlyForChat(from: string, body: string, hasImage: bool, userCount: nat,
                             pushName: Option<string>, pick: real, accept: real, failAt: Option<nat>)
    requires 0.0 <= pick < 1.0
    ensures var s := CommandSends(from, body, hasImage, userCount, pushName, pick, accept, failAt);
      forall i :: 0 <= i < |s| && s[i].reply.AutoReply? ==>
        && CommandKey(body) !in CommandKeys && !LooksLikeCommand(body) && accept < AutoReplyRate
        && s[i].reply.template < 3
  {
    if body != "" {
      var cmd := Classify(CommandKey(body));
      var p := PlannedReplies(cmd, from, body, hasImage, userCount, pushName, pick, accept);
      var s := Guarded(from, p, failAt);
      assert CommandSends(from, body, hasImage, userCount, pushName, pick, accept, failAt) == s;
      PlannedToSender(cmd, from, body, hasImage, userCount, pushName, pick, accept);
      PlannedAutoReply(cmd, from, body, hasImage, userCount, pushName, pick, accept);
      GuardedShape(from, p, failAt);
      forall i | 0 <= i < |s| && s[i].reply.AutoReply?
        ensures CommandKey(body) !in CommandKeys && !LooksLikeCommand(body) && accept < AutoReplyRate
        ensures s[i].reply.template < 3
      {
        assert s[i] == p[i];
        ClassifyTable(CommandKey(body));
      }
    }
  }

  /** The apology is sent exactly when a planned send throws, once, and last;
      every send goes back to the sender. */
  lemma {:induction false} ApologyOnlyAfterFailure(from: string, body: string, hasImage: bool, userCount: nat,
                                pushName: Option<string>, pick: real, accept: real, failAt: Option<nat>)
    requires 0.0 <= pick < 1.0
    ensures var s := CommandSends(from, body, hasImage, userCount, pushName, pick, accept, failAt);
      && (body == "" ==> s == [])
      && (forall i :: 0 <= i < |s| ==> s[i].to == from)
      && (forall i :: 0 <= i < |s| - 1 ==> s[i].reply != Apology)
    ensures body != "" ==>
      var p := PlannedReplies(Classify(CommandKey(body)), from, body, hasImage, userCount, pushName, pick, accept);
      var s := CommandSends(from, body, hasImage, userCount, pushName, pick, accept, failAt);
      (exists i :: 0 <= i < |s| && s[i].reply == Apology) <==> failAt.Some? && failAt.value < |p|
  {
    if body != "" {
      var cmd := Classify(CommandKey(body));
      var p := PlannedReplies(cmd, from, body, hasImage, userCount, pushName, pick, accept);
      PlannedToSender(cmd, from, body, hasImage, userCount, pushName, pick, accept);
      GuardedShape(from, p, failAt);
      assert CommandSends(from, body, hasImage, userCount, pushName, pick, accept, failAt) == Guarded(from, p, failAt);
    }
  }

  /** The message a handler run acts on: the first of the batch, when it has
      content, a key, a readable body, and was not sent by the bot. */
  predicate Handled(messages: seq<Msg>)
  {
    && messages != []
    && messages[0].message.Some?
    && messages[0].key.Some?
    && MessageBody(messages[0].message.value).Some?
    && !messages[0].key.value.fromMe
  }

  datatype GroupAction = Add | Remove | OtherAction(name: string)

  predicate Greets(action: GroupAction) { action.Add? || action.Remove? }

  /** `participant.split('@')[0]`, the number shown in a notice. */
  function Handle(participant: string): (n: string)
    ensures '@' !in n && n <= participant
  {
    Before(participant, '@')
  }

  /** The notice for one participant, posted to the group. */
  function Notice(group: string, participant: string, action: GroupAction): Send
    requires Greets(action)
  {
    if action.Add? then Send(group, Welcome(Handle(participant), participant))
    else Send(group, Goodbye(Handle(participant)))
  }

  /** One notice per participant, in order, for `add` and `remove`; nothing
      for any other action. */
  function GroupNotices(group: string, participants: seq<string>, action: GroupAction): (r: seq<Send>)
    ensures |r| == if Greets(action) then |participants| else 0
  {
    if Greets(action)
    then seq(|participants|, i requires 0 <= i < |participants| => Notice(group, participants[i], action))
    else []
  }

  /** The notices for a prefix of the participants are a prefix of the
      notices; every notice goes to the group and names its participant. */
  lemma GroupNoticesShape(group: string, participants: seq<string>, action: GroupAction, j: nat)
    requires j <= |participants|
    ensures Greets(action) ==>
      GroupNotices(group, participants[..j], action) == GroupNotices(group, participants, action)[..j]
    ensures var r := GroupNotices(group, participants, action);
      forall i :: 0 <= i < |r| ==>
        && r[i].to == group
        && (action.Add? ==> r[i].reply == Welcome(Handle(participants[i]), participants[i]))
        && (action.Remove? ==> r[i].reply == Goodbye(Handle(participants[i])))
  {
  }

  lemma NoticesStep(group: string, participants: seq<string>, action: GroupAction, i: nat)
    requires Greets(action) && i < |participants|
    ensures var r := GroupNotices(group, participants, action);
      r[..i + 1] == r[..i] + [Notice(group, participants[i], action)]
  {
    var r := GroupNotices(group, participants, action);
    assert r[i] == Notice(group, participants[i], action);
    assert r[..i + 1] == r[..i] + [r[i]];
  }

  /** The handler with the user store it reads and writes. */
  class Handler {
    const server: Server
    var users: Users       // data/users.json
    var sent: seq<Send>    // `sendMessage` calls, in order

    /** `stored` is the parsed user file; None when it is missing or does not
        parse, which reads as the empty store. */
    constructor(server: Server, stored: Option<Users>)
      ensures this.server == server && sent == []
      ensures users == (if stored.Some? then stored.value else map[])
    {
      this.server := server;
      users := if stored.Some? then stored.value else map[];
      sent := [];
    }

    /** `handleMessages`: only the first message of the batch is looked at.
        A message that is handled updates its sender's record and the
        processed count before any command is looked at, even when its body
        is empty; a message that is skipped, or whose reading throws, changes
        nothing. */
    method HandleMessages(messages: seq<Msg>, jam: string, pick: real, accept: real, failAt: Option<nat>)
      requires 0.0 <= pick < 1.0
      modifies this, server
      ensures Handled(messages) ==>
        var m := messages[0];
        var from := m.key.value.remoteJid;
        && users == Touch(old(users), from, jam)
        && server.state == CountOne(old(server.state))
        && sent == old(sent) + CommandSends(from, MessageBody(m.message.value).value,
                                            HasImage(m.message.value), |users.Keys|,
                                            m.pushName, pick, accept, failAt)
      ensures !Handled(messages) ==>
        users == old(users) && sent == old(sent) && server.state == old(server.state)
      ensures server.pairingRequest == old(server.pairingRequest) && server.emitted == old(server.emitted)
    {
      if messages == [] { return; }
      var m := messages[0];
      if m.message.None? { return; }
      if m.key.None? { return; }
      var from := m.key.value.remoteJid;
      var body := MessageBody(m.message.value);
      if body.None? { return; }
      if m.key.value.fromMe { return; }
      users := Touch(users, from, jam);
      server.CountMessage();
      HandleCommand(from, body.value, HasImage(m.message.value), m.pushName, pick, accept, failAt);
    }

    /** `handleCommand`: nothing for an empty body; otherwise the replies
        of the command's branch, sent under the error handler. */
    method HandleCommand(from: string, body: string, hasImage: bool, pushName: Option<string>,
                         pick: real, accept: real, failAt: Option<nat>)
      requires 0.0 <= pick < 1.0
      modifies this
      ensures users == old(users)
      ensures sent == old(sent) + CommandSends(from, body, hasImage, |users.Keys|, pushName, pick, accept, failAt)
    {
      if body == "" { return; }
      var cmd := Classify(CommandKey(body));
      var n := |users.Keys|;
      var planned := PlannedReplies(cmd, from, body, hasImage, n, pushName, pick, accept);
      PlannedShape(cmd, from, body, hasImage, n, pushName, pick, accept);
      SendGuarded(from, planned, failAt);
      assert CommandSends(from, body, hasImage, n, pushName, pick, accept, failAt) == Guarded(from, planned, failAt);
    }

    /** The `try`/`catch` around the switch: the branch's sends in order; a
        send that throws ends the branch and one apology follows. */
    method SendGuarded(from: string, planned: seq<Send>, failAt: Option<nat>)
      requires |planned| <= 2
      modifies this
      ensures users == old(users)
      ensures sent == old(sent) + Guarded(from, planned, failAt)
    {
      if |planned| >= 1 {
        sent := sent + [planned[0]];
        if failAt == Some(0) {
          assert Attempted(planned, failAt) == [planned[0]];
          sent := sent + [Send(from, Apology)];
          return;
        }
      }
      if |planned| == 2 {
        sent := sent + [planned[1]];
        if failAt == Some(1) {
          assert Attempted(planned, failAt) == planned;
          sent := sent + [Send(from, Apology)];
          return;
        }
      }
      assert sent == old(sent) + planned;
    }

    /** `handleGroupParticipantUpdate`: one notice per participant for `add`
        and `remove`; a send that throws ends the loop. */
    method HandleGroupParticipantUpdate(group: string, participants: seq<string>, action: GroupAction,
                                        failAt: Option<nat>)
      modifies this
      ensures users == old(users)
      ensures sent == old(sent) + Attempted(GroupNotices(group, participants, action), failAt)
    {
      ghost var notices := GroupNotices(group, participants, action);
      var i := 0;
      while i < |participants|
        invariant 0 <= i <= |participants|
        invariant Greets(action) ==> sent == old(sent) + notices[..i]
        invariant !Greets(action) ==> sent == old(sent)
        invariant Greets(action) && failAt.Some? ==> i <= failAt.value
        invariant users == old(users)
      {
        var participant := participants[i];
        if action == Add {
          sent := sent + [Send(group, Welcome(Handle(participant), participant))];
        } else if action == Remove {
          sent := sent + [Send(group, Goodbye(Handle(participant)))];
        }
        if Greets(action) {
          NoticesStep(group, participants, action, i);
          if failAt == Some(i) {
            return;
          }
        }
        i := i + 1;
      }
      if Greets(action) {
        assert notices[..i] == notices;
      }
    }
  }
}
