/** The bot session (bot.js): the `connection.update` handler, the start-up
    failure path, pairing-code requests with number normalisation and code
    grouping, the welcome message and the inline message dispatcher. The
    transport is outside the model: its events are method calls, and what the
    session asks of it (`sendMessage`, `requestPairingCode`, timers) is
    recorded in order. */
module Bot {
  import opened Wrappers
  import opened Text
  import opened WaMessage
  import opened App

  /** `DisconnectReason.loggedOut` of the transport library. */
  const LoggedOutCode: int := 401

  const CloseRestartMs: nat := 5000
  const InitRetryMs: nat := 10000

  datatype Connection = Connecting | Open | Close

  /** A `connection.update` event: `connection`, `qr`, and the status code
      of `lastDisconnect.error.output` when there is one. */
  datatype ConnectionUpdate = ConnectionUpdate(
    connection: Option<Connection>, qr: Option<string>, statusCode: Option<int>)

  /** Every status write the session and the pairing endpoint issue. */
  datatype Write =
    | QrWrite(qr: string)
    | OpenWrite(user: Option<User>)
    | LoggedOutWrite
    | ReconnectingWrite
    | InitErrorWrite(message: string)
    | PairedWrite(code: string, number: string)
    | PairingFailedWrite(message: string)
    | RequestingPairingWrite

  /** The object literal each write passes to the status updater. */
  function ToUpdate(w: Write): StatusUpdate
  {
    match w
    case QrWrite(qr) =>
      NoChange.(qrCode := Some(Some(qr)), pairingCode := Some(None), connectionStatus := Some(ScanQr))
    case OpenWrite(user) =>
      NoChange.(isConnected := Some(true), qrCode := Some(None), pairingCode := Some(None),
                user := Some(user), connectionStatus := Some(Connected))
    case LoggedOutWrite =>
      NoChange.(isConnected := Some(false), connectionStatus := Some(LoggedOut))
    case ReconnectingWrite =>
      NoChange.(isConnected := Some(false), connectionStatus := Some(Reconnecting))
    case InitErrorWrite(message) =>
      NoChange.(connectionStatus := Some(Error), error := Some(message))
    case PairedWrite(code, number) =>
      NoChange.(pairingCode := Some(Some(code)), qrCode := Some(None),
                connectionStatus := Some(EnterPairing), pairingNumber := Some(number))
    case PairingFailedWrite(message) =>
      NoChange.(connectionStatus := Some(PairingError), error := Some(message))
    case RequestingPairingWrite => RequestingPairingUpdate
  }

  /** What each write does to the state; every property it does not name
      keeps its value. */
  lemma WriteEffect(s: BotState, w: Write, now: int)
    ensures var r := Merge(s, ToUpdate(w), now);
      && r.lastUpdate == now && r.stats == s.stats
      && match w
        case QrWrite(qr) =>
          r == s.(qrCode := Some(qr), pairingCode := None, connectionStatus := ScanQr, lastUpdate := now)
        case OpenWrite(user) =>
          r == s.(isConnected := true, qrCode := None, pairingCode := None, user := user,
                  connectionStatus := Connected, lastUpdate := now)
        case LoggedOutWrite =>
          r == s.(isConnected := false, connectionStatus := LoggedOut, lastUpdate := now)
        case ReconnectingWrite =>
          r == s.(isConnected := false, connectionStatus := Reconnecting, lastUpdate := now)
        case InitErrorWrite(message) =>
          r == s.(connectionStatus := Error, error := Some(message), lastUpdate := now)
        case PairedWrite(code, number) =>
          r == s.(pairingCode := Some(code), qrCode := None, connectionStatus := EnterPairing,
                  pairingNumber := Some(number), lastUpdate := now)
        case PairingFailedWrite(message) =>
          r == s.(connectionStatus := PairingError, error := Some(message), lastUpdate := now)
        case RequestingPairingWrite =>
          r == s.(connectionStatus := RequestingPairing, pairingCode := None, qrCode := None, lastUpdate := now)
  {
  }

  /** No write leaves both a QR payload and a pairing code set when at most
      one was set before. */
  lemma WriteKeepsNotBoth(s: BotState, w: Write, now: int)
    requires NotBoth(s)
    ensures NotBoth(Merge(s, ToUpdate(w), now))
  {
    WriteEffect(s, w, now);
  }

  datatype Stamped = Stamped(write: Write, at: int)

  /** The state after a sequence of writes, each at its own time. */
  function Replay(s: BotState, trace: seq<Stamped>): BotState
  {
    if trace == [] then s
    else
      var last := trace[|trace| - 1];
      Merge(Replay(s, trace[..|trace| - 1]), ToUpdate(last.write), last.at)
  }

  /** The writes of one handler call, all stamped with the same time. */
  function AtTime(ws: seq<Write>, now: int): (t: seq<Stamped>)
    ensures |t| == |ws|
    ensures forall i :: 0 <= i < |ws| ==> t[i] == Stamped(ws[i], now)
  {
    if ws == [] then [] else [Stamped(ws[0], now)] + AtTime(ws[1..], now)
  }

  /** What a sequence of writes broadcasts: each write's emissions, with
      the state merged so far, in order. */
  function Broadcasts(s: BotState, trace: seq<Stamped>): seq<Emission>
  {
    if trace == [] then []
    else Broadcasts(s, trace[..|trace| - 1]) + Emissions(ToUpdate(trace[|trace| - 1].write), Replay(s, trace))
  }

  /** Every write broadcasts once or twice, and from a state with at most
      one code set no broadcast state ever has both. */
  lemma {:induction false} BroadcastsShape(s: BotState, trace: seq<Stamped>)
    ensures |trace| <= |Broadcasts(s, trace)| <= 2 * |trace|
    ensures NotBoth(s) ==> var b := Broadcasts(s, trace);
      forall i :: 0 <= i < |b| && b[i].event.BotStatus? ==> NotBoth(b[i].event.state)
  {
    if trace != [] {
      var prefix := trace[..|trace| - 1];
      BroadcastsShape(s, prefix);
      var e := Emissions(ToUpdate(trace[|trace| - 1].write), Replay(s, trace));
      var b := Broadcasts(s, trace);
      assert b == Broadcasts(s, prefix) + e;
      if NotBoth(s) {
        ReplayKeepsNotBoth(s, trace);
        forall i | 0 <= i < |b| && b[i].event.BotStatus?
          ensures NotBoth(b[i].event.state)
        {
          if i >= |Broadcasts(s, prefix)| {
            assert b[i] == e[i - |Broadcasts(s, prefix)|];
          }
        }
      }
    }
  }

  lemma ReplayOneMore(s: BotState, ws: seq<Write>, w: Write, now: int)
    ensures Replay(s, AtTime(ws + [w], now)) == Merge(Replay(s, AtTime(ws, now)), ToUpdate(w), now)
    ensures Broadcasts(s, AtTime(ws + [w], now))
      == Broadcasts(s, AtTime(ws, now)) + Emissions(ToUpdate(w), Replay(s, AtTime(ws + [w], now)))
  {
    assert AtTime(ws + [w], now)[..|ws|] == AtTime(ws, now);
  }

  /** Starting from any state with at most one of the two codes, every
      sequence of writes keeps it so; in particular from the initial state
      the QR payload and the pairing code are never both set. */
  lemma {:induction false} ReplayKeepsNotBoth(s: BotState, trace: seq<Stamped>)
    requires NotBoth(s)
    ensures NotBoth(Replay(s, trace))
  {
    if trace != [] {
      ReplayKeepsNotBoth(s, trace[..|trace| - 1]);
      WriteKeepsNotBoth(Replay(s, trace[..|trace| - 1]), trace[|trace| - 1].write, trace[|trace| - 1].at);
    }
  }

  lemma NeverBothFromInitial(start: int, trace: seq<Stamped>)
    ensures NotBoth(Replay(Initial(start), trace))
  {
    ReplayKeepsNotBoth(Initial(start), trace);
  }

  /** The writes the `connection.update` handler issues, in order: the QR
      write for a truthy `qr`, then the open write, then the close write. */
  function ConnectionWrites(ev: ConnectionUpdate, sockUser: Option<User>): seq<Write>
  {
    (if Truthy(ev.qr) then [QrWrite(ev.qr.value)] else [])
    + (if ev.connection == Some(Open) then [OpenWrite(sockUser)] else [])
    + (if ev.connection == Some(Close) then
         [if ev.statusCode == Some(LoggedOutCode) then LoggedOutWrite else ReconnectingWrite]
       else [])
  }

  /** The restarts it schedules: one at 5000 ms after every close, logout
      included. */
  function ConnectionRestarts(ev: ConnectionUpdate): seq<nat>
  {
    if ev.connection == Some(Close) then [CloseRestartMs] else []
  }

  /** A close writes `logged_out` exactly when the code is the logged-out
      code and `reconnecting` otherwise, with `isConnected` false either way,
      and schedules exactly one restart at 5000 ms. */
  lemma CloseEffect(s: BotState, ev: ConnectionUpdate, user: Option<User>, now: int)
    requires ev.connection == Some(Close) && !Truthy(ev.qr)
    ensures var r := Replay(s, AtTime(ConnectionWrites(ev, user), now));
      && !r.isConnected
      && (r.connectionStatus == LoggedOut <==> ev.statusCode == Some(LoggedOutCode))
      && (r.connectionStatus == Reconnecting <==> ev.statusCode != Some(LoggedOutCode))
      && r.qrCode == s.qrCode && r.pairingCode == s.pairingCode && r.user == s.user
    ensures ConnectionRestarts(ev) == [5000]
  {
    var w := ConnectionWrites(ev, user)[0];
    assert ConnectionWrites(ev, user) == [] + [w];
    ReplayOneMore(s, [], w, now);
    WriteEffect(s, w, now);
  }

  /** A QR event followed by an open event: the session is connected, the
      QR payload is gone and the account is recorded. */
  lemma QrThenOpen(s: BotState, qr: string, user: User, t1: int, t2: int)
    requires qr != ""
    ensures var ev1 := ConnectionUpdate(None, Some(qr), None);
      var ev2 := ConnectionUpdate(Some(Open), None, None);
      var s1 := Replay(s, AtTime(ConnectionWrites(ev1, None), t1));
      var s2 := Replay(s1, AtTime(ConnectionWrites(ev2, Some(user)), t2));
      && s1.connectionStatus == ScanQr && s1.qrCode == Some(qr) && s1.pairingCode.None?
      && s2.connectionStatus == Connected && s2.isConnected && s2.qrCode.None?
      && s2.pairingCode.None? && s2.user == Some(user)
  {
    var ev1 := ConnectionUpdate(None, Some(qr), None);
    var ev2 := ConnectionUpdate(Some(Open), None, None);
    assert ConnectionWrites(ev1, None) == [] + [QrWrite(qr)];
    ReplayOneMore(s, [], QrWrite(qr), t1);
    var s1 := Replay(s, AtTime(ConnectionWrites(ev1, None), t1));
    WriteEffect(s, QrWrite(qr), t1);
    assert ConnectionWrites(ev2, Some(user)) == [] + [OpenWrite(Some(user))];
    ReplayOneMore(s1, [], OpenWrite(Some(user)), t2);
    WriteEffect(s1, OpenWrite(Some(user)), t2);
  }

  /** `number.replace(/\D/g, '')`, then a leading `0` becomes `62`. */
  function NormaliseNumber(number: string): (r: string)
    ensures AllDigits(r)
  {
    var d := DigitsOnly(number);
    if StartsWith(d, "0") then "62" + d[1..] else d
  }

  /** Only the digits are kept; one leading `0` is replaced by `62` and any
      other digit string is unchanged; the result never starts with `0`, so
      normalising twice is normalising once. */
  lemma NormaliseNumberSpec(number: string)
    ensures var d, r := DigitsOnly(number), NormaliseNumber(number);
      && (d != [] && d[0] == '0' ==> r == "62" + d[1..])
      && (d == [] || d[0] != '0' ==> r == d)
      && (r == [] || r[0] != '0')
    ensures NormaliseNumber(NormaliseNumber(number)) == NormaliseNumber(number)
  {
    var r := NormaliseNumber(number);
    DigitsOnlyOfDigits(r);
  }

  /** The characters the regular-expression `.` does not match. */
  predicate IsLineTerminator(c: char)
  {
    c == '\n' || c == '\r' || c == '\U{2028}' || c == '\U{2029}'
  }

  predicate NoLineTerminator(s: string)
  {
    forall i :: 0 <= i < |s| ==> !IsLineTerminator(s[i])
  }

  /** The length of the leading run of characters `.` matches, at most cap. */
  function Lead(s: string, cap: nat): (k: nat)
    ensures k <= cap && k <= |s|
    ensures forall i :: 0 <= i < k ==> !IsLineTerminator(s[i])
    ensures k < cap && k < |s| ==> IsLineTerminator(s[k])
  {
    if cap == 0 || s == [] || IsLineTerminator(s[0]) then 0 else 1 + Lead(s[1..], cap - 1)
  }

  /** `code.match(/.{1,4}/g)`, with no match as the empty sequence. */
  function Groups(s: string): (gs: seq<string>)
    ensures forall i :: 0 <= i < |gs| ==> 1 <= |gs[i]| <= 4
    decreases |s|
  {
    if s == [] then []
    else if IsLineTerminator(s[0]) then Groups(s[1..])
    else
      var k := Lead(s, 4);
      [s[..k]] + Groups(s[k..])
  }

  /** `code.match(/.{1,4}/g)?.join('-') || code` */
  function FormatCode(code: string): string
  {
    var gs := Groups(code);
    if gs == [] then code else Join(gs, "-")
  }

  lemma {:induction false} LeadOfPlain(s: string, cap: nat)
    requires NoLineTerminator(s)
    ensures Lead(s, cap) == if |s| < cap then |s| else cap
  {
    if cap != 0 && s != [] {
      LeadOfPlain(s[1..], cap - 1);
    }
  }

  /** On a code without line terminators, groups are taken four at a time. */
  lemma GroupsStep(s: string)
    requires NoLineTerminator(s) && s != []
    ensures |s| >= 4 ==> Groups(s) == [s[..4]] + Groups(s[4..])
    ensures |s| <= 4 ==> Groups(s) == [s]
  {
    LeadOfPlain(s, 4);
    assert !IsLineTerminator(s[0]);
    var k := Lead(s, 4);
    assert Groups(s) == [s[..k]] + Groups(s[k..]);
    if |s| <= 4 {
      assert s[k..] == [] && s[..k] == s;
    }
  }

  /** The groups of a code without line terminators put back together give
      the code; all groups but the last have four characters, the last one
      to four, and only the empty code has no groups. */
  lemma {:induction false} GroupsShape(s: string)
    requires NoLineTerminator(s)
    ensures Concat(Groups(s)) == s
    ensures Groups(s) == [] <==> s == []
    ensures forall i :: 0 <= i < |Groups(s)| - 1 ==> |Groups(s)[i]| == 4
  {
    if s != [] {
      GroupsStep(s);
      if |s| > 4 {
        GroupsShape(s[4..]);
        assert s == s[..4] + s[4..];
      }
    }
  }

  lemma {:induction false} WithoutJoin(gs: seq<string>)
    requires forall i :: 0 <= i < |gs| ==> '-' !in gs[i]
    ensures Without(Join(gs, "-"), '-') == Concat(gs)
  {
    if |gs| == 1 {
      WithoutAbsent(gs[0], '-');
      assert Concat(gs) == gs[0] + Concat([]);
    } else if |gs| > 1 {
      WithoutJoin(gs[1..]);
      WithoutAppend(gs[0] + "-", Join(gs[1..], "-"), '-');
      WithoutAppend(gs[0], "-", '-');
      WithoutAbsent(gs[0], '-');
    }
  }

  lemma {:induction false} GroupsWithin(s: string, c: char)
    requires NoLineTerminator(s) && c !in s
    ensures forall i :: 0 <= i < |Groups(s)| ==> c !in Groups(s)[i]
  {
    if s != [] {
      GroupsStep(s);
      if |s| > 4 {
        GroupsWithin(s[4..], c);
        assert forall x :: x in s[4..] ==> x in s;
        assert forall x :: x in s[..4] ==> x in s;
      }
    }
  }

  /** Deleting the hyphens from a formatted code gives the code back, and
      the empty code stays empty. */
  lemma FormatCodeRoundTrip(code: string)
    requires NoLineTerminator(code) && '-' !in code
    ensures Without(FormatCode(code), '-') == code
    ensures code == [] ==> FormatCode(code) == []
  {
    GroupsShape(code);
    if code != [] {
      GroupsWithin(code, '-');
      WithoutJoin(Groups(code));
    } else {
      WithoutAbsent(code, '-');
    }
  }

  /** A code of two full groups and a last group of one to four. */
  lemma GroupsOfThree(a: string, b: string, c: string)
    requires |a| == 4 && |b| == 4 && 1 <= |c| <= 4
    requires NoLineTerminator(a + b + c)
    ensures Groups(a + b + c) == [a, b, c]
  {
    var bc := b + c;
    var s := a + bc;
    assert a + b + c == s;
    assert s[..4] == a && s[4..] == bc;
    PlainSuffix(s, 4);
    GroupsStep(s);
    assert bc[..4] == b && bc[4..] == c;
    PlainSuffix(bc, 4);
    GroupsStep(bc);
    GroupsStep(c);
  }

  /** A suffix of a text without line terminators has none either. */
  lemma PlainSuffix(s: string, n: nat)
    requires NoLineTerminator(s) && n <= |s|
    ensures NoLineTerminator(s[n..])
  {
    forall i | 0 <= i < |s| - n
      ensures !IsLineTerminator(s[n..][i])
    {
      assert s[n..][i] == s[n + i];
    }
  }

  lemma JoinThree(a: string, b: string, c: string)
    ensures Join([a, b, c], "-") == a + "-" + b + "-" + c
  {
    var gs := [a, b, c];
    assert gs[1..] == [b, c] && gs[1..][1..] == [c];
    assert Join([c], "-") == c;
    assert Join([b, c], "-") == b + "-" + c;
  }

  lemma FormatCodeExample()
    ensures FormatCode("ABCD" + "1234" + "EFGH") == "ABCD" + "-" + "1234" + "-" + "EFGH"
  {
    var a, b, c := "ABCD", "1234", "EFGH";
    assert NoLineTerminator(a + b + c);
    GroupsOfThree(a, b, c);
    JoinThree(a, b, c);
  }

  datatype PairingResult = Paired(code: string, number: string) | PairingFailed(message: string)

  /** What `requestPairingCode` returns given the transport's answer for the
      normalised number (a code, or the message of the error it threw). */
  function PairingOutcome(number: string, reply: Result<string, string>): PairingResult
  {
    if reply.Ok? then Paired(FormatCode(reply.value), NormaliseNumber(number))
    else PairingFailed(reply.error)
  }

  function PairingWrite(r: PairingResult): Write
  {
    match r
    case Paired(code, number) => PairedWrite(code, number)
    case PairingFailed(message) => PairingFailedWrite(message)
  }

  /** `user.id.split(':')[0] + '@s.whatsapp.net'` */
  function WelcomeTarget(id: string): (jid: string)
    ensures EndsWith(jid, "@s.whatsapp.net")
    ensures ':' !in jid[..|jid| - 15]
    ensures ':' !in id ==> jid == id + "@s.whatsapp.net"
  {
    Before(id, ':') + "@s.whatsapp.net"
  }

  /** The replies the session sends; their texts are not modelled. */
  datatype Reply =
    | WelcomeNote
    | MenuText
    | AiAnswer(question: string)
    | PongText
    | PairUsage
    | PairRequesting
    | PairSucceeded(code: string, number: string)
    | PairFailedText(message: string)
    | QrHint

  datatype Send = Send(to: string, reply: Reply)

  function WelcomeSends(ev: ConnectionUpdate, sockUser: Option<User>): seq<Send>
  {
    if ev.connection == Some(Open) && sockUser.Some? then [Send(WelcomeTarget(sockUser.value.id), WelcomeNote)]
    else []
  }

  /** The text the dispatcher reads: `conversation` or
      `extendedTextMessage.text` when that is the first property, else `''`. */
  function IncomingText(entries: seq<Entry>): string
  {
    if entries == [] then ""
    else if entries[0].name == "conversation" && entries[0].content.Text? then entries[0].content.s
    else if entries[0].name == "extendedTextMessage" && entries[0].content.Payload?
            && entries[0].content.text.Some? then entries[0].content.text.value
    else ""
  }

  datatype Command = Menu | Ai | Ping | Pair | Qr | Unrouted

  /** The dispatcher's routing on the lower-cased text, first match wins:
      `!menu` exactly, `!ai` as a prefix, `ping` exactly, `!pair` as a
      prefix, `!qr` exactly. */
  function CommandOf(text: string): Command
  {
    var lower := ToLower(text);
    if lower == "!menu" then Menu
    else if StartsWith(lower, "!ai") then Ai
    else if lower == "ping" then Ping
    else if StartsWith(lower, "!pair") then Pair
    else if lower == "!qr" then Qr
    else Unrouted
  }

  /** Routing ignores case: a text routes as its lower-cased form does. */
  lemma CommandOfIgnoresCase(text: string)
    ensures CommandOf(ToLower(text)) == CommandOf(text)
  {
    ToLowerIdempotent(text);
  }

  /** What the dispatcher answers in a chat: its planned sends, in order. A
      `!pair` with an empty argument is answered with the usage text only. */
  function PlannedReplies(cmd: Command, jid: string, text: string, pairing: PairingResult): seq<Send>
  {
    match cmd
    case Menu => [Send(jid, MenuText)]
    case Ai => [Send(jid, AiAnswer(Trim(Drop(text, 3))))]
    case Ping => [Send(jid, PongText)]
    case Pair =>
      if PairArgument(text) == "" then [Send(jid, PairUsage)]
      else [Send(jid, PairRequesting),
            Send(jid, if pairing.Paired? then PairSucceeded(pairing.code, pairing.number)
                      else PairFailedText(pairing.message))]
    case Qr => [Send(jid, QrHint)]
    case Unrouted => []
  }

  /** The dispatcher counts and answers a message: it has content and a key,
      is not the bot's own, and has non-empty text. */
  predicate Counted(m: Msg)
  {
    m.message.Some? && m.key.Some? && !m.key.value.fromMe && IncomingText(m.message.value) != ""
  }

  /** The transport is asked for a pairing code for a `!pair` text with a
      non-empty argument, unless the first reply already threw. */
  predicate AsksForCode(text: string, failAt: Option<nat>)
  {
    CommandOf(text) == Pair && PairArgument(text) != "" && failAt != Some(0)
  }

  /** An ignored message (no content, or the bot's own) is not counted,
      gets no reply and asks for no code. */
  lemma IgnoredNotCounted(m: Msg, reply: Result<string, string>, failAt: Option<nat>)
    requires m.message.None? || (m.key.Some? && m.key.value.fromMe)
    ensures !Counted(m) && IncomingReplies(m, reply, failAt) == [] && IncomingPairingCalls(m, failAt) == []
  {
  }

  /** A text that is not a command is not answered. */
  lemma UnroutedUnanswered(jid: string, text: string, pairing: PairingResult)
    requires CommandOf(text) == Unrouted
    ensures PlannedReplies(CommandOf(text), jid, text, pairing) == []
  {
  }

  /** A `!pair` with an empty argument asks for no code and is answered
      with the usage text alone. */
  lemma EmptyPairUsage(jid: string, text: string, failAt: Option<nat>, pairing: PairingResult)
    requires CommandOf(text) == Pair && PairArgument(text) == ""
    ensures !AsksForCode(text, failAt)
    ensures PlannedReplies(CommandOf(text), jid, text, pairing) == [Send(jid, PairUsage)]
  {
  }

  /** Lower-casing a text with no upper-case letter changes nothing. */
  lemma LowerOfLower(s: string)
    requires forall i :: 0 <= i < |s| ==> !IsUpper(s[i])
    ensures ToLower(s) == s
  {
  }

  /** `!ping` is not a command of the dispatcher: only `ping` is. */
  lemma BangPingUnrouted()
    ensures CommandOf("!ping") == Unrouted
  {
    var t := "!ping";
    LowerOfLower(t);
    assert t[..3][1] == 'p' && "!ai"[1] == 'a';
    assert t[..5][2] == 'i' && "!pair"[2] == 'a';
  }

  /** The `!pair` argument: the text after the command, trimmed. */
  function PairArgument(text: string): string
  {
    Trim(Drop(text, 5))
  }

  /** The sends the dispatcher attempts for a message. */
  function IncomingReplies(m: Msg, reply: Result<string, string>, failAt: Option<nat>): seq<Send>
  {
    if Counted(m) then
      var text := IncomingText(m.message.value);
      Attempted(PlannedReplies(CommandOf(text), m.key.value.remoteJid, text, PairingOutcome(PairArgument(text), reply)), failAt)
    else []
  }

  /** The numbers the dispatcher passes to the transport for a message. */
  function IncomingPairingCalls(m: Msg, failAt: Option<nat>): seq<string>
  {
    if Counted(m) && AsksForCode(IncomingText(m.message.value), failAt)
    then [NormaliseNumber(PairArgument(IncomingText(m.message.value)))]
    else []
  }

  /** The dispatcher answers only counted messages, at most twice and
      always in the chat the message came from; two replies come only from
      `!pair` with an argument. A code is requested at most once per
      message, for an all-digit number, and only after the announcement
      that it is being requested was sent. */
  lemma IncomingShape(m: Msg, reply: Result<string, string>, failAt: Option<nat>)
    ensures var r := IncomingReplies(m, reply, failAt);
      r != [] ==> Counted(m) && |r| <= 2 && forall i :: 0 <= i < |r| ==> r[i].to == m.key.value.remoteJid
    ensures var r := IncomingReplies(m, reply, failAt);
      Counted(m) && |r| == 2 ==>
        var text := IncomingText(m.message.value); CommandOf(text) == Pair && PairArgument(text) != ""
    ensures var r, c := IncomingReplies(m, reply, failAt), IncomingPairingCalls(m, failAt);
      c != [] ==> |c| == 1 && AllDigits(c[0]) && r != [] && r[0].reply == PairRequesting
  {
    if Counted(m) {
      var text := IncomingText(m.message.value);
      var cmd := CommandOf(text);
      var planned := PlannedReplies(cmd, m.key.value.remoteJid, text, PairingOutcome(PairArgument(text), reply));
      PlannedShape(cmd, m.key.value.remoteJid, text, PairingOutcome(PairArgument(text), reply));
      var r := Attempted(planned, failAt);
      assert IncomingReplies(m, reply, failAt) == r;
      assert forall i :: 0 <= i < |r| ==> r[i] == planned[i];
      if AsksForCode(text, failAt) {
        assert IncomingPairingCalls(m, failAt) == [NormaliseNumber(PairArgument(text))];
        assert r[0] == planned[0];
      } else {
        assert IncomingPairingCalls(m, failAt) == [];
      }
    } else {
      assert IncomingReplies(m, reply, failAt) == [] && IncomingPairingCalls(m, failAt) == [];
    }
  }

  /** The replies planned for one command: at most two, all to the chat,
      two only for `!pair` with an argument, which is announced first. */
  lemma PlannedShape(cmd: Command, jid: string, text: string, pairing: PairingResult)
    ensures var p := PlannedReplies(cmd, jid, text, pairing);
      && |p| <= 2 && (forall i :: 0 <= i < |p| ==> p[i].to == jid)
      && (|p| == 2 <==> cmd == Pair && PairArgument(text) != "")
      && (cmd == Pair && PairArgument(text) != "" ==> p[0].reply == PairRequesting)
  {
    var p := PlannedReplies(cmd, jid, text, pairing);
    match cmd
    case Pair =>
      if PairArgument(text) != "" {
        assert p == [Send(jid, PairRequesting), p[1]] && p[1].to == jid;
      } else {
        assert p == [Send(jid, PairUsage)];
      }
    case Ai =>
      assert p == [Send(jid, AiAnswer(Trim(Drop(text, 3))))];
    case Unrouted =>
      assert p == [];
    case _ =>
      assert |p| == 1 && p[0].to == jid;
  }

  /** One run of the bot against a status server. */
  class Session {
    const server: Server
    var restarts: seq<nat>        // delays of the scheduled `startBot` re-runs
    var sent: seq<Send>           // `sendMessage` calls
    var pairingCalls: seq<string> // numbers passed to the transport's `requestPairingCode`

    constructor(server: Server)
      ensures this.server == server
      ensures restarts == [] && sent == [] && pairingCalls == []
    {
      this.server := server;
      restarts := [];
      sent := [];
      pairingCalls := [];
    }

    /** The `connection.update` handler. */
    method OnConnectionUpdate(ev: ConnectionUpdate, sockUser: Option<User>, now: int)
      modifies this, server
      ensures server.state == Replay(old(server.state), AtTime(ConnectionWrites(ev, sockUser), now))
      ensures server.emitted == old(server.emitted) + Broadcasts(old(server.state), AtTime(ConnectionWrites(ev, sockUser), now))
      ensures NotBoth(old(server.state)) ==> NotBoth(server.state)
      ensures restarts == old(restarts) + ConnectionRestarts(ev)
      ensures sent == old(sent) + WelcomeSends(ev, sockUser)
      ensures pairingCalls == old(pairingCalls) && server.pairingRequest == old(server.pairingRequest)
    {
      ghost var s0, e0 := server.state, server.emitted;
      ghost var done: seq<Write> := [];
      assert AtTime(done, now) == [];
      if Truthy(ev.qr) {
        Apply(s0, e0, done, QrWrite(ev.qr.value), now);
        done := done + [QrWrite(ev.qr.value)];
      }
      if ev.connection == Some(Open) {
        Apply(s0, e0, done, OpenWrite(sockUser), now);
        done := done + [OpenWrite(sockUser)];
        Greet(sockUser);
        assert done == ConnectionWrites(ev, sockUser);
      } else if ev.connection == Some(Close) {
        var w := if ev.statusCode == Some(LoggedOutCode) then LoggedOutWrite else ReconnectingWrite;
        Apply(s0, e0, done, w, now);
        done := done + [w];
        restarts := restarts + [CloseRestartMs];
        assert done == ConnectionWrites(ev, sockUser);
      } else {
        assert done == ConnectionWrites(ev, sockUser);
      }
    }

    /** One `updateBotStatus` call of the handler, as one more step of the
        replay of its writes. */
    method Apply(ghost s0: BotState, ghost e0: seq<Emission>, ghost done: seq<Write>, w: Write, now: int)
      requires server.state == Replay(s0, AtTime(done, now))
      requires server.emitted == e0 + Broadcasts(s0, AtTime(done, now))
      modifies server
      ensures server.state == Replay(s0, AtTime(done + [w], now))
      ensures server.emitted == old(server.emitted) + Emissions(ToUpdate(w), server.state)
      ensures server.emitted == e0 + Broadcasts(s0, AtTime(done + [w], now))
      ensures NotBoth(old(server.state)) ==> NotBoth(server.state)
      ensures server.pairingRequest == old(server.pairingRequest)
    {
      ReplayOneMore(s0, done, w, now);
      if NotBoth(server.state) {
        WriteKeepsNotBoth(server.state, w, now);
      }
      server.UpdateBotStatus(ToUpdate(w), now);
    }

    /** The welcome note sent to the bot's own number once connected. */
    method Greet(sockUser: Option<User>)
      modifies this
      ensures sent == old(sent) + if sockUser.Some? then [Send(WelcomeTarget(sockUser.value.id), WelcomeNote)] else []
      ensures restarts == old(restarts) && pairingCalls == old(pairingCalls)
    {
      if sockUser.Some? {
        sent := sent + [Send(WelcomeTarget(sockUser.value.id), WelcomeNote)];
      }
    }

    /** `requestPairingCode`; toDashboard says whether the status updater
        it was given is the server's (the start-up path and the exposed hook)
        or the no-op the chat command falls back to. */
    method RequestPairingCode(number: string, reply: Result<string, string>, toDashboard: bool, now: int)
      returns (r: PairingResult)
      modifies this, server
      ensures r == PairingOutcome(number, reply)
      ensures pairingCalls == old(pairingCalls) + [NormaliseNumber(number)]
      ensures toDashboard ==> server.state == Merge(old(server.state), ToUpdate(PairingWrite(r)), now)
      ensures toDashboard ==> server.emitted == old(server.emitted) + Emissions(ToUpdate(PairingWrite(r)), server.state)
      ensures !toDashboard ==> server.state == old(server.state) && server.emitted == old(server.emitted)
      ensures NotBoth(old(server.state)) ==> NotBoth(server.state)
      ensures sent == old(sent) && restarts == old(restarts)
      ensures server.pairingRequest == old(server.pairingRequest)
    {
      var formattedNumber := NormaliseNumber(number);
      pairingCalls := pairingCalls + [formattedNumber];
      r := PairingOutcome(number, reply);
      if toDashboard {
        if NotBoth(server.state) {
          WriteKeepsNotBoth(server.state, PairingWrite(r), now);
        }
        server.UpdateBotStatus(ToUpdate(PairingWrite(r)), now);
      }
    }

    /** `startBot`: initError is the message of the error the transport
        set-up threw, if it did; envNumber is `PAIRING_NUMBER`. */
    method Start(initError: Option<string>, envNumber: Option<string>, reply: Result<string, string>, now: int)
      modifies this, server
      ensures initError.Some? ==>
        && server.state == Merge(old(server.state), ToUpdate(InitErrorWrite(initError.value)), now)
        && server.emitted == old(server.emitted) + Emissions(ToUpdate(InitErrorWrite(initError.value)), server.state)
        && restarts == old(restarts) + [InitRetryMs]
        && pairingCalls == old(pairingCalls)
      ensures initError.None? && Truthy(envNumber) ==>
        && server.state == Merge(old(server.state), ToUpdate(PairingWrite(PairingOutcome(envNumber.value, reply))), now)
        && server.emitted == old(server.emitted)
             + Emissions(ToUpdate(PairingWrite(PairingOutcome(envNumber.value, reply))), server.state)
        && pairingCalls == old(pairingCalls) + [NormaliseNumber(envNumber.value)]
        && restarts == old(restarts)
      ensures initError.None? && !Truthy(envNumber) ==>
        server.state == old(server.state) && server.emitted == old(server.emitted)
        && restarts == old(restarts) && pairingCalls == old(pairingCalls)
      ensures NotBoth(old(server.state)) ==> NotBoth(server.state)
      ensures sent == old(sent) && server.pairingRequest == old(server.pairingRequest)
    {
      if initError.Some? {
        if NotBoth(server.state) {
          WriteKeepsNotBoth(server.state, InitErrorWrite(initError.value), now);
        }
        server.UpdateBotStatus(ToUpdate(InitErrorWrite(initError.value)), now);
        restarts := restarts + [InitRetryMs];
      } else if Truthy(envNumber) {
        var _ := RequestPairingCode(envNumber.value, reply, true, now);
      }
    }

    /** The `!pair` branch with a non-empty argument: announce, ask the
        transport (through the no-op updater), report. */
    method AnswerPair(jid: string, number: string, reply: Result<string, string>, failAt: Option<nat>, now: int)
      modifies this, server
      ensures var r := PairingOutcome(number, reply);
        sent == old(sent) + Attempted([Send(jid, PairRequesting),
          Send(jid, if r.Paired? then PairSucceeded(r.code, r.number) else PairFailedText(r.message))], failAt)
      ensures pairingCalls == old(pairingCalls) + if failAt != Some(0) then [NormaliseNumber(number)] else []
      ensures restarts == old(restarts)
      ensures server.state == old(server.state) && server.emitted == old(server.emitted)
      ensures server.pairingRequest == old(server.pairingRequest)
    {
      sent := sent + [Send(jid, PairRequesting)];
      if failAt != Some(0) {
        var r := RequestPairingCode(number, reply, false, now);
        sent := sent + [Send(jid, if r.Paired? then PairSucceeded(r.code, r.number) else PairFailedText(r.message))];
      }
    }

    /** `handleIncomingMessage`; reply is the transport's answer to a pairing
        request, failAt the index of the reply whose send throws, if any. */
    method HandleIncomingMessage(m: Msg, reply: Result<string, string>, failAt: Option<nat>, now: int)
      modifies this, server
      ensures server.state == if Counted(m) then CountOne(old(server.state)) else old(server.state)
      ensures sent == old(sent) + IncomingReplies(m, reply, failAt)
      ensures pairingCalls == old(pairingCalls) + IncomingPairingCalls(m, failAt)
      ensures restarts == old(restarts)
      ensures server.emitted == old(server.emitted) && server.pairingRequest == old(server.pairingRequest)
    {
      if m.message.None? || m.key.None? || m.key.value.fromMe {
        return;
      }
      var jid := m.key.value.remoteJid;
      var text := IncomingText(m.message.value);
      if text == "" {
        return;
      }
      assert Counted(m);
      server.CountMessage();
      var cmd := CommandOf(text);
      Answer(cmd, jid, text, reply, failAt, now);
      assert IncomingReplies(m, reply, failAt)
        == Attempted(PlannedReplies(cmd, jid, text, PairingOutcome(PairArgument(text), reply)), failAt);
      assert IncomingPairingCalls(m, failAt)
        == if AsksForCode(text, failAt) then [NormaliseNumber(PairArgument(text))] else [];
    }

    /** The branch of the dispatcher for a routed command: its replies, and
        for a `!pair` with an argument a request to the transport. */
    method Answer(cmd: Command, jid: string, text: string, reply: Result<string, string>,
                  failAt: Option<nat>, now: int)
      modifies this, server
      ensures sent == old(sent)
        + Attempted(PlannedReplies(cmd, jid, text, PairingOutcome(PairArgument(text), reply)), failAt)
      ensures pairingCalls == old(pairingCalls)
        + if cmd == Pair && PairArgument(text) != "" && failAt != Some(0)
          then [NormaliseNumber(PairArgument(text))] else []
      ensures restarts == old(restarts) && server.state == old(server.state)
      ensures server.emitted == old(server.emitted) && server.pairingRequest == old(server.pairingRequest)
    {
      var number := PairArgument(text);
      if cmd == Pair && number != "" {
        AnswerPair(jid, number, reply, failAt, now);
      } else {
        SendAll(PlannedReplies(cmd, jid, text, PairingOutcome(number, reply)), failAt);
      }
    }

    /** Sends the replies in order until one throws. */
    method SendAll(replies: seq<Send>, failAt: Option<nat>)
      modifies this
      ensures sent == old(sent) + Attempted(replies, failAt)
      ensures restarts == old(restarts) && pairingCalls == old(pairingCalls)
    {
      sent := sent + Attempted(replies, failAt);
    }

    /** `messages.upsert`: only `notify` batches are handled, and only their
        first message. */
    method OnMessagesUpsert(messages: seq<Msg>, notify: bool, reply: Result<string, string>,
                            failAt: Option<nat>, now: int)
      modifies this, server
      ensures server.state
        == if notify && messages != [] && Counted(messages[0]) then CountOne(old(server.state)) else old(server.state)
      ensures !notify || messages == [] ==> sent == old(sent) && pairingCalls == old(pairingCalls)
      ensures notify && messages != [] ==>
        && sent == old(sent) + IncomingReplies(messages[0], reply, failAt)
        && pairingCalls == old(pairingCalls) + IncomingPairingCalls(messages[0], failAt)
      ensures restarts == old(restarts) && server.emitted == old(server.emitted)
      ensures server.pairingRequest == old(server.pairingRequest)
    {
      if notify && messages != [] {
        HandleIncomingMessage(messages[0], reply, failAt, now);
      }
    }
  }
}
