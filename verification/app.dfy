/** The web server's status store (app.js): the process-wide bot state, its
    shallow-merge update with broadcast, the pairing endpoint, the health
    rule and the uptime formatter. */
module App {
  import opened Wrappers
  import opened Text
  import WaMessage

  /** The connection states the bot writes. */
  datatype ConnectionStatus =
    | Disconnected | ScanQr | Connected | LoggedOut | Reconnecting
    | Error | EnterPairing | PairingError | RequestingPairing

  /** The string sent to dashboard clients for each state. */
  function StatusName(c: ConnectionStatus): string
  {
    match c
    case Disconnected => "disconnected"
    case ScanQr => "scan_qr"
    case Connected => "connected"
    case LoggedOut => "logged_out"
    case Reconnecting => "reconnecting"
    case Error => "error"
    case EnterPairing => "enter_pairing"
    case PairingError => "pairing_error"
    case RequestingPairing => "requesting_pairing"
  }

  /** The account the transport reports once connected (`sock.user`). */
  datatype User = User(id: string, name: Option<string>)

  datatype Stats = Stats(startTime: int, messagesProcessed: nat, usersCount: nat)

  /** `global.botState`. None stands for null, or for a property not yet set
      (`error` and `pairingNumber` are absent until first written). */
  datatype BotState = BotState(
    isConnected: bool,
    qrCode: Option<string>,
    pairingCode: Option<string>,
    user: Option<User>,
    connectionStatus: ConnectionStatus,
    lastUpdate: int,
    stats: Stats,
    error: Option<string>,
    pairingNumber: Option<string>)

  /** The argument of `updateBotStatus`: the properties present in the object
      literal. For a nullable property, Some(None) is an explicit null. */
  datatype StatusUpdate = StatusUpdate(
    isConnected: Option<bool>,
    qrCode: Option<Option<string>>,
    pairingCode: Option<Option<string>>,
    user: Option<Option<User>>,
    connectionStatus: Option<ConnectionStatus>,
    error: Option<string>,
    pairingNumber: Option<string>)

  const NoChange: StatusUpdate := StatusUpdate(None, None, None, None, None, None, None)

  /** The state the server starts with, at time `now` (milliseconds). */
  function Initial(now: int): BotState
  {
    BotState(false, None, None, None, Disconnected, now, Stats(now, 0, 0), None, None)
  }

  /** The properties of the state other than `lastUpdate`, for stating the
      merge once for all of them. */
  datatype Field =
    | IsConnectedField | QrCodeField | PairingCodeField | UserField
    | StatusField | ErrorField | PairingNumberField | StatsField

  datatype FieldValue =
    | FlagValue(b: bool)
    | StringValue(s: Option<string>)
    | UserValue(u: Option<User>)
    | StatusValue(c: ConnectionStatus)
    | StatsValue(st: Stats)

  function Get(s: BotState, f: Field): FieldValue
  {
    match f
    case IsConnectedField => FlagValue(s.isConnected)
    case QrCodeField => StringValue(s.qrCode)
    case PairingCodeField => StringValue(s.pairingCode)
    case UserField => UserValue(s.user)
    case StatusField => StatusValue(s.connectionStatus)
    case ErrorField => StringValue(s.error)
    case PairingNumberField => StringValue(s.pairingNumber)
    case StatsField => StatsValue(s.stats)
  }

  /** The value an update writes to a property, if it carries that property. */
  function Written(u: StatusUpdate, f: Field): Option<FieldValue>
  {
    match f
    case IsConnectedField => if u.isConnected.Some? then Some(FlagValue(u.isConnected.value)) else None
    case QrCodeField => if u.qrCode.Some? then Some(StringValue(u.qrCode.value)) else None
    case PairingCodeField => if u.pairingCode.Some? then Some(StringValue(u.pairingCode.value)) else None
    case UserField => if u.user.Some? then Some(UserValue(u.user.value)) else None
    case StatusField => if u.connectionStatus.Some? then Some(StatusValue(u.connectionStatus.value)) else None
    case ErrorField => if u.error.Some? then Some(StringValue(Some(u.error.value))) else None
    case PairingNumberField => if u.pairingNumber.Some? then Some(StringValue(Some(u.pairingNumber.value))) else None
    case StatsField => None
  }

  /** `{ ...state, ...update, lastUpdate: new Date() }`: every property the
      update carries overwrites, every other keeps its value, and the stamp
      is the current time. */
  function Merge(s: BotState, u: StatusUpdate, now: int): (r: BotState)
    ensures r.lastUpdate == now
    ensures forall f :: Get(r, f) == if Written(u, f).Some? then Written(u, f).value else Get(s, f)
  {
    BotState(Pick(u.isConnected, s.isConnected), Pick(u.qrCode, s.qrCode), Pick(u.pairingCode, s.pairingCode),
             Pick(u.user, s.user), Pick(u.connectionStatus, s.connectionStatus), now, s.stats,
             if u.error.Some? then Some(u.error.value) else s.error,
             if u.pairingNumber.Some? then Some(u.pairingNumber.value) else s.pairingNumber)
  }

  /** The written value when there is one, else the kept one. */
  function Pick<T>(w: Option<T>, keep: T): T
  {
    if w.Some? then w.value else keep
  }

  /** Two states that agree on every property and on the stamp are equal. */
  lemma SameFields(a: BotState, b: BotState)
    requires a.lastUpdate == b.lastUpdate
    requires forall f :: Get(a, f) == Get(b, f)
    ensures a == b
  {
    assert Get(a, IsConnectedField) == Get(b, IsConnectedField);
    assert Get(a, QrCodeField) == Get(b, QrCodeField);
    assert Get(a, PairingCodeField) == Get(b, PairingCodeField);
    assert Get(a, UserField) == Get(b, UserField);
    assert Get(a, StatusField) == Get(b, StatusField);
    assert Get(a, ErrorField) == Get(b, ErrorField);
    assert Get(a, PairingNumberField) == Get(b, PairingNumberField);
    assert Get(a, StatsField) == Get(b, StatsField);
  }

  /** Merging an empty update changes the stamp and nothing else. */
  lemma MergeNoChange(s: BotState, now: int)
    ensures Merge(s, NoChange, now) == s.(lastUpdate := now)
  {
    SameFields(Merge(s, NoChange, now), s.(lastUpdate := now));
  }

  /** The update that has the properties of both, the later one winning. */
  function Combine(u: StatusUpdate, v: StatusUpdate): (w: StatusUpdate)
    ensures forall f :: Written(w, f) == if Written(v, f).Some? then Written(v, f) else Written(u, f)
  {
    StatusUpdate(Later(v.isConnected, u.isConnected), Later(v.qrCode, u.qrCode),
                 Later(v.pairingCode, u.pairingCode), Later(v.user, u.user),
                 Later(v.connectionStatus, u.connectionStatus), Later(v.error, u.error),
                 Later(v.pairingNumber, u.pairingNumber))
  }

  /** The later write of a property when there is one, else the earlier. */
  function Later<T>(later: Option<T>, earlier: Option<T>): Option<T>
  {
    if later.Some? then later else earlier
  }

  /** Two merges in a row are one merge of the combined update: the later
      write of a property wins, and the earlier stamp is lost. */
  lemma MergeTwice(s: BotState, u: StatusUpdate, v: StatusUpdate, t1: int, t2: int)
    ensures Merge(Merge(s, u, t1), v, t2) == Merge(s, Combine(u, v), t2)
  {
    var a, b := Merge(Merge(s, u, t1), v, t2), Merge(s, Combine(u, v), t2);
    assert a.isConnected == b.isConnected && a.qrCode == b.qrCode && a.pairingCode == b.pairingCode;
    assert a.user == b.user && a.connectionStatus == b.connectionStatus;
    assert a.error == b.error && a.pairingNumber == b.pairingNumber;
  }

  /** Repeating an update changes only the stamp. */
  lemma MergeRepeat(s: BotState, u: StatusUpdate, t1: int, t2: int)
    ensures Merge(Merge(s, u, t1), u, t2) == Merge(s, u, t2)
  {
    MergeTwice(s, u, u, t1, t2);
    assert Combine(u, u) == u;
  }

  /** The update carries a truthy `qrCode`, so a QR image is emitted. */
  predicate WritesQrImage(u: StatusUpdate)
  {
    u.qrCode.Some? && WaMessage.Truthy(u.qrCode.value)
  }

  /** What socket.io sends. */
  datatype Event = BotStatus(state: BotState) | QrImage(qr: string) | QrUpdate(qr: string)

  datatype Emission = ToAll(event: Event) | ToClient(client: nat, event: Event)

  /** What one status write broadcasts: one `bot-status` with the merged
      state, then the QR image when the update carries a truthy `qrCode`. */
  function Emissions(u: StatusUpdate, merged: BotState): (e: seq<Emission>)
    ensures 1 <= |e| <= 2 && e[0] == ToAll(BotStatus(merged))
    ensures |e| == 2 <==> WritesQrImage(u)
  {
    [ToAll(BotStatus(merged))] + if WritesQrImage(u) then [ToAll(QrImage(u.qrCode.value.value))] else []
  }

  /** The update the pairing endpoint writes once a number is accepted. */
  const RequestingPairingUpdate: StatusUpdate :=
    NoChange.(connectionStatus := Some(RequestingPairing), pairingCode := Some(None), qrCode := Some(None))

  /** The `phoneNumber` property of the posted body: missing, a string, or
      some other JSON value, which is either falsy (`0`, `false`, `null`)
      or truthy (a non-zero number, an object, an array, `true`). */
  datatype Posted = Absent | Str(s: string) | NonString(truthy: bool)

  /** The pairing endpoint's validation of the posted `phoneNumber`: the
      cleaned number, or the message it answers with. A truthy value that
      is not a string has no `replace`, and the catch answers for it. */
  function PairingCheck(phoneNumber: Posted): Result<string, string>
  {
    match phoneNumber
    case Absent => Err("Phone number required")
    case NonString(truthy) => if truthy then Err("Internal server error") else Err("Phone number required")
    case Str(s) =>
      if s == "" then Err("Phone number required")
      else if |DigitsOnly(s)| < 10 then Err("Invalid phone number")
      else Ok(DigitsOnly(s))
  }

  /** A number is accepted exactly when it is a string with at least ten
      digits; what is stored is its digits alone, and posting the stored
      number again is accepted unchanged. A missing or falsy field is
      refused as missing, a truthy non-string as a server error. */
  lemma PairingCheckAccepts(phoneNumber: Posted)
    ensures PairingCheck(phoneNumber).Ok? <==> phoneNumber.Str? && |DigitsOnly(phoneNumber.s)| >= 10
    ensures PairingCheck(phoneNumber).Ok? ==>
      var n := PairingCheck(phoneNumber).value;
      AllDigits(n) && |n| >= 10 && PairingCheck(Str(n)) == Ok(n)
    ensures PairingCheck(phoneNumber) == Err("Internal server error") <==> phoneNumber == NonString(true)
    ensures phoneNumber.Absent? || phoneNumber == NonString(false) || phoneNumber == Str("") ==>
      PairingCheck(phoneNumber) == Err("Phone number required")
  {
    if PairingCheck(phoneNumber).Ok? {
      DigitsOnlyIdempotent(phoneNumber.s);
    }
  }

  datatype PairingResponse = PairingResponse(success: bool, message: string)

  function PairingReply(check: Result<string, string>): PairingResponse
  {
    if check.Ok? then PairingResponse(true, "Pairing code requested successfully")
    else PairingResponse(false, check.error)
  }

  const StaleAfterMs: int := 300000

  /** The `/health` status code at time `now`. */
  function HealthCode(s: BotState, now: int): int
  {
    if !s.isConnected && now - s.lastUpdate > StaleAfterMs then 503 else 200
  }

  /** Consequences of the health rule: a connected bot is always healthy;
      an unhealthy server stays unhealthy as time passes until the next
      write, and a healthy one was healthy at every earlier time since the
      last write; the only codes are 200 and 503. */
  lemma HealthRule(s: BotState, now: int, later: int)
    requires now <= later
    ensures s.isConnected ==> HealthCode(s, now) == 200
    ensures HealthCode(s, now) == 503 ==> HealthCode(s, later) == 503
    ensures HealthCode(s, later) == 200 ==> HealthCode(s, now) == 200
    ensures HealthCode(s, now) == 200 || HealthCode(s, now) == 503
  {
  }

  /** Any status write keeps the server healthy for the next five minutes. */
  lemma HealthyAfterUpdate(s: BotState, u: StatusUpdate, t: int, now: int)
    requires now <= t + 300000
    ensures HealthCode(Merge(s, u, t), now) == 200
  {
  }

  datatype Uptime = Uptime(days: nat, hours: nat, mins: nat)

  /** `formatUptime` over whole seconds: days, hours below 24 and minutes
      below 60 that account for all but the last, partial, minute. */
  function UptimeParts(seconds: nat): (u: Uptime)
    ensures u.hours < 24 && u.mins < 60
    ensures var whole := u.days * 86400 + u.hours * 3600 + u.mins * 60;
      whole <= seconds < whole + 60
  {
    UptimeArithmetic(seconds);
    Uptime(seconds / 86400, (seconds % 86400) / 3600, (seconds % 3600) / 60)
  }

  lemma UptimeArithmetic(seconds: nat)
    ensures (seconds % 86400) / 3600 < 24 && (seconds % 3600) / 60 < 60
    ensures var whole := (seconds / 86400) * 86400 + ((seconds % 86400) / 3600) * 3600 + ((seconds % 3600) / 60) * 60;
      whole <= seconds < whole + 60
  {
    var d, r := seconds / 86400, seconds % 86400;
    assert seconds == d * 86400 + r;
    var h, r2 := r / 3600, r % 3600;
    assert r == h * 3600 + r2;
    assert seconds == (d * 24 + h) * 3600 + r2;
    assert seconds % 3600 == r2;
    var m, r3 := r2 / 60, r2 % 60;
    assert r2 == m * 60 + r3;
  }

  /** `${days}d ${hours}h ${mins}m` */
  function FormatUptime(seconds: nat): string
  {
    var u := UptimeParts(seconds);
    Decimal(u.days) + "d " + Decimal(u.hours) + "h " + Decimal(u.mins) + "m"
  }

  /** The state after `stats.messagesProcessed++`. */
  function CountOne(s: BotState): BotState
  {
    s.(stats := s.stats.(messagesProcessed := s.stats.messagesProcessed + 1))
  }

  /** At most one of the QR payload and the pairing code is set. */
  predicate NotBoth(s: BotState)
  {
    !(s.qrCode.Some? && s.pairingCode.Some?)
  }

  /** The status store: `global.botState`, `global.pairingRequest` and what
      has been emitted to dashboard clients, in order. */
  class Server {
    var state: BotState
    var pairingRequest: Option<string>
    var emitted: seq<Emission>

    constructor(now: int)
      ensures state == Initial(now) && pairingRequest == None && emitted == []
      ensures NotBoth(state) && state.stats.messagesProcessed == 0
    {
      state := Initial(now);
      pairingRequest := None;
      emitted := [];
    }

    /** `updateBotStatus`: merge, then emit one `bot-status` with the merged
        state, and a QR image when the update carries a truthy `qrCode`. */
    method UpdateBotStatus(u: StatusUpdate, now: int)
      modifies this
      ensures state == Merge(old(state), u, now)
      ensures pairingRequest == old(pairingRequest)
      ensures emitted == old(emitted) + Emissions(u, state)
    {
      state := Merge(state, u, now);
      emitted := emitted + [ToAll(BotStatus(state))];
      if WritesQrImage(u) {
        emitted := emitted + [ToAll(QrImage(u.qrCode.value.value))];
      }
    }

    /** `global.botState.stats.messagesProcessed++`: a direct mutation, with
        no new stamp and no broadcast. */
    method CountMessage()
      modifies this
      ensures state == CountOne(old(state))
      ensures pairingRequest == old(pairingRequest) && emitted == old(emitted)
    {
      state := CountOne(state);
    }

    /** A dashboard client connects and is sent the current state at once. */
    method ClientConnected(client: nat)
      modifies this
      ensures emitted == old(emitted) + [ToClient(client, BotStatus(state))]
      ensures state == old(state) && pairingRequest == old(pairingRequest)
    {
      emitted := emitted + [ToClient(client, BotStatus(state))];
    }

    /** A client's `get-qr`: it is sent the QR payload when one is set. */
    method GetQr(client: nat)
      modifies this
      ensures emitted == old(emitted)
        + (if WaMessage.Truthy(state.qrCode) then [ToClient(client, QrUpdate(state.qrCode.value))] else [])
      ensures state == old(state) && pairingRequest == old(pairingRequest)
    {
      if WaMessage.Truthy(state.qrCode) {
        emitted := emitted + [ToClient(client, QrUpdate(state.qrCode.value))];
      }
    }

    /** `POST /api/pairing`. A rejected number leaves everything unchanged;
        an accepted one fills the single pending slot and writes
        `requesting_pairing` with both codes cleared. */
    method PostPairing(phoneNumber: Posted, now: int) returns (resp: PairingResponse)
      modifies this
      ensures resp == PairingReply(PairingCheck(phoneNumber))
      ensures resp.success == PairingCheck(phoneNumber).Ok?
      ensures !resp.success ==>
        state == old(state) && pairingRequest == old(pairingRequest) && emitted == old(emitted)
      ensures resp.success ==>
        && pairingRequest == Some(DigitsOnly(phoneNumber.s))
        && state == Merge(old(state), RequestingPairingUpdate, now)
        && state.connectionStatus == RequestingPairing
        && state.qrCode.None? && state.pairingCode.None?
        && emitted == old(emitted) + [ToAll(BotStatus(state))]
    {
      var check := PairingCheck(phoneNumber);
      resp := PairingReply(check);
      if check.Ok? {
        pairingRequest := Some(check.value);
        UpdateBotStatus(RequestingPairingUpdate, now);
      }
    }
  }
}
