/** The browser dashboard: how it renders the bot status it receives, how it
    retries a lost connection to the server, and how it validates the phone
    number before asking for a pairing code. */
module Dashboard {
  import opened Wrappers
  import opened Text
  import App

  // ---------------------------------------------------------------------
  // Status rendering

  const UnknownLabel: string := "Unknown \U{2753}"

  /** `getStatusText`: the label of a status name, or the unknown label. */
  function StatusText(status: string): (shown: string)
    ensures shown != UnknownLabel <==> status in KnownStatuses
  {
    if status == "connected" then "Connected \U{2705}"
    else if status == "disconnected" then "Disconnected \U{274C}"
    else if status == "scan_qr" then "Scan QR Code \U{1F4F1}"
    else if status == "enter_pairing" then "Enter Pairing Code \U{1F522}"
    else if status == "reconnecting" then "Reconnecting \U{1F504}"
    else if status == "logged_out" then "Logged Out \U{1F6AA}"
    else if status == "requesting_pairing" then "Requesting Pairing Code \U{23F3}"
    else if status == "pairing_error" then "Pairing Error \U{274C}"
    else UnknownLabel
  }

  /** The status names the label table knows. */
  const KnownStatuses: set<string> :=
    {"connected", "disconnected", "scan_qr", "enter_pairing", "reconnecting",
     "logged_out", "requesting_pairing", "pairing_error"}

  /** Every state the server can be in has a label except `error`, which
      the dashboard shows as unknown. */
  lemma ServerStatusLabels(c: App.ConnectionStatus)
    ensures StatusText(App.StatusName(c)) == UnknownLabel <==> c == App.Error
  {
    if c == App.Error {
      assert App.StatusName(c) !in KnownStatuses by {
        var e := App.StatusName(c);
        assert |e| == 5 && e[0] == 'e';
      }
    }
  }

  /** The extra class of the status dot. */
  datatype Badge = ConnectedDot | ScanningDot | ReconnectingDot | DisconnectedDot

  function BadgeClass(b: Badge): string
  {
    match b
    case ConnectedDot => "connected"
    case ScanningDot => "scanning"
    case ReconnectingDot => "reconnecting"
    case DisconnectedDot => "disconnected"
  }

  /** `updateConnectionBadge`'s switch. */
  function BadgeOf(status: string): Badge
  {
    if status == "connected" then ConnectedDot
    else if status == "scan_qr" || status == "requesting_pairing" then ScanningDot
    else if status == "reconnecting" then ReconnectingDot
    else DisconnectedDot
  }

  /** The dot of each server state: green when connected, scanning while a
      QR code or a pairing code is awaited, reconnecting, and disconnected
      for everything else. */
  lemma ServerStatusBadges(c: App.ConnectionStatus)
    ensures BadgeOf(App.StatusName(c)) == ConnectedDot <==> c == App.Connected
    ensures BadgeOf(App.StatusName(c)) == ScanningDot <==> c == App.ScanQr || c == App.RequestingPairing
    ensures BadgeOf(App.StatusName(c)) == ReconnectingDot <==> c == App.Reconnecting
  {
  }

  /** Which panels are shown. */
  datatype Panels = Panels(qr: bool, pairingResult: bool, pairing: bool)

  /** `updatePanelVisibility`: the QR panel only while a QR code is to be
      scanned, the pairing result only while a pairing code is to be
      entered, the pairing form always. */
  function PanelsFor(status: string): (p: Panels)
    ensures p.qr <==> status == "scan_qr"
    ensures p.pairingResult <==> status == "enter_pairing"
    ensures p.pairing
    ensures !(p.qr && p.pairingResult)
  {
    Panels(status == "scan_qr", status == "enter_pairing", true)
  }

  /** `status.user.name || status.user.id || 'Unknown'`; None hides the
      user row. */
  function UserLabel(user: Option<App.User>): (shown: Option<string>)
    ensures shown.Some? <==> user.Some?
    ensures shown.Some? ==> shown.value != ""
  {
    if user.None? then None
    else if user.value.name.Some? && user.value.name.value != "" then user.value.name
    else if user.value.id != "" then Some(user.value.id)
    else Some("Unknown")
  }

  // ---------------------------------------------------------------------
  // Reconnection

  const MaxRetries: nat := 5
  const MaxDelayMs: nat := 30000

  function Pow2(n: nat): (p: nat)
    ensures p >= 1
  {
    if n == 0 then 1 else 2 * Pow2(n - 1)
  }

  /** `Math.min(1000 * Math.pow(2, retryCount), 30000)` */
  function Delay(retryCount: nat): (d: nat)
    ensures 1000 <= d <= MaxDelayMs
  {
    if 1000 * Pow2(retryCount) < MaxDelayMs then 1000 * Pow2(retryCount) else MaxDelayMs
  }

  /** The delay doubles from one second and stops growing at thirty. */
  lemma DelaySchedule(n: nat)
    ensures Delay(0) == 1000 && Delay(1) == 2000 && Delay(2) == 4000
    ensures Delay(3) == 8000 && Delay(4) == 16000
    ensures n >= 5 ==> Delay(n) == MaxDelayMs
    ensures Delay(n) <= Delay(n + 1)
  {
    assert Pow2(5) == 32;
    if n >= 5 {
      Pow2Grows(5, n);
    }
  }

  lemma {:induction false} Pow2Grows(m: nat, n: nat)
    requires m <= n
    ensures Pow2(m) <= Pow2(n)
  {
    if m < n {
      Pow2Grows(m, n - 1);
    }
  }

  /** The part of the client state the reconnection logic works on:
      `pending` holds the delays of the reconnect timers not yet fired, in
      the order they were set, and `reconnects` counts `socket.connect`
      calls. */
  datatype View = View(retryCount: nat, isConnected: bool, pending: seq<nat>, reconnects: nat)

  const Start: View := View(0, false, [], 0)

  datatype ClientEvent = Connect | Disconnect | Fire(timer: nat)

  /** One socket event or timer callback. A disconnect sets a timer while
      fewer than five retries have been made; a fired timer counts a retry
      and reconnects. A connect never resets the retry count. */
  function Step(v: View, e: ClientEvent): View
  {
    match e
    case Connect => v.(isConnected := true)
    case Disconnect =>
      v.(isConnected := false,
         pending := if v.retryCount < MaxRetries then v.pending + [Delay(v.retryCount)] else v.pending)
    case Fire(k) =>
      if k < |v.pending|
      then v.(retryCount := v.retryCount + 1, reconnects := v.reconnects + 1,
              pending := v.pending[..k] + v.pending[k + 1..])
      else v
  }

  function Run(v: View, events: seq<ClientEvent>): View
    decreases |events|
  {
    if events == [] then v else Run(Step(v, events[0]), events[1..])
  }

  /** The retry count never goes down, every retry is one reconnect, and a
      timer is never set for more than thirty seconds. */
  lemma {:induction false} RunCounts(v: View, events: seq<ClientEvent>)
    requires forall i :: 0 <= i < |v.pending| ==> 1000 <= v.pending[i] <= MaxDelayMs
    ensures Run(v, events).retryCount >= v.retryCount
    ensures Run(v, events).reconnects - v.reconnects == Run(v, events).retryCount - v.retryCount
    ensures var p := Run(v, events).pending; forall i :: 0 <= i < |p| ==> 1000 <= p[i] <= MaxDelayMs
    decreases |events|
  {
    if events != [] {
      var w := Step(v, events[0]);
      assert forall i :: 0 <= i < |w.pending| ==> 1000 <= w.pending[i] <= MaxDelayMs by {
        if events[0].Fire? && events[0].timer < |v.pending| {
          var k := events[0].timer;
          assert forall i :: 0 <= i < |w.pending| ==> w.pending[i] == v.pending[if i < k then i else i + 1];
        }
      }
      RunCounts(w, events[1..]);
    }
  }

  /** Once five retries have been made, a disconnect sets no timer, now or
      later. */
  lemma Exhausted(v: View, events: seq<ClientEvent>)
    requires v.retryCount >= MaxRetries && v.pending == []
    ensures Run(v, events).pending == [] && Run(v, events).retryCount == v.retryCount
    decreases |events|
  {
    if events != [] {
      Exhausted(Step(v, events[0]), events[1..]);
    }
  }

  /** Disconnects that arrive only when no reconnect timer is pending. */
  predicate Sequential(v: View, events: seq<ClientEvent>)
    decreases |events|
  {
    events != [] ==>
      (events[0] == Disconnect ==> v.pending == [])
      && Sequential(Step(v, events[0]), events[1..])
  }

  /** When each reconnect timer fires before the next disconnect, at most
      five reconnects are made in all. */
  lemma {:induction false} SequentialBound(v: View, events: seq<ClientEvent>)
    requires v.retryCount + |v.pending| <= MaxRetries && |v.pending| <= 1
    requires Sequential(v, events)
    ensures Run(v, events).retryCount <= MaxRetries
    ensures Run(v, events).reconnects - v.reconnects <= MaxRetries - v.retryCount
    decreases |events|
  {
    if events != [] {
      var w := Step(v, events[0]);
      assert w.retryCount + |w.pending| <= MaxRetries && |w.pending| <= 1;
      assert w.reconnects - v.reconnects == w.retryCount - v.retryCount;
      SequentialBound(w, events[1..]);
    }
  }

  /** From a fresh page: at most five reconnects. */
  lemma StartBound(events: seq<ClientEvent>)
    requires Sequential(Start, events)
    ensures Run(Start, events).reconnects <= MaxRetries
  {
    SequentialBound(Start, events);
  }

  /** Without the sequential condition the cap does not hold: two
      disconnects in a row at four retries set two timers, and both retry. */
  lemma OverlappingTimersExceedCap()
    ensures var v := View(4, true, [], 4);
      Run(v, [Disconnect, Disconnect, Fire(0), Fire(0)]).retryCount == 6
  {
    var v := View(4, true, [], 4);
    var e := [Disconnect, Disconnect, Fire(0), Fire(0)];
    var v1 := Step(v, Disconnect);
    var v2 := Step(v1, Disconnect);
    assert v2.pending == [16000, 16000];
    var v3 := Step(v2, Fire(0));
    assert v3.retryCount == 5 && v3.pending == [16000];
    var v4 := Step(v3, Fire(0));
    assert v4.retryCount == 6;
    assert Run(v4, []) == v4;
    assert Run(v3, e[3..]) == v4 by { assert e[3..][1..] == []; }
    assert Run(v2, e[2..]) == v4 by { assert e[2..][1..] == e[3..]; }
    assert Run(v1, e[1..]) == v4 by { assert e[1..][1..] == e[2..]; }
  }

  // ---------------------------------------------------------------------
  // Pairing form

  /** The input filter: only the digits stay. */
  function FilterPhone(value: string): (r: string)
    ensures AllDigits(r)
    ensures DigitsOnly(r) == r
  {
    DigitsOnlyFixpoint(DigitsOnly(value));
    DigitsOnly(value)
  }

  /** The submit check: an empty field and one shorter than ten characters
      are refused with a notice; otherwise the number is posted. */
  function SubmitCheck(phone: string): (r: Result<string, Notice>)
    ensures r.Ok? <==> |phone| >= 10
    ensures r.Ok? ==> r.value == phone
    ensures phone == "" ==> r == Err(EnterPhone)
  {
    if phone == "" then Err(EnterPhone)
    else if |phone| < 10 then Err(InvalidPhone)
    else Ok(phone)
  }

  /** A number that passes the client's check after the input filter is
      accepted unchanged by the server's pairing check. */
  lemma ClientCheckMatchesServer(typed: string)
    ensures var phone := FilterPhone(typed);
      SubmitCheck(phone).Ok? <==> App.PairingCheck(App.Str(phone)).Ok?
    ensures var phone := FilterPhone(typed);
      SubmitCheck(phone).Ok? ==> App.PairingCheck(App.Str(phone)) == Ok(phone)
  {
    DigitsOnlyOfDigits(FilterPhone(typed));
  }

  /** The notices the client shows. */
  datatype Notice =
    | Loaded
    | ServerConnected
    | ConnectionError(message: string)
    | ReconnectAttempt(attempt: nat, max: nat)
    | RetriesExhausted
    | RequestingCode
    | EnterPhone
    | InvalidPhone
    | CodeRequested
    | RequestRefused(message: string)
    | RequestFailed

  /** The page state outside the reconnection logic. */
  datatype UiState = UiState(
    badge: Badge, statusText: string, panels: Panels, pairingCodeText: string,
    userLabel: Option<string>, qrRequests: nat, phone: string, posted: seq<string>,
    notices: seq<Notice>)

  /** `KnightBotApp`, reduced to the state its handlers update. */
  class KnightBotApp {
    var retryCount: nat
    var isConnected: bool
    var pending: seq<nat>       // reconnect timers set and not yet fired
    var reconnects: nat         // `socket.connect()` calls
    var qrRequests: nat         // `get-qr` emits
    var badge: Badge
    var statusText: string
    var panels: Panels
    var pairingCodeText: string
    var userLabel: Option<string>
    var phone: string           // the phone field
    var posted: seq<string>     // numbers posted to the pairing endpoint
    var notices: seq<Notice>

    function ViewOf(): View
      reads this
    {
      View(retryCount, isConnected, pending, reconnects)
    }

    function Ui(): UiState
      reads this
    {
      UiState(badge, statusText, panels, pairingCodeText, userLabel, qrRequests, phone, posted, notices)
    }

    constructor()
      ensures ViewOf() == Start
      ensures Ui() == UiState(DisconnectedDot, "", Panels(false, false, true), "", None, 0, "", [], [Loaded])
    {
      retryCount, isConnected, pending, reconnects := 0, false, [], 0;
      qrRequests := 0;
      badge, statusText := DisconnectedDot, "";
      panels := Panels(false, false, true);
      pairingCodeText, userLabel := "", None;
      phone, posted := "", [];
      notices := [Loaded];
    }

    /** `updateConnectionBadge` */
    method UpdateConnectionBadge(status: string)
      modifies this
      ensures Ui() == old(Ui()).(badge := BadgeOf(status), statusText := StatusText(status))
      ensures ViewOf() == old(ViewOf())
    {
      badge := BadgeOf(status);
      statusText := StatusText(status);
    }

    /** The `connect` handler. */
    method OnConnect()
      modifies this
      ensures ViewOf() == Step(old(ViewOf()), Connect)
      ensures Ui() == old(Ui()).(badge := ConnectedDot, statusText := StatusText("connected"),
                                 qrRequests := old(qrRequests) + 1, notices := old(notices) + [ServerConnected])
    {
      isConnected := true;
      UpdateConnectionBadge("connected");
      notices := notices + [ServerConnected];
      qrRequests := qrRequests + 1;
    }

    /** The `disconnect` handler. */
    method OnDisconnect()
      modifies this
      ensures ViewOf() == Step(old(ViewOf()), Disconnect)
      ensures Ui() == old(Ui()).(badge := DisconnectedDot, statusText := StatusText("disconnected"),
        notices := old(notices) +
          [if old(retryCount) < MaxRetries then ReconnectAttempt(old(retryCount) + 1, MaxRetries) else RetriesExhausted])
    {
      isConnected := false;
      UpdateConnectionBadge("disconnected");
      AttemptReconnect();
    }

    /** `attemptReconnect` */
    method AttemptReconnect()
      modifies this
      ensures retryCount == old(retryCount) && reconnects == old(reconnects) && isConnected == old(isConnected)
      ensures pending == if retryCount < MaxRetries then old(pending) + [Delay(retryCount)] else old(pending)
      ensures Ui() == old(Ui()).(notices := old(notices) +
        [if retryCount < MaxRetries then ReconnectAttempt(retryCount + 1, MaxRetries) else RetriesExhausted])
    {
      if retryCount < MaxRetries {
        var delay := Delay(retryCount);
        notices := notices + [ReconnectAttempt(retryCount + 1, MaxRetries)];
        pending := pending + [delay];
      } else {
        notices := notices + [RetriesExhausted];
      }
    }

    /** A reconnect timer fires. */
    method FireTimer(k: nat)
      requires k < |pending|
      modifies this
      ensures ViewOf() == Step(old(ViewOf()), Fire(k))
      ensures Ui() == old(Ui())
    {
      pending := pending[..k] + pending[k + 1..];
      retryCount := retryCount + 1;
      reconnects := reconnects + 1;
    }

    /** The `connect_error` handler. */
    method OnConnectError(message: string)
      modifies this
      ensures Ui() == old(Ui()).(notices := old(notices) + [ConnectionError(message)])
      ensures ViewOf() == old(ViewOf())
    {
      notices := notices + [ConnectionError(message)];
    }

    /** The `bot-status` handler: dot, label, user row and panels follow
        the received state. */
    method OnBotStatus(s: App.BotState)
      modifies this
      ensures var name := App.StatusName(s.connectionStatus);
        && badge == BadgeOf(name) && statusText == StatusText(name)
        && panels == PanelsFor(name)
        && userLabel == UserLabel(s.user)
        && (name == "enter_pairing" ==>
              pairingCodeText == (if s.pairingCode.Some? then s.pairingCode.value else ""))
        && (name != "enter_pairing" ==> pairingCodeText == old(pairingCodeText))
        && notices == old(notices) + (if name == "requesting_pairing" then [RequestingCode] else [])
      ensures Ui() == old(Ui()).(badge := badge, statusText := statusText, panels := panels,
                                 userLabel := userLabel, pairingCodeText := pairingCodeText, notices := notices)
      ensures ViewOf() == old(ViewOf())
    {
      var name := App.StatusName(s.connectionStatus);
      UpdateConnectionBadge(name);
      userLabel := UserLabel(s.user);
      UpdatePanelVisibility(name, s.pairingCode);
    }

    /** `updatePanelVisibility` */
    method UpdatePanelVisibility(status: string, pairingCode: Option<string>)
      modifies this
      ensures panels == PanelsFor(status)
      ensures status == "enter_pairing" ==>
        pairingCodeText == (if pairingCode.Some? then pairingCode.value else "")
      ensures status != "enter_pairing" ==> pairingCodeText == old(pairingCodeText)
      ensures notices == old(notices) + (if status == "requesting_pairing" then [RequestingCode] else [])
      ensures Ui() == old(Ui()).(panels := panels, pairingCodeText := pairingCodeText, notices := notices)
      ensures ViewOf() == old(ViewOf())
    {
      panels := Panels(false, false, panels.pairing);
      if status == "scan_qr" {
        panels := panels.(qr := true);
      } else if status == "enter_pairing" {
        panels := panels.(pairingResult := true);
        pairingCodeText := if pairingCode.Some? then pairingCode.value else "";
      } else if status == "requesting_pairing" {
        notices := notices + [RequestingCode];
      }
      panels := panels.(pairing := true);
    }

    /** The phone field's `input` handler. */
    method OnPhoneInput(value: string)
      modifies this
      ensures Ui() == old(Ui()).(phone := FilterPhone(value)) && AllDigits(phone)
      ensures ViewOf() == old(ViewOf())
    {
      phone := FilterPhone(value);
    }

    /** `requestPairingCode`: a refused number posts nothing; otherwise the
        number is posted and the server's answer, or `None` when the request
        fails, decides the notice. The field is cleared only on success. */
    method RequestPairingCode(answer: Option<App.PairingResponse>)
      modifies this
      ensures SubmitCheck(old(phone)).Err? ==>
        posted == old(posted) && notices == old(notices) + [SubmitCheck(old(phone)).error]
        && phone == old(phone)
      ensures SubmitCheck(old(phone)).Ok? ==>
        && posted == old(posted) + [old(phone)]
        && notices == old(notices) + [
             if answer.None? then RequestFailed
             else if answer.value.success then CodeRequested
             else RequestRefused(answer.value.message)]
        && phone == (if answer.Some? && answer.value.success then "" else old(phone))
      ensures Ui() == old(Ui()).(phone := phone, posted := posted, notices := notices)
      ensures ViewOf() == old(ViewOf())
    {
      var check := SubmitCheck(phone);
      if check.Err? {
        notices := notices + [check.error];
        return;
      }
      posted := posted + [phone];
      if answer.None? {
        notices := notices + [RequestFailed];
      } else if answer.value.success {
        notices := notices + [CodeRequested];
        phone := "";
      } else {
        notices := notices + [RequestRefused(answer.value.message)];
      }
    }
  }
}
