/**
  The connection lifecycle of the chat widget, as values.

  A State holds the module-level variables of the script (the socket, the
  reconnect timer, the attempt counter, the shutdown flag and the geo-reply
  flag) together with what the page shows (status line, message log, input
  box) and what went out over the wire. Each event handler of the script is
  a function from the state before the event to the state after it; the
  class in module ChatSession runs the same handlers imperatively and is
  proved to agree with these functions.

  Every WebSocket ever created is kept in `sockets`, in creation order; the
  last one is the one the script's `socket` variable refers to. Older
  sockets still have their handlers registered, so their events are
  modelled too.
 */
module Lifecycle {
  import opened Backoff
  import opened JsString

  datatype Option<T> = None | Some(value: T)

  /** The readyState of one WebSocket. */
  datatype ReadyState = Connecting | Open | Closing | Closed

  /** The status line, as set by setChatStatus. */
  datatype Status =
    | Unset            // before the first connection attempt
    | Connecting       // "connecting..."
    | Online           // "online"
    | ConnectionError  // "connection error"
    | ConnectionClosed // "connection closed"
    | Reconnecting     // "reconnecting..."

  /** The fixed texts the script adds to the log on the server's side. */
  datatype Notice =
    | Connected       // connection established
    | ServerError     // error talking to the server
    | ConnectionLost  // connection closed
    | MessageNotSent  // message not sent: no connection
    | GeoNotSent      // location not sent: no connection

  /** What a log entry shows: a text, a fixed notice, or a map link for a position. */
  datatype Content = Text(text: string) | Note(notice: Notice) | GeoLink(latitude: string, longitude: string)

  datatype Origin = User | Server

  datatype Entry = Entry(content: Content, origin: Origin)

  datatype State = State(
    sockets: seq<ReadyState>,   // every socket created so far; the last is the current one
    pendingTimer: Option<nat>,  // the delay of the pending reconnect timer, if one is pending
    reconnectAttempts: nat,
    manuallyClosed: bool,
    geoResponsePending: bool,
    status: Status,
    input: string,              // the value of the chat input box
    log: seq<Entry>,            // the message list, oldest first
    sent: seq<string>)          // the frames handed to socket.send, oldest first

  predicate IsLive(rs: ReadyState) {
    rs == ReadyState.Connecting || rs == ReadyState.Open
  }

  /** The current socket exists and is OPEN or CONNECTING. */
  predicate HasLiveSocket(s: State) {
    |s.sockets| > 0 && IsLive(s.sockets[|s.sockets| - 1])
  }

  /** The current socket exists and is OPEN. */
  predicate IsOpen(s: State) {
    |s.sockets| > 0 && s.sockets[|s.sockets| - 1] == ReadyState.Open
  }

  /** The module-level variables as the script declares them. */
  const INITIAL: State := State([], None, 0, false, false, Status.Unset, "", [], [])

  /** The frame the geolocation callback transmits. */
  function GeoFrame(latitude: string, longitude: string): (f: string)
    ensures |f| == 5 + |latitude| + |longitude|
    ensures f[..4] == "geo:" && f[4..4 + |latitude|] == latitude
    ensures f[4 + |latitude|] == ',' && f[5 + |latitude|..] == longitude
  {
    "geo:" + latitude + "," + longitude
  }

  /** addMessage: append one entry to the message list. */
  function AddMessage(s: State, content: Content, origin: Origin): (r: State)
    ensures |r.log| == |s.log| + 1 && r.log[..|s.log|] == s.log && r.log[|s.log|] == Entry(content, origin)
    ensures r.(log := s.log) == s
  {
    s.(log := s.log + [Entry(content, origin)])
  }

  /**
    connectSocket: does nothing after shutdown or while the current socket is
    OPEN or CONNECTING; otherwise a new socket in state CONNECTING becomes
    the current one and the status says "connecting".
   */
  function Connect(s: State): (r: State)
    ensures r == s <==> (s.manuallyClosed || HasLiveSocket(s))
    ensures r != s ==> r.sockets == s.sockets + [ReadyState.Connecting] && r.status == Status.Connecting
    ensures r.(sockets := s.sockets, status := s.status) == s
  {
    if s.manuallyClosed || HasLiveSocket(s) then s
    else s.(status := Status.Connecting, sockets := s.sockets + [ReadyState.Connecting])
  }

  /** What happens when the page loads: the variables are declared, then connectSocket runs. */
  function Load(): (r: State)
    ensures r.sockets == [ReadyState.Connecting] && r.status == Status.Connecting
    ensures r.log == [] && r.sent == [] && r.pendingTimer == None && !r.manuallyClosed
    ensures r.reconnectAttempts == 0 && !r.geoResponsePending && r.input == ""
  {
    Connect(INITIAL)
  }

  /**
    The "open" handler of socket `id`: the attempt counter goes back to
    zero whatever it was, the status says "online" and a notice is logged.
   */
  function OnOpen(s: State, id: nat): (r: State)
    requires id < |s.sockets| && s.sockets[id] == ReadyState.Connecting
    ensures r.reconnectAttempts == 0 && r.status == Status.Online
    ensures |r.sockets| == |s.sockets| && r.sockets[id] == ReadyState.Open
    ensures r.log == s.log + [Entry(Note(Connected), Server)]
    ensures forall k :: 0 <= k < |s.sockets| && k != id ==> r.sockets[k] == s.sockets[k]
    ensures r.(sockets := s.sockets, log := s.log, status := s.status, reconnectAttempts := s.reconnectAttempts) == s
  {
    var t := s.(sockets := s.sockets[id := ReadyState.Open]);
    AddMessage(t, Note(Connected), Server).(status := Status.Online, reconnectAttempts := 0)
  }

  /**
    The "message" handler: when a geo reply is expected the frame is
    swallowed and the expectation cleared; otherwise the frame is logged as
    a server message. The handler is the same for every socket.
   */
  function OnMessage(s: State, data: string): (r: State)
    ensures s.geoResponsePending ==> r == s.(geoResponsePending := false)
    ensures !s.geoResponsePending ==> r.log == s.log + [Entry(Text(data), Server)] && r.(log := s.log) == s
  {
    if s.geoResponsePending then s.(geoResponsePending := false)
    else AddMessage(s, Text(data), Server)
  }

  /**
    The "error" handler: it reports the error and schedules nothing; only a
    following "close" event leads to a reconnect.
   */
  function OnError(s: State): (r: State)
    ensures r.status == Status.ConnectionError
    ensures r.log == s.log + [Entry(Note(ServerError), Server)]
    ensures r.(status := s.status, log := s.log) == s
  {
    AddMessage(s, Note(ServerError), Server).(status := Status.ConnectionError)
  }

  /**
    scheduleReconnect: after shutdown it does nothing; otherwise the
    pending timer (if any) is replaced by one with the backoff delay of the
    current attempt and the counter goes up by exactly one.
   */
  function ScheduleReconnect(s: State): (r: State)
    ensures s.manuallyClosed ==> r == s
    ensures !s.manuallyClosed ==> && r.pendingTimer == Some(Delay(s.reconnectAttempts))
                                  && r.reconnectAttempts == s.reconnectAttempts + 1
    ensures r.(pendingTimer := s.pendingTimer, reconnectAttempts := s.reconnectAttempts) == s
  {
    if s.manuallyClosed then s
    else
      var cleared := s.(pendingTimer := None);
      var delay := Delay(cleared.reconnectAttempts);
      cleared.(reconnectAttempts := cleared.reconnectAttempts + 1, pendingTimer := Some(delay))
  }

  /**
    The "close" handler of socket `id`: the socket is CLOSED; after
    shutdown nothing else happens; otherwise the closure is reported and a
    reconnect is scheduled.
   */
  function OnClose(s: State, id: nat): (r: State)
    requires id < |s.sockets| && s.sockets[id] != ReadyState.Closed
    ensures r.sockets == s.sockets[id := ReadyState.Closed]
    ensures s.manuallyClosed ==> r == s.(sockets := r.sockets)
    ensures !s.manuallyClosed ==> && r.status == Status.ConnectionClosed
                                  && r.log == s.log + [Entry(Note(ConnectionLost), Server)]
                                  && r.pendingTimer == Some(Delay(s.reconnectAttempts))
                                  && r.reconnectAttempts == s.reconnectAttempts + 1
    ensures r.(sockets := s.sockets, status := s.status, log := s.log,
               pendingTimer := s.pendingTimer, reconnectAttempts := s.reconnectAttempts) == s
  {
    var t := s.(sockets := s.sockets[id := ReadyState.Closed]);
    if t.manuallyClosed then t
    else ScheduleReconnect(AddMessage(t.(status := Status.ConnectionClosed), Note(ConnectionLost), Server))
  }

  /**
    The reconnect timer's callback: no timer is pending any more, the status
    says "reconnecting" and connectSocket runs, which after shutdown (or
    with a live current socket) creates nothing.
   */
  function TimerFires(s: State): (r: State)
    ensures r.pendingTimer == None
    ensures (s.manuallyClosed || HasLiveSocket(s)) ==> r.sockets == s.sockets && r.status == Status.Reconnecting
    ensures !(s.manuallyClosed || HasLiveSocket(s)) ==>
              r.sockets == s.sockets + [ReadyState.Connecting] && r.status == Status.Connecting
    ensures r.(sockets := s.sockets, status := s.status, pendingTimer := s.pendingTimer) == s
  {
    Connect(s.(pendingTimer := None, status := Status.Reconnecting))
  }

  /**
    sendMessage: input that trims to nothing is ignored altogether (the box
    keeps its value). Otherwise the trimmed text is logged as the user's,
    transmitted exactly once when the current socket is OPEN or answered by
    a "not sent" notice when it is not, and the input box is cleared.
   */
  function SendMessage(s: State): (r: State)
    ensures Trim(s.input) == [] ==> r == s
    ensures Trim(s.input) != [] && IsOpen(s) ==>
              && r.sent == s.sent + [Trim(s.input)]
              && r.log == s.log + [Entry(Text(Trim(s.input)), User)]
    ensures Trim(s.input) != [] && !IsOpen(s) ==>
              && r.sent == s.sent
              && r.log == s.log + [Entry(Text(Trim(s.input)), User), Entry(Note(MessageNotSent), Server)]
    ensures Trim(s.input) != [] ==> r.input == "" && r.(input := s.input, log := s.log, sent := s.sent) == s
  {
    var text := Trim(s.input);
    if text == [] then s
    else
      var logged := AddMessage(s, Text(text), User);
      var done := if IsOpen(s) then logged.(sent := logged.sent + [text])
                  else AddMessage(logged, Note(MessageNotSent), Server);
      done.(input := "")
  }

  /**
    The geolocation success callback: the map link is logged as the user's;
    when the current socket is OPEN the geo reply is expected and
    "geo:<lat>,<lon>" is transmitted, otherwise a "not sent" notice is
    logged and the expectation is left as it was.
   */
  function SendGeo(s: State, latitude: string, longitude: string): (r: State)
    ensures IsOpen(s) ==> && r.geoResponsePending
                          && r.sent == s.sent + [GeoFrame(latitude, longitude)]
                          && r.log == s.log + [Entry(GeoLink(latitude, longitude), User)]
    ensures !IsOpen(s) ==> && r.geoResponsePending == s.geoResponsePending
                           && r.sent == s.sent
                           && r.log == s.log + [Entry(GeoLink(latitude, longitude), User), Entry(Note(GeoNotSent), Server)]
    ensures r.(geoResponsePending := s.geoResponsePending, log := s.log, sent := s.sent) == s
  {
    var logged := AddMessage(s, GeoLink(latitude, longitude), User);
    if IsOpen(s) then logged.(geoResponsePending := true, sent := logged.sent + [GeoFrame(latitude, longitude)])
    else AddMessage(logged, Note(GeoNotSent), Server)
  }

  /**
    The "beforeunload" handler: shutdown is recorded, the pending timer is
    cancelled and the current socket is closed if, and only if, it is OPEN
    (a CONNECTING socket is left alone).
   */
  function Unload(s: State): (r: State)
    ensures r.manuallyClosed && r.pendingTimer == None
    ensures IsOpen(s) ==> r.sockets == s.sockets[|s.sockets| - 1 := ReadyState.Closing]
    ensures !IsOpen(s) ==> r.sockets == s.sockets
    ensures r.(manuallyClosed := s.manuallyClosed, pendingTimer := s.pendingTimer, sockets := s.sockets) == s
  {
    var t := s.(manuallyClosed := true, pendingTimer := None);
    if IsOpen(t) then t.(sockets := t.sockets[|t.sockets| - 1 := ReadyState.Closing]) else t
  }

  /** Typing into the chat input box changes its value. */
  function SetInput(s: State, text: string): (r: State)
    ensures r.input == text && r.(input := s.input) == s
  {
    s.(input := text)
  }

  /** Everything that can happen to the page after it has loaded. */
  datatype Event =
    | SocketOpen(socket: nat)
    | SocketMessage(socket: nat, data: string)
    | SocketError(socket: nat)
    | SocketClose(socket: nat)
    | TimerFire
    | InputChanged(text: string)
    | SendPressed
    | GeoPosition(latitude: string, longitude: string)
    | BeforeUnload

  /**
    What the browser guarantees about when a socket's events arrive: "open"
    only on a CONNECTING socket, messages at most while it is OPEN or CLOSING
    (the browser delivers them only while OPEN, so this over-approximates),
    "close" only once. Other events may come at any time.
   */
  predicate Enabled(s: State, e: Event) {
    match e
    case SocketOpen(id) => id < |s.sockets| && s.sockets[id] == ReadyState.Connecting
    case SocketMessage(id, _) =>
      id < |s.sockets| && (s.sockets[id] == ReadyState.Open || s.sockets[id] == ReadyState.Closing)
    case SocketError(id) => id < |s.sockets|
    case SocketClose(id) => id < |s.sockets| && s.sockets[id] != ReadyState.Closed
    case _ => true
  }

  /** Runs the handler of one event. */
  function Apply(s: State, e: Event): State
    requires Enabled(s, e)
  {
    match e
    case SocketOpen(id) => OnOpen(s, id)
    case SocketMessage(_, data) => OnMessage(s, data)
    case SocketError(_) => OnError(s)
    case SocketClose(id) => OnClose(s, id)
    case TimerFire => TimerFires(s)
    case InputChanged(text) => SetInput(s, text)
    case SendPressed => SendMessage(s)
    case GeoPosition(latitude, longitude) => SendGeo(s, latitude, longitude)
    case BeforeUnload => Unload(s)
  }

  /** Runs a sequence of events; an event the browser would not deliver is skipped. */
  function Run(s: State, events: seq<Event>): State
    decreases |events|
  {
    if events == [] then s
    else Run(if Enabled(s, events[0]) then Apply(s, events[0]) else s, events[1..])
  }

  /**
    The lifecycle invariant, true of every state reachable after load:
    - a socket exists;
    - every socket but the current one is CLOSING or CLOSED, so at most one is live;
    - a socket is CLOSING only after shutdown;
    - a reconnect timer is pending exactly when the session has not been
      shut down and the current socket is CLOSED;
    - a pending timer's delay is the backoff delay of the attempt it was
      scheduled for, which the counter has already counted.
   */
  ghost predicate Inv(s: State) {
    && |s.sockets| > 0
    && (forall i :: 0 <= i < |s.sockets| - 1 ==> !IsLive(s.sockets[i]))
    && (forall i :: 0 <= i < |s.sockets| ==> s.sockets[i] == ReadyState.Closing ==> s.manuallyClosed)
    && (s.pendingTimer.Some? <==> !s.manuallyClosed && s.sockets[|s.sockets| - 1] == ReadyState.Closed)
    && (s.pendingTimer.Some? ==> && s.reconnectAttempts >= 1
                                 && s.pendingTimer.value == Delay(s.reconnectAttempts - 1))
  }

  lemma LoadEstablishesInv()
    ensures Inv(Load())
  {
  }

  lemma OnOpenPreservesInv(s: State, id: nat)
    requires Inv(s) && id < |s.sockets| && s.sockets[id] == ReadyState.Connecting
    ensures Inv(OnOpen(s, id))
  {
    assert id == |s.sockets| - 1;
  }

  lemma OnClosePreservesInv(s: State, id: nat)
    requires Inv(s) && id < |s.sockets| && s.sockets[id] != ReadyState.Closed
    ensures Inv(OnClose(s, id))
  {
    if id < |s.sockets| - 1 {
      assert s.sockets[id] == ReadyState.Closing;
    }
  }

  /**
    scheduleReconnect clears the pending timer before it sets a new one.
    Under the invariant, a close that schedules a reconnect never finds a
    timer pending, so the single timer slot never discards a live timer.
   */
  lemma CloseFindsNoPendingTimer(s: State, id: nat)
    requires Inv(s) && id < |s.sockets| && s.sockets[id] != ReadyState.Closed && !s.manuallyClosed
    ensures s.pendingTimer == None
  {
    if id < |s.sockets| - 1 {
      // an older socket that is not CLOSED is CLOSING, which needs shutdown
      assert false;
    }
  }

  lemma TimerFiresPreservesInv(s: State)
    requires Inv(s)
    ensures Inv(TimerFires(s))
  {
  }

  lemma SendMessagePreservesInv(s: State)
    requires Inv(s)
    ensures Inv(SendMessage(s))
  {
    var r := SendMessage(s);
    assert r.sockets == s.sockets && r.pendingTimer == s.pendingTimer
      && r.manuallyClosed == s.manuallyClosed && r.reconnectAttempts == s.reconnectAttempts;
  }

  lemma UnloadPreservesInv(s: State)
    requires Inv(s)
    ensures Inv(Unload(s))
  {
  }

  /** Every handler keeps the lifecycle invariant. */
  lemma ApplyPreservesInv(s: State, e: Event)
    requires Inv(s) && Enabled(s, e)
    ensures Inv(Apply(s, e))
  {
    match e
    case SocketOpen(id) => OnOpenPreservesInv(s, id);
    case SocketClose(id) => OnClosePreservesInv(s, id);
    case TimerFire => TimerFiresPreservesInv(s);
    case SendPressed => SendMessagePreservesInv(s);
    case BeforeUnload => UnloadPreservesInv(s);
    case _ =>
  }

  lemma {:induction false} RunPreservesInv(s: State, events: seq<Event>)
    requires Inv(s)
    ensures Inv(Run(s, events))
    decreases |events|
  {
    if events != [] {
      var next := if Enabled(s, events[0]) then Apply(s, events[0]) else s;
      if Enabled(s, events[0]) {
        ApplyPreservesInv(s, events[0]);
      }
      RunPreservesInv(next, events[1..]);
    }
  }

  /**
    Whatever happens after load, at most one socket is live, and exactly one
    reconnect timer is pending while the session is disconnected and not
    shut down (none otherwise), with a capped delay.
   */
  lemma ReachableStates(events: seq<Event>)
    ensures var r := Run(Load(), events);
      && |r.sockets| > 0
      && (forall i :: 0 <= i < |r.sockets| - 1 ==> !IsLive(r.sockets[i]))
      && (r.pendingTimer.Some? <==> !r.manuallyClosed && r.sockets[|r.sockets| - 1] == ReadyState.Closed)
      && (r.pendingTimer.Some? ==> r.pendingTimer.value <= MAX_DELAY)
  {
    LoadEstablishesInv();
    RunPreservesInv(Load(), events);
  }

  /** After shutdown, one event creates no socket, schedules no timer and never undoes the shutdown. */
  lemma ApplyAfterShutdown(s: State, e: Event)
    requires s.manuallyClosed && s.pendingTimer == None && Enabled(s, e)
    ensures var r := Apply(s, e);
      r.manuallyClosed && r.pendingTimer == None && |r.sockets| == |s.sockets|
      && r.reconnectAttempts <= s.reconnectAttempts
  {
  }

  /**
    After shutdown nothing reconnects: whatever events follow (closes,
    errors, a stale timer firing), no socket is created, no timer is
    pending and the attempt counter does not grow.
   */
  lemma {:induction false} ShutdownIsFinal(s: State, events: seq<Event>)
    requires s.manuallyClosed && s.pendingTimer == None
    ensures var r := Run(s, events);
      r.manuallyClosed && r.pendingTimer == None && |r.sockets| == |s.sockets|
      && r.reconnectAttempts <= s.reconnectAttempts
    decreases |events|
  {
    if events != [] {
      var next := if Enabled(s, events[0]) then Apply(s, events[0]) else s;
      if Enabled(s, events[0]) {
        ApplyAfterShutdown(s, events[0]);
      }
      ShutdownIsFinal(next, events[1..]);
    }
  }

  /** The "beforeunload" handler ends reconnection for good, from any state. */
  lemma NoReconnectAfterUnload(s: State, events: seq<Event>)
    ensures var r := Run(Unload(s), events);
      r.manuallyClosed && r.pendingTimer == None && |r.sockets| == |s.sockets|
  {
    ShutdownIsFinal(Unload(s), events);
  }

  /** The message log and the transmitted frames only ever grow at the end. */
  lemma {:induction false} LogIsAppendOnly(s: State, events: seq<Event>)
    ensures var r := Run(s, events); s.log <= r.log && s.sent <= r.sent
    decreases |events|
  {
    if events != [] {
      var next := if Enabled(s, events[0]) then Apply(s, events[0]) else s;
      LogIsAppendOnly(next, events[1..]);
    }
  }

  /**
    With a geo reply expected, the next frame (whatever it holds) is
    swallowed and the one after it is logged as a server message.
   */
  lemma GeoReplySwallowedOnce(s: State, reply: string, next: string)
    requires s.geoResponsePending
    ensures OnMessage(s, reply).log == s.log
    ensures !OnMessage(s, reply).geoResponsePending
    ensures OnMessage(OnMessage(s, reply), next).log == s.log + [Entry(Text(next), Server)]
  {
  }
}
