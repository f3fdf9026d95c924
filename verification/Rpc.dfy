/** The websocket RPC client: connection, pending requests, reconnect timer and
    disposal. Socket events, timeouts and timers are steps that may fire at any
    time, on current and on replaced sockets alike. */
module Rpc {
  import opened CodeUnits

  type SocketId = nat
  type RequestId = nat

  datatype ReadyState = Connecting | IsOpen | Closing | IsClosed
  datatype Outcome = Resolved | ErrorReply | TransportError

  datatype Frame = Response(id: RequestId, ok: bool) | Progress(progressId: RequestId) | EventFrame | Garbage

  /** The client's fields, then the world it acts on: the ready state of every socket it
      made, the reconnect timers set and not cleared, and how each request ended. */
  datatype State = State(
    ws: Option<SocketId>,
    nextId: RequestId,
    pending: set<RequestId>,
    openPromise: Option<SocketId>,
    disposed: bool,
    reconnectTimer: Option<nat>,
    sockets: map<SocketId, ReadyState>,
    timers: set<nat>,
    nextTimer: nat,
    settled: map<RequestId, Outcome>)

  // ---------- Helpers of the client ----------

  function ClearTimer(s: State): State {
    match s.reconnectTimer
    case None => s
    case Some(timer) => s.(reconnectTimer := None, timers := s.timers - {timer})
  }

  function ScheduleReconnect(s: State): State {
    if s.reconnectTimer.Some? then s
    else s.(reconnectTimer := Some(s.nextTimer), timers := s.timers + {s.nextTimer}, nextTimer := s.nextTimer + 1)
  }

  function SettleOne(s: State, id: RequestId, outcome: Outcome): State {
    if id !in s.pending then s
    else s.(pending := s.pending - {id}, settled := s.settled[id := outcome])
  }

  function RejectPending(s: State): State {
    s.(pending := {}, settled := FailAll(s.settled, s.pending))
  }

  function FailAll(settled: map<RequestId, Outcome>, pending: set<RequestId>): map<RequestId, Outcome> {
    settled + map id | id in pending :: TransportError
  }

  /** `ws?.close()` on a socket the client drops. */
  function CloseSocket(s: State, socket: Option<SocketId>): State {
    if socket.Some? && socket.value in s.sockets && !s.sockets[socket.value].IsClosed?
    then s.(sockets := s.sockets[socket.value := Closing])
    else s
  }

  predicate IsOpenNow(s: State) {
    s.ws.Some? && s.ws.value in s.sockets && s.sockets[s.ws.value].IsOpen?
  }

  // ---------- Calls ----------

  /** `connect` */
  function Connect(s: State): State {
    if s.disposed || IsOpenNow(s) || s.openPromise.Some? then s
    else
      var socket := |s.sockets|;
      ClearTimer(s).(ws := Some(socket), openPromise := Some(socket), sockets := s.sockets[socket := Connecting])
  }

  /** `reconnect` */
  function Reconnect(s: State): State {
    if s.disposed || s.openPromise.Some? then s
    else
      var s1 := RejectPending(ClearTimer(s));
      Connect(CloseSocket(s1.(ws := None), s.ws))
  }

  /** `close` */
  function Dispose(s: State): State {
    if s.disposed then s
    else
      var s1 := RejectPending(ClearTimer(s.(disposed := true)).(openPromise := None));
      CloseSocket(s1.(ws := None), s.ws)
  }

  /** The continuation of `request` after its `await`: refused unless the socket is open. */
  function Send(s: State): State {
    if !IsOpenNow(s) then s else s.(nextId := s.nextId + 1, pending := s.pending + {s.nextId})
  }

  // ---------- Events ----------

  function SocketOpened(s: State, socket: SocketId): State {
    if socket !in s.sockets || !s.sockets[socket].Connecting? then s
    else
      var s1 := s.(sockets := s.sockets[socket := IsOpen]);
      if s.ws != Some(socket) then s1 else s1.(openPromise := None)
  }

  function SocketClosed(s: State, socket: SocketId): State {
    if socket !in s.sockets || s.sockets[socket].IsClosed? then s
    else
      var s1 := s.(sockets := s.sockets[socket := IsClosed]);
      if s.ws != Some(socket) then s1
      else
        var s2 := RejectPending(s1.(openPromise := None, ws := None));
        if s.disposed then s2 else ScheduleReconnect(s2)
  }

  function Message(s: State, socket: SocketId, frame: Frame): State {
    if s.ws != Some(socket) then s
    else
      match frame
      case Response(id, ok) => SettleOne(s, id, if ok then Resolved else ErrorReply)
      case _ => s
  }

  /** A request's timeout; a silent connection is closed. */
  function RequestTimeout(s: State, id: RequestId, silent: bool): State {
    if id !in s.pending then s
    else
      var s1 := SettleOne(s, id, TransportError);
      if silent then CloseSocket(s1, s.ws) else s1
  }

  function TimerFired(s: State, timer: nat): State {
    if timer !in s.timers then s
    else Connect(s.(timers := s.timers - {timer}, reconnectTimer := None))
  }

  /** The rejection handler of the connection attempt a timer started. */
  function AttemptFailed(s: State): State {
    if s.disposed then s else ScheduleReconnect(s)
  }

  datatype Step =
    | DoConnect | DoReconnect | DoDispose | DoSend
    | Opened(socket: SocketId) | Closed(socket: SocketId)
    | Received(socket: SocketId, frame: Frame)
    | TimedOut(id: RequestId, silent: bool)
    | Fired(timer: nat) | Failed

  function Next(s: State, step: Step): State {
    match step
    case DoConnect => Connect(s)
    case DoReconnect => Reconnect(s)
    case DoDispose => Dispose(s)
    case DoSend => Send(s)
    case Opened(socket) => SocketOpened(s, socket)
    case Closed(socket) => SocketClosed(s, socket)
    case Received(socket, frame) => Message(s, socket, frame)
    case TimedOut(id, silent) => RequestTimeout(s, id, silent)
    case Fired(timer) => TimerFired(s, timer)
    case Failed => AttemptFailed(s)
  }

  const START: State := State(None, 0, {}, None, false, None, map[], {}, 0, map[])

  function Run(steps: seq<Step>): State {
    if steps == [] then START else Next(Run(steps[..|steps| - 1]), steps[|steps| - 1])
  }

  // ---------- What every run keeps ----------

  /** Every id ever issued is pending or settled, never both. */
  ghost predicate Accounted(pending: set<RequestId>, settled: map<RequestId, Outcome>, nextId: RequestId) {
    && (forall id | id in pending :: id < nextId && id !in settled)
    && (forall id | id in settled :: id < nextId)
    && (forall id: RequestId | id < nextId :: id in pending || id in settled)
  }

  ghost predicate OneTimer(timers: set<nat>, reconnectTimer: Option<nat>, nextTimer: nat) {
    && timers == (if reconnectTimer.Some? then {reconnectTimer.value} else {})
    && (forall t | t in timers :: t < nextTimer)
  }

  /** Sockets are numbered in the order they were made. */
  ghost predicate Numbered(sockets: map<SocketId, ReadyState>) {
    && (forall socket | socket in sockets :: socket < |sockets|)
    && (forall socket: nat | socket < |sockets| :: socket in sockets)
  }

  ghost predicate Invariant(s: State) {
    && Accounted(s.pending, s.settled, s.nextId) && OneTimer(s.timers, s.reconnectTimer, s.nextTimer) && Numbered(s.sockets)
    && (s.ws.Some? ==> s.ws.value in s.sockets)
    && (s.openPromise.Some? ==> s.ws == s.openPromise)
    && (s.disposed ==> s.pending == {} && s.timers == {} && s.ws.None? && s.openPromise.None?)
  }

  lemma NewSocket(sockets: map<SocketId, ReadyState>)
    requires Numbered(sockets)
    ensures Numbered(sockets[|sockets| := Connecting])
  {
    assert |sockets| !in sockets;
    assert |sockets[|sockets| := Connecting]| == |sockets| + 1;
  }

  lemma SameSockets(sockets: map<SocketId, ReadyState>, socket: SocketId, state: ReadyState)
    requires Numbered(sockets) && socket in sockets
    ensures Numbered(sockets[socket := state])
  {
    assert sockets[socket := state].Keys == sockets.Keys;
    assert |sockets[socket := state].Keys| == |sockets.Keys|;
  }

  lemma RejectAccounted(s: State)
    requires Accounted(s.pending, s.settled, s.nextId)
    ensures Accounted({}, RejectPending(s).settled, s.nextId)
  {
  }

  lemma SettleAccounted(s: State, id: RequestId, outcome: Outcome)
    requires Accounted(s.pending, s.settled, s.nextId)
    ensures Accounted(SettleOne(s, id, outcome).pending, SettleOne(s, id, outcome).settled, s.nextId)
  {
  }

  lemma SendAccounted(s: State)
    requires Accounted(s.pending, s.settled, s.nextId)
    ensures Accounted(s.pending + {s.nextId}, s.settled, s.nextId + 1)
  {
  }

  lemma ConnectKeeps(s: State)
    requires Invariant(s)
    ensures Invariant(Connect(s))
  {
    hide Accounted, Numbered;
    NewSocket(s.sockets);
  }

  lemma CloseKeeps(s: State, socket: Option<SocketId>)
    requires Invariant(s)
    ensures Invariant(CloseSocket(s, socket))
  {
    hide Accounted, Numbered, OneTimer;
    if socket.Some? && socket.value in s.sockets {
      SameSockets(s.sockets, socket.value, Closing);
    }
  }

  lemma ReconnectKeeps(s: State)
    requires Invariant(s)
    ensures Invariant(Reconnect(s))
  {
    if !s.disposed && s.openPromise.None? {
      RejectAccounted(s);
      var s1 := RejectPending(ClearTimer(s)).(ws := None);
      assert Reconnect(s) == Connect(CloseSocket(s1, s.ws));
      hide Accounted, Numbered, Connect, CloseSocket, Reconnect;
      CloseKeeps(s1, s.ws);
      ConnectKeeps(CloseSocket(s1, s.ws));
    }
  }

  lemma DisposeKeeps(s: State)
    requires Invariant(s)
    ensures Invariant(Dispose(s))
  {
    if !s.disposed {
      RejectAccounted(s);
      hide Accounted, Numbered, CloseSocket;
      CloseKeeps(RejectPending(ClearTimer(s.(disposed := true)).(openPromise := None)).(ws := None), s.ws);
    }
  }

  lemma ScheduleKeeps(s: State)
    requires Invariant(s) && !s.disposed
    ensures Invariant(ScheduleReconnect(s))
  {
    hide Accounted, Numbered;
  }

  lemma ClosedKeeps(s: State, socket: SocketId)
    requires Invariant(s)
    ensures Invariant(SocketClosed(s, socket))
  {
    if socket in s.sockets {
      RejectAccounted(s);
      SameSockets(s.sockets, socket, IsClosed);
      hide Accounted, Numbered, OneTimer, FailAll, ScheduleReconnect;
      if s.ws == Some(socket) && !s.disposed {
        ScheduleKeeps(RejectPending(s.(sockets := s.sockets[socket := IsClosed], openPromise := None, ws := None)));
      }
    }
  }

  lemma TimeoutKeeps(s: State, id: RequestId, silent: bool)
    requires Invariant(s)
    ensures Invariant(RequestTimeout(s, id, silent))
  {
    SettleAccounted(s, id, TransportError);
    hide Accounted, Numbered, CloseSocket;
    if id in s.pending {
      CloseKeeps(SettleOne(s, id, TransportError), s.ws);
    }
  }

  lemma StepInvariant(s: State, step: Step)
    requires Invariant(s)
    ensures Invariant(Next(s, step))
  {
    hide Connect, Reconnect, Dispose, SocketClosed, RequestTimeout, Accounted, Numbered;
    match step {
      case DoConnect => ConnectKeeps(s);
      case DoReconnect => ReconnectKeeps(s);
      case DoDispose => DisposeKeeps(s);
      case DoSend => SendAccounted(s);
      case Opened(socket) =>
        if socket in s.sockets {
          SameSockets(s.sockets, socket, IsOpen);
        }
      case Closed(socket) => ClosedKeeps(s, socket);
      case Received(socket, frame) =>
        if frame.Response? {
          SettleAccounted(s, frame.id, if frame.ok then Resolved else ErrorReply);
        }
      case TimedOut(id, silent) => TimeoutKeeps(s, id, silent);
      case Fired(timer) =>
        if timer in s.timers {
          ConnectKeeps(s.(timers := s.timers - {timer}, reconnectTimer := None));
        }
      case Failed =>
    }
  }

  lemma {:induction false} RunInvariant(steps: seq<Step>)
    ensures Invariant(Run(steps))
  {
    if steps != [] {
      RunInvariant(steps[..|steps| - 1]);
      StepInvariant(Run(steps[..|steps| - 1]), steps[|steps| - 1]);
    }
  }

  /** In every run: each issued request is pending or settled and never both, at most one
      reconnect timer is set and the client knows it, and after disposal nothing is pending,
      connecting or scheduled. */
  lemma EveryRun(steps: seq<Step>)
    ensures var s := Run(steps);
            && Accounted(s.pending, s.settled, s.nextId)
            && |s.timers| <= 1 && (s.timers != {} <==> s.reconnectTimer.Some?)
            && (s.disposed ==> s.pending == {} && s.timers == {} && s.ws.None? && s.openPromise.None?)
  {
    RunInvariant(steps);
  }

  /** How one step may move requests: settled ones stay as they were settled, fresh ids only
      become pending, and a pending request that leaves the table is settled by that step. */
  ghost predicate Moves(s: State, next: State) {
    && s.nextId <= next.nextId
    && (forall id | id in s.settled :: id in next.settled && next.settled[id] == s.settled[id])
    && (forall id | id in s.pending :: id in next.pending || id in next.settled)
    && (forall id | id in next.pending :: id in s.pending || id >= s.nextId)
  }

  predicate Unmoved(s: State, next: State) {
    next.nextId == s.nextId && next.pending == s.pending && next.settled == s.settled
  }

  predicate AllRejected(s: State, next: State) {
    next.nextId == s.nextId && next.pending == {} && next.settled == FailAll(s.settled, s.pending)
  }

  predicate OneSettled(s: State, next: State, id: RequestId) {
    && next.nextId == s.nextId && id in s.pending && next.pending == s.pending - {id}
    && id in next.settled && next.settled == s.settled[id := next.settled[id]]
  }

  lemma ReconnectTable(s: State)
    ensures Unmoved(s, Reconnect(s)) || AllRejected(s, Reconnect(s))
  {
    hide FailAll;
  }

  lemma DisposeTable(s: State)
    ensures Unmoved(s, Dispose(s)) || AllRejected(s, Dispose(s))
  {
    hide FailAll;
  }

  lemma CloseTable(s: State, socket: SocketId)
    ensures Unmoved(s, SocketClosed(s, socket)) || AllRejected(s, SocketClosed(s, socket))
  {
    hide FailAll;
  }

  lemma TimeoutTable(s: State, id: RequestId, silent: bool)
    ensures var next := RequestTimeout(s, id, silent); Unmoved(s, next) || OneSettled(s, next, id)
  {
  }

  lemma MessageTable(s: State, socket: SocketId, frame: Frame)
    ensures var next := Message(s, socket, frame);
            Unmoved(s, next) || (frame.Response? && OneSettled(s, next, frame.id))
  {
  }

  lemma ConnectTable(s: State, timer: nat)
    ensures Unmoved(s, Connect(s)) && Unmoved(s, TimerFired(s, timer))
  {
  }

  /** What a step does to the request table. */
  lemma TableEffect(s: State, step: Step)
    ensures var next := Next(s, step);
            match step
            case DoSend => next == Send(s)
            case DoReconnect => Unmoved(s, next) || AllRejected(s, next)
            case DoDispose => Unmoved(s, next) || AllRejected(s, next)
            case Closed(_) => Unmoved(s, next) || AllRejected(s, next)
            case Received(_, Response(id, _)) => Unmoved(s, next) || OneSettled(s, next, id)
            case TimedOut(id, _) => Unmoved(s, next) || OneSettled(s, next, id)
            case _ => Unmoved(s, next)
  {
    hide FailAll, AllRejected, OneSettled, Connect, Reconnect, Dispose, SocketClosed, RequestTimeout, Message, TimerFired;
    match step
    case DoConnect => ConnectTable(s, 0);
    case DoReconnect => ReconnectTable(s);
    case DoDispose => DisposeTable(s);
    case Closed(socket) => CloseTable(s, socket);
    case Received(socket, frame) => MessageTable(s, socket, frame);
    case TimedOut(id, silent) => TimeoutTable(s, id, silent);
    case Fired(timer) => ConnectTable(s, timer);
    case _ =>
  }

  lemma SettlesOnce(steps: seq<Step>, step: Step)
    ensures Moves(Run(steps), Next(Run(steps), step))
  {
    RunInvariant(steps);
    var s := Run(steps);
    hide Run, Next;
    TableEffect(s, step);
  }

  /** A disposed client stays disposed and issues no request. */
  lemma DisposedIsFinal(s: State, step: Step)
    requires Invariant(s) && s.disposed
    ensures Next(s, step).disposed && Unmoved(s, Next(s, step))
  {
    hide Accounted, Numbered, OneTimer;
  }

  /** Messages, openings and closings of a replaced socket change neither the client's own
      fields nor any request. */
  lemma StaleSocketsAreIgnored(steps: seq<Step>, socket: SocketId, frame: Frame)
    requires Run(steps).ws != Some(socket)
    ensures var s := Run(steps);
            && Message(s, socket, frame) == s
            && SocketOpened(s, socket).(sockets := s.sockets) == s
            && SocketClosed(s, socket).(sockets := s.sockets) == s
  {
  }

  // ---------- Why a request ends, and when one begins ----------

  /** The connection is given up: by the user, or because the current socket closed. */
  predicate GivesUp(s: State, step: Step) {
    || (step.DoDispose? && !s.disposed)
    || (step.DoReconnect? && !s.disposed && s.openPromise.None?)
    || (step.Closed? && s.ws == Some(step.socket) && step.socket in s.sockets && !s.sockets[step.socket].IsClosed?)
  }

  /** How a pending request ends with this step: as the reply on the current socket says, or as
      a transport error when it times out or the connection is given up. */
  function EndsWith(s: State, step: Step, id: RequestId): Option<Outcome> {
    if step.Received? && s.ws == Some(step.socket) && step.frame == Response(id, true) then Some(Resolved)
    else if step.Received? && s.ws == Some(step.socket) && step.frame == Response(id, false) then Some(ErrorReply)
    else if (step.TimedOut? && step.id == id) || GivesUp(s, step) then Some(TransportError)
    else None
  }

  /** A pending request ends exactly then and so. */
  ghost predicate EndAsTold(s: State, step: Step, next: State) {
    forall id | id in s.pending ::
      match EndsWith(s, step, id)
      case None => id in next.pending && id !in next.settled
      case Some(outcome) => id !in next.pending && id in next.settled && next.settled[id] == outcome
  }

  lemma UnmovedEnd(s: State, step: Step, next: State)
    requires Accounted(s.pending, s.settled, s.nextId) && Unmoved(s, next)
    requires !GivesUp(s, step) && !step.TimedOut? && !step.Received?
    ensures EndAsTold(s, step, next)
  {
    hide GivesUp;
  }

  lemma GivenUpEnd(s: State, step: Step, next: State)
    requires GivesUp(s, step) && AllRejected(s, next)
    ensures EndAsTold(s, step, next)
  {
    assert !step.Received?;
    hide GivesUp;
  }

  lemma GivesUpTable(s: State, step: Step)
    requires GivesUp(s, step)
    ensures AllRejected(s, Next(s, step))
  {
    hide FailAll;
  }

  lemma KeepsTable(s: State, step: Step)
    requires !GivesUp(s, step) && !step.TimedOut? && !step.Received? && !step.DoSend?
    ensures Unmoved(s, Next(s, step))
  {
    match step
    case Closed(socket) =>
    case Fired(timer) => ConnectTable(s, timer);
    case DoConnect => ConnectTable(s, 0);
    case _ =>
  }

  lemma SendEnd(s: State)
    requires Accounted(s.pending, s.settled, s.nextId)
    ensures EndAsTold(s, DoSend, Send(s))
    ensures Send(s).pending - s.pending == (if IsOpenNow(s) then {s.nextId} else {})
  {
  }

  lemma TimeoutEnd(s: State, id: RequestId, silent: bool)
    requires Accounted(s.pending, s.settled, s.nextId)
    ensures EndAsTold(s, TimedOut(id, silent), RequestTimeout(s, id, silent))
    ensures RequestTimeout(s, id, silent).pending <= s.pending && RequestTimeout(s, id, silent).nextId == s.nextId
  {
  }

  lemma MessageEnd(s: State, socket: SocketId, frame: Frame)
    requires Accounted(s.pending, s.settled, s.nextId)
    ensures EndAsTold(s, Received(socket, frame), Message(s, socket, frame))
    ensures Message(s, socket, frame).pending <= s.pending && Message(s, socket, frame).nextId == s.nextId
  {
  }

  lemma EndsAsTold(s: State, step: Step)
    requires Invariant(s)
    ensures EndAsTold(s, step, Next(s, step))
    ensures var sends := step.DoSend? && IsOpenNow(s);
            var next := Next(s, step);
            next.pending - s.pending == (if sends then {s.nextId} else {}) && next.nextId == s.nextId + (if sends then 1 else 0)
  {
    if GivesUp(s, step) {
      GivesUpTable(s, step);
      GivenUpEnd(s, step, Next(s, step));
      hide Next, EndAsTold, Invariant;
    } else {
      hide EndAsTold, Accounted, Numbered, OneTimer;
      match step
      case DoSend => SendEnd(s);
      case TimedOut(id, silent) =>
        TimeoutEnd(s, id, silent);
        hide RequestTimeout;
      case Received(socket, frame) =>
        MessageEnd(s, socket, frame);
        hide Message;
      case _ =>
        hide Next;
        KeepsTable(s, step);
        UnmovedEnd(s, step, Next(s, step));
    }
  }

  /** Each request ends as its reply, its timeout or the loss of its connection says, and no step
      but a send on an open socket makes one pending. */
  lemma RequestsEndAsTold(steps: seq<Step>, step: Step)
    ensures var s := Run(steps);
            var next := Next(s, step);
            var sends := step.DoSend? && IsOpenNow(s);
            && EndAsTold(s, step, next)
            && next.pending - s.pending == (if sends then {s.nextId} else {})
            && next.nextId == s.nextId + (if sends then 1 else 0)
  {
    RunInvariant(steps);
    hide Run, Invariant, EndAsTold, Next;
    EndsAsTold(Run(steps), step);
  }

  // ---------- The connection comes back ----------

  /** A connection, an attempt at one, or a timer that will make one. */
  predicate Alive(s: State) { s.disposed || s.ws.Some? || s.reconnectTimer.Some? }

  lemma {:induction false} StaysAlive(steps: seq<Step>, more: seq<Step>)
    requires Alive(Run(steps))
    ensures Alive(Run(steps + more))
    decreases |more|
  {
    hide Run, Next, Invariant, Alive;
    if more == [] {
      assert steps + more == steps;
    } else {
      var n := |more| - 1;
      assert steps + more == steps + more[..n] + [more[n]];
      StaysAlive(steps, more[..n]);
      RunInvariant(steps + more[..n]);
      RunSnoc(steps + more[..n], more[n]);
      AliveStep(Run(steps + more[..n]), more[n]);
    }
  }

  lemma AliveStep(s: State, step: Step)
    requires Invariant(s) && Alive(s)
    ensures Alive(Next(s, step))
  {
    hide FailAll, Accounted, Numbered;
  }

  /** Once it has been asked to connect, a client that is not disposed always has a connection,
      an attempt or a timer, whatever happens; the timer makes an attempt, and an attempt whose
      socket opens is a connection. */
  lemma AlwaysComesBack(steps: seq<Step>, more: seq<Step>)
    ensures Alive(Run(steps + [DoConnect] + more)) && Alive(Run(steps + [DoReconnect] + more))
    ensures var s := Run(steps);
            && (!s.disposed && !IsOpenNow(s) && s.reconnectTimer.Some? ==>
                  Next(s, Fired(s.reconnectTimer.value)).openPromise.Some?)
            && (s.openPromise.Some? && s.openPromise.value in s.sockets && s.sockets[s.openPromise.value].Connecting? ==>
                  var after := Next(s, Opened(s.openPromise.value)); IsOpenNow(after) && after.openPromise.None?)
            && (!s.disposed && s.openPromise.None? && !IsOpenNow(s) ==> AttemptBegins(s, Next(s, DoConnect)))
            && (!s.disposed && s.openPromise.None? ==> AttemptBegins(s, Next(s, DoReconnect)))
  {
    RunInvariant(steps);
    RunSnoc(steps, DoConnect);
    RunSnoc(steps, DoReconnect);
    ConnectAlive(Run(steps));
    hide Run;
    StaysAlive(steps + [DoConnect], more);
    StaysAlive(steps + [DoReconnect], more);
    AttemptMade(Run(steps));
  }

  /** A new socket is being opened, and it is the current one. */
  predicate AttemptBegins(s: State, next: State) {
    && next.ws.Some? && next.ws.value !in s.sockets && next.openPromise == next.ws
    && next.ws.value in next.sockets && next.sockets[next.ws.value].Connecting? && next.timers == {}
  }

  lemma RunSnoc(steps: seq<Step>, step: Step)
    ensures Run(steps + [step]) == Next(Run(steps), step)
  {
    assert (steps + [step])[..|steps|] == steps;
  }

  lemma ConnectAlive(s: State)
    requires Invariant(s)
    ensures Alive(Connect(s)) && Alive(Reconnect(s))
  {
    hide FailAll, Accounted, Numbered;
  }

  lemma AttemptMade(s: State)
    requires Invariant(s)
    ensures !s.disposed && !IsOpenNow(s) && s.reconnectTimer.Some? ==> Next(s, Fired(s.reconnectTimer.value)).openPromise.Some?
    ensures s.openPromise.Some? ==> s.openPromise.value in s.sockets
    ensures s.openPromise.Some? && s.sockets[s.openPromise.value].Connecting? ==>
              var after := Next(s, Opened(s.openPromise.value)); IsOpenNow(after) && after.openPromise.None?
    ensures !s.disposed && s.openPromise.None? && !IsOpenNow(s) ==> AttemptBegins(s, Next(s, DoConnect))
    ensures !s.disposed && s.openPromise.None? ==> AttemptBegins(s, Next(s, DoReconnect))
  {
    assert |s.sockets| !in s.sockets;
    hide FailAll, Accounted;
  }

  // ---------- The client ----------

  class AgentRpcClient {
    var ws: Option<SocketId>
    var nextId: RequestId
    var pending: set<RequestId>
    var openPromise: Option<SocketId>
    var disposed: bool
    var reconnectTimer: Option<nat>
    var sockets: map<SocketId, ReadyState>
    var timers: set<nat>
    var nextTimer: nat
    var settled: map<RequestId, Outcome>

    ghost function Snapshot(): State
      reads this
    {
      State(ws, nextId, pending, openPromise, disposed, reconnectTimer, sockets, timers, nextTimer, settled)
    }

    constructor ()
      ensures Snapshot() == START
    {
      ws, nextId, pending, openPromise, disposed := None, 0, {}, None, false;
      reconnectTimer, sockets, timers, nextTimer, settled := None, map[], {}, 0, map[];
    }

    method ClearReconnectTimer()
      modifies this
      ensures Snapshot() == ClearTimer(old(Snapshot()))
    {
      if reconnectTimer.Some? {
        timers := timers - {reconnectTimer.value};
        reconnectTimer := None;
      }
    }

    method SetReconnectTimer()
      modifies this
      ensures Snapshot() == ScheduleReconnect(old(Snapshot()))
    {
      if reconnectTimer.Some? { return; }
      reconnectTimer := Some(nextTimer);
      timers := timers + {nextTimer};
      nextTimer := nextTimer + 1;
    }

    /** Reject every pending request, then clear the table. */
    method RejectAll()
      modifies this
      ensures Snapshot() == RejectPending(old(Snapshot()))
    {
      var rest := pending;
      while rest != {}
        invariant rest <= pending
        invariant Snapshot().(settled := old(settled)) == old(Snapshot())
        invariant settled.Keys == old(settled).Keys + (pending - rest)
        invariant forall id | id in settled ::
                    settled[id] == if id in pending - rest then TransportError else old(settled)[id]
        decreases rest
      {
        var id :| id in rest;
        settled := settled[id := TransportError];
        rest := rest - {id};
      }
      assert settled == FailAll(old(settled), pending);
      pending := {};
    }

    method CloseOf(socket: Option<SocketId>)
      modifies this
      ensures Snapshot() == CloseSocket(old(Snapshot()), socket)
    {
      if socket.Some? && socket.value in sockets && !sockets[socket.value].IsClosed? {
        sockets := sockets[socket.value := Closing];
      }
    }

    method ConnectNow()
      modifies this
      ensures Snapshot() == Connect(old(Snapshot()))
    {
      if disposed { return; }
      if ws.Some? && ws.value in sockets && sockets[ws.value].IsOpen? { return; }
      if openPromise.Some? { return; }
      ClearReconnectTimer();
      var socket := |sockets|;
      sockets := sockets[socket := Connecting];
      ws := Some(socket);
      openPromise := Some(socket);
    }

    method ReconnectNow()
      modifies this
      ensures Snapshot() == Reconnect(old(Snapshot()))
    {
      if disposed || openPromise.Some? { return; }
      ClearReconnectTimer();
      RejectAll();
      var socket := ws;
      ws := None;
      CloseOf(socket);
      ConnectNow();
    }

    method CloseClient()
      modifies this
      ensures Snapshot() == Dispose(old(Snapshot()))
    {
      if disposed { return; }
      disposed := true;
      ClearReconnectTimer();
      openPromise := None;
      RejectAll();
      var socket := ws;
      ws := None;
      CloseOf(socket);
    }

    method SendRequest() returns (id: Option<RequestId>)
      modifies this
      ensures Snapshot() == Send(old(Snapshot()))
      ensures id == if old(IsOpenNow(Snapshot())) then Some(old(nextId)) else None
    {
      if !(ws.Some? && ws.value in sockets && sockets[ws.value].IsOpen?) { return None; }
      id := Some(nextId);
      nextId := nextId + 1;
      pending := pending + {id.value};
    }

    method HandleMessage(socket: SocketId, frame: Frame)
      modifies this
      ensures Snapshot() == Message(old(Snapshot()), socket, frame)
    {
      if ws != Some(socket) { return; }
      if frame.Response? && frame.id in pending {
        pending := pending - {frame.id};
        settled := settled[frame.id := if frame.ok then Resolved else ErrorReply];
      }
    }

    method HandleClose(socket: SocketId)
      modifies this
      ensures Snapshot() == SocketClosed(old(Snapshot()), socket)
    {
      if socket !in sockets || sockets[socket].IsClosed? { return; }
      sockets := sockets[socket := IsClosed];
      if ws != Some(socket) { return; }
      openPromise := None;
      ws := None;
      RejectAll();
      if !disposed { SetReconnectTimer(); }
    }
  }
}
