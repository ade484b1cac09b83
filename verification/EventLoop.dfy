/**
 Connections on top of the operation table: submit, complete, cancel, close, destroy.

 One loop thread runs everything, but user callbacks run in the middle of the
 library's functions and may call back into it.  The model is therefore flat: a
 library function runs up to the point where it calls the user and pushes a frame
 that says what is left to do; while frames are on the stack any library function
 may be called; `Return` ends the innermost callback and does what was left.  A
 run is any sequence of events; an event that cannot happen in a state (a
 completion or a sweep in the middle of a callback, a call on a connection that
 does not exist, a descriptor that is already in use) changes nothing.
 */
module EventLoops {
  import P = Pollers
  import opened Shared

  type Key = P.Key
  type Fd = int
  type Id = nat

  const MAX_PENDING_IO_RETRIES: nat := 1000
  const MAX_PENDING_IO_TIMEOUT_MS: nat := 2000

  /** An in-flight flag with the key that cancels the operation. */
  datatype Flight = Flight(busy: bool, key: Key)

  datatype Conn = Conn(
    id: Id,
    stage: Stage,
    read: Flight,
    write: Flight,
    waitMs: nat,
    retries: nat,
    closing: nat,                // history: 0 open, 1 in the connection callback, 2 in the close callback, 3 queued
    frame: nat)                  // history: the frame that is closing it

  datatype Frame =
    | Reading(fd: Fd, id: Id, resubmit: bool)
    | Writing(fd: Fd, id: Id)
    | Accepting
    | Establishing(fd: Fd, id: Id)
    | InConnectionCallback(fd: Fd, id: Id)
    | InCloseCallback(fd: Fd, id: Id)
  {
    predicate Io() { Reading? || Writing? || Accepting? }
  }

  datatype State = State(
    poller: P.State,
    conns: map<Fd, Conn>,
    closed: set<Fd>,
    stack: seq<Frame>,
    nextId: Id,
    fdOf: map<Id, Fd>,           // history: the descriptor of every connection ever made
    begun: multiset<Id>,         // history: connection callbacks run by closing
    closes: multiset<Id>,        // history: close callbacks run
    destroyed: multiset<Id>,     // history: destructors run
    dangling: bool)              // history: a completion callback ran on a destroyed connection
  {
    predicate Alive(id: Id) { id in fdOf && fdOf[id] in conns && conns[fdOf[id]].id == id }

    function Of(id: Id): Conn
      requires Alive(id)
    {
      conns[fdOf[id]]
    }
  }

  function Start(): (s: State)
    ensures Inv(s)
  {
    P.StartsWell();
    State(P.Start(), map[], {}, [], 0, map[], multiset{}, multiset{}, multiset{}, false)
  }

  function FlightOf(c: Conn, kind: P.Kind): Flight { if kind == P.Read then c.read else c.write }

  function WithFlight(c: Conn, kind: P.Kind, f: Flight): Conn {
    if kind == P.Read then c.(read := f) else c.(write := f)
  }

  // ---------------------------------------------------------------------------
  // Library functions
  // ---------------------------------------------------------------------------

  /** SubmitReadOnce, or SubmitWriteOnce with output to write. */
  function AfterSubmitIo(s: State, fd: Fd, kind: P.Kind, slot: bool): State
    requires fd in s.conns
  {
    var c := s.conns[fd];
    if FlightOf(c, kind).busy then s
    else
      s.(poller := P.AfterSubmitOnce(s.poller, kind, Some(P.OfConnection(c.id)), c.id, slot),
         conns := s.conns[fd := WithFlight(c, kind, if slot then Flight(true, s.poller.nextKey) else Flight(false, 0))])
  }

  function AfterCancelFlight(s: State, fd: Fd, kind: P.Kind): State
    requires fd in s.conns
  {
    var c := s.conns[fd];
    var f := FlightOf(c, kind);
    if !f.busy then s
    else
      s.(poller := if f.key == 0 then s.poller else P.AfterCancelOp(s.poller, f.key),
         conns := s.conns[fd := WithFlight(c, kind, Flight(false, 0))])
  }

  /** CancelPendingIo. */
  function AfterCancelIo(s: State, fd: Fd): State
    requires fd in s.conns
  {
    AfterCancelFlight(AfterCancelFlight(s, fd, P.Read), fd, P.Write)
  }

  /** The state change of DoClosing, with the connection callback about to run. */
  function Marked(s: State, fd: Fd): State
    requires fd in s.conns
  {
    var c := s.conns[fd];
    s.(conns := s.conns[fd := c.(stage := Disconnected, closing := 1, frame := |s.stack|)],
       stack := s.stack + [InConnectionCallback(fd, c.id)],
       begun := s.begun + multiset{c.id})
  }

  /** DoClosing and ForceClose, up to the connection callback. */
  function AfterDoClosing(s: State, fd: Fd): State
    requires fd in s.conns
  {
    if s.conns[fd].stage == Disconnected then s else AfterCancelIo(Marked(s, fd), fd)
  }

  /** InsertNewConnection on a free descriptor: the new connection's eventer registers with no events. */
  function AfterInsert(s: State, fd: Fd): State {
    s.(poller := P.AfterAddEventer(s.poller, P.OfConnection(s.nextId), 0, true),
       conns := s.conns[fd := Conn(s.nextId, Connecting, Flight(false, 0), Flight(false, 0), 0, 0, 0, 0)],
       nextId := s.nextId + 1,
       fdOf := s.fdOf[s.nextId := fd])
  }

  /** OnEstablishing, up to the connection callback. */
  function AfterEstablish(s: State, fd: Fd): State
    requires fd in s.conns
  {
    var c := s.conns[fd];
    if c.stage != Connecting then s
    else s.(conns := s.conns[fd := c.(stage := Connected)], stack := s.stack + [Establishing(fd, c.id)])
  }

  function AfterShutDownWrite(s: State, fd: Fd): State
    requires fd in s.conns
  {
    var c := s.conns[fd];
    if c.stage != Connected then s else s.(conns := s.conns[fd := c.(stage := Disconnecting)])
  }

  function AfterDeleteConnection(s: State, fd: Fd): State { s.(closed := s.closed + {fd}) }

  function AfterAcceptOnce(s: State, slot: bool): State {
    s.(poller := P.AfterSubmitOnce(s.poller, P.Accept, None, 0, slot))
  }

  function Finished(s: State): State { s.(poller := P.AfterFinish(s.poller)) }

  function Pop(s: State): State
    requires s.stack != []
  {
    s.(stack := s.stack[..|s.stack| - 1])
  }

  /** DoClosing, from the connection callback to the close callback. */
  function AfterConnectionCallback(s: State, fd: Fd, id: Id): State
    requires s.stack != [] && fd in s.conns
  {
    s.(stack := s.stack[|s.stack| - 1 := InCloseCallback(fd, id)],
       conns := s.conns[fd := s.conns[fd].(closing := 2)],
       closes := s.closes + multiset{id})
  }

  /** The end of DoClosing. */
  function AfterCloseCallback(s: State, fd: Fd): State
    requires s.stack != [] && fd in s.conns
  {
    AfterDeleteConnection(Pop(s).(conns := s.conns[fd := s.conns[fd].(closing := 3)]), fd)
  }

  /** The end of OnReadComplete: read on unless the stream has ended, and delete the context. */
  function AfterMessageCallback(s: State, fd: Fd, resubmit: bool, slot: bool): State
    requires s.stack != [] && fd in s.conns
  {
    Finished(Pop(if resubmit then AfterSubmitIo(s, fd, P.Read, slot) else s))
  }

  /** The end of OnAcceptComplete: after the last completion of a multishot accept, ask again. */
  function AfterAccepting(s: State, slot: bool, listening: bool): State
    requires s.stack != []
  {
    var q := Finished(Pop(s));
    if s.poller.held.Held? && !s.poller.held.more && listening then AfterAcceptOnce(q, slot) else q
  }

  /** The innermost user callback returns and the library function that called it goes on. */
  function AfterReturn(s: State, slot: bool, listening: bool): State {
    if s.stack == [] then s
    else
      var top := s.stack[|s.stack| - 1];
      if !top.Accepting? && top.fd !in s.conns then s
      else
        match top
        case InConnectionCallback(fd, id) => AfterConnectionCallback(s, fd, id)
        case InCloseCallback(fd, _) => AfterCloseCallback(s, fd)
        case Establishing(fd, _) => AfterSubmitIo(Pop(s), fd, P.Read, slot)
        case Reading(fd, _, resubmit) => AfterMessageCallback(s, fd, resubmit, slot)
        case Writing(_, _) => Finished(Pop(s))
        case Accepting => AfterAccepting(s, slot, listening)
  }

  /** What a completion reports: data moved (with more output waiting or not), end of stream, retry, or error. */
  datatype Result = Moved(rest: bool) | Ended | Again | Failed

  /** The operation is no longer in flight. */
  function Landed(s: State, fd: Fd, kind: P.Kind): State
    requires fd in s.conns
  {
    var c := s.conns[fd];
    s.(conns := s.conns[fd := WithFlight(c, kind, FlightOf(c, kind).(busy := false))])
  }

  /** OnReadComplete, up to the callback it makes if any. */
  function AfterRead(s: State, fd: Fd, id: Id, res: Result, slot: bool): State
    requires fd in s.conns
  {
    match res
    case Moved(_) => s.(stack := s.stack + [Reading(fd, id, true)])
    case Ended => AfterDoClosing(s.(stack := s.stack + [Reading(fd, id, false)]), fd)
    case Again => Finished(AfterSubmitIo(s, fd, P.Read, slot))
    case Failed => Finished(s)
  }

  /** OnWriteComplete, up to the write-complete callback if it comes to that. */
  function AfterWrite(s: State, fd: Fd, id: Id, res: Result, slot: bool): State
    requires fd in s.conns
  {
    match res
    case Moved(rest) =>
      if rest then Finished(AfterSubmitIo(s, fd, P.Write, slot)) else s.(stack := s.stack + [Writing(fd, id)])
    case Again => Finished(AfterSubmitIo(s, fd, P.Write, slot))
    case _ => Finished(s)
  }

  /** Call the completion callback of the operation taken from the table, on the object its context points to. */
  function AfterDispatch(s: State, res: Result, slot: bool): State {
    if s.poller.held.Nothing? then s
    else
      var op := s.poller.held.op;
      if op.kind == P.Accept then s.(stack := s.stack + [Accepting])
      else if op.context.None? || !s.Alive(op.context.value) then s.(dangling := true)
      else
        var id := op.context.value;
        var fd := s.fdOf[id];
        var q := Landed(s, fd, op.kind);
        if op.kind == P.Read then AfterRead(q, fd, id, res, slot) else AfterWrite(q, fd, id, res, slot)
  }

  function AfterCqe(s: State, k: Key, more: bool, res: Result, slot: bool): State {
    AfterDispatch(s.(poller := P.AfterCqe(s.poller, k, more, slot)), res, slot)
  }

  // ---------------------------------------------------------------------------
  // The sweep
  // ---------------------------------------------------------------------------

  predicate Waits(c: Conn) {
    && c.stage == Disconnected && (c.read.busy || c.write.busy)
    && c.retries < MAX_PENDING_IO_RETRIES && c.waitMs < MAX_PENDING_IO_TIMEOUT_MS
  }

  /** The destructor of a connection, after it has left the map. */
  function Destroyed(s: State, fd: Fd): State
    requires fd in s.conns
  {
    var id := s.conns[fd].id;
    var q := AfterCancelIo(s, fd);
    q.(poller := P.AfterRemoveEventer(q.poller, P.OfConnection(id), true),
       conns := q.conns - {fd},
       destroyed := q.destroyed + multiset{id})
  }

  /**
   InsertNewConnection on a descriptor that is in the map: the connection found
   there is destroyed as it stands.  The new one is registered first, which makes
   no difference to the table.
   */
  function AfterReplace(s: State, fd: Fd): State
    requires fd in s.conns
  {
    AfterInsert(Destroyed(s, fd), fd)
  }

  /** One turn of the loop in DestroyClosedConnections; `closed` keeps the descriptors that remain. */
  function SweepOne(s: State, fd: Fd): State {
    if fd !in s.conns || s.conns[fd].stage != Disconnected then s.(closed := s.closed - {fd})
    else
      var c := s.conns[fd];
      if Waits(c) then s.(conns := s.conns[fd := c.(waitMs := c.waitMs + 1, retries := c.retries + 1)])
      else Destroyed(s.(closed := s.closed - {fd}), fd)
  }

  function Sweep(s: State, order: seq<Fd>): State
    decreases |order|
  {
    if order == [] then s else Sweep(SweepOne(s, order[0]), order[1..])
  }

  /** The sequence lists the set, each element once. */
  predicate Lists(order: seq<Fd>, fds: set<Fd>) {
    && (forall fd :: fd in order ==> fd in fds) && (forall fd :: fd in fds ==> fd in order)
    && (forall i, j :: 0 <= i < j < |order| ==> order[i] != order[j])
  }

  // ---------------------------------------------------------------------------
  // Runs
  // ---------------------------------------------------------------------------

  datatype Event =
    | InsertNewConnection(fd: Fd)
    | OnEstablishing(fd: Fd)
    | StartReading(fd: Fd, slot: bool)
    | StartWriting(fd: Fd, output: bool, slot: bool)
    | StopReadingWriting(fd: Fd)
    | ShutDownWrite(fd: Fd)
    | Close(fd: Fd)                                      // ForceClose, or DoClosing on a hang-up
    | DeleteConnection(fd: Fd)
    | SubmitAccept(slot: bool)
    | SetInterest(n: nat, mask: nat, slot: bool)         // an eventer that is no connection's
    | Return(slot: bool, listening: bool)
    | Completion(k: Key, more: bool, res: Result, slot: bool)
    | DestroyClosed(order: seq<Fd>)

  predicate Legal(s: State, ev: Event) {
    match ev
    case InsertNewConnection(fd) => fd !in s.conns
    case OnEstablishing(fd) => fd in s.conns
    case StartReading(fd, _) => fd in s.conns
    case StartWriting(fd, _, _) => fd in s.conns
    case StopReadingWriting(fd) => fd in s.conns
    case ShutDownWrite(fd) => fd in s.conns
    case Close(fd) => fd in s.conns
    case Completion(k, more, _, slot) => s.stack == [] && P.Legal(s.poller, P.Cqe(k, more, slot))
    case DestroyClosed(order) => s.stack == [] && Lists(order, s.closed)
    case _ => true
  }

  function Step(s: State, ev: Event): State {
    if !Legal(s, ev) then s
    else
      match ev
      case InsertNewConnection(fd) => AfterInsert(s, fd)
      case OnEstablishing(fd) => AfterEstablish(s, fd)
      case StartReading(fd, slot) => AfterSubmitIo(s, fd, P.Read, slot)
      case StartWriting(fd, output, slot) => if output then AfterSubmitIo(s, fd, P.Write, slot) else s
      case StopReadingWriting(fd) => AfterCancelIo(s, fd)
      case ShutDownWrite(fd) => AfterShutDownWrite(s, fd)
      case Close(fd) => AfterDoClosing(s, fd)
      case DeleteConnection(fd) => AfterDeleteConnection(s, fd)
      case SubmitAccept(slot) => AfterAcceptOnce(s, slot)
      case SetInterest(n, mask, slot) => s.(poller := P.AfterModifyEventer(s.poller, P.Other(n), mask, slot))
      case Return(slot, listening) => AfterReturn(s, slot, listening)
      case Completion(k, more, res, slot) => AfterCqe(s, k, more, res, slot)
      case DestroyClosed(order) => Sweep(s, order)
  }

  function Run(s: State, evs: seq<Event>): State
    decreases |evs|
  {
    if evs == [] then s else Run(Step(s, evs[0]), evs[1..])
  }

  // ---------------------------------------------------------------------------
  // The invariant
  // ---------------------------------------------------------------------------

  /** The operation a connection has in flight is in the table, uncancelled and its own. */
  predicate FlightOk(p: P.State, c: Conn, kind: P.Kind) {
    var f := FlightOf(c, kind);
    f.busy ==> f.key in p.ops && p.ops[f.key] == P.Op(kind, Some(P.OfConnection(c.id)), Some(c.id), true, 0)
  }

  predicate ClosingOk(c: Conn, fd: Fd, closed: set<Fd>, stack: seq<Frame>) {
    && c.closing <= 3 && (c.stage == Disconnected <==> c.closing > 0)
    && (c.closing == 1 ==> c.frame < |stack| && stack[c.frame] == InConnectionCallback(fd, c.id))
    && (c.closing == 2 ==> c.frame < |stack| && stack[c.frame] == InCloseCallback(fd, c.id))
    && (c.closing == 3 ==> fd in closed)
  }

  predicate ConnOk(s: State, fd: Fd) {
    fd in s.conns ==>
      var c := s.conns[fd];
      && c.id < s.nextId && c.id in s.fdOf && s.fdOf[c.id] == fd
      && c.waitMs == c.retries <= MAX_PENDING_IO_RETRIES
      && P.OfConnection(c.id) in s.poller.states
      && FlightOk(s.poller, c, P.Read) && FlightOk(s.poller, c, P.Write)
      && ClosingOk(c, fd, s.closed, s.stack)
  }

  /** An uncancelled read or write belongs to a live connection that remembers its key. */
  predicate OpOk(s: State, k: Key) {
    k in s.poller.ops && s.poller.ops[k].completion && s.poller.ops[k].kind != P.Accept ==>
      var op := s.poller.ops[k];
      && (op.kind == P.Read || op.kind == P.Write)
      && op.context.Some? && s.Alive(op.context.value)
      && FlightOf(s.Of(op.context.value), op.kind) == Flight(true, k)
  }

  /** A callback in progress belongs to a live connection. */
  predicate FrameOk(s: State, i: nat) {
    i < |s.stack| ==>
      var f := s.stack[i];
      && (f.Io() ==> i == 0 && s.poller.held.Held?)
      && (!f.Accepting? ==> f.fd in s.conns && s.conns[f.fd].id == f.id)
      && (f.InConnectionCallback? ==> s.conns[f.fd].closing == 1 && s.conns[f.fd].frame == i)
      && (f.InCloseCallback? ==> s.conns[f.fd].closing == 2 && s.conns[f.fd].frame == i)
  }

  function Count(b: bool): nat { if b then 1 else 0 }

  /** Closing and destruction are counted right for every connection ever made. */
  predicate IdOk(s: State, id: Id) {
    && (id in s.fdOf <==> id < s.nextId)
    && s.destroyed[id] == Count(id < s.nextId && !s.Alive(id))
    && s.begun[id] == Count(id < s.nextId && (s.Alive(id) ==> s.Of(id).closing >= 1))
    && s.closes[id] == Count(id < s.nextId && (s.Alive(id) ==> s.Of(id).closing >= 2))
  }

  predicate HeldOk(s: State) { s.poller.held.Held? ==> s.stack != [] && s.stack[0].Io() }

  ghost predicate Inv(s: State) {
    && P.Inv(s.poller)
    && (forall fd :: ConnOk(s, fd))
    && (forall k :: OpOk(s, k))
    && (forall i :: FrameOk(s, i))
    && (forall id :: IdOk(s, id))
    && HeldOk(s)
    && !s.dangling
  }

  // ---------------------------------------------------------------------------
  // Every library function keeps it
  // ---------------------------------------------------------------------------

  /** Changes to the poller that leave the uncancelled reads and writes and the registered eventers alone. */
  lemma PollerMoves(s: State, p: P.State)
    requires Inv(s) && P.Inv(p)
    requires p.held == s.poller.held
    requires forall e :: e in s.poller.states ==> e in p.states
    requires forall k :: k in s.poller.ops && s.poller.ops[k].completion ==> k in p.ops && p.ops[k] == s.poller.ops[k]
    requires forall k :: k in p.ops && p.ops[k].completion && p.ops[k].kind != P.Accept ==>
                           k in s.poller.ops && p.ops[k] == s.poller.ops[k]
    ensures Inv(s.(poller := p))
  {
    var s' := s.(poller := p);
    forall fd ensures ConnOk(s', fd) { assert ConnOk(s, fd); }
    forall k ensures OpOk(s', k) { assert OpOk(s, k); }
    forall i ensures FrameOk(s', i) { assert FrameOk(s, i); }
    forall id ensures IdOk(s', id) { assert IdOk(s, id); }
  }

  lemma SubmitIoConns(s: State, fd: Fd, kind: P.Kind, slot: bool, x: Fd)
    requires Inv(s) && fd in s.conns && (kind == P.Read || kind == P.Write) && !FlightOf(s.conns[fd], kind).busy
    ensures ConnOk(AfterSubmitIo(s, fd, kind, slot), x)
  {
    assert P.KeyOk(s.poller, s.poller.nextKey);
    assert ConnOk(s, fd) && ConnOk(s, x);
  }

  lemma SubmitIoOps(s: State, fd: Fd, kind: P.Kind, slot: bool, k: Key)
    requires Inv(s) && fd in s.conns && (kind == P.Read || kind == P.Write) && !FlightOf(s.conns[fd], kind).busy
    ensures OpOk(AfterSubmitIo(s, fd, kind, slot), k)
  {
    assert ConnOk(s, fd) && OpOk(s, k);
  }

  lemma SubmitIoKeeps(s: State, fd: Fd, kind: P.Kind, slot: bool)
    requires Inv(s) && fd in s.conns && (kind == P.Read || kind == P.Write)
    ensures Inv(AfterSubmitIo(s, fd, kind, slot))
  {
    var c, s' := s.conns[fd], AfterSubmitIo(s, fd, kind, slot);
    if !FlightOf(c, kind).busy {
      P.SubmitOnceKeeps(s.poller, kind, Some(P.OfConnection(c.id)), c.id, slot);
      forall x ensures ConnOk(s', x) { SubmitIoConns(s, fd, kind, slot, x); }
      forall k ensures OpOk(s', k) { SubmitIoOps(s, fd, kind, slot, k); }
      forall i ensures FrameOk(s', i) { assert FrameOk(s, i); }
      forall id ensures IdOk(s', id) { assert IdOk(s, id); }
    }
  }

  lemma CancelFlightKeeps(s: State, fd: Fd, kind: P.Kind)
    requires Inv(s) && fd in s.conns && (kind == P.Read || kind == P.Write)
    ensures Inv(AfterCancelFlight(s, fd, kind))
  {
    var c, s' := s.conns[fd], AfterCancelFlight(s, fd, kind);
    if FlightOf(c, kind).busy {
      assert ConnOk(s, fd) && P.KeyOk(s.poller, FlightOf(c, kind).key);
      P.CancelOpKeeps(s.poller, FlightOf(c, kind).key);
      forall x ensures ConnOk(s', x) { assert ConnOk(s, x); }
      forall k ensures OpOk(s', k) { assert OpOk(s, k); }
      forall i ensures FrameOk(s', i) { assert FrameOk(s, i); }
      forall id ensures IdOk(s', id) { assert IdOk(s, id); }
    }
  }

  lemma CancelIoKeeps(s: State, fd: Fd)
    requires Inv(s) && fd in s.conns
    ensures Inv(AfterCancelIo(s, fd))
  {
    CancelFlightKeeps(s, fd, P.Read);
    CancelFlightKeeps(AfterCancelFlight(s, fd, P.Read), fd, P.Write);
  }

  lemma MarkedKeeps(s: State, fd: Fd)
    requires Inv(s) && fd in s.conns && s.conns[fd].stage != Disconnected
    ensures Inv(Marked(s, fd))
  {
    var s' := Marked(s, fd);
    assert ConnOk(s, fd);
    forall x ensures ConnOk(s', x) { assert ConnOk(s, x); }
    forall k ensures OpOk(s', k) { assert OpOk(s, k); }
    forall i ensures FrameOk(s', i) { assert FrameOk(s, i); }
    forall id ensures IdOk(s', id) { assert IdOk(s, id); }
  }

  lemma DoClosingKeeps(s: State, fd: Fd)
    requires Inv(s) && fd in s.conns
    ensures Inv(AfterDoClosing(s, fd))
  {
    if s.conns[fd].stage != Disconnected {
      MarkedKeeps(s, fd);
      CancelIoKeeps(Marked(s, fd), fd);
    }
  }

  lemma InsertKeeps(s: State, fd: Fd)
    requires Inv(s) && fd !in s.conns
    ensures Inv(AfterInsert(s, fd))
  {
    var s' := AfterInsert(s, fd);
    P.AddEventerKeeps(s.poller, P.OfConnection(s.nextId), 0, true);
    assert IdOk(s, s.nextId);
    forall x ensures ConnOk(s', x) { assert ConnOk(s, x); }
    forall k ensures OpOk(s', k) { assert OpOk(s, k); }
    forall i ensures FrameOk(s', i) { assert FrameOk(s, i); }
    forall id ensures IdOk(s', id) { assert IdOk(s, id); }
  }

  lemma EstablishKeeps(s: State, fd: Fd)
    requires Inv(s) && fd in s.conns
    ensures Inv(AfterEstablish(s, fd))
  {
    var s' := AfterEstablish(s, fd);
    if s.conns[fd].stage == Connecting {
      assert ConnOk(s, fd);
      forall x ensures ConnOk(s', x) { assert ConnOk(s, x); }
      forall k ensures OpOk(s', k) { assert OpOk(s, k); }
      forall i ensures FrameOk(s', i) { assert FrameOk(s, i); }
      forall id ensures IdOk(s', id) { assert IdOk(s, id); }
    }
  }

  lemma ShutDownWriteKeeps(s: State, fd: Fd)
    requires Inv(s) && fd in s.conns
    ensures Inv(AfterShutDownWrite(s, fd))
  {
    var s' := AfterShutDownWrite(s, fd);
    assert ConnOk(s, fd);
    forall x ensures ConnOk(s', x) { assert ConnOk(s, x); }
    forall k ensures OpOk(s', k) { assert OpOk(s, k); }
    forall i ensures FrameOk(s', i) { assert FrameOk(s, i); }
    forall id ensures IdOk(s', id) { assert IdOk(s, id); }
  }

  lemma DeleteConnectionKeeps(s: State, fd: Fd)
    requires Inv(s)
    ensures Inv(AfterDeleteConnection(s, fd))
  {
    var s' := AfterDeleteConnection(s, fd);
    forall x ensures ConnOk(s', x) { assert ConnOk(s, x); }
    forall k ensures OpOk(s', k) { assert OpOk(s, k); }
    forall i ensures FrameOk(s', i) { assert FrameOk(s, i); }
    forall id ensures IdOk(s', id) { assert IdOk(s, id); }
  }

  lemma AcceptOnceKeeps(s: State, slot: bool)
    requires Inv(s)
    ensures Inv(AfterAcceptOnce(s, slot))
  {
    P.SubmitOnceKeeps(s.poller, P.Accept, None, 0, slot);
    assert P.KeyOk(s.poller, s.poller.nextKey);
    PollerMoves(s, P.AfterSubmitOnce(s.poller, P.Accept, None, 0, slot));
  }

  lemma SetInterestKeeps(s: State, n: nat, mask: nat, slot: bool)
    requires Inv(s)
    ensures Inv(Step(s, SetInterest(n, mask, slot)))
  {
    P.ModifyEventerKeeps(s.poller, P.Other(n), mask, slot);
    assert P.KeyOk(s.poller, s.poller.nextKey);
    PollerMoves(s, P.AfterModifyEventer(s.poller, P.Other(n), mask, slot));
  }

  // ---------------------------------------------------------------------------
  // Callbacks return
  // ---------------------------------------------------------------------------

  lemma ConnectionCallbackKeeps(s: State, fd: Fd, id: Id)
    requires Inv(s) && s.stack != [] && s.stack[|s.stack| - 1] == InConnectionCallback(fd, id) && fd in s.conns
    ensures Inv(AfterConnectionCallback(s, fd, id))
  {
    var s', top := AfterConnectionCallback(s, fd, id), |s.stack| - 1;
    assert FrameOk(s, top) && ConnOk(s, fd);
    forall x ensures ConnOk(s', x) { assert ConnOk(s, x); }
    forall k ensures OpOk(s', k) { assert OpOk(s, k); }
    forall i ensures FrameOk(s', i) { assert FrameOk(s, i); }
    forall j ensures IdOk(s', j) { assert IdOk(s, j); }
  }

  lemma CloseCallbackKeeps(s: State, fd: Fd)
    requires Inv(s) && s.stack != [] && s.stack[|s.stack| - 1].InCloseCallback? && s.stack[|s.stack| - 1].fd == fd
    requires fd in s.conns
    ensures Inv(AfterCloseCallback(s, fd))
  {
    var s', top := AfterCloseCallback(s, fd), |s.stack| - 1;
    assert FrameOk(s, top) && ConnOk(s, fd);
    forall x ensures ConnOk(s', x) { assert ConnOk(s, x); }
    forall k ensures OpOk(s', k) { assert OpOk(s, k); }
    forall i ensures FrameOk(s', i) { assert FrameOk(s, i); }
    forall j ensures IdOk(s', j) { assert IdOk(s, j); }
  }

  lemma PopKeeps(s: State)
    requires Inv(s) && s.stack != [] && s.stack[|s.stack| - 1].Establishing?
    ensures Inv(Pop(s))
  {
    var s' := Pop(s);
    forall x ensures ConnOk(s', x) { assert ConnOk(s, x); }
    forall k ensures OpOk(s', k) { assert OpOk(s, k); }
    forall i ensures FrameOk(s', i) { assert FrameOk(s, i); }
    forall id ensures IdOk(s', id) { assert IdOk(s, id); }
  }

  /** The completion callback ends: its operation is settled and its frame goes. */
  lemma FinishKeeps(s: State)
    requires Inv(s) && s.stack != [] && s.stack[|s.stack| - 1].Io()
    ensures Inv(Finished(Pop(s)))
  {
    var s' := Finished(Pop(s));
    P.FinishKeeps(s.poller);
    assert FrameOk(s, |s.stack| - 1);
    forall x ensures ConnOk(s', x) { assert ConnOk(s, x); }
    forall k ensures OpOk(s', k) { assert OpOk(s, k); }
    forall id ensures IdOk(s', id) { assert IdOk(s, id); }
  }

  lemma MessageCallbackKeeps(s: State, fd: Fd, resubmit: bool, slot: bool)
    requires Inv(s) && s.stack != [] && s.stack[|s.stack| - 1].Io() && fd in s.conns
    ensures Inv(AfterMessageCallback(s, fd, resubmit, slot))
  {
    if resubmit { SubmitIoKeeps(s, fd, P.Read, slot); }
    FinishKeeps(if resubmit then AfterSubmitIo(s, fd, P.Read, slot) else s);
  }

  lemma AcceptingKeeps(s: State, slot: bool, listening: bool)
    requires Inv(s) && s.stack != [] && s.stack[|s.stack| - 1].Io()
    ensures Inv(AfterAccepting(s, slot, listening))
  {
    FinishKeeps(s);
    AcceptOnceKeeps(Finished(Pop(s)), slot);
  }

  lemma EstablishingKeeps(s: State, fd: Fd, slot: bool)
    requires Inv(s) && s.stack != [] && s.stack[|s.stack| - 1].Establishing? && fd in s.conns
    ensures Inv(AfterSubmitIo(Pop(s), fd, P.Read, slot))
  {
    PopKeeps(s);
    SubmitIoKeeps(Pop(s), fd, P.Read, slot);
  }

  lemma ClosingReturnKeeps(s: State, slot: bool, listening: bool)
    requires Inv(s) && s.stack != []
    requires var top := s.stack[|s.stack| - 1]; top.InConnectionCallback? || top.InCloseCallback?
    ensures Inv(AfterReturn(s, slot, listening))
  {
    var top := s.stack[|s.stack| - 1];
    assert FrameOk(s, |s.stack| - 1);
    ClosingReturns(s, top, slot, listening);
    if top.InConnectionCallback? { ConnectionCallbackKeeps(s, top.fd, top.id); }
    else { CloseCallbackKeeps(s, top.fd); }
  }

  lemma ClosingReturns(s: State, top: Frame, slot: bool, listening: bool)
    requires s.stack != [] && s.stack[|s.stack| - 1] == top && (top.InConnectionCallback? || top.InCloseCallback?)
    requires top.fd in s.conns
    ensures AfterReturn(s, slot, listening) ==
            if top.InConnectionCallback? then AfterConnectionCallback(s, top.fd, top.id)
            else AfterCloseCallback(s, top.fd)
  {
  }

  lemma IoReturnKeeps(s: State, slot: bool, listening: bool)
    requires Inv(s) && s.stack != [] && s.stack[|s.stack| - 1].Io()
    ensures Inv(AfterReturn(s, slot, listening))
  {
    var top := s.stack[|s.stack| - 1];
    assert FrameOk(s, |s.stack| - 1);
    if top.Reading? { MessageCallbackKeeps(s, top.fd, top.resubmit, slot); }
    else if top.Writing? { FinishKeeps(s); }
    else { AcceptingKeeps(s, slot, listening); }
  }

  lemma EstablishingReturnKeeps(s: State, slot: bool, listening: bool)
    requires Inv(s) && s.stack != [] && s.stack[|s.stack| - 1].Establishing?
    ensures Inv(AfterReturn(s, slot, listening))
  {
    assert FrameOk(s, |s.stack| - 1);
    var fd := s.stack[|s.stack| - 1].fd;
    EstablishingKeeps(s, fd, slot);
    EstablishingReturns(s, fd, slot, listening);
  }

  lemma EstablishingReturns(s: State, fd: Fd, slot: bool, listening: bool)
    requires s.stack != [] && s.stack[|s.stack| - 1].Establishing? && s.stack[|s.stack| - 1].fd == fd && fd in s.conns
    ensures AfterReturn(s, slot, listening) == AfterSubmitIo(Pop(s), fd, P.Read, slot)
  {
  }

  lemma ReturnKeeps(s: State, slot: bool, listening: bool)
    requires Inv(s)
    ensures Inv(AfterReturn(s, slot, listening))
  {
    if s.stack != [] {
      var top := s.stack[|s.stack| - 1];
      if top.Io() { IoReturnKeeps(s, slot, listening); }
      else if top.Establishing? { EstablishingReturnKeeps(s, slot, listening); }
      else { ClosingReturnKeeps(s, slot, listening); }
    }
  }

  // ---------------------------------------------------------------------------
  // Completions
  // ---------------------------------------------------------------------------

  /** An uncancelled read or write in the table; its completion would call back. */
  predicate WillCallBack(s: State, k: Key) {
    k in s.poller.ops && s.poller.ops[k].completion && s.poller.ops[k].kind != P.Accept
  }

  /** The eventer of an operation that would call back is registered. */
  lemma CompletionIsNotDropped(s: State, k: Key)
    requires Inv(s)
    ensures WillCallBack(s, k) ==> !P.Orphaned(s.poller, s.poller.ops[k])
  {
    assert OpOk(s, k);
    if WillCallBack(s, k) {
      assert ConnOk(s, s.fdOf[s.poller.ops[k].context.value]);
    }
  }

  /** A completion of an operation without a callback: cancelled, a poll, or unknown. */
  lemma SilentCqeKeeps(s: State, k: Key, more: bool, slot: bool)
    requires Inv(s) && s.stack == [] && P.Legal(s.poller, P.Cqe(k, more, slot))
    requires P.AfterCqe(s.poller, k, more, slot).held.Nothing?
    ensures Inv(s.(poller := P.AfterCqe(s.poller, k, more, slot)))
  {
    P.CqeKeeps(s.poller, k, more, slot);
    assert P.KeyOk(s.poller, k) && P.KeyOk(s.poller, s.poller.nextKey);
    CompletionIsNotDropped(s, k);
    PollerMoves(s, P.AfterCqe(s.poller, k, more, slot));
  }

  /** An accept completes. */
  lemma AcceptCqeKeeps(s: State, k: Key, more: bool, slot: bool)
    requires Inv(s) && s.stack == [] && P.Legal(s.poller, P.Cqe(k, more, slot))
    requires var h := P.AfterCqe(s.poller, k, more, slot).held; h.Held? && h.op.kind == P.Accept
    ensures Inv(s.(poller := P.AfterCqe(s.poller, k, more, slot), stack := [Accepting]))
  {
    P.CqeKeeps(s.poller, k, more, slot);
    var s' := s.(poller := P.AfterCqe(s.poller, k, more, slot), stack := [Accepting]);
    forall x ensures ConnOk(s', x) { assert ConnOk(s, x); }
    forall j ensures OpOk(s', j) { assert OpOk(s, j); }
    forall i ensures FrameOk(s', i) { assert FrameOk(s, i); }
    forall id ensures IdOk(s', id) { assert IdOk(s, id); }
  }

  /** The operation `k` of a live connection has left the table; `p` is the poller afterwards. */
  ghost predicate Landing(s: State, p: P.State, k: Key, f: Frame) {
    && Inv(s) && s.stack == [] && (f.Reading? || f.Writing?)
    && k in s.poller.ops && s.poller.ops[k].completion
    && s.poller.ops[k].kind in {P.Read, P.Write} && s.poller.ops[k].context == Some(f.id)
    && f.id in s.fdOf && f.fd == s.fdOf[f.id]
    && p.ops == s.poller.ops - {k} && p.states == s.poller.states
  }

  lemma LandConns(s: State, p: P.State, k: Key, f: Frame, x: Fd)
    requires Landing(s, p, k, f)
    ensures f.fd in s.conns && ConnOk(Landed(s.(poller := p), f.fd, s.poller.ops[k].kind).(stack := [f]), x)
  {
    assert OpOk(s, k) && ConnOk(s, f.fd) && ConnOk(s, x);
  }

  lemma LandOps(s: State, p: P.State, k: Key, f: Frame, j: Key)
    requires Landing(s, p, k, f)
    ensures f.fd in s.conns && OpOk(Landed(s.(poller := p), f.fd, s.poller.ops[k].kind).(stack := [f]), j)
  {
    assert OpOk(s, k) && ConnOk(s, f.fd) && OpOk(s, j);
  }

  /** A read or write completes: its connection is alive, and with its frame pushed all is well. */
  lemma LandKeeps(s: State, k: Key, more: bool, slot: bool, f: Frame)
    requires Inv(s) && s.stack == [] && P.Legal(s.poller, P.Cqe(k, more, slot))
    requires var h := P.AfterCqe(s.poller, k, more, slot).held;
             && h.Held? && h.op.kind != P.Accept
             && (f.Reading? || f.Writing?) && h.op.context == Some(f.id)
    requires f.id in s.fdOf ==> f.fd == s.fdOf[f.id]
    ensures s.Alive(f.id)
    ensures var p := P.AfterCqe(s.poller, k, more, slot);
            && (p.held.op.kind == P.Read || p.held.op.kind == P.Write)
            && Inv(Landed(s.(poller := p), f.fd, p.held.op.kind).(stack := [f]))
  {
    P.CqeKeeps(s.poller, k, more, slot);
    assert OpOk(s, k) && P.KeyOk(s.poller, k);
    var p := P.AfterCqe(s.poller, k, more, slot);
    var s' := Landed(s.(poller := p), f.fd, p.held.op.kind).(stack := [f]);
    assert ConnOk(s, f.fd);
    assert p.ops == s.poller.ops - {k} && p.states == s.poller.states;
    forall x ensures ConnOk(s', x) { LandConns(s, p, k, f, x); }
    forall j ensures OpOk(s', j) { LandOps(s, p, k, f, j); }
    forall i ensures FrameOk(s', i) { assert FrameOk(s, i); }
    forall id ensures IdOk(s', id) { assert IdOk(s, id); }
  }

  /** Submitting and finishing does not need the frame. */
  lemma FinishWithoutFrame(s: State, f: Frame, fd: Fd, kind: P.Kind, submit: bool, slot: bool)
    requires s.stack == [] && f.Io() && Inv(s.(stack := [f])) && fd in s.conns && (kind == P.Read || kind == P.Write)
    ensures Inv(Finished(if submit then AfterSubmitIo(s, fd, kind, slot) else s))
  {
    var t := s.(stack := [f]);
    var u := if submit then AfterSubmitIo(t, fd, kind, slot) else t;
    if submit { SubmitIoKeeps(t, fd, kind, slot); }
    FinishKeeps(u);
    assert Pop(u) == (if submit then AfterSubmitIo(s, fd, kind, slot) else s);
  }

  /** OnReadComplete, from the state with its frame pushed. */
  lemma ReadKeeps(s: State, fd: Fd, id: Id, res: Result, slot: bool)
    requires s.stack == [] && fd in s.conns
    requires forall again :: Inv(s.(stack := [Reading(fd, id, again)]))
    ensures Inv(AfterRead(s, fd, id, res, slot))
  {
    match res
    case Moved(_) => assert s.stack + [Reading(fd, id, true)] == [Reading(fd, id, true)];
    case Ended =>
      assert s.stack + [Reading(fd, id, false)] == [Reading(fd, id, false)];
      DoClosingKeeps(s.(stack := [Reading(fd, id, false)]), fd);
    case Again => FinishWithoutFrame(s, Reading(fd, id, true), fd, P.Read, true, slot);
    case Failed => FinishWithoutFrame(s, Reading(fd, id, true), fd, P.Read, false, slot);
  }

  /** OnWriteComplete, from the state with its frame pushed. */
  lemma WriteKeeps(s: State, fd: Fd, id: Id, res: Result, slot: bool)
    requires s.stack == [] && fd in s.conns
    requires Inv(s.(stack := [Writing(fd, id)]))
    ensures Inv(AfterWrite(s, fd, id, res, slot))
  {
    if res == Moved(false) { assert s.stack + [Writing(fd, id)] == [Writing(fd, id)]; }
    else { FinishWithoutFrame(s, Writing(fd, id), fd, P.Write, res.Moved? || res.Again?, slot); }
  }

  lemma ReadCqeKeeps(s: State, k: Key, more: bool, res: Result, slot: bool, fd: Fd, id: Id)
    requires Inv(s) && s.stack == [] && P.Legal(s.poller, P.Cqe(k, more, slot))
    requires var h := P.AfterCqe(s.poller, k, more, slot).held;
             h.Held? && h.op.kind == P.Read && h.op.context == Some(id)
    requires id in s.fdOf ==> fd == s.fdOf[id]
    ensures s.Alive(id)
    ensures Inv(AfterRead(Landed(s.(poller := P.AfterCqe(s.poller, k, more, slot)), fd, P.Read), fd, id, res, slot))
  {
    LandKeeps(s, k, more, slot, Reading(fd, id, true));
    var q := Landed(s.(poller := P.AfterCqe(s.poller, k, more, slot)), fd, P.Read);
    forall again ensures Inv(q.(stack := [Reading(fd, id, again)])) {
      LandKeeps(s, k, more, slot, Reading(fd, id, again));
    }
    ReadKeeps(q, fd, id, res, slot);
  }

  lemma WriteCqeKeeps(s: State, k: Key, more: bool, res: Result, slot: bool, fd: Fd, id: Id)
    requires Inv(s) && s.stack == [] && P.Legal(s.poller, P.Cqe(k, more, slot))
    requires var h := P.AfterCqe(s.poller, k, more, slot).held;
             h.Held? && h.op.kind != P.Read && h.op.kind != P.Accept && h.op.context == Some(id)
    requires id in s.fdOf ==> fd == s.fdOf[id]
    ensures s.Alive(id)
    ensures var p := P.AfterCqe(s.poller, k, more, slot);
            Inv(AfterWrite(Landed(s.(poller := p), fd, p.held.op.kind), fd, id, res, slot))
  {
    LandKeeps(s, k, more, slot, Writing(fd, id));
    var p := P.AfterCqe(s.poller, k, more, slot);
    WriteKeeps(Landed(s.(poller := p), fd, p.held.op.kind), fd, id, res, slot);
  }

  lemma AcceptDispatch(t: State, res: Result, slot: bool)
    requires t.stack == [] && t.poller.held.Held? && t.poller.held.op.kind == P.Accept
    ensures AfterDispatch(t, res, slot) == t.(stack := [Accepting])
  {
    assert t.stack + [Accepting] == [Accepting];
  }

  lemma ReadDispatch(t: State, res: Result, slot: bool, fd: Fd, id: Id)
    requires t.poller.held.Held? && t.poller.held.op.kind == P.Read && t.poller.held.op.context == Some(id)
    requires t.Alive(id) && fd == t.fdOf[id]
    ensures AfterDispatch(t, res, slot) == AfterRead(Landed(t, fd, P.Read), fd, id, res, slot)
  {
  }

  lemma WriteDispatch(t: State, res: Result, slot: bool, fd: Fd, id: Id)
    requires t.poller.held.Held? && t.poller.held.op.kind != P.Accept && t.poller.held.op.kind != P.Read
    requires t.poller.held.op.context == Some(id) && t.Alive(id) && fd == t.fdOf[id]
    ensures AfterDispatch(t, res, slot) == AfterWrite(Landed(t, fd, t.poller.held.op.kind), fd, id, res, slot)
  {
  }

  lemma IoCqeKeeps(s: State, k: Key, more: bool, res: Result, slot: bool)
    requires Inv(s) && s.stack == [] && P.Legal(s.poller, P.Cqe(k, more, slot))
    requires var h := P.AfterCqe(s.poller, k, more, slot).held; h.Held? && h.op.kind != P.Accept
    ensures Inv(AfterCqe(s, k, more, res, slot))
  {
    P.CqeKeeps(s.poller, k, more, slot);
    var p := P.AfterCqe(s.poller, k, more, slot);
    var id := p.held.op.context.value;
    var fd := if id in s.fdOf then s.fdOf[id] else 0;
    if p.held.op.kind == P.Read {
      ReadCqeKeeps(s, k, more, res, slot, fd, id);
      ReadDispatch(s.(poller := p), res, slot, fd, id);
    } else {
      WriteCqeKeeps(s, k, more, res, slot, fd, id);
      WriteDispatch(s.(poller := p), res, slot, fd, id);
    }
  }

  lemma CqeKeeps(s: State, k: Key, more: bool, res: Result, slot: bool)
    requires Inv(s) && s.stack == [] && P.Legal(s.poller, P.Cqe(k, more, slot))
    ensures Inv(AfterCqe(s, k, more, res, slot))
  {
    var p := P.AfterCqe(s.poller, k, more, slot);
    if p.held.Nothing? { SilentCqeKeeps(s, k, more, slot); }
    else if p.held.op.kind == P.Accept {
      AcceptCqeKeeps(s, k, more, slot);
      AcceptDispatch(s.(poller := p), res, slot);
    } else {
      IoCqeKeeps(s, k, more, res, slot);
    }
  }

  // ---------------------------------------------------------------------------
  // The sweep
  // ---------------------------------------------------------------------------

  lemma DestroyedKeeps(s: State, fd: Fd)
    requires Inv(s) && s.stack == [] && fd in s.conns && s.conns[fd].stage == Disconnected
    ensures Inv(Destroyed(s.(closed := s.closed - {fd}), fd))
  {
    CancelIoKeeps(s, fd);
    var q, id := AfterCancelIo(s, fd), s.conns[fd].id;
    P.RemoveEventerKeeps(q.poller, P.OfConnection(id), true);
    assert ConnOk(q, fd) && ConnOk(s, fd);
    var s' := Destroyed(s.(closed := s.closed - {fd}), fd);
    assert s' == q.(poller := P.AfterRemoveEventer(q.poller, P.OfConnection(id), true), conns := q.conns - {fd},
                    destroyed := q.destroyed + multiset{id}, closed := q.closed - {fd});
    RemovedKeeps(q, fd);
  }

  /** A disconnected connection with nothing in flight leaves the map. */
  lemma RemovedKeeps(q: State, fd: Fd)
    requires Inv(q) && q.stack == [] && fd in q.conns && q.conns[fd].stage == Disconnected
    requires !q.conns[fd].read.busy && !q.conns[fd].write.busy
    ensures var id := q.conns[fd].id;
            Inv(q.(poller := P.AfterRemoveEventer(q.poller, P.OfConnection(id), true), conns := q.conns - {fd},
                   destroyed := q.destroyed + multiset{id}, closed := q.closed - {fd}))
  {
    var id := q.conns[fd].id;
    P.RemoveEventerKeeps(q.poller, P.OfConnection(id), true);
    var s' := q.(poller := P.AfterRemoveEventer(q.poller, P.OfConnection(id), true), conns := q.conns - {fd},
                 destroyed := q.destroyed + multiset{id}, closed := q.closed - {fd});
    assert ConnOk(q, fd);
    forall x ensures ConnOk(s', x) { assert ConnOk(q, x); }
    forall k ensures OpOk(s', k) { assert OpOk(q, k); }
    forall i ensures FrameOk(s', i) { assert FrameOk(q, i); }
    forall j ensures IdOk(s', j) { assert IdOk(q, j); }
  }

  lemma SweepOneKeeps(s: State, fd: Fd)
    requires Inv(s) && s.stack == []
    ensures Inv(SweepOne(s, fd)) && SweepOne(s, fd).stack == []
  {
    if fd in s.conns && s.conns[fd].stage == Disconnected && !Waits(s.conns[fd]) {
      DestroyedKeeps(s, fd);
    } else {
      var s' := SweepOne(s, fd);
      forall x ensures ConnOk(s', x) { assert ConnOk(s, x); }
      forall k ensures OpOk(s', k) { assert OpOk(s, k); }
      forall i ensures FrameOk(s', i) { assert FrameOk(s, i); }
      forall id ensures IdOk(s', id) { assert IdOk(s, id); }
    }
  }

  lemma {:induction false} SweepKeeps(s: State, order: seq<Fd>)
    requires Inv(s) && s.stack == []
    ensures Inv(Sweep(s, order)) && Sweep(s, order).stack == []
    decreases |order|
  {
    if order != [] {
      SweepOneKeeps(s, order[0]);
      SweepKeeps(SweepOne(s, order[0]), order[1..]);
    }
  }

  // ---------------------------------------------------------------------------
  // Every run
  // ---------------------------------------------------------------------------

  predicate OnConnection(ev: Event) {
    || ev.OnEstablishing? || ev.StartReading? || ev.StartWriting? || ev.StopReadingWriting?
    || ev.ShutDownWrite? || ev.Close?
  }

  lemma ConnectionCallKeeps(s: State, ev: Event)
    requires Inv(s) && OnConnection(ev) && Legal(s, ev)
    ensures Inv(Step(s, ev))
  {
    match ev
    case OnEstablishing(fd) => EstablishKeeps(s, fd);
    case StartReading(fd, slot) => SubmitIoKeeps(s, fd, P.Read, slot);
    case StartWriting(fd, _, slot) => SubmitIoKeeps(s, fd, P.Write, slot);
    case StopReadingWriting(fd) => CancelIoKeeps(s, fd);
    case ShutDownWrite(fd) => ShutDownWriteKeeps(s, fd);
    case Close(fd) => DoClosingKeeps(s, fd);
  }

  lemma OtherCallKeeps(s: State, ev: Event)
    requires Inv(s) && Legal(s, ev)
    requires ev.InsertNewConnection? || ev.DeleteConnection? || ev.SubmitAccept? || ev.SetInterest?
    ensures Inv(Step(s, ev))
  {
    match ev
    case InsertNewConnection(fd) => InsertKeeps(s, fd);
    case DeleteConnection(fd) => DeleteConnectionKeeps(s, fd);
    case SubmitAccept(slot) => AcceptOnceKeeps(s, slot);
    case SetInterest(n, mask, slot) => SetInterestKeeps(s, n, mask, slot);
  }

  lemma StepKeeps(s: State, ev: Event)
    requires Inv(s)
    ensures Inv(Step(s, ev))
  {
    if Legal(s, ev) {
      match ev
      case Return(slot, listening) => ReturnKeeps(s, slot, listening);
      case Completion(k, more, res, slot) => CqeKeeps(s, k, more, res, slot);
      case DestroyClosed(order) => SweepKeeps(s, order);
      case _ => if OnConnection(ev) { ConnectionCallKeeps(s, ev); } else { OtherCallKeeps(s, ev); }
    }
  }

  lemma {:induction false} RunKeeps(s: State, evs: seq<Event>)
    requires Inv(s)
    ensures Inv(Run(s, evs))
    decreases |evs|
  {
    if evs != [] {
      StepKeeps(s, evs[0]);
      RunKeeps(Step(s, evs[0]), evs[1..]);
    }
  }
}
