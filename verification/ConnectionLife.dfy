/**
 What holds of connections over every run of the event loop: callbacks reach only
 live connections, each connection is closed once and destroyed once, and within a
 bounded number of sweeps.
 */
module ConnectionLife {
  import P = Pollers
  import opened Shared
  import opened EventLoops

  // ---------------------------------------------------------------------------
  // Main results
  // ---------------------------------------------------------------------------

  /**
   In every run no completion callback runs against a destroyed connection, and
   every user callback in progress belongs to a connection that still exists.
   */
  lemma NoCallbackOnDestroyedConnection(evs: seq<Event>)
    ensures var s := Run(Start(), evs);
            && !s.dangling
            && forall i :: 0 <= i < |s.stack| && !s.stack[i].Accepting? ==> s.Alive(s.stack[i].id)
  {
    RunKeeps(Start(), evs);
    var s := Run(Start(), evs);
    forall i | 0 <= i < |s.stack| && !s.stack[i].Accepting? ensures s.Alive(s.stack[i].id) {
      assert FrameOk(s, i) && ConnOk(s, s.stack[i].fd);
    }
  }

  /**
   In every run an uncancelled read or write belongs to a live connection, which
   remembers its key; so a connection has at most one of each.
   */
  lemma AtMostOneOfEach(evs: seq<Event>, k: Key, j: Key)
    requires var s := Run(Start(), evs); WillCallBack(s, k) && WillCallBack(s, j)
    ensures var s := Run(Start(), evs);
            var op := s.poller.ops[k];
            && op.context.Some? && s.Alive(op.context.value)
            && FlightOf(s.Of(op.context.value), op.kind) == Flight(true, k)
            && (op.kind == s.poller.ops[j].kind && op.context == s.poller.ops[j].context ==> k == j)
  {
    RunKeeps(Start(), evs);
    assert OpOk(Run(Start(), evs), k) && OpOk(Run(Start(), evs), j);
  }

  /**
   Destroying a connection leaves no operation that would call it back, with or
   without submission entries, and takes its eventer out of the poller.
   */
  lemma DestructionCancelsBoth(s: State, fd: Fd, k: Key)
    requires Inv(s) && s.stack == [] && fd in s.conns && s.conns[fd].stage == Disconnected
    ensures var s' := Destroyed(s.(closed := s.closed - {fd}), fd);
            && (WillCallBack(s', k) ==> s'.poller.ops[k].context != Some(s.conns[fd].id))
            && P.OfConnection(s.conns[fd].id) !in s'.poller.states && fd !in s'.conns
  {
    DestroyedKeeps(s, fd);
    var s' := Destroyed(s.(closed := s.closed - {fd}), fd);
    assert OpOk(s', k) && ConnOk(s, fd);
    assert !s'.Alive(s.conns[fd].id);
  }

  /**
   A connection replaced under its descriptor, which takes a kernel that hands out
   an open descriptor, is not called back by any operation either; but it is
   destroyed without its close callback unless closing had got that far.
   */
  lemma ReplacedIsSilent(s: State, fd: Fd, k: Key)
    requires Inv(s) && fd in s.conns
    ensures var id, s' := s.conns[fd].id, AfterReplace(s, fd);
            && (WillCallBack(s', k) ==> s'.poller.ops[k].context != Some(id))
            && !s'.Alive(id) && s'.destroyed[id] == 1
            && (s'.closes[id] == 1 <==> 2 <= s.conns[fd].closing)
  {
    var q := AfterCancelIo(s, fd);
    CancelIoKeeps(s, fd);
    CancelIoFrame(s, fd);
    assert OpOk(q, k) && ConnOk(q, fd) && ConnOk(s, fd) && IdOk(s, s.conns[fd].id);
  }

  /** As over every run of the poller, each context is deleted once and not before its last completion. */
  lemma LoopContextsAreDeletedOnce(evs: seq<Event>, k: Key)
    ensures var p := Run(Start(), evs).poller;
            && p.freed[k] == (if k in p.made && !p.Owned(k) then 1 else 0)
            && (k in p.asked ==> p.freed[k] == 0)
            && (p.held.Nothing? ==> P.AfterTeardown(p).freed[k] == if k in p.made then 1 else 0)
  {
    RunKeeps(Start(), evs);
    assert P.KeyOk(Run(Start(), evs).poller, k);
  }

  /** Over every run the close callbacks of a connection run at most once, and exactly once if it has been destroyed. */
  lemma ClosedOnceDestroyedOnce(evs: seq<Event>, id: Id)
    ensures var s := Run(Start(), evs);
            && s.begun[id] <= 1 && s.closes[id] <= 1 && s.destroyed[id] <= 1
            && (s.destroyed[id] == 1 ==> s.begun[id] == 1 && s.closes[id] == 1)
            && (s.destroyed[id] == 1 <==> id < s.nextId && !s.Alive(id))
            && (s.Alive(id) ==> (s.begun[id] == 1 <==> s.Of(id).stage == Disconnected))
  {
    RunKeeps(Start(), evs);
    var s := Run(Start(), evs);
    assert IdOk(s, id);
    if s.Alive(id) { assert ConnOk(s, s.fdOf[id]); }
  }

  /** Whenever no callback is running, every disconnected connection in the map is queued for destruction. */
  lemma DisconnectedIsQueued(evs: seq<Event>, fd: Fd)
    requires var s := Run(Start(), evs); s.stack == [] && fd in s.conns && s.conns[fd].stage == Disconnected
    ensures fd in Run(Start(), evs).closed
  {
    RunKeeps(Start(), evs);
    assert ConnOk(Run(Start(), evs), fd);
  }

  /** What OnEstablishing and OnReadComplete do after their user callback, whatever the callback has done. */
  predicate ReadsOn(top: Frame) { top.Establishing? || (top.Reading? && top.resubmit) }

  /**
   After a user callback a read is in flight if and only if one was before, or the
   callback was that of OnEstablishing or a message callback and a submission entry
   is free.  Whether the callback has closed the connection plays no part.
   */
  lemma ReadsOnIff(s: State, slot: bool, listening: bool)
    requires Inv(s) && s.stack != [] && !s.stack[|s.stack| - 1].Accepting?
    ensures var top, s' := s.stack[|s.stack| - 1], AfterReturn(s, slot, listening);
            && top.fd in s.conns && top.fd in s'.conns
            && (s'.conns[top.fd].read.busy <==> s.conns[top.fd].read.busy || (slot && ReadsOn(top)))
  {
    TopIsOk(s);
    ReturnReads(s, slot, listening);
  }

  lemma ReturnReads(s: State, slot: bool, listening: bool)
    requires TopOk(s) && s.stack != [] && !s.stack[|s.stack| - 1].Accepting?
    ensures var top, s' := s.stack[|s.stack| - 1], AfterReturn(s, slot, listening);
            && top.fd in s'.conns
            && (s'.conns[top.fd].read.busy <==> s.conns[top.fd].read.busy || (slot && ReadsOn(top)))
  {
    match s.stack[|s.stack| - 1]
    case InConnectionCallback(_, _) =>
    case InCloseCallback(_, _) =>
    case Establishing(fd, _) => SubmitReads(Pop(s), fd, slot);
    case Reading(fd, _, _) => SubmitReads(s, fd, slot);
    case Writing(_, _) =>
  }

  lemma SubmitReads(s: State, fd: Fd, slot: bool)
    requires fd in s.conns
    ensures var s' := AfterSubmitIo(s, fd, P.Read, slot);
            fd in s'.conns && (s'.conns[fd].read.busy <==> s.conns[fd].read.busy || slot)
  {
  }

  lemma OneMore(s: State, ev: Event, rest: seq<Event>)
    ensures Run(s, [ev] + rest) == Run(Step(s, ev), rest)
  {
    assert ([ev] + rest)[1..] == rest;
  }

  const BACK: Event := Return(true, false)

  /** Only the flights of the connection, and the table, change when it is cancelled. */
  lemma CancelIoFrame(s: State, fd: Fd)
    requires fd in s.conns
    ensures var s' := AfterCancelIo(s, fd);
            && fd in s'.conns && !s'.conns[fd].read.busy && !s'.conns[fd].write.busy
            && s'.conns[fd].id == s.conns[fd].id && s'.conns[fd].stage == s.conns[fd].stage
            && s'.stack == s.stack && s'.fdOf == s.fdOf && s'.closed == s.closed
  {
  }

  /** Close a connection whose callbacks do nothing. */
  lemma QuietClose(s: State, fd: Fd)
    requires fd in s.conns && s.conns[fd].stage != Disconnected
    ensures var s' := Run(s, [Close(fd), BACK, BACK]);
            && s'.stack == s.stack && s'.fdOf == s.fdOf && s'.closed == s.closed + {fd} && fd in s'.conns
            && s'.conns[fd].id == s.conns[fd].id && s'.conns[fd].stage == Disconnected
            && !s'.conns[fd].read.busy && !s'.conns[fd].write.busy
            && s'.poller == AfterCancelIo(Marked(s, fd), fd).poller
  {
    CloseStep(s, fd);
    CancelIoFrame(Marked(s, fd), fd);
    OneMore(s, Close(fd), [BACK, BACK]);
    QuietReturns(s, Step(s, Close(fd)), fd, s.conns[fd].id);
  }

  lemma CloseStep(s: State, fd: Fd)
    requires fd in s.conns && s.conns[fd].stage != Disconnected
    ensures Step(s, Close(fd)) == AfterCancelIo(Marked(s, fd), fd)
  {
  }

  lemma QuietReturns(s: State, s1: State, fd: Fd, id: Id)
    requires fd in s1.conns && s1.stack == s.stack + [InConnectionCallback(fd, id)]
    ensures var s' := Run(s1, [BACK, BACK]);
            && s'.stack == s.stack && s'.fdOf == s1.fdOf && s'.closed == s1.closed + {fd} && s'.poller == s1.poller
            && fd in s'.conns && s'.conns[fd] == s1.conns[fd].(closing := 3)
  {
    var rest := s.stack;
    FirstReturn(s1, rest, fd, id);
    var s2 := AfterConnectionCallback(s1, fd, id);
    SecondReturn(s2, rest, fd, id);
    OneMore(s1, BACK, [BACK]);
    OneMore(s2, BACK, []);
  }

  lemma FirstReturn(s: State, rest: seq<Frame>, fd: Fd, id: Id)
    requires fd in s.conns && s.stack == rest + [InConnectionCallback(fd, id)]
    ensures Step(s, BACK) == AfterConnectionCallback(s, fd, id)
    ensures AfterConnectionCallback(s, fd, id).stack == rest + [InCloseCallback(fd, id)]
  {
  }

  lemma SecondReturn(s: State, rest: seq<Frame>, fd: Fd, id: Id)
    requires fd in s.conns && s.stack == rest + [InCloseCallback(fd, id)]
    ensures Step(s, BACK) == AfterCloseCallback(s, fd) && AfterCloseCallback(s, fd).stack == rest
  {
  }

  /** The connection is closed, queued, and read from. */
  predicate ClosedButReading(s: State, fd: Fd) {
    && s.stack == [] && fd in s.closed && fd in s.conns
    && s.conns[fd].stage == Disconnected && s.conns[fd].read.busy
  }

  /** A callback that has closed its connection returns. */
  lemma ReadsOnAfterClose(s: State, top: Frame)
    requires Inv(s) && s.stack == [top] && ReadsOn(top) && top.fd in s.conns && s.conns[top.fd].stage == Disconnected
    ensures ClosedButReading(AfterReturn(s, true, false), top.fd)
  {
    assert FrameOk(s, 0) && ConnOk(s, top.fd);
    ReadsOnIff(s, true, false);
  }

  lemma CloseInCallback(evs: seq<Event>, top: Frame)
    requires var s := Run(Start(), evs);
             s.stack == [top] && ReadsOn(top) && top.fd in s.conns && s.conns[top.fd].stage != Disconnected
    ensures ClosedButReading(Run(Start(), evs + [Close(top.fd), BACK, BACK] + [BACK]), top.fd)
  {
    var s := Run(Start(), evs);
    QuietClose(s, top.fd);
    RunAppend(Start(), evs, [Close(top.fd), BACK, BACK]);
    RunAppend(Start(), evs + [Close(top.fd), BACK, BACK], [BACK]);
    RunKeeps(Start(), evs + [Close(top.fd), BACK, BACK]);
    var s' := Run(s, [Close(top.fd), BACK, BACK]);
    OneMore(s', BACK, []);
    ReadsOnAfterClose(s', top);
  }

  /** Closing in the connection callback of OnEstablishing leads there ... */
  lemma ReadsOnAfterCloseInEstablishing()
    ensures var evs := [InsertNewConnection(7), OnEstablishing(7)];
            ClosedButReading(Run(Start(), evs + [Close(7), BACK, BACK] + [BACK]), 7)
  {
    var s1 := Step(Start(), InsertNewConnection(7));
    OneMore(Start(), InsertNewConnection(7), [OnEstablishing(7)]);
    OneMore(s1, OnEstablishing(7), []);
    assert Step(s1, OnEstablishing(7)).stack == [Establishing(7, 0)];
    assert [InsertNewConnection(7)] + [OnEstablishing(7)] == [InsertNewConnection(7), OnEstablishing(7)];
    CloseInCallback([InsertNewConnection(7), OnEstablishing(7)], Establishing(7, 0));
  }

  /** A new connection with a read in flight. */
  lemma ReadStarted()
    ensures var s := Run(Start(), [InsertNewConnection(7), StartReading(7, true)]);
            && s.stack == [] && s.closed == {} && s.fdOf == map[0 := 7] && 7 in s.conns
            && s.conns[7] == Conn(0, Connecting, Flight(true, 1), Flight(false, 0), 0, 0, 0, 0)
            && s.poller.ops == map[1 := P.Op(P.Read, Some(P.OfConnection(0)), Some(0), true, 0)]
            && s.poller.asked == {1} && s.poller.held.Nothing?
            && P.OfConnection(0) in s.poller.states
  {
    var s1 := Step(Start(), InsertNewConnection(7));
    OneMore(Start(), InsertNewConnection(7), [StartReading(7, true)]);
    OneMore(s1, StartReading(7, true), []);
    assert [InsertNewConnection(7)] + [StartReading(7, true)] == [InsertNewConnection(7), StartReading(7, true)];
  }

  /** ... and so does closing in a message callback. */
  lemma ReadsOnAfterCloseInMessageCallback()
    ensures var evs := [InsertNewConnection(7), StartReading(7, true)] + [Completion(1, false, Moved(false), true)];
            ClosedButReading(Run(Start(), evs + [Close(7), BACK, BACK] + [BACK]), 7)
  {
    var first, done := [InsertNewConnection(7), StartReading(7, true)], Completion(1, false, Moved(false), true);
    var s := Run(Start(), first);
    ReadStarted();
    MessageArrives(s);
    RunAppend(Start(), first, [done]);
    OneMore(s, done, []);
    CloseInCallback(first + [done], Reading(7, 0, true));
  }

  lemma MessageArrives(s: State)
    requires s.stack == [] && s.fdOf == map[0 := 7] && 7 in s.conns && s.conns[7].id == 0
    requires s.conns[7].stage == Connecting && s.poller.held.Nothing?
    requires s.poller.ops == map[1 := P.Op(P.Read, Some(P.OfConnection(0)), Some(0), true, 0)]
    requires P.OfConnection(0) in s.poller.states
    ensures var s' := Step(s, Completion(1, false, Moved(false), true));
            s'.stack == [Reading(7, 0, true)] && 7 in s'.conns && s'.conns[7].stage == Connecting
  {
    var t := s.(poller := P.AfterCqe(s.poller, 1, false, true));
    assert t.poller.held == P.Held(1, s.poller.ops[1], false);
    ReadDispatch(t, Moved(false), true, 7, 0);
    assert t.stack + [Reading(7, 0, true)] == [Reading(7, 0, true)];
  }

  // ---------------------------------------------------------------------------
  // The memory of a connection and the kernel
  // ---------------------------------------------------------------------------

  /** The table has a read or write, cancelled or not, that was given the address of a buffer of this connection. */
  ghost predicate HasEntry(p: P.State, id: Id) {
    exists k :: k in p.ops && EntryOf(p.ops[k], id)
  }

  predicate EntryOf(op: P.Op, id: Id) { (op.kind == P.Read || op.kind == P.Write) && op.context == Some(id) }

  /** The kernel still owes the completion of such an operation. */
  ghost predicate KernelOwes(p: P.State, id: Id) {
    exists k :: k in p.asked && k in p.ops && EntryOf(p.ops[k], id)
  }

  lemma CancelFlightKeepsEntries(s: State, fd: Fd, kind: P.Kind, k: Key, id: Id)
    requires fd in s.conns
    ensures var p := AfterCancelFlight(s, fd, kind).poller;
            && p.asked == s.poller.asked
            && (k in p.ops <==> k in s.poller.ops)
            && (k in p.ops ==> (EntryOf(p.ops[k], id) <==> EntryOf(s.poller.ops[k], id)))
  {
  }

  lemma CancelKeepsEntries(s: State, fd: Fd, k: Key, id: Id)
    requires fd in s.conns
    ensures var p := AfterCancelIo(s, fd).poller;
            && p.asked == s.poller.asked
            && (k in p.ops <==> k in s.poller.ops)
            && (k in p.ops ==> (EntryOf(p.ops[k], id) <==> EntryOf(s.poller.ops[k], id)))
  {
    CancelFlightKeepsEntries(s, fd, P.Read, k, id);
    CancelFlightKeepsEntries(AfterCancelFlight(s, fd, P.Read), fd, P.Write, k, id);
  }

  /**
   The destructor frees buffers that the kernel may still use if and only if the
   table has an operation on them, cancelled ones included: cancelling keeps the
   entry and its context, but not the buffer.
   */
  lemma DestroyedWhileOwedIff(s: State, fd: Fd)
    requires Inv(s) && fd in s.conns
    ensures KernelOwes(Destroyed(s, fd).poller, s.conns[fd].id) <==> HasEntry(s.poller, s.conns[fd].id)
  {
    var id, p := s.conns[fd].id, Destroyed(s, fd).poller;
    forall k
      ensures k in p.asked && k in p.ops && EntryOf(p.ops[k], id) <==> k in s.poller.ops && EntryOf(s.poller.ops[k], id)
    {
      assert P.KeyOk(s.poller, k);
      CancelKeepsEntries(s, fd, k, id);
    }
  }

  /** So the sweep, which looks only at in-flight flags, does it exactly when it does not wait and an entry is left. */
  lemma SweepFreesOwedMemoryIff(s: State, fd: Fd)
    requires Inv(s) && s.stack == [] && fd in s.conns && s.conns[fd].stage == Disconnected
    ensures var id, s' := s.conns[fd].id, SweepOne(s, fd);
            !s'.Alive(id) && KernelOwes(s'.poller, id) <==> !Waits(s.conns[fd]) && HasEntry(s.poller, id)
  {
    var t := s.(closed := s.closed - {fd});
    assert ConnOk(s, fd);
    if !Waits(s.conns[fd]) {
      ClosedSetIsFree(s, s.closed - {fd}, fd);
      DestroyedWhileOwedIff(s, fd);
      DestroyedEffect(t, fd);
    }
  }

  lemma ClosedSetIsFree(s: State, closed: set<Fd>, fd: Fd)
    requires fd in s.conns
    ensures Destroyed(s.(closed := closed), fd).poller == Destroyed(s, fd).poller
  {
  }

  /** Six calls: a connection with a read in flight is closed, and the first sweep frees it under the kernel. */
  lemma SweepFreesOwedMemory()
    ensures var evs := [InsertNewConnection(7), StartReading(7, true)] + [Close(7), BACK, BACK] + [DestroyClosed([7])];
            var s := Run(Start(), evs);
            s.destroyed[0] == 1 && !s.Alive(0) && KernelOwes(s.poller, 0)
  {
    var first := [InsertNewConnection(7), StartReading(7, true)];
    var close, sweep := [Close(7), BACK, BACK], DestroyClosed([7]);
    var s := Run(Start(), first);
    ReadStarted();
    QuietClose(s, 7);
    var t := Run(s, close);
    RunAppend(Start(), first, close);
    RunAppend(Start(), first + close, [sweep]);
    OneMore(t, sweep, []);
    RunKeeps(Start(), first + close);
    CancelKeepsEntries(Marked(s, 7), 7, 1, 0);
    assert EntryOf(t.poller.ops[1], 0);
    SweptAlone(t, 7);
  }

  lemma SweptAlone(t: State, fd: Fd)
    requires Inv(t) && t.stack == [] && t.closed == {fd} && fd in t.conns && t.conns[fd].stage == Disconnected
    requires !Waits(t.conns[fd]) && HasEntry(t.poller, t.conns[fd].id)
    ensures var id, s' := t.conns[fd].id, Step(t, DestroyClosed([fd]));
            s'.destroyed[id] == 1 && !s'.Alive(id) && KernelOwes(s'.poller, id)
  {
    assert Lists([fd], t.closed) && [fd][1..] == [];
    assert Sweep(t, [fd]) == Sweep(SweepOne(t, fd), [fd][1..]);
    SweepFreesOwedMemoryIff(t, fd);
    SweepOneKeeps(t, fd);
    SweepOneEffect(t, fd, fd);
    assert ConnOk(t, fd) && IdOk(SweepOne(t, fd), t.conns[fd].id);
  }

  // ---------------------------------------------------------------------------
  // Connections age
  // ---------------------------------------------------------------------------

  /** A connection does not come back, does not reopen and does not get younger. */
  predicate Aged(s: State, s': State, id: Id, sweeps: nat) {
    s'.Alive(id) ==>
      && s.Alive(id) && s'.fdOf[id] == s.fdOf[id]
      && s.Of(id).closing <= s'.Of(id).closing
      && s.Of(id).retries <= s'.Of(id).retries
      && (s.Of(id).closing >= 3 ==> s.Of(id).retries + sweeps <= s'.Of(id).retries)
  }

  /** Nothing but the flights of connections, and no connection's age, has changed. */
  predicate SameAge(s: State, s': State, id: Id) {
    && s'.fdOf == s.fdOf && (s'.Alive(id) <==> s.Alive(id))
    && (s.Alive(id) ==> s'.Of(id).closing == s.Of(id).closing && s'.Of(id).retries == s.Of(id).retries)
  }

  lemma CancelIoAge(s: State, fd: Fd, id: Id)
    requires fd in s.conns
    ensures SameAge(s, AfterCancelIo(s, fd), id)
  {
  }

  lemma SubmitIoAge(s: State, fd: Fd, kind: P.Kind, slot: bool, id: Id)
    requires fd in s.conns
    ensures SameAge(s, AfterSubmitIo(s, fd, kind, slot), id)
  {
  }

  lemma DoClosingAges(s: State, fd: Fd, id: Id)
    requires Inv(s) && fd in s.conns
    ensures Aged(s, AfterDoClosing(s, fd), id, 0)
  {
    assert ConnOk(s, fd);
    if s.conns[fd].stage != Disconnected {
      CancelIoAge(Marked(s, fd), fd, id);
    }
  }

  /** What the invariant says of the innermost callback. */
  predicate TopOk(s: State) {
    s.stack != [] ==>
      var top := s.stack[|s.stack| - 1];
      && (!top.Accepting? ==> top.fd in s.conns)
      && (top.InConnectionCallback? ==> s.conns[top.fd].closing == 1)
      && (top.InCloseCallback? ==> s.conns[top.fd].closing == 2)
  }

  lemma ReturnAges(s: State, slot: bool, listening: bool, id: Id)
    requires TopOk(s)
    ensures Aged(s, AfterReturn(s, slot, listening), id, 0)
  {
    if s.stack != [] {
      match s.stack[|s.stack| - 1]
      case InConnectionCallback(fd, _) =>
      case InCloseCallback(fd, _) =>
      case Establishing(fd, _) => SubmitIoAge(Pop(s), fd, P.Read, slot, id);
      case Reading(fd, _, resubmit) => SubmitIoAge(s, fd, P.Read, slot, id);
      case Writing(_, _) =>
      case Accepting =>
    }
  }

  lemma TopIsOk(s: State)
    requires Inv(s)
    ensures TopOk(s)
  {
    if s.stack != [] { assert FrameOk(s, |s.stack| - 1); }
  }

  lemma ReadAges(s: State, q: State, fd: Fd, self: Id, res: Result, slot: bool, id: Id)
    requires Inv(s) && fd in q.conns && fd in s.conns && SameAge(s, q, id) && q.conns[fd].stage == s.conns[fd].stage
    requires q.conns[fd].id == s.conns[fd].id
    ensures Aged(s, AfterRead(q, fd, self, res, slot), id, 0)
  {
    SubmitIoAge(q, fd, P.Read, slot, id);
    EndedAges(s, q, fd, self, id);
  }

  lemma WriteAges(s: State, q: State, fd: Fd, self: Id, res: Result, slot: bool, id: Id)
    requires fd in q.conns && SameAge(s, q, id)
    ensures Aged(s, AfterWrite(q, fd, self, res, slot), id, 0)
  {
    SubmitIoAge(q, fd, P.Write, slot, id);
  }

  lemma DispatchAges(s: State, p: P.State, res: Result, slot: bool, id: Id)
    requires Inv(s)
    ensures Aged(s, AfterDispatch(s.(poller := p), res, slot), id, 0)
  {
    var t := s.(poller := p);
    if p.held.Held? && p.held.op.kind != P.Accept && p.held.op.context.Some? && t.Alive(p.held.op.context.value) {
      var self := p.held.op.context.value;
      var fd := t.fdOf[self];
      var q := Landed(t, fd, p.held.op.kind);
      assert SameAge(s, q, id);
      if p.held.op.kind == P.Read {
        ReadAges(s, q, fd, self, res, slot, id);
        ReadDispatch(t, res, slot, fd, self);
      } else {
        WriteAges(s, q, fd, self, res, slot, id);
        WriteDispatch(t, res, slot, fd, self);
      }
    }
  }

  /** Closing, when the peer ends the stream. */
  lemma EndedAges(s: State, q: State, fd: Fd, self: Id, id: Id)
    requires Inv(s) && fd in q.conns && fd in s.conns && SameAge(s, q, id) && q.conns[fd].stage == s.conns[fd].stage
    requires q.conns[fd].id == s.conns[fd].id
    ensures var f := q.(stack := q.stack + [Reading(fd, self, false)]); Aged(s, AfterDoClosing(f, fd), id, 0)
  {
    var f := q.(stack := q.stack + [Reading(fd, self, false)]);
    assert ConnOk(s, fd);
    if f.conns[fd].stage != Disconnected {
      CancelIoAge(Marked(f, fd), fd, id);
    }
  }

  // ---------------------------------------------------------------------------
  // Sweeps
  // ---------------------------------------------------------------------------

  lemma DestroyedEffect(s: State, fd: Fd)
    requires fd in s.conns
    ensures var s' := Destroyed(s, fd);
            s'.conns == s.conns - {fd} && s'.closed == s.closed && s'.fdOf == s.fdOf && s'.nextId == s.nextId
  {
  }

  /** What one sweep does to one descriptor, in whatever order the set is traversed. */
  lemma SweepOneEffect(s: State, fd: Fd, x: Fd)
    ensures var s' := SweepOne(s, fd);
            && s'.fdOf == s.fdOf && s'.nextId == s.nextId
            && (x != fd ==> (x in s'.conns <==> x in s.conns) && (x in s'.closed <==> x in s.closed))
            && (x != fd && x in s.conns ==> s'.conns[x] == s.conns[x])
            && (fd in s'.conns <==> fd in s.conns && (s.conns[fd].stage == Disconnected ==> Waits(s.conns[fd])))
            && (fd in s'.conns && s.conns[fd].stage == Disconnected ==>
                  s'.conns[fd] == s.conns[fd].(waitMs := s.conns[fd].waitMs + 1, retries := s.conns[fd].retries + 1))
            && (fd in s'.conns && s.conns[fd].stage != Disconnected ==> s'.conns[fd] == s.conns[fd])
            && (fd in s'.closed ==> fd in s'.conns)
  {
    if fd in s.conns { DestroyedEffect(s.(closed := s.closed - {fd}), fd); }
  }

  lemma {:induction false} SweepEffect(s: State, order: seq<Fd>, x: Fd)
    requires Lists(order, set fd | fd in order)
    ensures var s' := Sweep(s, order);
            && s'.fdOf == s.fdOf && s'.nextId == s.nextId
            && (x in s'.conns ==>
                  && x in s.conns
                  && s'.conns[x].id == s.conns[x].id && s'.conns[x].closing == s.conns[x].closing
                  && s'.conns[x].stage == s.conns[x].stage
                  && s'.conns[x].read == s.conns[x].read && s'.conns[x].write == s.conns[x].write
                  && s'.conns[x].retries ==
                       s.conns[x].retries + Count(x in order && s.conns[x].stage == Disconnected))
            && (x !in order ==> (x in s'.conns <==> x in s.conns) && (x in s'.closed <==> x in s.closed))
            && (x in order && x in s'.closed ==> x in s'.conns)
    decreases |order|
  {
    if order != [] {
      SweepOneEffect(s, order[0], x);
      assert order == [order[0]] + order[1..];
      SweepEffect(SweepOne(s, order[0]), order[1..], x);
    }
  }

  lemma SweepAges(s: State, order: seq<Fd>, id: Id)
    requires Inv(s) && Legal(s, DestroyClosed(order))
    ensures Aged(s, Sweep(s, order), id, 1)
  {
    if Sweep(s, order).Alive(id) {
      assert Lists(order, set fd | fd in order);
      SweepEffect(s, order, Sweep(s, order).fdOf[id]);
      SweepEffect(s, order, s.fdOf[id]);
      assert ConnOk(s, s.fdOf[id]);
    }
  }

  function SweepsIn(s: State, ev: Event): nat { Count(ev.DestroyClosed? && Legal(s, ev)) }

  lemma InsertAges(s: State, fd: Fd, id: Id)
    requires Inv(s) && fd !in s.conns && id < s.nextId
    ensures Aged(s, AfterInsert(s, fd), id, 0)
  {
    assert IdOk(s, id);
  }

  /** Events that touch no connection's age. */
  lemma QuietAges(s: State, ev: Event, id: Id)
    requires Inv(s) && Legal(s, ev)
    requires ev.OnEstablishing? || ev.ShutDownWrite? || ev.DeleteConnection? || ev.SubmitAccept? || ev.SetInterest?
    ensures Aged(s, Step(s, ev), id, 0)
  {
  }

  lemma StepAges(s: State, ev: Event, id: Id)
    requires Inv(s) && id < s.nextId
    ensures Aged(s, Step(s, ev), id, SweepsIn(s, ev))
  {
    if Legal(s, ev) {
      match ev
      case InsertNewConnection(fd) => InsertAges(s, fd, id);
      case StartReading(fd, slot) => SubmitIoAge(s, fd, P.Read, slot, id);
      case StartWriting(fd, _, slot) => SubmitIoAge(s, fd, P.Write, slot, id);
      case StopReadingWriting(fd) => CancelIoAge(s, fd, id);
      case Close(fd) => DoClosingAges(s, fd, id);
      case Return(slot, listening) => TopIsOk(s); ReturnAges(s, slot, listening, id);
      case Completion(k, more, res, slot) => DispatchAges(s, P.AfterCqe(s.poller, k, more, slot), res, slot, id);
      case DestroyClosed(order) => SweepAges(s, order, id);
      case _ => QuietAges(s, ev, id);
    }
  }

  lemma DispatchNextId(t: State, res: Result, slot: bool)
    ensures AfterDispatch(t, res, slot).nextId == t.nextId
  {
  }

  lemma ReturnNextId(s: State, slot: bool, listening: bool)
    ensures AfterReturn(s, slot, listening).nextId == s.nextId
  {
  }

  lemma StepNextId(s: State, ev: Event)
    ensures s.nextId <= Step(s, ev).nextId
    ensures !ev.InsertNewConnection? ==> Step(s, ev).nextId == s.nextId
  {
    if Legal(s, ev) {
      match ev
      case DestroyClosed(order) =>
        assert Lists(order, set fd | fd in order);
        SweepEffect(s, order, 0);
      case Completion(k, more, res, slot) =>
        DispatchNextId(s.(poller := P.AfterCqe(s.poller, k, more, slot)), res, slot);
      case Return(slot, listening) => ReturnNextId(s, slot, listening);
      case _ =>
    }
  }

  /** The sweeps that a run performs. */
  function Sweeps(s: State, evs: seq<Event>): nat
    decreases |evs|
  {
    if evs == [] then 0 else SweepsIn(s, evs[0]) + Sweeps(Step(s, evs[0]), evs[1..])
  }

  lemma {:induction false} RunAges(s: State, evs: seq<Event>, id: Id)
    requires Inv(s) && id < s.nextId
    ensures Aged(s, Run(s, evs), id, Sweeps(s, evs))
    decreases |evs|
  {
    if evs != [] {
      StepKeeps(s, evs[0]);
      StepAges(s, evs[0], id);
      StepNextId(s, evs[0]);
      RunAges(Step(s, evs[0]), evs[1..], id);
    }
  }

  /** Disconnected is absorbing. */
  lemma DisconnectedForEver(s: State, evs: seq<Event>, id: Id)
    requires Inv(s) && s.Alive(id) && s.Of(id).stage == Disconnected
    ensures Run(s, evs).Alive(id) ==> Run(s, evs).Of(id).stage == Disconnected
  {
    assert ConnOk(s, s.fdOf[id]);
    RunAges(s, evs, id);
    RunKeeps(s, evs);
    if Run(s, evs).Alive(id) { assert ConnOk(Run(s, evs), Run(s, evs).fdOf[id]); }
  }

  /** A disconnected connection is gone for good after at most 1001 sweeps, whatever callbacks and the kernel do. */
  lemma GoneWithin1001Sweeps(s: State, evs: seq<Event>, id: Id)
    requires Inv(s) && s.stack == [] && s.Alive(id) && s.Of(id).stage == Disconnected
    requires 1001 <= Sweeps(s, evs)
    ensures !Run(s, evs).Alive(id) && Run(s, evs).destroyed[id] == 1
  {
    assert ConnOk(s, s.fdOf[id]);
    RunAges(s, evs, id);
    RunKeeps(s, evs);
    assert IdOk(s, id) && IdOk(Run(s, evs), id);
    NextIdGrows(s, evs);
    assert Run(s, evs).Alive(id) ==> ConnOk(Run(s, evs), Run(s, evs).fdOf[id]);
  }

  predicate InsertsNothing(evs: seq<Event>) {
    forall i :: 0 <= i < |evs| ==> !evs[i].InsertNewConnection?
  }

  lemma {:induction false} NextIdGrows(s: State, evs: seq<Event>)
    ensures s.nextId <= Run(s, evs).nextId
    ensures InsertsNothing(evs) ==> Run(s, evs).nextId == s.nextId
    decreases |evs|
  {
    if evs != [] {
      StepNextId(s, evs[0]);
      NextIdGrows(Step(s, evs[0]), evs[1..]);
    }
  }

  /** What is in the map after a run without insertions was there before, and is no younger. */
  lemma Survivors(s: State, evs: seq<Event>, fd: Fd)
    requires Inv(s) && InsertsNothing(evs) && fd in Run(s, evs).conns
    ensures fd in s.conns
    ensures var c, c' := s.conns[fd], Run(s, evs).conns[fd];
            && c'.id == c.id && c.retries <= c'.retries <= MAX_PENDING_IO_RETRIES
            && (c.stage == Disconnected ==> c'.stage == Disconnected)
            && (c.closing >= 3 ==> c.retries + Sweeps(s, evs) <= c'.retries)
  {
    RunKeeps(s, evs);
    NextIdGrows(s, evs);
    var s' := Run(s, evs);
    assert ConnOk(s', fd);
    RunAges(s, evs, s'.conns[fd].id);
    assert ConnOk(s, fd);
  }

  lemma {:induction false} RunAppend(s: State, evs: seq<Event>, more: seq<Event>)
    ensures Run(s, evs + more) == Run(Run(s, evs), more)
    ensures Sweeps(s, evs + more) == Sweeps(s, evs) + Sweeps(Run(s, evs), more)
    decreases |evs|
  {
    if evs == [] {
      assert evs + more == more;
    } else {
      assert (evs + more)[0] == evs[0] && (evs + more)[1..] == evs[1..] + more;
      RunAppend(Step(s, evs[0]), evs[1..], more);
    }
  }

  /** How many returns it takes to empty the stack. */
  function Depth(stack: seq<Frame>): nat
    decreases |stack|
  {
    if stack == [] then 0
    else Depth(stack[..|stack| - 1]) + if stack[|stack| - 1].InConnectionCallback? then 2 else 1
  }

  lemma ReturnUnwinds(s: State, slot: bool, listening: bool)
    requires Inv(s) && s.stack != []
    ensures Depth(AfterReturn(s, slot, listening).stack) < Depth(s.stack)
  {
    var n := |s.stack| - 1;
    assert FrameOk(s, n);
    var s' := AfterReturn(s, slot, listening);
    if s.stack[n].InConnectionCallback? {
      assert s'.stack[..n] == s.stack[..n];
    } else {
      assert s'.stack == s.stack[..n];
    }
  }
}
