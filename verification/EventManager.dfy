/**
 The event manager as an object: its connection map, its set of closed
 descriptors, the destroy sweep and the shutdown of the loop.

 Each method is proved to do what the corresponding function of EventLoops says.
 A method that makes a user callback ends where the callback starts; `AfterCallback`
 goes on where it returns.
 */
module EventManagers {
  import P = Pollers
  import opened Shared
  import opened EventLoops
  import opened ConnectionLife
  import opened ConnectionEffects

  function Members(order: seq<Fd>): set<Fd> { set fd | fd in order }

  method PickOne(fds: set<Fd>) returns (fd: Fd)
    requires fds != {}
    ensures fd in fds
  {
    NotEmpty(fds);
    fd :| fd in fds;
  }

  lemma NotEmpty(fds: set<Fd>)
    requires fds != {}
    ensures exists fd :: fd in fds
  {
    assert (forall fd :: fd !in fds) ==> fds == {};
  }

  class EventManager {
    const poller: P.Poller
    var connections: map<Fd, Conn>
    var closedFds: set<Fd>
    var stack: seq<Frame>
    var nextId: Id
    var fdOf: map<Id, Fd>        // where the map keeps the object with this identity
    ghost var begun: multiset<Id>
    ghost var closes: multiset<Id>
    ghost var destroyed: multiset<Id>

    ghost function View(): State
      reads this, poller
    {
      State(poller.View(), connections, closedFds, stack, nextId, fdOf, begun, closes, destroyed, false)
    }

    constructor ()
      ensures fresh(poller) && View() == Start()
    {
      poller := new P.Poller();
      connections, closedFds, stack, nextId := map[], {}, [], 0;
      fdOf, begun, closes, destroyed := map[], multiset{}, multiset{}, multiset{};
    }

    /** SubmitReadOnce and SubmitWriteOnce. */
    method SubmitOnce(fd: Fd, kind: P.Kind, slot: bool)
      requires fd in connections && 1 <= poller.nextKey
      modifies this`connections, poller
      ensures View() == AfterSubmitIo(old(View()), fd, kind, slot)
    {
      var c := connections[fd];
      if FlightOf(c, kind).busy { return; }
      ghost var context := poller.nextKey;
      var key := poller.Submit(kind, Some(P.OfConnection(c.id)), c.id, slot);
      if key == 0 {
        connections := connections[fd := WithFlight(c, kind, Flight(false, 0))];
        poller.DeleteContext(context);
        return;
      }
      connections := connections[fd := WithFlight(c, kind, Flight(true, key))];
    }

    method CancelOne(fd: Fd, kind: P.Kind, slot: bool)
      requires fd in connections
      modifies this`connections, poller
      ensures View() == AfterCancelFlight(old(View()), fd, kind)
    {
      var c := connections[fd];
      if FlightOf(c, kind).busy {
        if FlightOf(c, kind).key != 0 {
          var _ := poller.CancelOp(FlightOf(c, kind).key, slot);
        }
        connections := connections[fd := WithFlight(c, kind, Flight(false, 0))];
      }
    }

    method CancelPendingIo(fd: Fd, slots: (bool, bool))
      requires fd in connections
      modifies this`connections, poller
      ensures View() == AfterCancelIo(old(View()), fd)
    {
      CancelOne(fd, P.Read, slots.0);
      CancelOne(fd, P.Write, slots.1);
    }

    /** DoClosing, up to the connection callback. */
    method DoClosing(fd: Fd, slots: (bool, bool))
      requires fd in connections
      modifies this, poller
      ensures View() == AfterDoClosing(old(View()), fd)
    {
      var c := connections[fd];
      if c.stage != Disconnected {
        connections := connections[fd := c.(stage := Disconnected, closing := 1, frame := |stack|)];
        stack := stack + [InConnectionCallback(fd, c.id)];
        begun := begun + multiset{c.id};
        assert View() == Marked(old(View()), fd);
        CancelPendingIo(fd, slots);
      }
    }

    method ForceClose(fd: Fd, slots: (bool, bool))
      requires fd in connections
      modifies this, poller
      ensures View() == AfterDoClosing(old(View()), fd)
    {
      var c := connections[fd];
      if c.stage != Disconnected {
        connections := connections[fd := c.(stage := Disconnecting)];
        ForceCloseGoesThrough(old(View()), fd);
        DoClosing(fd, slots);
      }
    }

    /** A connection that is in the map under this descriptor is replaced. */
    method InsertNewConnection(fd: Fd)
      modifies this, poller
      ensures fd !in old(connections) ==> View() == AfterInsert(old(View()), fd)
      ensures fd in old(connections) ==> View() == AfterReplace(old(View()), fd)
    {
      if fd in connections { DestroyConnection(fd, (true, true)); }
      InsertFresh(fd);
    }

    method InsertFresh(fd: Fd)
      modifies this, poller
      ensures View() == AfterInsert(old(View()), fd)
    {
      poller.AddEventer(P.OfConnection(nextId), 0, true);
      connections := connections[fd := Conn(nextId, Connecting, Flight(false, 0), Flight(false, 0), 0, 0, 0, 0)];
      fdOf := fdOf[nextId := fd];
      nextId := nextId + 1;
    }

    method OnEstablishing(fd: Fd)
      requires fd in connections
      modifies this
      ensures View() == AfterEstablish(old(View()), fd)
    {
      var c := connections[fd];
      if c.stage == Connecting {
        connections := connections[fd := c.(stage := Connected)];
        stack := stack + [Establishing(fd, c.id)];
      }
    }

    method ShutDownWrite(fd: Fd)
      requires fd in connections
      modifies this`connections
      ensures View() == AfterShutDownWrite(old(View()), fd)
    {
      var c := connections[fd];
      if c.stage == Connected { connections := connections[fd := c.(stage := Disconnecting)]; }
    }

    method DeleteConnection(fd: Fd)
      modifies this`closedFds
      ensures View() == AfterDeleteConnection(old(View()), fd)
    {
      closedFds := closedFds + {fd};
    }

    method SubmitAcceptOnce(slot: bool)
      requires 1 <= poller.nextKey
      modifies poller
      ensures View() == AfterAcceptOnce(old(View()), slot)
    {
      ghost var context := poller.nextKey;
      var key := poller.Submit(P.Accept, None, 0, slot);
      if key == 0 { poller.DeleteContext(context); }
    }

    /** The destructor of a connection. */
    method DestroyConnection(fd: Fd, slots: (bool, bool))
      requires fd in connections
      modifies this, poller
      ensures View() == Destroyed(old(View()), fd)
    {
      var id := connections[fd].id;
      CancelPendingIo(fd, slots);
      poller.RemoveEventer(P.OfConnection(id), true);
      connections := connections - {fd};
      destroyed := destroyed + multiset{id};
    }

    // Completions ---------------------------------------------------------------

    method Land(fd: Fd, kind: P.Kind)
      requires fd in connections
      modifies this`connections
      ensures View() == Landed(old(View()), fd, kind)
    {
      var c := connections[fd];
      connections := connections[fd := WithFlight(c, kind, FlightOf(c, kind).(busy := false))];
    }

    /** OnReadComplete, up to the user callback it makes if any. */
    method OnReadComplete(fd: Fd, id: Id, res: Result, slot: bool)
      requires fd in connections && 1 <= poller.nextKey
      modifies this, poller
      ensures View() == AfterRead(Landed(old(View()), fd, P.Read), fd, id, res, slot)
      ensures old(stack == [] && connections[fd].id == id) ==> ReadLeaves(old(View()), View(), fd, id, res, slot)
    {
      if stack == [] && connections[fd].id == id { ReadEffect(Landed(View(), fd, P.Read), fd, id, res, slot); }
      Land(fd, P.Read);
      match res
      case Moved(_) => stack := stack + [Reading(fd, id, true)];
      case Ended =>
        stack := stack + [Reading(fd, id, false)];
        DoClosing(fd, (slot, slot));
      case Again =>
        SubmitOnce(fd, P.Read, slot);
        poller.FinishCqe();
      case Failed => poller.FinishCqe();
    }

    /** OnWriteComplete, up to the write-complete callback if it comes to that. */
    method OnWriteComplete(fd: Fd, id: Id, kind: P.Kind, res: Result, slot: bool)
      requires fd in connections && 1 <= poller.nextKey
      modifies this, poller
      ensures View() == AfterWrite(Landed(old(View()), fd, kind), fd, id, res, slot)
      ensures old(stack == [] && connections[fd].id == id) && kind == P.Write ==>
                WriteLeaves(old(View()), View(), fd, id, res, slot)
    {
      if stack == [] && connections[fd].id == id && kind == P.Write {
        WriteEffect(Landed(View(), fd, kind), fd, id, res, slot);
      }
      Land(fd, kind);
      if res == Moved(false) {
        stack := stack + [Writing(fd, id)];
        return;
      }
      if res.Moved? || res.Again? { SubmitOnce(fd, P.Write, slot); }
      poller.FinishCqe();
    }

    /** HandleCqe with the completion callbacks of the library. */
    method HandleCqe(k: Key, more: bool, res: Result, slot: bool)
      requires Inv(View()) && Legal(View(), Completion(k, more, res, slot))
      modifies this, poller
      ensures Inv(View()) && View() == AfterCqe(old(View()), k, more, res, slot)
    {
      CqeKeeps(View(), k, more, res, slot);
      CqeFindsConnection(View(), k, more, slot);
      poller.HandleCqe(k, more, slot);
      Dispatch(res, slot);
    }

    method Dispatch(res: Result, slot: bool)
      requires 1 <= poller.nextKey
      requires poller.held.Held? && poller.held.op.kind != P.Accept ==>
                 && poller.held.op.context.Some?
                 && poller.held.op.context.value in fdOf && fdOf[poller.held.op.context.value] in connections
                 && connections[fdOf[poller.held.op.context.value]].id == poller.held.op.context.value
      modifies this, poller
      ensures View() == AfterDispatch(old(View()), res, slot)
    {
      if poller.held.Nothing? { return; }
      var op := poller.held.op;
      if op.kind == P.Accept {
        stack := stack + [Accepting];
        return;
      }
      var id := op.context.value;
      var fd := fdOf[id];
      if op.kind == P.Read {
        ReadDispatch(View(), res, slot, fd, id);
        OnReadComplete(fd, id, res, slot);
      } else {
        WriteDispatch(View(), res, slot, fd, id);
        OnWriteComplete(fd, id, op.kind, res, slot);
      }
    }

    /** The innermost user callback has returned. */
    method AfterCallback(slot: bool, listening: bool)
      requires 1 <= poller.nextKey
      modifies this, poller
      ensures View() == AfterReturn(old(View()), slot, listening)
    {
      if stack == [] { return; }
      var top := stack[|stack| - 1];
      if !top.Accepting? && top.fd !in connections { return; }
      match top
      case InConnectionCallback(fd, id) => EndConnectionCallback(fd, id);
      case InCloseCallback(fd, _) => EndCloseCallback(fd);
      case Establishing(fd, _) => EndEstablishing(fd, slot);
      case Reading(fd, _, resubmit) => EndReading(fd, resubmit, slot);
      case Writing(_, _) => EndIo();
      case Accepting => EndAccepting(slot, listening);
    }

    method EndEstablishing(fd: Fd, slot: bool)
      requires stack != [] && fd in connections && 1 <= poller.nextKey
      modifies this, poller
      ensures View() == AfterSubmitIo(Pop(old(View())), fd, P.Read, slot)
    {
      stack := stack[..|stack| - 1];
      SubmitOnce(fd, P.Read, slot);
    }

    method EndReading(fd: Fd, resubmit: bool, slot: bool)
      requires stack != [] && fd in connections && 1 <= poller.nextKey
      modifies this, poller
      ensures View() == AfterMessageCallback(old(View()), fd, resubmit, slot)
    {
      if resubmit { SubmitOnce(fd, P.Read, slot); }
      EndIo();
    }

    method EndAccepting(slot: bool, listening: bool)
      requires stack != [] && 1 <= poller.nextKey
      modifies this`stack, poller
      ensures View() == AfterAccepting(old(View()), slot, listening)
    {
      var last := poller.held.Held? && !poller.held.more;
      EndIo();
      if last && listening { SubmitAcceptOnce(slot); }
    }

    method EndConnectionCallback(fd: Fd, id: Id)
      requires stack != [] && fd in connections
      modifies this
      ensures View() == AfterConnectionCallback(old(View()), fd, id)
    {
      stack := stack[|stack| - 1 := InCloseCallback(fd, id)];
      connections := connections[fd := connections[fd].(closing := 2)];
      closes := closes + multiset{id};
    }

    method EndCloseCallback(fd: Fd)
      requires stack != [] && fd in connections
      modifies this
      ensures View() == AfterCloseCallback(old(View()), fd)
    {
      stack := stack[..|stack| - 1];
      connections := connections[fd := connections[fd].(closing := 3)];
      DeleteConnection(fd);
    }

    method EndIo()
      requires stack != []
      modifies this`stack, poller
      ensures View() == Finished(Pop(old(View()))) && (old(poller.nextKey) == poller.nextKey)
    {
      stack := stack[..|stack| - 1];
      poller.FinishCqe();
    }

    // The sweep -----------------------------------------------------------------

    /** One turn of the loop of DestroyClosedConnections. */
    method SweepFd(fd: Fd, slots: (bool, bool)) returns (remains: bool)
      modifies this, poller
      ensures View() == SweepOne(old(View()), fd).(closed := old(closedFds))
      ensures remains == (fd in old(connections) && Waits(old(connections)[fd]))
    {
      if fd !in connections || connections[fd].stage != Disconnected { return false; }
      var c := connections[fd];
      if (c.read.busy || c.write.busy)
         && c.retries < MAX_PENDING_IO_RETRIES && c.waitMs < MAX_PENDING_IO_TIMEOUT_MS {
        connections := connections[fd := c.(waitMs := c.waitMs + 1, retries := c.retries + 1)];
        return true;
      }
      ClosedIsApart(View(), fd, closedFds - {fd});
      DestroyedEffect(View(), fd);
      DestroyConnection(fd, slots);
      return false;
    }

    /** DestroyClosedConnections; `order` is the order in which the set happens to be traversed. */
    method DestroyClosedConnections(order: seq<Fd>)
      requires Lists(order, closedFds)
      modifies this, poller
      ensures View() == Sweep(old(View()), order)
    {
      var remaining: set<Fd> := {};
      var i := 0;
      ListsMembers(order, closedFds);
      assert order[0..] == order;
      while i < |order|
        invariant 0 <= i <= |order| && closedFds == old(closedFds)
        invariant remaining <= Members(order[..i])
        invariant View().(closed := remaining + Members(order[i..])) == Sweep(old(View()), order[..i])
      {
        ghost var s, left := View(), Members(order[i..]);
        SweepAppend(old(View()), order[..i], order[i]);
        assert order[..i + 1] == order[..i] + [order[i]];
        SweepOneClosed(s, order[i], remaining + left);
        LeftOver(order, i, remaining);
        var remains := SweepFd(order[i], (true, true));
        if remains { remaining := remaining + {order[i]}; }
        i := i + 1;
      }
      assert order[..i] == order;
      closedFds := remaining;
    }

    // Runs ----------------------------------------------------------------------

    /** Whatever happens next: a call into the library, the end of a callback, a completion, a sweep. */
    method Perform(ev: Event)
      requires Inv(View())
      modifies this, poller
      ensures Inv(View()) && View() == Step(old(View()), ev)
    {
      StepKeeps(View(), ev);
      match ev
      case InsertNewConnection(fd) => if fd !in connections { InsertNewConnection(fd); }
      case DeleteConnection(fd) => DeleteConnection(fd);
      case SubmitAccept(slot) => SubmitAcceptOnce(slot);
      case SetInterest(n, mask, slot) => poller.ModifyEventer(P.Other(n), mask, slot);
      case Return(slot, listening) => AfterCallback(slot, listening);
      case Completion(k, more, res, slot) =>
        if stack == [] && poller.held.Nothing? && (more ==> k in poller.ops && poller.ops[k].kind == P.Accept) {
          HandleCqe(k, more, res, slot);
        }
      case DestroyClosed(order) =>
        if stack == [] && Lists(order, closedFds) { DestroyClosedConnections(order); }
      case _ => if ev.fd in connections { CallOn(ev); }
    }

    /** A call on a connection. */
    method CallOn(ev: Event)
      requires ev.OnEstablishing? || ev.StartReading? || ev.StartWriting? || ev.StopReadingWriting? ||
               ev.ShutDownWrite? || ev.Close?
      requires ev.fd in connections && 1 <= poller.nextKey
      modifies this, poller
      ensures View() == Step(old(View()), ev)
    {
      match ev
      case OnEstablishing(fd) => OnEstablishing(fd);
      case StartReading(fd, slot) => SubmitOnce(fd, P.Read, slot);
      case StartWriting(fd, output, slot) => if output { SubmitOnce(fd, P.Write, slot); }
      case StopReadingWriting(fd) => CancelPendingIo(fd, (true, true));
      case ShutDownWrite(fd) => ShutDownWrite(fd);
      case Close(fd) => ForceClose(fd, (true, true));
    }

    method PerformAll(evs: seq<Event>)
      requires Inv(View())
      modifies this, poller
      ensures Inv(View()) && View() == Run(old(View()), evs)
    {
      ghost var target := Run(View(), evs);
      var i := 0;
      while i < |evs|
        invariant 0 <= i <= |evs| && Inv(View())
        invariant Run(View(), evs[i..]) == target
      {
        Perform(evs[i]);
        assert evs[i..][1..] == evs[i + 1..];
        i := i + 1;
      }
    }

    /** All callbacks in progress return. */
    method Unwind(slot: bool) returns (ghost evs: seq<Event>)
      requires Inv(View())
      modifies this, poller
      ensures Inv(View()) && stack == []
      ensures InsertsNothing(evs) && View() == Run(old(View()), evs)
    {
      evs := [];
      while stack != []
        invariant Inv(View()) && InsertsNothing(evs) && View() == Run(old(View()), evs)
        decreases Depth(stack)
      {
        ReturnUnwinds(View(), slot, false);
        RunAppend(old(View()), evs, [Return(slot, false)]);
        OneStep(View(), Return(slot, false));
        Perform(Return(slot, false));
        evs := evs + [Return(slot, false)];
      }
    }

    method Enumerate(fds: set<Fd>) returns (order: seq<Fd>)
      ensures Lists(order, fds)
    {
      order := [];
      var left := fds;
      while left != {}
        invariant left <= fds && Lists(order, fds - left)
        decreases |left|
      {
        var fd := PickOne(left);
        order := order + [fd];
        left := left - {fd};
      }
    }

    /** One turn of the drain loop: completions are handled, callbacks return, closed connections are swept. */
    method DrainOnce(evs: seq<Event>, slot: bool) returns (ghost all: seq<Event>)
      requires Inv(View()) && InsertsNothing(evs)
      modifies this, poller
      ensures Inv(View()) && stack == [] && closedFds <= connections.Keys
      ensures InsertsNothing(all) && View() == Run(old(View()), all) && 1 <= Sweeps(old(View()), all)
    {
      PerformAll(evs);
      ghost var rest := Unwind(slot);
      ghost var sweep := SweepAll();
      all := evs + rest + [sweep];
      ThreeParts(old(View()), evs, rest, sweep);
    }

    method SweepAll() returns (ghost ev: Event)
      requires Inv(View()) && stack == []
      modifies this, poller
      ensures Inv(View()) && stack == [] && closedFds <= connections.Keys
      ensures ev.DestroyClosed? && Legal(old(View()), ev) && View() == Step(old(View()), ev)
    {
      var order := Enumerate(closedFds);
      ev := DestroyClosed(order);
      SweepKeeps(View(), order);
      SweptSet(View(), order);
      DestroyClosedConnections(order);
    }

    /** The drain loop ends after at most 1001 turns, if nothing is inserted meanwhile. */
    method Drain(env: nat -> seq<Event>, slot: bool) returns (turns: nat)
      requires Inv(View()) && stack == []
      requires forall fd :: fd in connections ==> connections[fd].stage == Disconnected
      requires forall i :: InsertsNothing(env(i))
      modifies this, poller
      ensures Inv(View()) && connections == map[] && closedFds == {} && turns <= 1001
      ensures nextId == old(nextId)
    {
      turns := 0;
      while connections != map[] || closedFds != {}
        invariant Inv(View()) && stack == [] && nextId == old(nextId)
        invariant forall fd :: fd in connections ==>
                    connections[fd].stage == Disconnected && turns <= connections[fd].retries
        invariant turns == 0 || closedFds <= connections.Keys
        invariant turns <= 1001
        decreases 1001 - turns
      {
        ghost var s := View();
        TurnsAreBounded(s, turns);
        ghost var all := DrainOnce(env(turns), slot);
        NextIdGrows(s, all);
        forall fd | fd in connections
          ensures connections[fd].stage == Disconnected && turns + 1 <= connections[fd].retries
        {
          OlderByOne(s, all, fd, turns);
        }
        turns := turns + 1;
      }
    }

    /** The end of Start: close every connection, then drain. */
    method Stop(closing: nat -> seq<Event>, env: nat -> seq<Event>, slot: bool) returns (turns: nat)
      requires Inv(View()) && stack == []
      requires forall i :: InsertsNothing(closing(i))
      requires forall i :: InsertsNothing(env(i))
      modifies this, poller
      ensures connections == map[] && closedFds == {} && turns <= 1001
      ensures forall id :: 0 <= id < old(nextId) ==> closes[id] == 1 && destroyed[id] == 1
    {
      var left := connections.Keys;
      var i := 0;
      while left != {}
        invariant Inv(View()) && stack == [] && nextId == old(nextId)
        invariant forall fd :: fd in connections && fd !in left ==> connections[fd].stage == Disconnected
        decreases |left|
      {
        var fd := PickOne(left);
        left := left - {fd};
        ghost var all := CloseOne(fd, closing(i), slot);
        i := i + 1;
      }
      turns := Drain(env, slot);
      forall id | 0 <= id < old(nextId) ensures closes[id] == 1 && destroyed[id] == 1 { assert IdOk(View(), id); }
    }

    /** ForceClose with everything its callbacks do. */
    method CloseOne(fd: Fd, evs: seq<Event>, slot: bool) returns (ghost all: seq<Event>)
      requires Inv(View()) && InsertsNothing(evs)
      modifies this, poller
      ensures Inv(View()) && stack == [] && nextId == old(nextId)
      ensures fd in connections ==> connections[fd].stage == Disconnected
      ensures forall x :: x in connections ==> x in old(connections)
      ensures forall x :: x in connections && old(connections)[x].stage == Disconnected ==>
                            connections[x].stage == Disconnected
    {
      all := [Close(fd)] + evs;
      assert InsertsNothing(all);
      ghost var s := View();
      Perform(Close(fd));
      CloseDisconnects(s, fd);
      ghost var t := View();
      PerformAll(evs);
      ghost var rest := Unwind(slot);
      RunAppend(t, evs, rest);
      NextIdGrows(t, evs + rest);
      StepNextId(s, Close(fd));
      forall x | x in connections
        ensures x in s.conns
        ensures x == fd || s.conns[x].stage == Disconnected ==> connections[x].stage == Disconnected
      {
        Survivors(t, evs + rest, x);
        CloseLeavesOthers(s, fd, x);
      }
    }
  }

  lemma OneStep(s: State, ev: Event)
    ensures Run(s, [ev]) == Step(s, ev) && Sweeps(s, [ev]) == SweepsIn(s, ev)
  {
    assert Run(s, [ev]) == Run(Step(s, ev), [ev][1..]);
  }

  lemma ThreeParts(s: State, evs: seq<Event>, rest: seq<Event>, sweep: Event)
    requires sweep.DestroyClosed? && Legal(Run(Run(s, evs), rest), sweep)
    ensures Run(s, evs + rest + [sweep]) == Step(Run(Run(s, evs), rest), sweep)
    ensures 1 <= Sweeps(s, evs + rest + [sweep])
  {
    RunAppend(s, evs, rest);
    RunAppend(s, evs + rest, [sweep]);
    OneStep(Run(Run(s, evs), rest), sweep);
  }

  /** After a sweep only descriptors of the map are still queued. */
  lemma SweptSet(s: State, order: seq<Fd>)
    requires Lists(order, s.closed)
    ensures Sweep(s, order).closed <= Sweep(s, order).conns.Keys
  {
    ListsMembers(order, s.closed);
    assert Lists(order, set fd | fd in order);
    forall fd | fd in Sweep(s, order).closed ensures fd in Sweep(s, order).conns { SweepEffect(s, order, fd); }
  }

  lemma TurnsAreBounded(s: State, turns: nat)
    requires Inv(s) && (s.conns != map[] || s.closed != {}) && (turns == 0 || s.closed <= s.conns.Keys)
    requires forall fd :: fd in s.conns ==> turns <= s.conns[fd].retries
    ensures turns <= 1000
  {
    if s.conns != map[] {
      assert s.conns.Keys != {};
      NotEmpty(s.conns.Keys);
      var fd :| fd in s.conns.Keys;
      assert ConnOk(s, fd);
    }
  }

  lemma OlderByOne(s: State, all: seq<Event>, fd: Fd, turns: nat)
    requires Inv(s) && s.stack == [] && InsertsNothing(all) && 1 <= Sweeps(s, all) && fd in Run(s, all).conns
    requires forall x :: x in s.conns ==> s.conns[x].stage == Disconnected && turns <= s.conns[x].retries
    ensures Run(s, all).conns[fd].stage == Disconnected && turns + 1 <= Run(s, all).conns[fd].retries
  {
    Survivors(s, all, fd);
    assert ConnOk(s, fd);
  }

  lemma CloseDisconnects(s: State, fd: Fd)
    ensures fd in Step(s, Close(fd)).conns ==> Step(s, Close(fd)).conns[fd].stage == Disconnected
  {
  }

  lemma CloseLeavesOthers(s: State, fd: Fd, x: Fd)
    ensures x in Step(s, Close(fd)).conns <==> x in s.conns
    ensures x in s.conns && s.conns[x].stage == Disconnected ==> Step(s, Close(fd)).conns[x].stage == Disconnected
  {
    if fd in s.conns { CancelIoStages(Marked(s, fd), fd, x); }
  }

  lemma CancelIoStages(s: State, fd: Fd, x: Fd)
    requires fd in s.conns
    ensures x in AfterCancelIo(s, fd).conns <==> x in s.conns
    ensures x in s.conns ==> AfterCancelIo(s, fd).conns[x].stage == s.conns[x].stage
  {
  }

  lemma ListsMembers(order: seq<Fd>, fds: set<Fd>)
    requires Lists(order, fds)
    ensures fds == Members(order) && Lists(order, Members(order))
  {
    forall fd ensures fd in fds <==> fd in Members(order) {}
  }

  lemma LeftOver(order: seq<Fd>, i: nat, remaining: set<Fd>)
    requires i < |order| && Lists(order, Members(order)) && remaining <= Members(order[..i])
    ensures var left, left' := Members(order[i..]), Members(order[i + 1..]);
            && remaining + left - {order[i]} == remaining + left'
            && remaining + left == remaining + {order[i]} + left'
            && remaining + {order[i]} <= Members(order[..i + 1])
            && remaining <= Members(order[..i + 1])
  {
    assert order[i..] == [order[i]] + order[i + 1..];
    assert order[..i + 1] == order[..i] + [order[i]];
    assert order[i] !in order[..i] && order[i] !in order[i + 1..];
  }

  lemma {:induction false} SweepAppend(s: State, order: seq<Fd>, fd: Fd)
    ensures Sweep(s, order + [fd]) == SweepOne(Sweep(s, order), fd)
    decreases |order|
  {
    if order == [] {
      assert order + [fd] == [fd] && [fd][1..] == [];
    } else {
      assert (order + [fd])[0] == order[0] && (order + [fd])[1..] == order[1..] + [fd];
      SweepAppend(SweepOne(s, order[0]), order[1..], fd);
    }
  }

  /** The closed set takes no part in destroying a connection. */
  lemma ClosedIsApart(s: State, fd: Fd, closed: set<Fd>)
    requires fd in s.conns
    ensures Destroyed(s.(closed := closed), fd) == Destroyed(s, fd).(closed := closed)
  {
    CancelIsApart(s, fd, P.Read, closed);
    CancelIsApart(AfterCancelFlight(s, fd, P.Read), fd, P.Write, closed);
  }

  lemma CancelIsApart(s: State, fd: Fd, kind: P.Kind, closed: set<Fd>)
    requires fd in s.conns
    ensures AfterCancelFlight(s.(closed := closed), fd, kind) == AfterCancelFlight(s, fd, kind).(closed := closed)
  {
  }

  lemma SweepOneClosed(s: State, fd: Fd, closed: set<Fd>)
    ensures SweepOne(s.(closed := closed), fd) ==
              SweepOne(s, fd).(closed := if fd in s.conns && Waits(s.conns[fd]) then closed else closed - {fd})
  {
    if fd in s.conns {
      ClosedIsApart(s, fd, closed - {fd});
      ClosedIsApart(s, fd, s.closed - {fd});
    }
  }

  /** A completion that calls back finds its connection. */
  lemma CqeFindsConnection(s: State, k: Key, more: bool, slot: bool)
    requires Inv(s) && s.stack == [] && P.Legal(s.poller, P.Cqe(k, more, slot))
    ensures var p := P.AfterCqe(s.poller, k, more, slot);
            && 1 <= p.nextKey && s.poller.held.Nothing?
            && (p.held.Held? && p.held.op.kind != P.Accept ==>
                  p.held.op.context.Some? && s.Alive(p.held.op.context.value))
  {
    assert OpOk(s, k);
    P.CqeKeeps(s.poller, k, more, slot);
  }

  /** Passing through Disconnecting makes no difference to closing. */
  lemma ForceCloseGoesThrough(s: State, fd: Fd)
    requires fd in s.conns && s.conns[fd].stage != Disconnected
    ensures var t := s.(conns := s.conns[fd := s.conns[fd].(stage := Disconnecting)]);
            AfterDoClosing(t, fd) == AfterDoClosing(s, fd)
  {
    var t := s.(conns := s.conns[fd := s.conns[fd].(stage := Disconnecting)]);
    assert Marked(t, fd) == Marked(s, fd);
  }
}
