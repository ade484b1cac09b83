/**
 What one event leaves of the connection it concerns: the completions of reads,
 writes and accepts, the calls of the library, and the stages of a connection.
 */
module ConnectionEffects {
  import P = Pollers
  import opened Shared
  import opened EventLoops
  import opened ConnectionLife

  // ---------------------------------------------------------------------------
  // Completions
  // ---------------------------------------------------------------------------

  /** The connections other than the one on `fd` are as they were, and so is the set of those to destroy. */
  ghost predicate OnlyChanges(s: State, s': State, fd: Fd) {
    && s'.closed == s.closed && s'.fdOf == s.fdOf && s'.nextId == s.nextId
    && (forall x :: x in s'.conns <==> x in s.conns)
    && (forall x :: x in s.conns && x != fd ==> s'.conns[x] == s.conns[x])
  }

  /** The operation leaves the table and is held for its callback. */
  lemma CompletionIsHeld(s: State, k: Key, slot: bool)
    requires Inv(s) && s.stack == [] && WillCallBack(s, k)
    ensures Legal(s, Completion(k, false, Again, slot))
    ensures P.AfterCqe(s.poller, k, false, slot)
            == s.poller.(ops := s.poller.ops - {k}, asked := s.poller.asked - {k},
                         held := P.Held(k, s.poller.ops[k], false))
  {
    assert OpOk(s, k) && P.KeyOk(s.poller, k);
    CompletionIsNotDropped(s, k);
  }

  /** What the completion of a read makes of connection `id` on `fd`. */
  predicate ReadLeaves(s: State, s': State, fd: Fd, id: Id, res: Result, slot: bool)
    requires fd in s.conns
  {
    && fd in s'.conns && s'.conns[fd].id == s.conns[fd].id
    && var c, c' := s.conns[fd], s'.conns[fd];
    && (!res.Ended? ==> c'.stage == c.stage && c'.write == c.write && s'.begun == s.begun)
    && match res
       case Moved(_) => s'.stack == [Reading(fd, id, true)] && !c'.read.busy
       case Ended =>
         && c'.stage == Disconnected && !c'.read.busy
         && s'.begun[id] == s.begun[id] + Count(c.stage != Disconnected)
         && (if c.stage == Disconnected then s'.stack == [Reading(fd, id, false)] && c'.write == c.write
             else s'.stack == [Reading(fd, id, false), InConnectionCallback(fd, id)] && !c'.write.busy)
       case Again => s'.stack == [] && (c'.read.busy <==> slot)
       case Failed => s'.stack == [] && !c'.read.busy
  }

  lemma ReadEffect(s: State, fd: Fd, id: Id, res: Result, slot: bool)
    requires s.stack == [] && fd in s.conns && s.conns[fd].id == id && !s.conns[fd].read.busy
    ensures var s' := AfterRead(s, fd, id, res, slot);
            ReadLeaves(s, s', fd, id, res, slot) && OnlyChanges(s, s', fd)
  {
    match res
    case Ended =>
      var f := s.(stack := s.stack + [Reading(fd, id, false)]);
      if f.conns[fd].stage != Disconnected { CancelEffect(Marked(f, fd), fd); }
    case _ =>
  }

  lemma CancelEffect(s: State, fd: Fd)
    requires fd in s.conns
    ensures var s' := AfterCancelIo(s, fd);
            && OnlyChanges(s, s', fd) && s'.stack == s.stack && s'.begun == s.begun && s'.conns[fd].id == s.conns[fd].id
            && s'.conns[fd].stage == s.conns[fd].stage && s'.conns[fd].closing == s.conns[fd].closing
            && !s'.conns[fd].read.busy && !s'.conns[fd].write.busy
  {
  }

  /**
   OnReadComplete.  Data: the message callback runs.  End of stream: the connection
   is disconnected, its closing begins unless it had begun, and nothing stays in
   flight.  Retry: a read is in flight again if and only if an entry is free.
   Error: nothing is in flight and the stage stays.
   */
  lemma ReadOutcome(s: State, k: Key, id: Id, res: Result, slot: bool)
    requires Inv(s) && s.stack == []
    requires WillCallBack(s, k) && s.poller.ops[k].kind == P.Read && s.poller.ops[k].context == Some(id)
    ensures s.Alive(id) && s.Of(id).read == Flight(true, k)
    ensures var s' := Step(s, Completion(k, false, res, slot));
            ReadLeaves(s, s', s.fdOf[id], id, res, slot) && OnlyChanges(s, s', s.fdOf[id])
  {
    assert OpOk(s, k);
    CompletionIsHeld(s, k, slot);
    var t, fd := s.(poller := P.AfterCqe(s.poller, k, false, slot)), s.fdOf[id];
    ReadDispatch(t, res, slot, fd, id);
    ReadEffect(Landed(t, fd, P.Read), fd, id, res, slot);
  }

  /** What the completion of a write makes of connection `id` on `fd`. */
  predicate WriteLeaves(s: State, s': State, fd: Fd, id: Id, res: Result, slot: bool)
    requires fd in s.conns
  {
    && fd in s'.conns && s'.conns[fd].id == s.conns[fd].id
    && var c, c' := s.conns[fd], s'.conns[fd];
    && c'.stage == c.stage && c'.read == c.read && s'.begun == s.begun
    && s'.stack == (if res == Moved(false) then [Writing(fd, id)] else [])
    && (c'.write.busy <==> slot && (res == Moved(true) || res == Again))
  }

  lemma WriteEffect(s: State, fd: Fd, id: Id, res: Result, slot: bool)
    requires s.stack == [] && fd in s.conns && s.conns[fd].id == id && !s.conns[fd].write.busy
    ensures var s' := AfterWrite(s, fd, id, res, slot);
            WriteLeaves(s, s', fd, id, res, slot) && OnlyChanges(s, s', fd)
  {
  }

  /**
   OnWriteComplete.  Output left over, or a retry: a write is in flight again if and
   only if an entry is free.  All written: the write-complete callback runs.
   Otherwise nothing is in flight.  Reading goes on undisturbed and the stage stays.
   */
  lemma WriteOutcome(s: State, k: Key, id: Id, res: Result, slot: bool)
    requires Inv(s) && s.stack == []
    requires WillCallBack(s, k) && s.poller.ops[k].kind == P.Write && s.poller.ops[k].context == Some(id)
    ensures s.Alive(id) && s.Of(id).write == Flight(true, k)
    ensures var s' := Step(s, Completion(k, false, res, slot));
            WriteLeaves(s, s', s.fdOf[id], id, res, slot) && OnlyChanges(s, s', s.fdOf[id])
  {
    assert OpOk(s, k);
    CompletionIsHeld(s, k, slot);
    var t, fd := s.(poller := P.AfterCqe(s.poller, k, false, slot)), s.fdOf[id];
    WriteDispatch(t, res, slot, fd, id);
    WriteEffect(Landed(t, fd, P.Write), fd, id, res, slot);
  }

  /** A completion of an accept starts the accept callback and concerns no connection. */
  lemma AcceptOutcome(s: State, k: Key, more: bool, res: Result, slot: bool)
    requires Inv(s) && Legal(s, Completion(k, more, res, slot))
    requires k in s.poller.ops && s.poller.ops[k].kind == P.Accept
    ensures var s' := Step(s, Completion(k, more, res, slot));
            && s'.stack == [Accepting] && s'.conns == s.conns && s'.closed == s.closed
            && s'.poller.held == P.Held(k, s.poller.ops[k], more)
  {
    assert P.KeyOk(s.poller, k);
    AcceptDispatch(s.(poller := P.AfterCqe(s.poller, k, more, slot)), res, slot);
  }

  /**
   After the accept callback the multishot accept stays in the table if and only if
   more completions are due; otherwise its context is deleted, and a new accept is
   submitted if and only if the acceptor still listens and an entry is free.
   */
  lemma AcceptsAgainIff(s: State, slot: bool, listening: bool)
    requires Inv(s) && s.stack == [Accepting]
    ensures var s', held := Step(s, Return(slot, listening)), s.poller.held;
            && held.Held? && s'.stack == [] && s'.conns == s.conns
            && (held.key in s'.poller.ops <==> held.more)
            && s'.poller.freed[held.key] == Count(!held.more)
            && (s.poller.nextKey in s'.poller.ops <==> slot && listening && !held.more)
            && (s.poller.nextKey in s'.poller.ops ==>
                  s'.poller.ops[s.poller.nextKey] == P.Op(P.Accept, None, Some(0), true, 0))
  {
    assert FrameOk(s, 0);
    assert P.KeyOk(s.poller, s.poller.held.key) && P.KeyOk(s.poller, s.poller.nextKey);
  }

  // ---------------------------------------------------------------------------
  // Calls
  // ---------------------------------------------------------------------------

  /** What a call of the library on connection `ev.fd` leaves of it, and the callback it makes. */
  ghost predicate CallLeaves(s: State, s': State, ev: Event)
    requires OnConnection(ev) && ev.fd in s.conns
  {
    && OnlyChanges(s, s', ev.fd) && s'.conns[ev.fd].id == s.conns[ev.fd].id
    && var c, c' := s.conns[ev.fd], s'.conns[ev.fd];
    match ev
    case OnEstablishing(fd) =>
      && c'.read == c.read && c'.write == c.write
      && (if c.stage == Connecting then c'.stage == Connected && s'.stack == s.stack + [Establishing(fd, c.id)]
          else c'.stage == c.stage && s'.stack == s.stack)
    case StartReading(_, slot) =>
      && c'.stage == c.stage && s'.stack == s.stack
      && (c'.read.busy <==> c.read.busy || slot) && c'.write == c.write
    case StartWriting(_, output, slot) =>
      && c'.stage == c.stage && s'.stack == s.stack
      && c'.read == c.read && (c'.write.busy <==> c.write.busy || (output && slot))
    case StopReadingWriting(_) =>
      c'.stage == c.stage && s'.stack == s.stack && !c'.read.busy && !c'.write.busy
    case ShutDownWrite(_) =>
      && c'.read == c.read && c'.write == c.write && s'.stack == s.stack
      && c'.stage == (if c.stage == Connected then Disconnecting else c.stage)
    case Close(fd) =>
      if c.stage == Disconnected then s' == s
      else
        && c'.stage == Disconnected && !c'.read.busy && !c'.write.busy
        && s'.stack == s.stack + [InConnectionCallback(fd, c.id)]
        && s'.begun[c.id] == s.begun[c.id] + 1
  }

  /**
   OnEstablishing connects a connecting connection and starts its callback, once;
   reading and writing are in flight afterwards if they were or an entry is free;
   StopReadingWriting and closing leave nothing in flight; closing an open
   connection starts its connection callback.
   */
  lemma CallOutcome(s: State, ev: Event)
    requires OnConnection(ev) && Legal(s, ev)
    ensures CallLeaves(s, Step(s, ev), ev)
  {
    match ev
    case StopReadingWriting(fd) => CancelEffect(s, fd);
    case Close(fd) => if s.conns[fd].stage != Disconnected { CancelEffect(Marked(s, fd), fd); }
    case OnEstablishing(_) =>
    case StartReading(_, _) =>
    case StartWriting(_, _, _) =>
    case ShutDownWrite(_) =>
  }

  /** What a returning callback leaves of the connection on `x`. */
  predicate ReturnLeaves(s: State, s': State, slot: bool, x: Fd)
    requires s.stack != [] && x in s.conns
  {
    var top := s.stack[|s.stack| - 1];
    && s'.fdOf == s.fdOf && x in s'.conns
    && s'.conns[x].id == s.conns[x].id && s'.conns[x].stage == s.conns[x].stage
    && s'.conns[x].write == s.conns[x].write
    && (s'.conns[x].read.busy <==> s.conns[x].read.busy || (slot && ReadsOn(top) && top.fd == x))
  }

  lemma SubmitEffect(s: State, fd: Fd, slot: bool, x: Fd)
    requires fd in s.conns && x in s.conns
    ensures var s' := AfterSubmitIo(s, fd, P.Read, slot);
            && s'.fdOf == s.fdOf && x in s'.conns
            && s'.conns[x].id == s.conns[x].id && s'.conns[x].stage == s.conns[x].stage
            && s'.conns[x].write == s.conns[x].write
            && (s'.conns[x].read.busy <==> s.conns[x].read.busy || (slot && fd == x))
  {
  }

  lemma ReturnOutcome(s: State, slot: bool, listening: bool, x: Fd)
    requires TopOk(s) && s.stack != [] && x in s.conns
    ensures ReturnLeaves(s, AfterReturn(s, slot, listening), slot, x)
  {
    match s.stack[|s.stack| - 1]
    case Establishing(fd, _) => SubmitEffect(Pop(s), fd, slot, x);
    case Reading(fd, _, _) => SubmitEffect(s, fd, slot, x);
    case InConnectionCallback(_, _) =>
    case InCloseCallback(_, _) =>
    case Writing(_, _) =>
    case Accepting =>
  }

  /**
   A new connection has a new identity, is not established, has nothing in flight and
   is registered without interest in any event; no other connection changes.
   */
  lemma InsertOutcome(s: State, fd: Fd)
    requires Inv(s) && fd !in s.conns
    ensures var s', id := Step(s, InsertNewConnection(fd)), s.nextId;
            && s'.Alive(id) && s'.fdOf[id] == fd && !s.Alive(id) && id !in s.fdOf
            && s'.Of(id).stage == Connecting && !s'.Of(id).read.busy && !s'.Of(id).write.busy
            && s'.Of(id).retries == 0
            && P.MaskOf(s'.poller, P.OfConnection(id)) == Some(0) && !P.Armed(s'.poller, P.OfConnection(id))
            && s'.poller.ops == s.poller.ops && s'.stack == s.stack
            && (forall x :: x in s.conns ==> x in s'.conns && s'.conns[x] == s.conns[x])
  {
    assert IdOk(s, s.nextId);
  }

  // ---------------------------------------------------------------------------
  // The sweep
  // ---------------------------------------------------------------------------

  lemma {:induction false} SweepSurvives(s: State, order: seq<Fd>, x: Fd)
    requires Lists(order, set fd | fd in order) && x in s.conns
    ensures x in Sweep(s, order).conns <==>
              (x in order && s.conns[x].stage == Disconnected ==> Waits(s.conns[x]))
    decreases |order|
  {
    if order != [] {
      SweepOneEffect(s, order[0], x);
      SweepOneEffect(s, order[0], order[0]);
      assert order == [order[0]] + order[1..];
      var s1 := SweepOne(s, order[0]);
      if x in s1.conns { SweepSurvives(s1, order[1..], x); }
      else { SweepEffect(s1, order[1..], x); }
    }
  }

  /**
   The sweep spares a disconnected connection if and only if it has an uncancelled
   operation in flight and has been spared fewer than 1000 times.  The wait counts one
   millisecond per sweep, so its limit of 2000 never decides.
   */
  lemma SweepSparesIff(s: State, order: seq<Fd>, fd: Fd)
    requires Inv(s) && Legal(s, DestroyClosed(order)) && fd in s.conns && s.conns[fd].stage == Disconnected
    ensures fd in Sweep(s, order).conns <==>
              (s.conns[fd].read.busy || s.conns[fd].write.busy) && s.conns[fd].retries < 1000
  {
    assert ConnOk(s, fd);
    assert Lists(order, set x | x in order);
    SweepSurvives(s, order, fd);
  }

  // ---------------------------------------------------------------------------
  // Stages and flights
  // ---------------------------------------------------------------------------

  /** The completion of an operation that belongs to connection `id`. */
  predicate CompletesOf(s: State, ev: Event, id: Id) {
    ev.Completion? && Legal(s, ev) && WillCallBack(s, ev.k) && s.poller.ops[ev.k].context == Some(id)
  }

  /** The completion of a read of connection `id` that reports the end of the stream. */
  predicate EndsStream(s: State, ev: Event, id: Id) {
    CompletesOf(s, ev, id) && s.poller.ops[ev.k].kind == P.Read && ev.res.Ended?
  }

  /** The life of a connection: established, shut down by us, closed by us or by the peer. */
  function StageAfter(s: State, ev: Event, id: Id): Stage
    requires s.Alive(id)
  {
    var stage, fd := s.Of(id).stage, s.fdOf[id];
    if ev == OnEstablishing(fd) && stage == Connecting then Connected
    else if ev == ShutDownWrite(fd) && stage == Connected then Disconnecting
    else if ev == Close(fd) || EndsStream(s, ev, id) then Disconnected
    else stage
  }

  /** The completion of an operation asks for the same again. */
  predicate Resubmits(kind: P.Kind, res: Result) { res == Again || (kind == P.Write && res == Moved(true)) }

  /** Whether connection `id` has a read (or else a write) in flight after an event. */
  predicate FliesAfter(s: State, ev: Event, id: Id, kind: P.Kind)
    requires s.Alive(id)
  {
    var busy, fd := FlightOf(s.Of(id), kind).busy, s.fdOf[id];
    if (ev == Close(fd) || EndsStream(s, ev, id)) && s.Of(id).stage != Disconnected then false
    else if CompletesOf(s, ev, id) && s.poller.ops[ev.k].kind == kind then Resubmits(kind, ev.res) && ev.slot
    else
      match ev
      case StartReading(x, slot) => busy || (x == fd && kind == P.Read && slot)
      case StartWriting(x, output, slot) => busy || (x == fd && kind == P.Write && output && slot)
      case StopReadingWriting(x) => busy && x != fd
      case Return(slot, _) =>
        || busy
        || (s.stack != [] && var top := s.stack[|s.stack| - 1];
            slot && kind == P.Read && ReadsOn(top) && top.fd == fd)
      case _ => busy
  }

  /** Connection `id`, if it survives, has the stage and the flights that the event gives it. */
  predicate Follows(s: State, s': State, ev: Event, id: Id)
    requires s.Alive(id)
  {
    s'.Alive(id) ==>
      && s'.Of(id).stage == StageAfter(s, ev, id)
      && (s'.Of(id).read.busy <==> FliesAfter(s, ev, id, P.Read))
      && (s'.Of(id).write.busy <==> FliesAfter(s, ev, id, P.Write))
  }

  lemma CallFollows(s: State, s': State, ev: Event, id: Id)
    requires OnConnection(ev) && ev.fd in s.conns && s.Alive(id) && CallLeaves(s, s', ev)
    ensures Follows(s, s', ev, id)
  {
  }

  lemma ReturnFollows(s: State, s': State, slot: bool, listening: bool, id: Id)
    requires s.Alive(id) && s.stack != [] && ReturnLeaves(s, s', slot, s.fdOf[id])
    ensures Follows(s, s', Return(slot, listening), id)
  {
  }

  lemma ReadFollows(s: State, s': State, ev: Event, self: Id, id: Id)
    requires s.Alive(self) && s.Alive(id) && CompletesOf(s, ev, self) && s.poller.ops[ev.k].kind == P.Read
    requires ReadLeaves(s, s', s.fdOf[self], self, ev.res, ev.slot) && OnlyChanges(s, s', s.fdOf[self])
    ensures Follows(s, s', ev, id)
  {
    assert s.fdOf[id] == s.fdOf[self] ==> id == self;
  }

  lemma WriteFollows(s: State, s': State, ev: Event, self: Id, id: Id)
    requires s.Alive(self) && s.Alive(id) && CompletesOf(s, ev, self) && s.poller.ops[ev.k].kind == P.Write
    requires WriteLeaves(s, s', s.fdOf[self], self, ev.res, ev.slot) && OnlyChanges(s, s', s.fdOf[self])
    ensures Follows(s, s', ev, id)
  {
    assert s.fdOf[id] == s.fdOf[self] ==> id == self;
  }

  /** A cancelled operation, a poll, an accept or an unknown key: no connection is concerned. */
  lemma SilentFollows(s: State, ev: Event, id: Id)
    requires Inv(s) && ev.Completion? && Legal(s, ev) && !WillCallBack(s, ev.k) && s.Alive(id)
    ensures Follows(s, Step(s, ev), ev, id)
  {
    var p := P.AfterCqe(s.poller, ev.k, ev.more, ev.slot);
    assert p.held.Held? ==> p.held.op.kind == P.Accept;
    assert Step(s, ev).conns == s.conns && Step(s, ev).fdOf == s.fdOf;
  }

  lemma CompletionFollows(s: State, ev: Event, id: Id)
    requires Inv(s) && ev.Completion? && Legal(s, ev) && s.Alive(id)
    ensures Follows(s, Step(s, ev), ev, id)
  {
    if !WillCallBack(s, ev.k) {
      SilentFollows(s, ev, id);
    } else {
      assert OpOk(s, ev.k);
      var self := s.poller.ops[ev.k].context.value;
      assert ev == Completion(ev.k, false, ev.res, ev.slot);
      if s.poller.ops[ev.k].kind == P.Read {
        ReadOutcome(s, ev.k, self, ev.res, ev.slot);
        ReadFollows(s, Step(s, ev), ev, self, id);
      } else {
        WriteOutcome(s, ev.k, self, ev.res, ev.slot);
        WriteFollows(s, Step(s, ev), ev, self, id);
      }
    }
  }

  lemma SweepFollows(s: State, order: seq<Fd>, id: Id)
    requires Inv(s) && Legal(s, DestroyClosed(order)) && s.Alive(id)
    ensures Follows(s, Sweep(s, order), DestroyClosed(order), id)
  {
    assert Lists(order, set fd | fd in order);
    SweepEffect(s, order, s.fdOf[id]);
  }

  lemma OtherCallFollows(s: State, ev: Event, id: Id)
    requires s.Alive(id) && id < s.nextId && Legal(s, ev)
    requires ev.InsertNewConnection? || ev.DeleteConnection? || ev.SubmitAccept? || ev.SetInterest?
    ensures Follows(s, Step(s, ev), ev, id)
  {
  }

  /**
   In every event of every run, a connection that survives it is in exactly the
   next stage of its life: only its own OnEstablishing connects it, only its own
   ShutDownWrite half-closes it, and only a close or the end of its stream
   disconnects it.  It has a read or a write in flight exactly when it had one or
   asked for one with an entry free, and neither completion nor cancellation ended
   it.
   */
  lemma StepFollows(s: State, ev: Event, id: Id)
    requires Inv(s) && s.Alive(id)
    ensures Follows(s, Step(s, ev), ev, id)
  {
    assert IdOk(s, id);
    if Legal(s, ev) {
      match ev
      case Return(slot, listening) => ReturnStepFollows(s, slot, listening, id);
      case Completion(_, _, _, _) => CompletionFollows(s, ev, id);
      case DestroyClosed(order) => SweepFollows(s, order, id);
      case _ =>
        if OnConnection(ev) {
          CallOutcome(s, ev);
          CallFollows(s, Step(s, ev), ev, id);
        } else {
          OtherCallFollows(s, ev, id);
        }
    }
  }

  lemma ReturnStepFollows(s: State, slot: bool, listening: bool, id: Id)
    requires Inv(s) && s.Alive(id)
    ensures Follows(s, AfterReturn(s, slot, listening), Return(slot, listening), id)
  {
    if s.stack != [] {
      TopIsOk(s);
      ReturnOutcome(s, slot, listening, s.fdOf[id]);
      ReturnFollows(s, AfterReturn(s, slot, listening), slot, listening, id);
    }
  }
}
