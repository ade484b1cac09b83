/**
 The log thread on top of the ring: the write-down loop, the mutex and condition
 variable, and shutdown.

 Thread `LOG` is the only one that dequeues; every other thread is a producer.
 `EndLogger` runs on a thread of its own that is neither.
 */
module LogThread {
  import opened LogRing

  const LOG: Tid := 0

  datatype Lock = Free | HeldByLog | HeldBy(producer: Tid, notified: bool)

  /** Program points of the write-down loop. */
  datatype LogPc =
    | CheckStop        // load is_stopping_ in the loop condition
    | CheckPending     // load pending_ in the loop condition
    | Drain            // inside Dequeue
    | Write(rec: Record)
    | Recheck          // load pending_ after the flush
    | TakeLock
    | LockedStop       // load is_stopping_ under the lock
    | LockedPending    // load pending_ under the lock
    | StartWait        // release the lock and block, atomically
    | Waiting
    | Woken            // reacquire the lock, then leave its scope
    | Exited

  datatype Ender = Running | Stopped | Joining

  datatype Logger = Logger(
    ring: Ring,
    pc: LogPc,
    lock: Lock,
    stopping: bool,
    ender: Ender,
    file: seq<Record>,
    signaller: Tid)    // history: the last producer that found `pending_` at zero

  datatype Move =
    | Producer(t: Tid, c: Choice)
    | Log(c: Choice)
    | StoreStop        // EndLogger stores is_stopping_
    | NotifyStop       // EndLogger notifies, without the mutex
    | SpuriousWake

  function Start(n: nat): (s: Logger)
    requires 2 <= n
    ensures LInv(s)
  {
    Logger(Init(n), CheckStop, Free, false, Running, [], LOG)
  }

  function Notify(s: Logger): Logger { if s.pc == Waiting then s.(pc := Woken) else s }

  /** The producer that saw `pending_` at zero locks, notifies and unlocks. */
  function SignalStep(s: Logger, t: Tid): Logger
    requires Inv(s.ring)
  {
    if s.lock == Free then s.(lock := HeldBy(t, false))
    else if s.lock == HeldBy(t, false) then Notify(s).(lock := HeldBy(t, true))
    else if s.lock == HeldBy(t, true) then s.(lock := Free, ring := Advance(s.ring, t, Proceed))
    else s
  }

  function ProducerStep(s: Logger, t: Tid, c: Choice): Logger
    requires Inv(s.ring)
  {
    if t == LOG || c == BeginDequeue then s
    else if s.ring.At(t).EnqSignal? then SignalStep(s, t)
    else
      s.(ring := Advance(s.ring, t, c),
         signaller := if s.ring.At(t).EnqPublished? && s.ring.pending == 0 then t else s.signaller)
  }

  /** The loop around Dequeue, after one ring access led to `ring`. */
  function DrainTo(s: Logger, ring: Ring): Logger {
    var before := s.ring.At(LOG);
    s.(ring := ring,
       pc := if !ring.At(LOG).Idle? then Drain
             else if before.DeqReleased? then Write(before.rec) else Recheck)
  }

  function DrainStep(s: Logger, c: Choice): Logger
    requires Inv(s.ring)
  {
    DrainTo(s, Advance(s.ring, LOG, if s.ring.At(LOG).Idle? then BeginDequeue else c))
  }

  function LogStep(s: Logger, c: Choice): Logger
    requires Inv(s.ring)
  {
    match s.pc
    case CheckStop => s.(pc := if s.stopping then CheckPending else Drain)
    case CheckPending => s.(pc := if s.ring.pending == 0 then Exited else Drain)
    case Drain => DrainStep(s, c)
    case Write(rec) => s.(file := s.file + [rec], pc := Drain)
    case Recheck => s.(pc := if s.ring.pending == 0 then TakeLock else CheckStop)
    case TakeLock => if s.lock == Free then s.(lock := HeldByLog, pc := LockedStop) else s
    case LockedStop => if s.stopping then s.(lock := Free, pc := CheckStop) else s.(pc := LockedPending)
    case LockedPending => if s.ring.pending == 0 then s.(pc := StartWait) else s.(lock := Free, pc := CheckStop)
    case StartWait => s.(lock := Free, pc := Waiting)
    case Waiting => s
    case Woken => if s.lock == Free then s.(pc := CheckStop) else s
    case Exited => s
  }

  function Step(s: Logger, m: Move): Logger
    requires Inv(s.ring)
  {
    match m
    case Producer(t, c) => ProducerStep(s, t, c)
    case Log(c) => LogStep(s, c)
    case StoreStop => if s.ender == Running then s.(stopping := true, ender := Stopped) else s
    case NotifyStop => if s.ender == Stopped then Notify(s).(ender := Joining) else s
    case SpuriousWake => Notify(s)
  }

  // ---------------------------------------------------------------------------
  // The invariant
  // ---------------------------------------------------------------------------

  predicate ReaderPc(pc: Pc) {
    pc.DeqStart? || pc.DeqLoaded? || pc.DeqCas? || pc.DeqClaimed? || pc.DeqTaken? || pc.DeqReleased?
  }

  predicate Consumes(pc: Pc) { pc.DeqClaimed? || pc.DeqTaken? || pc.DeqReleased? }

  function Records(tickets: seq<Ticket>): (rs: seq<Record>)
    ensures |rs| == |tickets|
    ensures forall i :: 0 <= i < |tickets| ==> rs[i] == tickets[i].rec
  {
    seq(|tickets|, i requires 0 <= i < |tickets| => tickets[i].rec)
  }

  /** Only the log thread reads, and it reads tickets one at a time. */
  ghost predicate RolesOk(r: Ring) {
    && (forall t: Tid :: t in r.threads && t != LOG ==> !ReaderPc(r.threads[t]))
    && (r.At(LOG).Idle? || ReaderPc(r.At(LOG)))
    && (forall i :: 0 <= i < |r.tickets| && r.tickets[i].stage in {Reading, Released} ==> r.tickets[i].reader == LOG)
    && (Consumes(r.At(LOG)) ==> r.At(LOG).pos + 1 == r.readIndex)
  }

  /** A producer that will still notify. */
  predicate WillNotify(s: Logger, t: Tid) {
    s.ring.At(t).EnqSignal? && s.lock != HeldBy(t, true)
  }

  ghost predicate LockOk(s: Logger) {
    && (s.lock == HeldByLog <==> s.pc in {LockedStop, LockedPending, StartWait})
    && (s.lock.HeldBy? ==> s.lock.producer != LOG && s.ring.At(s.lock.producer).EnqSignal?)
  }

  /** While the log thread sleeps, a positive `pending_` has a notification under way. */
  ghost predicate WaitOk(s: Logger) {
    s.pc in {StartWait, Waiting} ==>
      s.ring.pending == 0 || (0 < s.ring.pending && WillNotify(s, s.signaller))
  }

  function WrittenCount(s: Logger): int {
    s.ring.readIndex - if s.pc.Write? || Consumes(s.ring.At(LOG)) then 1 else 0
  }

  /** The file holds the records of the first tickets, in ticket order. */
  ghost predicate FileOk(s: Logger)
    requires Shape(s.ring)
  {
    && 0 <= WrittenCount(s)
    && s.file == Records(s.ring.tickets[..WrittenCount(s)])
    && (s.pc.Write? ==> s.pc.rec == s.ring.tickets[s.ring.readIndex - 1].rec)
  }

  ghost predicate LInv(s: Logger) {
    && Inv(s.ring)
    && RolesOk(s.ring)
    && (s.pc != Drain ==> s.ring.At(LOG).Idle?)
    && (s.pc in {CheckPending, Exited} ==> s.stopping)
    && LockOk(s)
    && WaitOk(s)
    && FileOk(s)
  }

  // ---------------------------------------------------------------------------
  // Preservation
  // ---------------------------------------------------------------------------

  /** Threads other than `t` are where they were. */
  ghost predicate SameElsewhere(r: Ring, r': Ring, t: Tid) {
    forall u: Tid :: u != t ==> SameAt(r, r', u)
  }

  predicate SameAt(r: Ring, r': Ring, u: Tid) {
    (u in r'.threads <==> u in r.threads) && (u in r.threads ==> r'.threads[u] == r.threads[u])
  }

  lemma EnqueueLeaves(r: Ring, t: Tid, c: Choice, u: Tid)
    requires Inv(r) && u != t && !ReaderPc(r.At(t))
    ensures SameAt(r, Advance(r, t, c), u)
  {
    match r.At(t)
    case Idle =>
    case EnqStart(_) =>
    case EnqLoaded(_, _) =>
    case EnqCas(_, _) =>
    case EnqClaimed(_, _) =>
    case EnqWritten(_) =>
    case EnqPublished(_) =>
    case EnqSignal(_) =>
  }

  lemma DequeueLeaves(r: Ring, t: Tid, c: Choice, u: Tid)
    requires Inv(r) && u != t && ReaderPc(r.At(t))
    ensures SameAt(r, Advance(r, t, c), u)
  {
    match r.At(t)
    case DeqStart =>
    case DeqLoaded(_) =>
    case DeqCas(_) =>
    case DeqClaimed(_) =>
    case DeqTaken(_, _) =>
    case DeqReleased(_, _) =>
  }

  /** A ring access of a producer leaves the tickets that are being read alone. */
  ghost predicate TicketsKept(r: Ring, r': Ring) {
    && |r.tickets| <= |r'.tickets|
    && (forall i :: 0 <= i < |r'.tickets| && r'.tickets[i].stage in {Reading, Released} ==>
          i < |r.tickets| && r'.tickets[i] == r.tickets[i])
    && (forall i :: 0 <= i < |r.tickets| ==> r'.tickets[i].rec == r.tickets[i].rec)
  }

  lemma ProducerTickets(r: Ring, t: Tid, c: Choice)
    requires Inv(r) && t != LOG && c != BeginDequeue && !ReaderPc(r.At(t))
    ensures TicketsKept(r, Advance(r, t, c))
  {
    assert t in r.threads ==> ThreadOk(r, t);
  }

  ghost predicate StaysProducer(r: Ring, r': Ring, t: Tid) {
    r'.readIndex == r.readIndex && !ReaderPc(r'.At(t)) && SameElsewhere(r, r', t)
  }

  lemma ProducerIndex(r: Ring, t: Tid, c: Choice)
    requires Inv(r) && !ReaderPc(r.At(t))
    ensures Advance(r, t, c).readIndex == r.readIndex
  {
  }

  lemma ProducerPlace(r: Ring, t: Tid, c: Choice)
    requires Inv(r) && c != BeginDequeue && !ReaderPc(r.At(t))
    ensures !ReaderPc(Advance(r, t, c).At(t))
  {
  }

  ghost predicate Counted(r: Ring, r': Ring, t: Tid) {
    && r'.pending == r.pending + (if r.At(t).EnqPublished? then 1 else 0)
    && (r.At(t).EnqPublished? && r.pending == 0 ==> r'.At(t).EnqSignal?)
    && (r.At(t).EnqSignal? ==> r' == r.Goto(t, Idle))
  }

  lemma ProducerCounts(r: Ring, t: Tid, c: Choice)
    requires Inv(r) && !ReaderPc(r.At(t)) && c != BeginDequeue
    ensures Counted(r, Advance(r, t, c), t)
  {
  }

  /** What one ring access of a producer leaves alone. */
  ghost predicate ProducerMoved(r: Ring, r': Ring, t: Tid) {
    && RolesOk(r')
    && r'.readIndex == r.readIndex
    && r'.At(LOG) == r.At(LOG)
    && (forall u: Tid :: u != t ==> r'.At(u) == r.At(u))
    && |r.tickets| <= |r'.tickets|
    && Records(r'.tickets[..|r.tickets|]) == Records(r.tickets)
    && Counted(r, r', t)
  }

  lemma MovedProducer(r: Ring, r': Ring, t: Tid)
    requires RolesOk(r) && t != LOG && TicketsKept(r, r') && StaysProducer(r, r', t) && Counted(r, r', t)
    ensures ProducerMoved(r, r', t)
  {
    assert SameAt(r, r', LOG);
    forall u: Tid | u != t ensures r'.At(u) == r.At(u) { assert SameAt(r, r', u); }
    forall u: Tid | u in r'.threads && u != LOG ensures !ReaderPc(r'.threads[u]) {
      assert u != t ==> SameAt(r, r', u);
      assert u == t ==> r'.At(t) == r'.threads[t];
    }
  }

  lemma ProducerFrame(r: Ring, t: Tid, c: Choice)
    requires Inv(r) && RolesOk(r) && t != LOG && c != BeginDequeue
    ensures ProducerMoved(r, Advance(r, t, c), t)
  {
    ProducerTickets(r, t, c);
    ProducerIndex(r, t, c);
    ProducerPlace(r, t, c);
    ProducerCounts(r, t, c);
    forall u: Tid | u != t ensures SameAt(r, Advance(r, t, c), u) { EnqueueLeaves(r, t, c, u); }
    MovedProducer(r, Advance(r, t, c), t);
  }

  lemma RecordsPrefix(a: seq<Ticket>, b: seq<Ticket>, k: nat)
    requires |a| <= |b| && Records(b[..|a|]) == Records(a) && k <= |a|
    ensures Records(b[..k]) == Records(a[..k])
  {
    assert Records(b[..k]) == Records(b[..|a|])[..k];
    assert Records(a[..k]) == Records(a)[..k];
  }

  /** A producer's step for any ring `r'` that `ProducerFrame` describes. */
  lemma ProducerRing(s: Logger, r': Ring, signaller: Tid)
    requires LInv(s) && Inv(r') && RolesOk(r')
    requires r'.readIndex == s.ring.readIndex && r'.At(LOG) == s.ring.At(LOG)
    requires |s.ring.tickets| <= |r'.tickets|
    requires Records(r'.tickets[..|s.ring.tickets|]) == Records(s.ring.tickets)
    requires forall u: Tid :: s.ring.At(u).EnqSignal? ==> r'.At(u) == s.ring.At(u)
    requires s.ring.pending <= r'.pending
    requires if s.ring.pending == 0 && r'.pending != 0
             then r'.At(signaller).EnqSignal? && !s.ring.At(signaller).EnqSignal?
             else signaller == s.signaller
    ensures LInv(s.(ring := r', signaller := signaller))
  {
    ProducerFile(s, r', signaller);
  }

  lemma ProducerFile(s: Logger, r': Ring, signaller: Tid)
    requires Shape(s.ring) && Shape(r') && FileOk(s)
    requires r'.readIndex == s.ring.readIndex && r'.At(LOG) == s.ring.At(LOG)
    requires |s.ring.tickets| <= |r'.tickets|
    requires Records(r'.tickets[..|s.ring.tickets|]) == Records(s.ring.tickets)
    ensures FileOk(s.(ring := r', signaller := signaller))
  {
    RecordsPrefix(s.ring.tickets, r'.tickets, WrittenCount(s));
    assert s.pc.Write? ==> Records(r'.tickets[..|s.ring.tickets|])[s.ring.readIndex - 1] == s.pc.rec;
  }

  lemma ProducerKeeps(s: Logger, t: Tid, c: Choice)
    requires LInv(s)
    ensures LInv(ProducerStep(s, t, c))
  {
    if t == LOG || c == BeginDequeue {
    } else if s.ring.At(t).EnqSignal? {
      SignalKeeps(s, t);
    } else {
      var s' := ProducerStep(s, t, c);
      AdvanceKeeps(s.ring, t, c);
      ProducerFrame(s.ring, t, c);
      ProducerRing(s, s'.ring, s'.signaller);
    }
  }

  lemma SignalKeeps(s: Logger, t: Tid)
    requires LInv(s) && t != LOG && s.ring.At(t).EnqSignal?
    ensures LInv(SignalStep(s, t))
  {
    if s.lock == HeldBy(t, true) {
      AdvanceKeeps(s.ring, t, Proceed);
      ProducerFrame(s.ring, t, Proceed);
      SignalEnds(s, t, Advance(s.ring, t, Proceed));
    } else {
      SignalLocks(s, t);
    }
  }

  /** The producer unlocks after its notification. */
  lemma SignalEnds(s: Logger, t: Tid, r': Ring)
    requires LInv(s) && t != LOG && s.lock == HeldBy(t, true)
    requires Inv(r') && RolesOk(r') && r' == s.ring.Goto(t, Idle)
    ensures LInv(s.(lock := Free, ring := r'))
  {
  }

  lemma SignalLocks(s: Logger, t: Tid)
    requires LInv(s) && t != LOG && s.ring.At(t).EnqSignal? && s.lock != HeldBy(t, true)
    ensures LInv(SignalStep(s, t))
  {
    if s.lock == Free { SignalTakesLock(s, t); } else if s.lock == HeldBy(t, false) { SignalNotifies(s, t); }
  }

  lemma SignalTakesLock(s: Logger, t: Tid)
    requires LInv(s) && t != LOG && s.ring.At(t).EnqSignal? && s.lock == Free
    ensures LInv(s.(lock := HeldBy(t, false)))
  {
  }

  lemma SignalNotifies(s: Logger, t: Tid)
    requires LInv(s) && t != LOG && s.ring.At(t).EnqSignal? && s.lock == HeldBy(t, false)
    ensures LInv(Notify(s).(lock := HeldBy(t, true)))
  {
  }

  /** What one ring access of the log thread does. */
  ghost predicate ReaderMoved(r: Ring, r': Ring) {
    var pc, pc' := r.At(LOG), r'.At(LOG);
    && RolesOk(r')
    && (forall u: Tid :: u != LOG ==> r'.At(u) == r.At(u))
    && Records(r'.tickets) == Records(r.tickets)
    && r'.readIndex - (if Consumes(pc') then 1 else 0)
       == r.readIndex - (if pc.DeqClaimed? || pc.DeqTaken? then 1 else 0)
    && (pc'.Idle? ==> pc.DeqLoaded? || pc.DeqReleased?)
    && (pc.DeqReleased? ==>
          && pc'.Idle?
          && 0 <= r.readIndex - 1 < |r.tickets|
          && pc.rec == r.tickets[r.readIndex - 1].rec)
  }

  ghost predicate StaysReader(r: Ring, r': Ring) {
    && SameElsewhere(r, r', LOG)
    && (r'.At(LOG).Idle? || ReaderPc(r'.At(LOG)))
    && (Consumes(r'.At(LOG)) ==> r'.At(LOG).pos + 1 == r'.readIndex)
    && |r'.tickets| == |r.tickets|
    && (forall i :: 0 <= i < |r'.tickets| && r'.tickets[i].stage in {Reading, Released} ==> r'.tickets[i].reader == LOG)
  }

  lemma ReaderRoles(r: Ring, r': Ring)
    requires RolesOk(r) && StaysReader(r, r')
    ensures RolesOk(r') && forall u: Tid :: u != LOG ==> r'.At(u) == r.At(u)
  {
    forall u: Tid | u != LOG ensures r'.At(u) == r.At(u) { assert SameAt(r, r', u); }
    forall u: Tid | u in r'.threads && u != LOG ensures !ReaderPc(r'.threads[u]) { assert SameAt(r, r', u); }
  }

  lemma ReaderPlace(r: Ring, c: Choice)
    requires Inv(r) && RolesOk(r) && (r.At(LOG).Idle? ==> c == BeginDequeue)
    ensures var r' := Advance(r, LOG, c);
            && (r'.At(LOG).Idle? || ReaderPc(r'.At(LOG)))
            && (Consumes(r'.At(LOG)) ==> r'.At(LOG).pos + 1 == r'.readIndex)
  {
    match r.At(LOG)
    case Idle =>
    case DeqStart =>
    case DeqLoaded(_) =>
    case DeqCas(_) =>
    case DeqClaimed(_) =>
    case DeqTaken(_, _) =>
    case DeqReleased(_, _) =>
  }

  lemma ReaderTickets(r: Ring, c: Choice)
    requires Inv(r) && RolesOk(r) && (r.At(LOG).Idle? ==> c == BeginDequeue)
    ensures var r' := Advance(r, LOG, c);
            && |r'.tickets| == |r.tickets|
            && forall i :: 0 <= i < |r'.tickets| && r'.tickets[i].stage in {Reading, Released} ==>
                 r'.tickets[i].reader == LOG
  {
    assert LOG in r.threads ==> ThreadOk(r, LOG);
  }

  lemma ReaderIndex(r: Ring, c: Choice)
    requires Inv(r) && RolesOk(r) && (r.At(LOG).Idle? ==> c == BeginDequeue)
    ensures var r' := Advance(r, LOG, c);
            var pc, pc' := r.At(LOG), r'.At(LOG);
            && r'.readIndex - (if Consumes(pc') then 1 else 0)
               == r.readIndex - (if pc.DeqClaimed? || pc.DeqTaken? then 1 else 0)
            && (pc'.Idle? ==> pc.DeqLoaded? || pc.DeqReleased?)
            && (pc.DeqReleased? ==>
                  && pc'.Idle?
                  && 0 <= r.readIndex - 1 < |r.tickets|
                  && pc.rec == r.tickets[r.readIndex - 1].rec)
  {
    assert LOG in r.threads ==> ThreadOk(r, LOG);
  }

  lemma ReaderFrame(r: Ring, c: Choice)
    requires Inv(r) && RolesOk(r) && (r.At(LOG).Idle? ==> c == BeginDequeue)
    ensures ReaderMoved(r, Advance(r, LOG, c))
  {
    var r' := Advance(r, LOG, c);
    ReaderPlace(r, c);
    ReaderTickets(r, c);
    forall u: Tid | u != LOG ensures SameAt(r, r', u) {
      if r.At(LOG).Idle? { EnqueueLeaves(r, LOG, c, u); } else { DequeueLeaves(r, LOG, c, u); }
    }
    ReaderRoles(r, r');
    ReaderIndex(r, c);
    HistoryIsStable(r, LOG, c);
  }

  lemma DrainToFile(s: Logger, r': Ring)
    requires Shape(s.ring) && FileOk(s) && s.pc == Drain && Shape(r') && ReaderMoved(s.ring, r')
    ensures FileOk(DrainTo(s, r'))
  {
    assert r'.tickets[..|s.ring.tickets|] == r'.tickets;
    RecordsPrefix(s.ring.tickets, r'.tickets, WrittenCount(s));
    assert 0 < s.ring.readIndex ==>
        Records(r'.tickets)[s.ring.readIndex - 1] == s.ring.tickets[s.ring.readIndex - 1].rec;
  }

  lemma DrainToKeeps(s: Logger, r': Ring)
    requires LInv(s) && s.pc == Drain && Inv(r') && ReaderMoved(s.ring, r')
    ensures LInv(DrainTo(s, r'))
  {
    DrainToFile(s, r');
  }

  lemma DrainKeeps(s: Logger, c: Choice)
    requires LInv(s) && s.pc == Drain
    ensures LInv(DrainStep(s, c))
  {
    var c' := if s.ring.At(LOG).Idle? then BeginDequeue else c;
    AdvanceKeeps(s.ring, LOG, c');
    ReaderFrame(s.ring, c');
    DrainToKeeps(s, Advance(s.ring, LOG, c'));
  }

  lemma WriteKeeps(s: Logger, rec: Record)
    requires LInv(s) && s.pc == Write(rec)
    ensures LInv(s.(file := s.file + [rec], pc := Drain))
  {
    var k := s.ring.readIndex;
    assert Records(s.ring.tickets[..k]) == Records(s.ring.tickets[..k - 1]) + [rec];
  }

  /** The checks, the lock and the wait leave the ring and the file alone. */
  lemma ControlKeeps(s: Logger, c: Choice)
    requires LInv(s) && s.pc != Drain && !s.pc.Write?
    ensures LInv(LogStep(s, c))
  {
    if s.pc in {TakeLock, LockedStop, LockedPending, StartWait} { LockKeeps(s, c); } else { CheckKeeps(s, c); }
  }

  lemma LockKeeps(s: Logger, c: Choice)
    requires LInv(s) && s.pc in {TakeLock, LockedStop, LockedPending, StartWait}
    ensures LInv(LogStep(s, c))
  {
    PcMoves(s, LogStep(s, c).pc, LogStep(s, c).lock);
  }

  lemma CheckKeeps(s: Logger, c: Choice)
    requires LInv(s) && s.pc in {CheckStop, CheckPending, Recheck, Waiting, Woken, Exited}
    ensures LInv(LogStep(s, c))
  {
    PcMoves(s, LogStep(s, c).pc, s.lock);
  }

  /** Moving between program points outside Dequeue leaves the file as it should be. */
  lemma PcMoves(s: Logger, pc: LogPc, lock: Lock)
    requires Shape(s.ring) && FileOk(s) && !s.pc.Write? && !pc.Write?
    ensures FileOk(s.(pc := pc, lock := lock))
  {
  }

  lemma LogKeeps(s: Logger, c: Choice)
    requires LInv(s)
    ensures LInv(LogStep(s, c))
  {
    match s.pc
    case Drain => DrainKeeps(s, c);
    case Write(rec) => WriteKeeps(s, rec);
    case _ => ControlKeeps(s, c);
  }

  /** Every move of a producer, the log thread, EndLogger or the scheduler keeps the invariant. */
  lemma StepKeeps(s: Logger, m: Move)
    requires LInv(s)
    ensures LInv(Step(s, m))
  {
    match m
    case Producer(t, c) => ProducerKeeps(s, t, c);
    case Log(c) => LogKeeps(s, c);
    case _ =>
  }

  // ---------------------------------------------------------------------------
  // Results over every run
  // ---------------------------------------------------------------------------

  function Run(s: Logger, moves: seq<Move>): (s': Logger)
    requires LInv(s)
    ensures LInv(s')
    decreases |moves|
  {
    if moves == [] then s
    else
      StepKeeps(s, moves[0]);
      Run(Step(s, moves[0]), moves[1..])
  }

  /** The producer has stored slot.seq and still owes a notification check or a notification. */
  predicate OwesSignal(s: Logger, t: Tid) {
    s.ring.At(t).EnqPublished? || WillNotify(s, t)
  }

  lemma SubsetSize<T>(a: set<T>, b: set<T>)
    requires a <= b
    ensures |a| <= |b|
    ensures |a| == |b| ==> a == b
  {
    assert |b - a| == |b| - |a|;
  }

  /** With the log thread outside Dequeue, the consumed tickets are those below the read index. */
  lemma TakenIsPrefix(s: Logger)
    requires LInv(s) && s.ring.At(LOG).Idle?
    ensures forall i: nat :: i in s.ring.taken <==> i < s.ring.readIndex
  {
    forall i: nat
      ensures i in s.ring.taken <==> i < s.ring.readIndex
    {
      if i < |s.ring.tickets| { assert TicketOk(s.ring, i); }
    }
  }

  /** A counted-out ticket whose producer has left its publishing code was counted in. */
  lemma CountedIn(s: Logger, i: nat)
    requires LInv(s) && i < |s.ring.tickets| && s.ring.tickets[i].stage != Writing
    requires !s.ring.At(s.ring.tickets[i].writer).EnqPublished?
    ensures i in s.ring.added
  {
    var t := s.ring.tickets[i].writer;
    assert TicketOk(s.ring, i) && (t in s.ring.threads ==> ThreadOk(s.ring, t));
  }

  /**
   No lost wake-up: whenever the log thread is blocked and no producer is between
   its store of slot.seq and its notification, no published record is in the ring.
   */
  lemma NoLostWakeup(n: nat, moves: seq<Move>)
    requires 2 <= n
    ensures var s := Run(Start(n), moves);
            s.pc == Waiting && (forall t: Tid :: !OwesSignal(s, t)) ==>
              forall i :: 0 <= i < |s.ring.tickets| ==> s.ring.tickets[i].stage != Published
  {
    var s := Run(Start(n), moves);
    if s.pc == Waiting && forall t: Tid :: !OwesSignal(s, t) {
      var r := s.ring;
      assert !OwesSignal(s, s.signaller);
      TakenIsPrefix(s);
      forall i: nat | i < |r.tickets| && r.tickets[i].stage != Writing
        ensures i in r.added
      {
        assert !OwesSignal(s, r.tickets[i].writer);
        CountedIn(s, i);
      }
      forall i | i in r.taken.Keys ensures i in r.added { assert TicketOk(r, i); }
      SubsetSize(r.taken.Keys, r.added);
      forall i: nat | i < |r.tickets| ensures r.tickets[i].stage != Published { assert TicketOk(r, i); }
    }
  }

  /** The producer is between its claim and its increment of `pending_`. */
  predicate Unpublished(s: Logger, t: Tid) {
    var pc := s.ring.At(t);
    pc.EnqClaimed? || pc.EnqWritten? || pc.EnqPublished?
  }

  /** A set of numbers below `n` has at most `n` members, and `n` only if it has them all. */
  lemma {:induction false} Below(a: set<nat>, n: nat)
    requires forall i :: i in a ==> i < n
    ensures |a| <= n
    ensures |a| == n ==> forall i :: 0 <= i < n ==> i in a
    ensures (forall i :: 0 <= i < n ==> i in a) ==> |a| == n
    decreases n
  {
    if n == 0 {
      assert a == {};
    } else {
      var b := a - {n - 1};
      Below(b, n - 1);
      if n - 1 in a {
        assert |a| == |b| + 1;
        assert forall i :: 0 <= i < n - 1 ==> (i in a <==> i in b);
      } else {
        assert a == b;
      }
    }
  }

  /**
   When the loop exits, the file holds every accepted record in ticket order
   exactly when no producer is between its claim and its increment of `pending_`.
   */
  lemma ExitIsCompleteIffProducersDone(s: Logger)
    requires LInv(s) && s.pc == CheckPending && s.ring.pending == 0
    ensures s.file == Records(s.ring.tickets) <==> forall t: Tid :: !Unpublished(s, t)
  {
    var r := s.ring;
    TakenIsPrefix(s);
    Below(r.taken.Keys, r.readIndex);
    Below(r.added, |r.tickets|);
    assert s.file == Records(r.tickets[..r.readIndex]);
    if s.file == Records(r.tickets) {
      assert r.readIndex == |r.tickets|;
      forall t: Tid ensures !Unpublished(s, t) { assert t in r.threads ==> ThreadOk(r, t); }
    }
    if forall t: Tid :: !Unpublished(s, t) {
      forall i: nat | i < |r.tickets| ensures i in r.added {
        assert TicketOk(r, i);
        assert !Unpublished(s, r.tickets[i].writer);
      }
      assert r.readIndex == |r.tickets|;
      assert r.tickets[..r.readIndex] == r.tickets;
    }
  }

  ghost predicate ProducersIdle(s: Logger) {
    forall t: Tid :: t != LOG ==> s.ring.At(t) == Idle
  }

  /** A move that begins no new Enqueue. */
  predicate Calm(m: Move) { m.Producer? ==> !m.c.BeginEnqueue? }

  lemma {:induction false} CalmRun(s: Logger, moves: seq<Move>)
    requires LInv(s) && ProducersIdle(s)
    requires forall k :: 0 <= k < |moves| ==> Calm(moves[k])
    requires s.pc == Exited ==> s.file == Records(s.ring.tickets)
    ensures var s' := Run(s, moves);
            && Records(s'.ring.tickets) == Records(s.ring.tickets)
            && (s'.pc == Exited ==> s'.file == Records(s.ring.tickets))
    decreases |moves|
  {
    if moves != [] {
      StepKeeps(s, moves[0]);
      CalmStep(s, moves[0]);
      CalmRun(Step(s, moves[0]), moves[1..]);
    }
  }

  lemma CalmStep(s: Logger, m: Move)
    requires LInv(s) && ProducersIdle(s) && Calm(m)
    requires s.pc == Exited ==> s.file == Records(s.ring.tickets)
    ensures var s' := Step(s, m);
            && ProducersIdle(s')
            && Records(s'.ring.tickets) == Records(s.ring.tickets)
            && (s'.pc == Exited ==> s'.file == Records(s.ring.tickets))
  {
    match m
    case Producer(t, c) => assert t != LOG ==> s.ring.At(t) == Idle;
    case Log(c) =>
      if s.pc == Drain {
        ReaderFrame(s.ring, if s.ring.At(LOG).Idle? then BeginDequeue else c);
      } else if s.pc == CheckPending && s.ring.pending == 0 {
        forall t: Tid ensures !Unpublished(s, t) { assert s.ring.At(t).Idle?; }
        ExitIsCompleteIffProducersDone(s);
      }
    case _ =>
  }

  /**
   Shutdown: if every producer is idle before the stop and none starts again,
   then once the loop exits every accepted record was written once, in ticket order.
   */
  lemma ShutdownWritesEverything(n: nat, before: seq<Move>, after: seq<Move>)
    requires 2 <= n
    requires ProducersIdle(Run(Start(n), before)) && !Run(Start(n), before).stopping
    requires forall k :: 0 <= k < |after| ==> Calm(after[k])
    ensures var s := Run(Start(n), before);
            var s' := Run(s, after);
            s'.pc == Exited ==> s'.file == Records(s'.ring.tickets) == Records(s.ring.tickets)
  {
    CalmRun(Run(Start(n), before), after);
  }

  /** The record that producer `t` starts to log in move `m`, if it does. */
  function LoggedBy(s: Logger, m: Move, t: Tid): seq<Record> {
    if m.Producer? && m.t == t && t != LOG then Begun(s.ring, t, m.c, t) else []
  }

  /** The records that producer `t` passes to the logger during a run. */
  function Logged(s: Logger, moves: seq<Move>, t: Tid): seq<Record>
    requires LInv(s)
    decreases |moves|
  {
    if moves == [] then []
    else
      StepKeeps(s, moves[0]);
      LoggedBy(s, moves[0], t) + Logged(Step(s, moves[0]), moves[1..], t)
  }

  /** The ring access of a move, if it makes one. */
  function AccessOf(s: Logger, m: Move): seq<(Tid, Choice)> {
    match m
    case Producer(t, c) =>
      if t == LOG || c == BeginDequeue then []
      else if !s.ring.At(t).EnqSignal? then [(t, c)]
      else if s.lock == HeldBy(t, true) then [(t, Proceed)]
      else []
    case Log(c) => if s.pc == Drain then [(LOG, if s.ring.At(LOG).Idle? then BeginDequeue else c)] else []
    case _ => []
  }

  /** Ring `r1` is `r` after the access, or `r` itself. */
  ghost predicate Accessed(r: Ring, access: seq<(Tid, Choice)>, r1: Ring)
    requires Inv(r)
  {
    || (access == [] && r1 == r)
    || (|access| == 1 && r1 == Advance(r, access[0].0, access[0].1))
  }

  lemma MoveAccess(s: Logger, m: Move)
    requires LInv(s)
    ensures Accessed(s.ring, AccessOf(s, m), Step(s, m).ring)
  {
  }

  lemma ScheduleStep(r: Ring, access: seq<(Tid, Choice)>, r1: Ring, rest: seq<(Tid, Choice)>, t: Tid)
    requires Inv(r) && Inv(r1) && Accessed(r, access, r1)
    ensures LogRing.Run(r, access + rest) == LogRing.Run(r1, rest)
    ensures Calls(r, access + rest, t)
            == (if access == [] then [] else Begun(r, access[0].0, access[0].1, t)) + Calls(r1, rest, t)
  {
    if access == [] {
      assert access + rest == rest;
    } else {
      assert (access + rest)[1..] == rest;
    }
  }

  lemma MoveLogs(s: Logger, m: Move, t: Tid)
    requires LInv(s) && t != LOG
    ensures var access := AccessOf(s, m);
            LoggedBy(s, m, t) == if access == [] then [] else Begun(s.ring, access[0].0, access[0].1, t)
  {
  }

  /** The ring accesses of a run of the logger. */
  function Accesses(s: Logger, moves: seq<Move>): seq<(Tid, Choice)>
    requires LInv(s)
    decreases |moves|
  {
    if moves == [] then []
    else
      StepKeeps(s, moves[0]);
      AccessOf(s, moves[0]) + Accesses(Step(s, moves[0]), moves[1..])
  }

  /** On the ring a run of the logger is a schedule, in which each producer calls Enqueue with what it logs. */
  lemma {:induction false} RunIsSchedule(s: Logger, moves: seq<Move>, t: Tid)
    requires LInv(s) && t != LOG
    ensures Run(s, moves).ring == LogRing.Run(s.ring, Accesses(s, moves))
    ensures Logged(s, moves, t) == Calls(s.ring, Accesses(s, moves), t)
    decreases |moves|
  {
    if moves != [] {
      StepKeeps(s, moves[0]);
      RunIsSchedule(Step(s, moves[0]), moves[1..], t);
      MoveAccess(s, moves[0]);
      MoveLogs(s, moves[0], t);
      ScheduleStep(s.ring, AccessOf(s, moves[0]), Step(s, moves[0]).ring, Accesses(Step(s, moves[0]), moves[1..]), t);
    }
  }

  /**
   At every moment the file is a prefix of the accepted records in ticket order,
   and the accepted records of each producer are, in order, records it logged.
   */
  lemma FileIsTicketOrder(n: nat, moves: seq<Move>)
    requires 2 <= n
    ensures var s := Run(Start(n), moves);
            && s.file <= Records(s.ring.tickets)
            && forall t: Tid :: t != LOG ==> Subsequence(Claimed(s.ring.tickets, t), Logged(Start(n), moves, t))
  {
    var s := Run(Start(n), moves);
    assert s.ring.tickets == s.ring.tickets[..WrittenCount(s)] + s.ring.tickets[WrittenCount(s)..];
    forall t: Tid | t != LOG ensures Subsequence(Claimed(s.ring.tickets, t), Logged(Start(n), moves, t)) {
      RunIsSchedule(Start(n), moves, t);
      TicketsAreCalls(n, Accesses(Start(n), moves), t);
    }
  }

  /** With the log thread as only consumer a drop means that exactly the last `Size` tickets are unreleased. */
  lemma DropsOnlyWhenFull(n: nat, moves: seq<Move>, t: Tid)
    requires 2 <= n
    requires var r := Run(Start(n), moves).ring;
             r.At(t).EnqLoaded? && r.Size() > 0 && Drops(r, r.At(t).pos)
    ensures var r := Run(Start(n), moves).ring;
            && r.Size() <= |r.tickets|
            && forall i :: 0 <= i < |r.tickets| ==>
                 (r.tickets[i].stage != Released <==> |r.tickets| - r.Size() <= i)
  {
    DropMeansFull(Run(Start(n), moves), t);
  }

  lemma DropMeansFull(s: Logger, t: Tid)
    requires LInv(s) && s.ring.At(t).EnqLoaded? && Drops(s.ring, s.ring.At(t).pos)
    ensures var r := s.ring;
            && r.Size() <= |r.tickets|
            && forall i :: 0 <= i < |r.tickets| ==>
                 (r.tickets[i].stage != Released <==> |r.tickets| - r.Size() <= i)
  {
    var r := s.ring;
    DropsIffLapped(r, t);
    var k := |r.tickets| - r.Size();
    assert TicketOk(r, k);
    forall i | 0 <= i < |r.tickets|
      ensures r.tickets[i].stage != Released <==> k <= i
    {
      assert TicketOk(r, i);
    }
  }

  /** From the start the log thread finds the ring empty and takes the lock ... */
  lemma ReachesDequeue(n: nat) returns (moves: seq<Move>)
    requires 2 <= n
    ensures Run(Start(n), moves) == Start(n).(pc := Drain, ring := Init(n).Goto(LOG, DeqLoaded(0)))
  {
    moves := Then(Start(n), [], Log(Proceed));
    moves := Then(Start(n), moves, Log(Proceed));
    moves := Then(Start(n), moves, Log(Proceed));
    assert Init(n).Goto(LOG, DeqStart).Goto(LOG, DeqLoaded(0)) == Init(n).Goto(LOG, DeqLoaded(0));
  }

  lemma ReachesLock(n: nat) returns (moves: seq<Move>)
    requires 2 <= n
    ensures Run(Start(n), moves) == Start(n).(pc := LockedStop, lock := HeldByLog, ring := Init(n).Goto(LOG, Idle))
  {
    moves := ReachesDequeue(n);
    assert Init(n).Goto(LOG, DeqLoaded(0)).Goto(LOG, Idle) == Init(n).Goto(LOG, Idle);
    moves := Then(Start(n), moves, Log(Proceed));
    assert Run(Start(n), moves) == Start(n).(pc := Recheck, ring := Init(n).Goto(LOG, Idle));
    moves := Then(Start(n), moves, Log(Proceed));
    moves := Then(Start(n), moves, Log(Proceed));
  }

  /** ... and makes its last two checks before it waits. */
  lemma ReachesWait(n: nat) returns (moves: seq<Move>)
    requires 2 <= n
    ensures Run(Start(n), moves) == Start(n).(pc := StartWait, lock := HeldByLog, ring := Init(n).Goto(LOG, Idle))
  {
    moves := ReachesLock(n);
    moves := Then(Start(n), moves, Log(Proceed));
    moves := Then(Start(n), moves, Log(Proceed));
  }

  /**
   EndLogger notifies without the mutex, so its notification can fall between the
   log thread's last check and its wait: the stop is set, EndLogger joins, no
   producer is active, and the log thread sleeps.
   */
  lemma StopNotificationCanBeLost(n: nat) returns (moves: seq<Move>)
    requires 2 <= n
    ensures var s := Run(Start(n), moves);
            s.stopping && s.ender == Joining && s.pc == Waiting && ProducersIdle(s)
  {
    moves := ReachesWait(n);
    moves := Then(Start(n), moves, StoreStop);
    moves := Then(Start(n), moves, NotifyStop);
    moves := Then(Start(n), moves, Log(Proceed));
  }

  lemma {:induction false} Then(s: Logger, moves: seq<Move>, m: Move) returns (more: seq<Move>)
    requires LInv(s)
    ensures more == moves + [m]
    ensures Run(s, more) == Step(Run(s, moves), m)
    decreases |moves|
  {
    more := moves + [m];
    if moves == [] {
      StepKeeps(s, m);
      assert Run(s, more) == Run(Step(s, m), more[1..]);
    } else {
      StepKeeps(s, moves[0]);
      var rest := Then(Step(s, moves[0]), moves[1..], m);
      assert more[1..] == rest;
    }
  }

  /** After the stop, a state from which the log thread can still go to sleep. */
  predicate CanMissStop(s: Logger) {
    s.pc == StartWait || (s.pc == LockedPending && s.ring.pending <= 0)
  }

  ghost predicate AwakeForGood(s: Logger) {
    LInv(s) && s.stopping && s.pc != Waiting && !CanMissStop(s)
  }

  /** A producer's step moves the log thread only by waking it, and never lowers `pending_`. */
  lemma ProducerEffect(s: Logger, t: Tid, c: Choice)
    requires LInv(s)
    ensures var s' := ProducerStep(s, t, c);
            && (s'.pc == s.pc || s'.pc == Woken) && s'.stopping == s.stopping
            && s.ring.pending <= s'.ring.pending
  {
    if t != LOG && c != BeginDequeue {
      if s.ring.At(t).EnqSignal? { SignalEffect(s, t); } else { ProducerCounts(s.ring, t, c); }
    }
  }

  lemma SignalEffect(s: Logger, t: Tid)
    requires LInv(s) && t != LOG && s.ring.At(t).EnqSignal?
    ensures var s' := SignalStep(s, t);
            && (s'.pc == s.pc || s'.pc == Woken) && s'.stopping == s.stopping
            && s.ring.pending == s'.ring.pending
  {
    ProducerCounts(s.ring, t, Proceed);
  }

  /** The ways of the log thread to its wait; it takes the mutex, also to leave the wait, only when it is free. */
  lemma LogEffect(s: Logger, c: Choice)
    requires Inv(s.ring)
    ensures var s' := LogStep(s, c);
            && s'.stopping == s.stopping
            && (s'.pc == Waiting ==> s.pc in {StartWait, Waiting})
            && (s'.pc == StartWait ==> s.pc == LockedPending && s.ring.pending == 0)
            && (s'.pc == LockedPending ==> s.pc == LockedStop && !s.stopping)
            && (s.pc in {TakeLock, Woken} && s'.pc != s.pc ==> s.lock == Free)
  {
  }

  lemma AwakeStep(s: Logger, m: Move)
    requires AwakeForGood(s)
    ensures AwakeForGood(Step(s, m))
  {
    StepKeeps(s, m);
    match m
    case Producer(t, c) => ProducerEffect(s, t, c);
    case Log(c) => LogEffect(s, c);
    case _ =>
  }

  lemma {:induction false} AwakeRun(s: Logger, moves: seq<Move>)
    requires AwakeForGood(s)
    ensures Run(s, moves).pc != Waiting
    decreases |moves|
  {
    if moves != [] {
      AwakeStep(s, moves[0]);
      AwakeRun(Step(s, moves[0]), moves[1..]);
    }
  }

  /** A negative `pending_` has a producer that is about to increment it. */
  lemma LateProducer(s: Logger) returns (t: Tid)
    requires LInv(s) && s.pc != Drain && s.ring.pending < 0
    ensures t != LOG && s.ring.At(t).EnqPublished?
  {
    var r := s.ring;
    if r.taken.Keys <= r.added {
      SubsetSize(r.taken.Keys, r.added);
      assert false;
    }
    var i :| i in r.taken.Keys && i !in r.added;
    t := r.tickets[i].writer;
    assert TicketOk(r, i) && ThreadOk(r, t);
  }

  lemma {:induction false} FallsAsleep(s: Logger) returns (moves: seq<Move>)
    requires LInv(s) && CanMissStop(s)
    ensures Run(s, moves).pc == Waiting
    decreases s.pc == LockedPending, -s.ring.pending
  {
    var m: Move := Log(Proceed);
    if s.pc == LockedPending && s.ring.pending < 0 {
      var t := LateProducer(s);
      ProducerFrame(s.ring, t, Proceed);
      m := Producer(t, Proceed);
    }
    StepKeeps(s, m);
    var s' := Step(s, m);
    if s.pc == StartWait {
      moves := [m];
      assert moves[1..] == [];
    } else {
      var rest := FallsAsleep(s');
      moves := [m] + rest;
      assert moves[1..] == rest;
    }
  }

  /**
   Exactly when the stop can be missed: once it is set and its notification is
   over, some continuation puts the log thread to sleep if and only if the log
   thread is about to wait, or about to check a `pending_` that is not positive.
   */
  lemma StopIsMissedIff(s: Logger)
    requires LInv(s) && s.stopping && s.ender == Joining && s.pc != Waiting
    ensures (exists moves :: Run(s, moves).pc == Waiting) <==> CanMissStop(s)
  {
    if CanMissStop(s) {
      var moves := FallsAsleep(s);
    } else {
      forall moves ensures Run(s, moves).pc != Waiting { AwakeRun(s, moves); }
    }
  }

  // ---------------------------------------------------------------------------
  // Shutdown comes to an end
  // ---------------------------------------------------------------------------

  /** The accesses that a Dequeue of the log thread makes at most before it returns or finds the ring empty. */
  function DequeueRank(r: Ring): nat {
    match r.At(LOG)
    case DeqReleased(_, _) => 1
    case DeqTaken(_, _) => 2
    case DeqClaimed(_) => 3
    case DeqCas(pos) => if pos == r.readIndex then 4 else 7
    case DeqLoaded(pos) => if pos == r.readIndex then 6 else 8
    case DeqStart => 7
    case _ => 9
  }

  /** Every record from the read index on is published. */
  ghost predicate AllPublished(r: Ring) {
    forall i :: r.readIndex <= i < |r.tickets| ==> r.tickets[i].stage == Published
  }

  /** One access of a Dequeue: it counts a record out, finds the ring empty, or gets closer to one of the two. */
  ghost predicate DequeueGoesOn(r: Ring, r': Ring) {
    if r.At(LOG).DeqReleased? then r'.At(LOG).Idle? && r'.pending == r.pending - 1
    else
      && r'.pending == r.pending
      && if r'.At(LOG).Idle? then r.At(LOG) == DeqLoaded(r.readIndex) && r.readIndex == |r.tickets|
         else DequeueRank(r') < DequeueRank(r)
  }

  lemma LoadGoesOn(r: Ring)
    requires Inv(r) && AllPublished(r) && r.At(LOG).DeqLoaded?
    ensures DequeueGoesOn(r, Advance(r, LOG, Proceed))
  {
    EmptyIffNothingPublished(r, LOG);
    if r.At(LOG).pos == r.readIndex < |r.tickets| { PassedSeq(r, r.readIndex); }
  }

  lemma CasGoesOn(r: Ring)
    requires Inv(r) && r.At(LOG).DeqCas?
    ensures DequeueGoesOn(r, Advance(r, LOG, Proceed))
  {
    assert ThreadOk(r, LOG);
  }

  lemma OwnerGoesOn(r: Ring)
    requires Inv(r) && Consumes(r.At(LOG))
    ensures DequeueGoesOn(r, Advance(r, LOG, Proceed))
  {
    assert ThreadOk(r, LOG);
  }

  lemma StartGoesOn(r: Ring, c: Choice)
    requires Inv(r) && (r.At(LOG).DeqStart? || (r.At(LOG).Idle? && c == BeginDequeue))
    ensures DequeueGoesOn(r, Advance(r, LOG, c))
  {
  }

  /** With idle producers `pending_` is the number of tickets not counted out, and all unread ones are published. */
  lemma IdleCounts(s: Logger)
    requires LInv(s) && ProducersIdle(s)
    ensures AllPublished(s.ring)
    ensures s.ring.pending == |s.ring.tickets| - |s.ring.taken| >= 0
    ensures !Consumes(s.ring.At(LOG)) ==> s.ring.pending == |s.ring.tickets| - s.ring.readIndex
  {
    var r := s.ring;
    forall i: nat | i < |r.tickets| ensures i in r.added {
      assert TicketOk(r, i);
      assert r.tickets[i].writer != LOG ==> r.At(r.tickets[i].writer) == Idle;
    }
    forall i | r.readIndex <= i < |r.tickets| ensures r.tickets[i].stage == Published { assert TicketOk(r, i); }
    Below(r.added, |r.tickets|);
    Below(r.taken.Keys, |r.tickets|);
    if !Consumes(r.At(LOG)) {
      forall i: nat | i < |r.tickets| ensures i in r.taken <==> i < r.readIndex { assert TicketOk(r, i); }
      Below(r.taken.Keys, r.readIndex);
    }
  }

  /** The stop is set, nobody logs any more, and the log thread will not miss the stop. */
  ghost predicate ShuttingDown(s: Logger) {
    AwakeForGood(s) && ProducersIdle(s) && s.pc != Exited
  }

  /** How far the log thread is from counting out a record or, with none left, from its exit. */
  function ShutdownRank(s: Logger): nat {
    match s.pc
    case Exited => 0
    case CheckPending => if s.ring.pending == 0 then 1 else 12
    case CheckStop => if s.ring.pending == 0 then 2 else 13
    case LockedStop => 14
    case LockedPending => 14
    case StartWait => 14
    case Waiting => 14
    case Woken => 14
    case TakeLock => 15
    case Recheck => 16
    case Drain => if s.ring.pending == 0 then 17 + DequeueRank(s.ring) else DequeueRank(s.ring)
    case Write(_) => if s.ring.pending == 0 then 27 else 10
  }

  ghost predicate Nearer(s: Logger, s': Logger) {
    || s'.ring.pending < s.ring.pending
    || (s'.ring.pending == s.ring.pending && ShutdownRank(s') < ShutdownRank(s))
  }

  lemma AccessGoesOn(r: Ring)
    requires Inv(r) && RolesOk(r) && AllPublished(r)
    ensures DequeueGoesOn(r, Advance(r, LOG, if r.At(LOG).Idle? then BeginDequeue else Proceed))
  {
    match r.At(LOG)
    case DeqLoaded(_) => LoadGoesOn(r);
    case DeqCas(_) => CasGoesOn(r);
    case DeqStart => StartGoesOn(r, Proceed);
    case Idle => StartGoesOn(r, BeginDequeue);
    case _ => OwnerGoesOn(r);
  }

  /** In the loop around Dequeue: an empty ring is one in which nothing is pending. */
  lemma DrainToNearer(s: Logger, r': Ring)
    requires s.pc == Drain && DequeueGoesOn(s.ring, r')
    requires s.ring.At(LOG).DeqLoaded? && s.ring.readIndex == |s.ring.tickets| ==> s.ring.pending == 0
    ensures Nearer(s, DrainTo(s, r'))
  {
  }

  lemma DrainNearer(s: Logger)
    requires ShuttingDown(s) && s.pc == Drain
    ensures Nearer(s, DrainStep(s, Proceed))
  {
    IdleCounts(s);
    AccessGoesOn(s.ring);
    DrainToNearer(s, Advance(s.ring, LOG, if s.ring.At(LOG).Idle? then BeginDequeue else Proceed));
  }

  lemma ControlNearer(s: Logger)
    requires ShuttingDown(s) && s.pc != Drain
    ensures Nearer(s, LogStep(s, Proceed))
  {
    IdleCounts(s);
    assert !s.lock.HeldBy?;
  }

  /** The log thread alone gets nearer to its exit with every move. */
  lemma ShutdownStep(s: Logger)
    requires ShuttingDown(s)
    ensures var s' := Step(s, Log(Proceed));
            && Nearer(s, s') && 0 <= s'.ring.pending
            && AwakeForGood(s') && ProducersIdle(s')
  {
    AwakeStep(s, Log(Proceed));
    CalmStep(s, Log(Proceed));
    IdleCounts(Step(s, Log(Proceed)));
    if s.pc == Drain { DrainNearer(s); } else { ControlNearer(s); }
  }

  predicate LogOnly(moves: seq<Move>) { forall k :: 0 <= k < |moves| ==> moves[k] == Log(Proceed) }

  lemma {:induction false} LogAloneExits(s: Logger) returns (moves: seq<Move>)
    requires ShuttingDown(s) && 0 <= s.ring.pending
    ensures LogOnly(moves) && Run(s, moves).pc == Exited
    decreases s.ring.pending, ShutdownRank(s)
  {
    ShutdownStep(s);
    var s' := Step(s, Log(Proceed));
    var rest: seq<Move> := [];
    if s'.pc != Exited { rest := LogAloneExits(s'); }
    moves := [Log(Proceed)] + rest;
    assert moves[1..] == rest;
  }

  /**
   Shutdown ends: once the stop is set and no producer is active, a log thread
   that can no longer miss the stop exits by its own moves alone, and then the
   file holds every accepted record.
   */
  lemma ShutdownFinishes(s: Logger) returns (moves: seq<Move>)
    requires ShuttingDown(s)
    ensures LogOnly(moves)
    ensures Run(s, moves).pc == Exited && Run(s, moves).file == Records(s.ring.tickets)
  {
    IdleCounts(s);
    moves := LogAloneExits(s);
    CalmRun(s, moves);
  }

  /** Storing the stop and notifying wakes a log thread that is not about to miss it. */
  lemma StopIsSeen(s: Logger) returns (s': Logger)
    requires LInv(s) && s.ender == Running && !s.stopping && ProducersIdle(s) && !CanMissStop(s)
    ensures ShuttingDown(s') && s'.ring == s.ring && s'.ender == Joining
    ensures LInv(Step(s, StoreStop)) && s' == Step(Step(s, StoreStop), NotifyStop)
  {
    StepKeeps(s, StoreStop);
    StepKeeps(Step(s, StoreStop), NotifyStop);
    s' := Step(Step(s, StoreStop), NotifyStop);
  }

  lemma TwoMoves(s: Logger, a: Move, b: Move, s': Logger, rest: seq<Move>)
    requires LInv(s) && LInv(Step(s, a)) && s' == Step(Step(s, a), b) && LInv(s')
    ensures Run(s, [a, b] + rest) == Run(s', rest)
  {
    var all := [a, b] + rest;
    assert all[1..] == [b] + rest && all[1..][1..] == rest;
    assert Run(s, all) == Run(Step(s, a), all[1..]);
  }

  /**
   EndLogger: if no producer is active, and the log thread is not in the window in
   which it can miss the stop, then storing the stop and notifying wakes it, it
   exits by its own moves alone, and every accepted record is in the file.
   */
  lemma EndLoggerFinishes(s: Logger) returns (moves: seq<Move>)
    requires LInv(s) && s.ender == Running && !s.stopping && ProducersIdle(s) && !CanMissStop(s)
    ensures LogOnly(moves)
    ensures var s' := Run(s, [StoreStop, NotifyStop] + moves);
            s'.pc == Exited && s'.file == Records(s.ring.tickets)
  {
    var s' := StopIsSeen(s);
    moves := ShutdownFinishes(s');
    TwoMoves(s, StoreStop, NotifyStop, s', moves);
  }
}
