/**
 The logger's bounded lock-free ring, as interleaved atomic steps.

 Every thread runs `Enqueue` or `Dequeue` any number of times.  The program
 counter of a thread fixes its next atomic access, so a run is a schedule: a
 sequence of thread identifiers, each with the choices left open to it.  Any
 number of threads may take part; a thread that was never scheduled is `Idle`.

 Indices are unbounded and every step is sequentially consistent.
 */
module LogRing {
  import Modulo

  type Record = string
  type Tid = nat

  datatype Slot = Slot(seqNo: nat, data: Record)

  /** The next atomic access of a thread; `pos` is the local variable of that name. */
  datatype Pc =
    | Idle
    | EnqStart(rec: Record)               // load write_index_
    | EnqLoaded(rec: Record, pos: nat)    // load slot.seq
    | EnqCas(rec: Record, pos: nat)       // compare-exchange write_index_
    | EnqClaimed(rec: Record, pos: nat)   // move the record into slot.data
    | EnqWritten(pos: nat)                // store slot.seq
    | EnqPublished(pos: nat)              // add one to pending_
    | EnqSignal(pos: nat)                 // lock and notify: pending_ was zero
    | DeqStart                            // load read_index_
    | DeqLoaded(pos: nat)                 // load slot.seq
    | DeqCas(pos: nat)                    // compare-exchange read_index_
    | DeqClaimed(pos: nat)                // swap slot.data out
    | DeqTaken(pos: nat, rec: Record)     // store slot.seq
    | DeqReleased(pos: nat, rec: Record)  // subtract one from pending_

  /** Where the record of a claimed ticket is. */
  datatype Stage = Writing | Published | Reading | Released

  /** History of one successful claim of `write_index_`; `reader` is meaningful from Reading on. */
  datatype Ticket = Ticket(rec: Record, writer: Tid, reader: Tid, stage: Stage)

  /** History of one Dequeue that returned true. */
  datatype Handout = Handout(ticket: nat, reader: Tid, rec: Record)

  datatype Ring = Ring(
    slots: seq<Slot>,
    writeIndex: nat,
    readIndex: nat,
    pending: int,
    threads: map<Tid, Pc>,
    tickets: seq<Ticket>,   // history: one entry per claimed write position
    added: set<nat>,        // history: tickets counted into pending_
    taken: map<nat, nat>,   // history: tickets counted out of pending_, with their index in `handed`
    handed: seq<Handout>)   // history: records returned by Dequeue
  {
    function Size(): nat { |slots| }

    function At(t: Tid): Pc { if t in threads then threads[t] else Idle }

    function Goto(t: Tid, pc: Pc): Ring { this.(threads := threads[t := pc]) }

    function SlotOf(pos: nat): Slot
      requires 0 < Size()
    {
      slots[Ix(pos, Size())]
    }

    function SetSlot(pos: nat, slot: Slot): Ring
      requires 0 < Size()
    {
      this.(slots := slots[Ix(pos, Size()) := slot])
    }

    function SetStage(pos: nat, stage: Stage): Ring
      requires pos < |tickets|
    {
      this.(tickets := tickets[pos := tickets[pos].(stage := stage)])
    }
  }

  /** What a scheduled thread may decide: which call to begin, and whether a weak CAS fails spuriously. */
  datatype Choice = Stay | BeginEnqueue(rec: Record) | BeginDequeue | Proceed | FailSpuriously

  function Init(n: nat): (r: Ring)
    requires 2 <= n
    ensures Inv(r)
  {
    Ring(seq(n, i requires 0 <= i < n => Slot(i, "")), 0, 0, 0, map[], [], {}, map[], [])
  }

  // ---------------------------------------------------------------------------
  // The atomic accesses
  // ---------------------------------------------------------------------------

  function ClaimWrite(r: Ring, t: Tid, rec: Record): Ring {
    r.(writeIndex := r.writeIndex + 1, tickets := r.tickets + [Ticket(rec, t, t, Writing)])
    .Goto(t, EnqClaimed(rec, r.writeIndex))
  }

  function StoreRecord(r: Ring, t: Tid, rec: Record, pos: nat): Ring
    requires 0 < r.Size()
  {
    r.SetSlot(pos, r.SlotOf(pos).(data := rec)).Goto(t, EnqWritten(pos))
  }

  function Publish(r: Ring, t: Tid, pos: nat): Ring
    requires 0 < r.Size() && pos < |r.tickets|
  {
    r.SetSlot(pos, r.SlotOf(pos).(seqNo := pos + 1)).SetStage(pos, Published).Goto(t, EnqPublished(pos))
  }

  function CountIn(r: Ring, t: Tid, pos: nat): Ring {
    r.(pending := r.pending + 1, added := r.added + {pos})
    .Goto(t, if r.pending == 0 then EnqSignal(pos) else Idle)
  }

  function ClaimRead(r: Ring, t: Tid): Ring
    requires r.readIndex < |r.tickets|
  {
    var pos := r.readIndex;
    r.(readIndex := pos + 1,
       tickets := r.tickets[pos := r.tickets[pos].(reader := t, stage := Reading)])
    .Goto(t, DeqClaimed(pos))
  }

  function TakeRecord(r: Ring, t: Tid, pos: nat): Ring
    requires 0 < r.Size()
  {
    r.SetSlot(pos, r.SlotOf(pos).(data := "")).Goto(t, DeqTaken(pos, r.SlotOf(pos).data))
  }

  function Release(r: Ring, t: Tid, pos: nat, rec: Record): Ring
    requires 0 < r.Size() && pos < |r.tickets|
  {
    r.SetSlot(pos, r.SlotOf(pos).(seqNo := pos + r.Size())).SetStage(pos, Released)
    .Goto(t, DeqReleased(pos, rec))
  }

  function CountOut(r: Ring, t: Tid, pos: nat, rec: Record): Ring {
    r.(pending := r.pending - 1, taken := r.taken[pos := |r.handed|], handed := r.handed + [Handout(pos, t, rec)])
    .Goto(t, Idle)
  }

  /** The next atomic access of thread `t`. */
  function Advance(r: Ring, t: Tid, c: Choice): (r': Ring)
    requires Inv(r)
  {
    match r.At(t)
    case Idle =>
      (match c
       case BeginEnqueue(rec) => r.Goto(t, EnqStart(rec))
       case BeginDequeue => r.Goto(t, DeqStart)
       case _ => r)
    case EnqStart(rec) => r.Goto(t, EnqLoaded(rec, r.writeIndex))
    case EnqLoaded(rec, pos) =>
      var seqNo := r.SlotOf(pos).seqNo;
      if seqNo == pos then r.Goto(t, EnqCas(rec, pos))
      else if seqNo < pos then r.Goto(t, Idle)      // full: the record is dropped
      else r.Goto(t, EnqStart(rec))
    case EnqCas(rec, pos) =>
      if r.writeIndex == pos && c != FailSpuriously then ClaimWrite(r, t, rec)
      else r.Goto(t, EnqLoaded(rec, r.writeIndex))
    case EnqClaimed(rec, pos) => StoreRecord(r, t, rec, pos)
    case EnqWritten(pos) => assert ThreadOk(r, t); Publish(r, t, pos)
    case EnqPublished(pos) => CountIn(r, t, pos)
    case EnqSignal(pos) => r.Goto(t, Idle)
    case DeqStart => r.Goto(t, DeqLoaded(r.readIndex))
    case DeqLoaded(pos) =>
      var seqNo := r.SlotOf(pos).seqNo;
      if seqNo == pos + 1 then r.Goto(t, DeqCas(pos))
      else if seqNo < pos + 1 then r.Goto(t, Idle)  // empty
      else r.Goto(t, DeqStart)
    case DeqCas(pos) =>
      if r.readIndex == pos && c != FailSpuriously then assert ThreadOk(r, t); ClaimRead(r, t)
      else r.Goto(t, DeqLoaded(r.readIndex))
    case DeqClaimed(pos) => TakeRecord(r, t, pos)
    case DeqTaken(pos, rec) => assert ThreadOk(r, t); Release(r, t, pos, rec)
    case DeqReleased(pos, rec) => CountOut(r, t, pos, rec)
  }

  // ---------------------------------------------------------------------------
  // The invariant
  // ---------------------------------------------------------------------------

  /** The sequence number a slot shows while ticket `i` is its latest ticket. */
  function SeqOf(stage: Stage, i: nat, n: nat): nat {
    match stage
    case Writing => i
    case Published => i + 1
    case Reading => i + 1
    case Released => i + n
  }

  /** Ticket `i` is the latest one of its slot. */
  predicate Current(r: Ring, i: nat) {
    i < |r.tickets| <= i + r.Size()
  }

  ghost predicate Shape(r: Ring) {
    && 2 <= r.Size()
    && r.writeIndex == |r.tickets|
    && r.readIndex <= r.writeIndex
  }

  ghost predicate TicketOk(r: Ring, i: nat)
    requires Shape(r) && i < |r.tickets|
  {
    var k := r.tickets[i];
    && (i < r.readIndex <==> k.stage in {Reading, Released})
    && (!Current(r, i) ==> k.stage == Released)
    && (Current(r, i) ==> r.SlotOf(i).seqNo == SeqOf(k.stage, i, r.Size()))
    && (k.stage == Published ==> r.SlotOf(i).data == k.rec)
    && (i !in r.added ==> Publishing(r.At(k.writer), i))
    && (i in r.added ==> k.stage != Writing)
    && (k.stage in {Reading, Released} && i !in r.taken ==> Consuming(r.At(k.reader), i))
    && (i in r.taken ==> k.stage == Released)
  }

  /** Slots that were never claimed keep the number they were initialised with. */
  ghost predicate FreshOk(r: Ring) {
    forall i :: |r.tickets| <= i < r.Size() ==> r.slots[i].seqNo == i
  }

  /** Program points between a successful claim and the matching count in `pending_`. */
  predicate Owner(pc: Pc) {
    || pc.EnqClaimed? || pc.EnqWritten? || pc.EnqPublished?
    || pc.DeqClaimed? || pc.DeqTaken? || pc.DeqReleased?
  }

  predicate Publishing(pc: Pc, i: nat) {
    (pc.EnqClaimed? || pc.EnqWritten? || pc.EnqPublished?) && pc.pos == i
  }

  predicate Consuming(pc: Pc, i: nat) {
    (pc.DeqClaimed? || pc.DeqTaken? || pc.DeqReleased?) && pc.pos == i
  }

  ghost predicate ThreadOk(r: Ring, t: Tid)
    requires Shape(r)
  {
    match r.At(t)
    case EnqLoaded(_, pos) => pos <= r.writeIndex
    case EnqCas(_, pos) =>
      pos <= r.writeIndex && (pos == r.writeIndex ==> r.SlotOf(pos).seqNo == pos)
    case EnqClaimed(rec, pos) => Writes(r, t, pos) && rec == r.tickets[pos].rec
    case EnqWritten(pos) => Writes(r, t, pos) && r.SlotOf(pos).data == r.tickets[pos].rec
    case EnqPublished(pos) =>
      && pos < |r.tickets| && r.tickets[pos].writer == t && pos !in r.added
      && r.tickets[pos].stage != Writing
    case DeqLoaded(pos) => pos <= r.readIndex
    case DeqCas(pos) =>
      pos <= r.readIndex && (pos == r.readIndex ==> pos < |r.tickets| && r.tickets[pos].stage == Published)
    case DeqClaimed(pos) => Reads(r, t, pos, Reading) && r.SlotOf(pos).data == r.tickets[pos].rec
    case DeqTaken(pos, rec) => Reads(r, t, pos, Reading) && rec == r.tickets[pos].rec
    case DeqReleased(pos, rec) => Reads(r, t, pos, Released) && rec == r.tickets[pos].rec
    case _ => true
  }

  ghost predicate Writes(r: Ring, t: Tid, pos: nat) {
    pos < |r.tickets| && r.tickets[pos].writer == t && r.tickets[pos].stage == Writing && pos !in r.added
  }

  ghost predicate Reads(r: Ring, t: Tid, pos: nat, stage: Stage) {
    pos < |r.tickets| && r.tickets[pos].reader == t && r.tickets[pos].stage == stage && pos !in r.taken
  }

  /** `pending_` counts published records minus consumed ones. */
  ghost predicate CountOk(r: Ring) {
    && r.pending == |r.added| - |r.taken|
    && (forall i :: i in r.added ==> i < |r.tickets|)
    && (forall i :: i in r.taken ==> i < |r.tickets|)
  }

  ghost predicate HandedOk(r: Ring) {
    && (forall h {:trigger r.handed[h]} :: 0 <= h < |r.handed| ==> HandoutOk(r, h, r.handed[h]))
    && (forall i :: i in r.taken ==> r.taken[i] < |r.handed| && r.handed[r.taken[i]].ticket == i)
  }

  ghost predicate HandoutOk(r: Ring, h: nat, out: Handout) {
    && out.ticket in r.taken && r.taken[out.ticket] == h
    && out.ticket < |r.tickets|
    && out.rec == r.tickets[out.ticket].rec
    && out.reader == r.tickets[out.ticket].reader
  }

  ghost predicate Inv(r: Ring) {
    && Shape(r)
    && FreshOk(r)
    && (forall i :: 0 <= i < |r.tickets| ==> TicketOk(r, i))
    && (forall t: Tid :: t in r.threads ==> ThreadOk(r, t))
    && CountOk(r)
    && HandedOk(r)
  }

  // ---------------------------------------------------------------------------
  // Positions modulo the ring size
  // ---------------------------------------------------------------------------

  /** The slot of position `pos` in a ring of `n` slots: `pos` modulo `n`. */
  function Ix(pos: nat, n: nat): (k: nat)
    requires 0 < n
    ensures k < n
  {
    if pos < n then pos else Ix(pos - n, n)
  }

  lemma {:induction false} IxIsRemainder(pos: nat, n: nat)
    requires 0 < n
    ensures Ix(pos, n) == pos % n
  {
    if n <= pos {
      IxIsRemainder(pos - n, n);
      Modulo.Plus(pos - n, n);
    }
  }

  function PowerOfTwo(k: nat): (n: nat)
    ensures 0 < n
  {
    if k == 0 then 1 else 2 * PowerOfTwo(k - 1)
  }

  /** The bitwise conjunction of two numbers. */
  function BitAnd(a: nat, b: nat): nat {
    if a == 0 || b == 0 then 0 else 2 * BitAnd(a / 2, b / 2) + (a % 2) * (b % 2)
  }

  /** A slot index modulo an even number has the lowest bit of the position. */
  lemma {:induction false} IxHalves(pos: nat, m: nat)
    requires 0 < m
    ensures Ix(pos, 2 * m) == 2 * Ix(pos / 2, m) + pos % 2
  {
    if 2 * m <= pos {
      IxHalves(pos - 2 * m, m);
      assert (pos - 2 * m) / 2 == pos / 2 - m;
    }
  }

  /** A mask of ones takes the lowest bit and masks the rest. */
  lemma MaskStep(pos: nat, m: nat, rest: nat)
    requires 0 < m && BitAnd(pos / 2, m - 1) == rest
    ensures BitAnd(pos, 2 * m - 1) == 2 * rest + pos % 2
  {
    assert (2 * m - 1) / 2 == m - 1 && (2 * m - 1) % 2 == 1;
  }

  /** In a ring whose size is a power of two the slot is found by masking the position with the size less one. */
  lemma {:induction false} IxIsMask(pos: nat, k: nat)
    ensures Ix(pos, PowerOfTwo(k)) == BitAnd(pos, PowerOfTwo(k) - 1)
    decreases k
  {
    if k == 0 {
      IxOne(pos);
    } else {
      var m := PowerOfTwo(k - 1);
      IxIsMask(pos / 2, k - 1);
      IxHalves(pos, m);
      MaskStep(pos, m, Ix(pos / 2, m));
    }
  }

  lemma {:induction false} IxOne(pos: nat)
    ensures Ix(pos, 1) == 0
  {
    if 1 <= pos { IxOne(pos - 1); }
  }

  lemma {:induction false} IxInjective(i: nat, j: nat, n: nat)
    requires 0 < n && i < j < i + n
    ensures Ix(i, n) != Ix(j, n)
    decreases j
  {
    if n <= i {
      IxInjective(i - n, j - n, n);
    } else if n <= j {
      assert Ix(j, n) == Ix(j - n, n) == j - n;
    }
  }

  lemma IxLap(i: nat, n: nat)
    requires 0 < n
    ensures Ix(i + n, n) == Ix(i, n)
  {
  }

  /** Two tickets that are both latest in their slots sit in different slots. */
  lemma CurrentApart(r: Ring, i: nat)
    requires Shape(r) && Current(r, i)
    ensures forall j: nat :: Current(r, j) && j != i ==> Ix(j, r.Size()) != Ix(i, r.Size())
    ensures |r.tickets| < r.Size() ==> Ix(i, r.Size()) < |r.tickets|
  {
    forall j: nat | Current(r, j) && j != i
      ensures Ix(j, r.Size()) != Ix(i, r.Size())
    {
      if i < j { IxInjective(i, j, r.Size()); } else { IxInjective(j, i, r.Size()); }
    }
  }

  /** The slot about to be claimed is not the slot of any latest ticket but the one a lap before. */
  lemma HeadApart(r: Ring)
    requires Shape(r)
    ensures forall j: nat :: Current(r, j) && Ix(j, r.Size()) == Ix(|r.tickets|, r.Size()) ==>
              j + r.Size() == |r.tickets|
    ensures r.Size() <= |r.tickets| ==>
              var j: nat := |r.tickets| - r.Size(); Current(r, j) && Ix(j, r.Size()) == Ix(|r.tickets|, r.Size())
    ensures |r.tickets| < r.Size() ==> Ix(|r.tickets|, r.Size()) == |r.tickets|
  {
    var w, n := |r.tickets|, r.Size();
    forall j: nat | Current(r, j) && Ix(j, n) == Ix(w, n)
      ensures j + n == w
    {
      if w < j + n { IxInjective(j, w, n); }
    }
    if n <= w { IxLap(w - n, n); }
  }

  /** The latest ticket in the slot of position `pos`. */
  function LatestAt(r: Ring, pos: nat): (j: nat)
    requires Shape(r) && pos < |r.tickets|
    ensures pos <= j && Current(r, j) && Ix(j, r.Size()) == Ix(pos, r.Size())
    decreases |r.tickets| - pos
  {
    if Current(r, pos) then pos
    else
      IxLap(pos, r.Size());
      LatestAt(r, pos + r.Size())
  }

  // ---------------------------------------------------------------------------
  // What a load of slot.seq tells a thread
  // ---------------------------------------------------------------------------

  /** The slot at the write index is free exactly when the ticket one lap earlier is released. */
  predicate HeadFree(r: Ring)
    requires 0 < r.Size()
  {
    r.Size() <= |r.tickets| ==> r.tickets[|r.tickets| - r.Size()].stage == Released
  }

  lemma HeadSeq(r: Ring)
    requires Inv(r)
    ensures r.SlotOf(r.writeIndex).seqNo <= r.writeIndex
    ensures r.SlotOf(r.writeIndex).seqNo == r.writeIndex <==> HeadFree(r)
  {
    HeadApart(r);
    if r.Size() <= |r.tickets| { assert TicketOk(r, |r.tickets| - r.Size()); }
  }

  lemma PassedSeq(r: Ring, pos: nat)
    requires Inv(r) && pos < |r.tickets|
    ensures pos <= r.SlotOf(pos).seqNo
    ensures pos < r.readIndex ==> pos < r.SlotOf(pos).seqNo
    ensures r.SlotOf(pos).seqNo == pos + 1 && r.readIndex <= pos ==> r.tickets[pos].stage == Published
    ensures r.readIndex <= pos && r.tickets[pos].stage == Published ==> r.SlotOf(pos).seqNo == pos + 1
    ensures r.readIndex <= pos && r.tickets[pos].stage == Writing ==> r.SlotOf(pos).seqNo == pos
  {
    var j := LatestAt(r, pos);
    assert TicketOk(r, j) && TicketOk(r, pos);
  }

  // ---------------------------------------------------------------------------
  // Preservation, one lemma per kind of atomic access
  // ---------------------------------------------------------------------------

  /** Moving only the program counter of `t` between points that own nothing. */
  lemma GotoKeeps(r: Ring, t: Tid, pc: Pc)
    requires Inv(r)
    requires !Owner(r.At(t))
    requires ThreadOk(r.Goto(t, pc), t)
    ensures Inv(r.Goto(t, pc))
  {
    var r' := r.Goto(t, pc);
    forall i | 0 <= i < |r'.tickets| ensures TicketOk(r', i) { assert TicketOk(r, i); }
    forall u: Tid | u in r'.threads ensures ThreadOk(r', u) {
      if u != t { assert ThreadOk(r, u); }
    }
  }

  /** A Dequeue that sees its expected number at the read index has found a published record. */
  lemma DeqLoadedFinds(r: Ring, pos: nat)
    requires Inv(r) && pos == r.readIndex && r.SlotOf(pos).seqNo == pos + 1
    ensures pos < |r.tickets| && r.tickets[pos].stage == Published
  {
    if pos == r.writeIndex { HeadSeq(r); } else { PassedSeq(r, pos); }
  }

  lemma ClaimWriteKeepsTicket(r: Ring, t: Tid, i: nat)
    requires Inv(r) && r.At(t).EnqCas? && r.At(t).pos == r.writeIndex
    requires i < |r.tickets|
    ensures TicketOk(ClaimWrite(r, t, r.At(t).rec), i)
  {
    assert ThreadOk(r, t) && TicketOk(r, i);
    HeadApart(r);
    HeadSeq(r);
  }

  lemma ClaimWriteMakesTicket(r: Ring, t: Tid)
    requires Inv(r) && r.At(t).EnqCas? && r.At(t).pos == r.writeIndex
    ensures TicketOk(ClaimWrite(r, t, r.At(t).rec), |r.tickets|)
  {
    assert ThreadOk(r, t);
    HeadSeq(r);
  }

  lemma ClaimWriteKeepsThread(r: Ring, t: Tid, u: Tid)
    requires Inv(r) && r.At(t).EnqCas? && r.At(t).pos == r.writeIndex
    requires u in r.threads
    ensures ThreadOk(ClaimWrite(r, t, r.At(t).rec), u)
  {
    assert ThreadOk(r, t) && ThreadOk(r, u);
    HeadApart(r);
    HeadSeq(r);
  }

  lemma ClaimWriteKeeps(r: Ring, t: Tid)
    requires Inv(r) && r.At(t).EnqCas? && r.At(t).pos == r.writeIndex
    ensures Inv(ClaimWrite(r, t, r.At(t).rec))
  {
    assert ThreadOk(r, t);
    HeadApart(r);
    HeadSeq(r);
    var r' := ClaimWrite(r, t, r.At(t).rec);
    ClaimWriteMakesTicket(r, t);
    forall i | 0 <= i < |r.tickets| ensures TicketOk(r', i) { ClaimWriteKeepsTicket(r, t, i); }
    forall u: Tid | u in r'.threads ensures ThreadOk(r', u) { ClaimWriteKeepsThread(r, t, u); }
  }

  /** The holder of ticket `pos` shares its slot with no other ticket in use. */
  lemma OwnersApart(r: Ring, pos: nat)
    requires Inv(r) && pos < |r.tickets| && r.tickets[pos].stage in {Writing, Reading}
    ensures Current(r, pos)
    ensures forall j: nat :: j < |r.tickets| && j != pos && (Current(r, j) || r.tickets[j].stage != Released) ==>
              Ix(j, r.Size()) != Ix(pos, r.Size())
    ensures |r.tickets| < r.Size() ==> Ix(pos, r.Size()) < |r.tickets|
    ensures r.SlotOf(r.writeIndex).seqNo == r.writeIndex ==> Ix(r.writeIndex, r.Size()) != Ix(pos, r.Size())
  {
    assert TicketOk(r, pos);
    CurrentApart(r, pos);
    forall j: nat | j < |r.tickets| && j != pos && (Current(r, j) || r.tickets[j].stage != Released)
      ensures Ix(j, r.Size()) != Ix(pos, r.Size())
    {
      assert TicketOk(r, j);
    }
    HeadSeq(r);
    HeadApart(r);
  }

  lemma StoreRecordKeepsTicket(r: Ring, t: Tid, i: nat)
    requires Inv(r) && r.At(t).EnqClaimed?
    requires i < |StoreRecord(r, t, r.At(t).rec, r.At(t).pos).tickets|
    ensures TicketOk(StoreRecord(r, t, r.At(t).rec, r.At(t).pos), i)
  {
    assert ThreadOk(r, t);
    assert TicketOk(r, i);
    OwnersApart(r, r.At(t).pos);
  }

  lemma StoreRecordKeepsThread(r: Ring, t: Tid, u: Tid)
    requires Inv(r) && r.At(t).EnqClaimed?
    requires u in r.threads
    ensures ThreadOk(StoreRecord(r, t, r.At(t).rec, r.At(t).pos), u)
  {
    assert ThreadOk(r, t) && ThreadOk(r, u);
    OwnersApart(r, r.At(t).pos);
  }

  lemma StoreRecordKeeps(r: Ring, t: Tid)
    requires Inv(r) && r.At(t).EnqClaimed?
    ensures Inv(StoreRecord(r, t, r.At(t).rec, r.At(t).pos))
  {
    assert ThreadOk(r, t);
    OwnersApart(r, r.At(t).pos);
    var r' := StoreRecord(r, t, r.At(t).rec, r.At(t).pos);
    forall i | 0 <= i < |r'.tickets| ensures TicketOk(r', i) { StoreRecordKeepsTicket(r, t, i); }
    forall u: Tid | u in r'.threads ensures ThreadOk(r', u) { StoreRecordKeepsThread(r, t, u); }
  }

  lemma PublishKeepsTicket(r: Ring, t: Tid, i: nat)
    requires Inv(r) && r.At(t).EnqWritten? && r.At(t).pos < |r.tickets|
    requires i < |r.tickets|
    ensures TicketOk(Publish(r, t, r.At(t).pos), i)
  {
    assert ThreadOk(r, t) && TicketOk(r, i);
    OwnersApart(r, r.At(t).pos);
  }

  lemma PublishKeepsThread(r: Ring, t: Tid, u: Tid)
    requires Inv(r) && r.At(t).EnqWritten? && r.At(t).pos < |r.tickets|
    requires u in r.threads
    ensures ThreadOk(Publish(r, t, r.At(t).pos), u)
  {
    assert ThreadOk(r, t) && ThreadOk(r, u);
    OwnersApart(r, r.At(t).pos);
  }

  lemma PublishKeeps(r: Ring, t: Tid)
    requires Inv(r) && r.At(t).EnqWritten? && r.At(t).pos < |r.tickets|
    ensures Inv(Publish(r, t, r.At(t).pos))
  {
    assert ThreadOk(r, t);
    var r' := Publish(r, t, r.At(t).pos);
    forall i | 0 <= i < |r'.tickets| ensures TicketOk(r', i) { PublishKeepsTicket(r, t, i); }
    forall u: Tid | u in r'.threads ensures ThreadOk(r', u) { PublishKeepsThread(r, t, u); }
  }

  lemma CountInKeepsTicket(r: Ring, t: Tid, i: nat)
    requires Inv(r) && r.At(t).EnqPublished?
    requires i < |r.tickets|
    ensures TicketOk(CountIn(r, t, r.At(t).pos), i)
  {
    assert ThreadOk(r, t) && TicketOk(r, i);
  }

  lemma CountInKeepsThread(r: Ring, t: Tid, u: Tid)
    requires Inv(r) && r.At(t).EnqPublished?
    requires u in r.threads
    ensures ThreadOk(CountIn(r, t, r.At(t).pos), u)
  {
    assert ThreadOk(r, t) && ThreadOk(r, u);
  }

  lemma CountInKeeps(r: Ring, t: Tid)
    requires Inv(r) && r.At(t).EnqPublished?
    ensures Inv(CountIn(r, t, r.At(t).pos))
  {
    assert ThreadOk(r, t);
    var r' := CountIn(r, t, r.At(t).pos);
    forall i | 0 <= i < |r'.tickets| ensures TicketOk(r', i) { CountInKeepsTicket(r, t, i); }
    forall u: Tid | u in r'.threads ensures ThreadOk(r', u) { CountInKeepsThread(r, t, u); }
  }

  lemma ClaimReadKeepsTicket(r: Ring, t: Tid, i: nat)
    requires Inv(r) && r.At(t).DeqCas? && r.At(t).pos == r.readIndex < |r.tickets|
    requires i < |r.tickets|
    ensures TicketOk(ClaimRead(r, t), i)
  {
    assert ThreadOk(r, t) && TicketOk(r, i);
    assert TicketOk(r, r.readIndex);
  }

  lemma ClaimReadKeepsThread(r: Ring, t: Tid, u: Tid)
    requires Inv(r) && r.At(t).DeqCas? && r.At(t).pos == r.readIndex < |r.tickets|
    requires u in r.threads
    ensures ThreadOk(ClaimRead(r, t), u)
  {
    assert ThreadOk(r, t) && ThreadOk(r, u);
    assert TicketOk(r, r.readIndex);
  }

  lemma ClaimReadKeeps(r: Ring, t: Tid)
    requires Inv(r) && r.At(t).DeqCas? && r.At(t).pos == r.readIndex < |r.tickets|
    ensures Inv(ClaimRead(r, t))
  {
    assert ThreadOk(r, t);
    assert TicketOk(r, r.readIndex);
    var r' := ClaimRead(r, t);
    forall i | 0 <= i < |r'.tickets| ensures TicketOk(r', i) { ClaimReadKeepsTicket(r, t, i); }
    forall u: Tid | u in r'.threads ensures ThreadOk(r', u) { ClaimReadKeepsThread(r, t, u); }
  }

  lemma TakeRecordKeepsTicket(r: Ring, t: Tid, i: nat)
    requires Inv(r) && r.At(t).DeqClaimed?
    requires i < |TakeRecord(r, t, r.At(t).pos).tickets|
    ensures TicketOk(TakeRecord(r, t, r.At(t).pos), i)
  {
    assert ThreadOk(r, t);
    assert TicketOk(r, i);
    OwnersApart(r, r.At(t).pos);
  }

  lemma TakeRecordKeepsThread(r: Ring, t: Tid, u: Tid)
    requires Inv(r) && r.At(t).DeqClaimed?
    requires u in r.threads
    ensures ThreadOk(TakeRecord(r, t, r.At(t).pos), u)
  {
    assert ThreadOk(r, t) && ThreadOk(r, u);
    OwnersApart(r, r.At(t).pos);
  }

  lemma TakeRecordKeeps(r: Ring, t: Tid)
    requires Inv(r) && r.At(t).DeqClaimed?
    ensures Inv(TakeRecord(r, t, r.At(t).pos))
  {
    assert ThreadOk(r, t);
    OwnersApart(r, r.At(t).pos);
    var r' := TakeRecord(r, t, r.At(t).pos);
    forall i | 0 <= i < |r'.tickets| ensures TicketOk(r', i) { TakeRecordKeepsTicket(r, t, i); }
    forall u: Tid | u in r'.threads ensures ThreadOk(r', u) { TakeRecordKeepsThread(r, t, u); }
  }

  lemma ReleaseKeepsTicket(r: Ring, t: Tid, i: nat)
    requires Inv(r) && r.At(t).DeqTaken? && r.At(t).pos < |r.tickets|
    requires i < |r.tickets|
    ensures TicketOk(Release(r, t, r.At(t).pos, r.At(t).rec), i)
  {
    assert ThreadOk(r, t) && TicketOk(r, i);
    OwnersApart(r, r.At(t).pos);
  }

  lemma ReleaseKeepsThread(r: Ring, t: Tid, u: Tid)
    requires Inv(r) && r.At(t).DeqTaken? && r.At(t).pos < |r.tickets|
    requires u in r.threads
    ensures ThreadOk(Release(r, t, r.At(t).pos, r.At(t).rec), u)
  {
    assert ThreadOk(r, t) && ThreadOk(r, u);
    OwnersApart(r, r.At(t).pos);
  }

  lemma ReleaseKeeps(r: Ring, t: Tid)
    requires Inv(r) && r.At(t).DeqTaken? && r.At(t).pos < |r.tickets|
    ensures Inv(Release(r, t, r.At(t).pos, r.At(t).rec))
  {
    assert ThreadOk(r, t);
    var r' := Release(r, t, r.At(t).pos, r.At(t).rec);
    forall i | 0 <= i < |r'.tickets| ensures TicketOk(r', i) { ReleaseKeepsTicket(r, t, i); }
    forall u: Tid | u in r'.threads ensures ThreadOk(r', u) { ReleaseKeepsThread(r, t, u); }
  }

  lemma CountOutKeepsHanded(r: Ring, t: Tid)
    requires Inv(r) && r.At(t).DeqReleased?
    ensures HandedOk(CountOut(r, t, r.At(t).pos, r.At(t).rec))
  {
    assert ThreadOk(r, t);
    var r' := CountOut(r, t, r.At(t).pos, r.At(t).rec);
    forall h | 0 <= h < |r'.handed| ensures HandoutOk(r', h, r'.handed[h]) {
      if h < |r.handed| { assert HandoutOk(r, h, r.handed[h]); }
    }
  }

  lemma CountOutKeeps(r: Ring, t: Tid)
    requires Inv(r) && r.At(t).DeqReleased?
    ensures Inv(CountOut(r, t, r.At(t).pos, r.At(t).rec))
  {
    assert ThreadOk(r, t);
    var r' := CountOut(r, t, r.At(t).pos, r.At(t).rec);
    CountOutKeepsHanded(r, t);
    forall i | 0 <= i < |r'.tickets| ensures TicketOk(r', i) { assert TicketOk(r, i); }
    forall u: Tid | u in r'.threads ensures ThreadOk(r', u) {
      if u != t { assert ThreadOk(r, u); }
    }
  }

  lemma LoadKeeps(r: Ring, t: Tid, c: Choice)
    requires Inv(r) && !Owner(r.At(t)) && !r.At(t).EnqCas? && !r.At(t).DeqCas?
    ensures Inv(Advance(r, t, c))
  {
    assert t in r.threads ==> ThreadOk(r, t);
    var pc := r.At(t);
    if pc.DeqLoaded? && pc.pos == r.readIndex && r.SlotOf(pc.pos).seqNo == pc.pos + 1 {
      DeqLoadedFinds(r, pc.pos);
    }
    if !pc.Idle? || c.BeginEnqueue? || c.BeginDequeue? { GotoKeeps(r, t, Advance(r, t, c).At(t)); }
  }

  lemma CasKeeps(r: Ring, t: Tid, c: Choice)
    requires Inv(r) && (r.At(t).EnqCas? || r.At(t).DeqCas?)
    ensures Inv(Advance(r, t, c))
  {
    assert ThreadOk(r, t);
    var pc := r.At(t);
    if pc.EnqCas? && pc.pos == r.writeIndex && c != FailSpuriously { ClaimWriteKeeps(r, t); }
    else if pc.DeqCas? && pc.pos == r.readIndex && c != FailSpuriously { ClaimReadKeeps(r, t); }
    else { GotoKeeps(r, t, Advance(r, t, c).At(t)); }
  }

  /** Every atomic access of every thread keeps the invariant. */
  lemma AdvanceKeeps(r: Ring, t: Tid, c: Choice)
    requires Inv(r)
    ensures Inv(Advance(r, t, c))
  {
    assert t in r.threads ==> ThreadOk(r, t);
    match r.At(t)
    case EnqClaimed(_, _) => StoreRecordKeeps(r, t);
    case EnqWritten(_) => PublishKeeps(r, t);
    case EnqPublished(_) => CountInKeeps(r, t);
    case DeqClaimed(_) => TakeRecordKeeps(r, t);
    case DeqTaken(_, _) => ReleaseKeeps(r, t);
    case DeqReleased(_, _) => CountOutKeeps(r, t);
    case EnqCas(_, _) => CasKeeps(r, t, c);
    case DeqCas(_) => CasKeeps(r, t, c);
    case _ => LoadKeeps(r, t, c);
  }

  // ---------------------------------------------------------------------------
  // Results over every run
  // ---------------------------------------------------------------------------

  /** Any interleaving: each entry names the thread that moves and its choice. */
  function Run(r: Ring, schedule: seq<(Tid, Choice)>): (r': Ring)
    requires Inv(r)
    ensures Inv(r')
    decreases |schedule|
  {
    if schedule == [] then r
    else
      AdvanceKeeps(r, schedule[0].0, schedule[0].1);
      Run(Advance(r, schedule[0].0, schedule[0].1), schedule[1..])
  }

  lemma {:induction false} RunConcat(r: Ring, a: seq<(Tid, Choice)>, b: seq<(Tid, Choice)>)
    requires Inv(r)
    ensures Run(r, a + b) == Run(Run(r, a), b)
    decreases |a|
  {
    if a == [] {
      assert a + b == b;
    } else {
      AdvanceKeeps(r, a[0].0, a[0].1);
      assert (a + b)[1..] == a[1..] + b;
      RunConcat(Advance(r, a[0].0, a[0].1), a[1..], b);
    }
  }

  lemma RunOne(r: Ring, t: Tid, c: Choice)
    requires Inv(r)
    ensures Run(r, [(t, c)]) == Advance(r, t, c)
  {
    AdvanceKeeps(r, t, c);
    assert [(t, c)][1..] == [];
  }

  /** The thread is between a claim and its store of slot.seq, so it owns the data of slot `k`. */
  predicate HoldsSlot(r: Ring, t: Tid, k: nat)
    requires 0 < r.Size()
  {
    var pc := r.At(t);
    (pc.EnqClaimed? || pc.EnqWritten? || pc.DeqClaimed? || pc.DeqTaken?) && Ix(pc.pos, r.Size()) == k
  }

  /** No two threads ever hold the data of the same slot. */
  lemma SlotsAreExclusive(n: nat, schedule: seq<(Tid, Choice)>, t: Tid, u: Tid, k: nat)
    requires 2 <= n
    requires HoldsSlot(Run(Init(n), schedule), t, k) && HoldsSlot(Run(Init(n), schedule), u, k)
    ensures t == u
  {
    HoldersApart(Run(Init(n), schedule), t, u, k);
  }

  lemma HoldersApart(r: Ring, t: Tid, u: Tid, k: nat)
    requires Inv(r) && HoldsSlot(r, t, k) && HoldsSlot(r, u, k)
    ensures t == u
  {
    assert ThreadOk(r, t) && ThreadOk(r, u);
    var pos := r.At(t).pos;
    assert r.tickets[pos].stage in {Writing, Reading};
    OwnersApart(r, pos);
  }

  // ---------------------------------------------------------------------------
  // Tickets and the calls of Enqueue
  // ---------------------------------------------------------------------------

  /** `a` is `b` with some elements left out. */
  predicate Subsequence<T(==)>(a: seq<T>, b: seq<T>)
    decreases |b|
  {
    || a == []
    || (&& b != []
        && (|| Subsequence(a, b[..|b| - 1])
            || (a[|a| - 1] == b[|b| - 1] && Subsequence(a[..|a| - 1], b[..|b| - 1]))))
  }

  lemma SubsequenceGrows<T>(a: seq<T>, b: seq<T>, x: T)
    requires Subsequence(a, b)
    ensures Subsequence(a, b + [x]) && Subsequence(a + [x], b + [x])
  {
    assert (b + [x])[..|b|] == b && (a + [x])[..|a|] == a;
  }

  /** The records of the tickets of writer `t`, in ticket order. */
  function Claimed(tickets: seq<Ticket>, t: Tid): seq<Record>
    decreases |tickets|
  {
    if tickets == [] then []
    else
      var last := tickets[|tickets| - 1];
      Claimed(tickets[..|tickets| - 1], t) + if last.writer == t then [last.rec] else []
  }

  lemma {:induction false} ClaimedSame(a: seq<Ticket>, b: seq<Ticket>, t: Tid)
    requires |a| == |b|
    requires forall i :: 0 <= i < |a| ==> a[i].rec == b[i].rec && a[i].writer == b[i].writer
    ensures Claimed(a, t) == Claimed(b, t)
    decreases |a|
  {
    if a != [] { ClaimedSame(a[..|a| - 1], b[..|b| - 1], t); }
  }

  /** The argument of the Enqueue that `t` begins, if choice `c` of thread `u` begins one. */
  function Begun(r: Ring, u: Tid, c: Choice, t: Tid): seq<Record> {
    if u == t && r.At(t).Idle? && c.BeginEnqueue? then [c.rec] else []
  }

  /** The arguments of the Enqueues that `t` begins during a schedule. */
  function Calls(r: Ring, schedule: seq<(Tid, Choice)>, t: Tid): seq<Record>
    requires Inv(r)
    decreases |schedule|
  {
    if schedule == [] then []
    else
      AdvanceKeeps(r, schedule[0].0, schedule[0].1);
      Begun(r, schedule[0].0, schedule[0].1, t)
      + Calls(Advance(r, schedule[0].0, schedule[0].1), schedule[1..], t)
  }

  /** Thread `u` is `t` and finds its slot taken. */
  predicate Refused(r: Ring, u: Tid, t: Tid)
    requires 0 < r.Size()
  {
    u == t && r.At(t).EnqLoaded? && Drops(r, r.At(t).pos)
  }

  /** How many Enqueues of `t` a schedule turns away. */
  function Refusals(r: Ring, schedule: seq<(Tid, Choice)>, t: Tid): nat
    requires Inv(r)
    decreases |schedule|
  {
    if schedule == [] then 0
    else
      AdvanceKeeps(r, schedule[0].0, schedule[0].1);
      (if Refused(r, schedule[0].0, t) then 1 else 0)
      + Refusals(Advance(r, schedule[0].0, schedule[0].1), schedule[1..], t)
  }

  /** The thread is inside Enqueue and has no ticket yet. */
  predicate Offering(pc: Pc) { pc.EnqStart? || pc.EnqLoaded? || pc.EnqCas? }

  function Underway(r: Ring, t: Tid): nat { if Offering(r.At(t)) then 1 else 0 }

  /** The tickets of `t` carry arguments of its calls, each call used once; the call under way is the last. */
  predicate Answers(r: Ring, calls: seq<Record>, t: Tid) {
    if Offering(r.At(t)) then
      && calls != []
      && calls[|calls| - 1] == r.At(t).rec
      && Subsequence(Claimed(r.tickets, t), calls[..|calls| - 1])
    else Subsequence(Claimed(r.tickets, t), calls)
  }

  /** The ticket of `t`, if one is claimed when thread `u` takes choice `c`. */
  function NewlyClaimed(r: Ring, u: Tid, c: Choice, t: Tid): seq<Record> {
    var pc := r.At(t);
    if u == t && pc.EnqCas? && r.writeIndex == pc.pos && c != FailSpuriously then [pc.rec] else []
  }

  /** An access keeps the record and writer of every ticket; it adds at most the one it claims. */
  predicate TicketsGrow(a: seq<Ticket>, b: seq<Ticket>, u: Tid, added: seq<Record>) {
    && |a| <= |b| == |a| + |added|
    && (forall i :: 0 <= i < |a| ==> a[i].rec == b[i].rec && a[i].writer == b[i].writer)
    && (forall i :: |a| <= i < |b| ==> b[i].rec == added[i - |a|] && b[i].writer == u)
  }

  lemma AccessGrows(r: Ring, u: Tid, c: Choice)
    requires Inv(r)
    ensures TicketsGrow(r.tickets, Advance(r, u, c).tickets, u, NewlyClaimed(r, u, c, u))
  {
    assert u in r.threads ==> ThreadOk(r, u);
  }

  lemma ClaimedGrows(a: seq<Ticket>, b: seq<Ticket>, u: Tid, added: seq<Record>, t: Tid)
    requires TicketsGrow(a, b, u, added) && |added| <= 1
    ensures Claimed(b, t) == Claimed(a, t) + if u == t then added else []
  {
    ClaimedSame(a, b[..|a|], t);
    if added == [] { assert b[..|a|] == b; } else { assert b[..|b| - 1] == b[..|a|]; }
  }

  /** Inside Enqueue a thread keeps its record until it has its ticket or is turned away. */
  predicate OfferGoesOn(pc: Pc, pc': Pc, begun: seq<Record>, ends: bool) {
    if begun != [] then !Offering(pc) && Offering(pc') && pc'.rec == begun[0]
    else if ends then Offering(pc) && !Offering(pc')
    else (Offering(pc) <==> Offering(pc')) && (Offering(pc) ==> pc'.rec == pc.rec)
  }

  lemma OthersStay(r: Ring, u: Tid, c: Choice, t: Tid)
    requires Inv(r) && u != t
    ensures Advance(r, u, c).At(t) == r.At(t)
  {
    assert u in r.threads ==> ThreadOk(r, u);
  }

  lemma OwnOfferGoesOn(r: Ring, c: Choice, t: Tid)
    requires Inv(r) && Offering(r.At(t))
    ensures OfferGoesOn(r.At(t), Advance(r, t, c).At(t), [], NewlyClaimed(r, t, c, t) != [] || Refused(r, t, t))
  {
    match r.At(t)
    case EnqStart(rec) =>
    case EnqLoaded(rec, pos) =>
    case EnqCas(rec, pos) =>
  }

  lemma OtherwiseNoOffer(r: Ring, c: Choice, t: Tid)
    requires Inv(r) && !Offering(r.At(t))
    ensures OfferGoesOn(r.At(t), Advance(r, t, c).At(t), Begun(r, t, c, t), false)
  {
    assert t in r.threads ==> ThreadOk(r, t);
  }

  lemma AccessOffers(r: Ring, u: Tid, c: Choice, t: Tid)
    requires Inv(r)
    ensures OfferGoesOn(r.At(t), Advance(r, u, c).At(t), Begun(r, u, c, t),
                        NewlyClaimed(r, u, c, t) != [] || Refused(r, u, t))
  {
    if u != t {
      OthersStay(r, u, c, t);
    } else if Offering(r.At(t)) {
      OwnOfferGoesOn(r, c, t);
    } else {
      OtherwiseNoOffer(r, c, t);
    }
  }

  /** A call that begins or ends leaves every ticket with a call of its own. */
  lemma AnswersGoOn(r: Ring, r': Ring, calls: seq<Record>, begun: seq<Record>, got: seq<Record>, ends: bool, t: Tid)
    requires Answers(r, calls, t) && |begun| <= 1
    requires Claimed(r'.tickets, t) == Claimed(r.tickets, t) + got
    requires OfferGoesOn(r.At(t), r'.At(t), begun, ends)
    requires got != [] ==> begun == [] && ends && got == [r.At(t).rec]
    ensures Answers(r', calls + begun, t)
  {
    var had := Claimed(r.tickets, t);
    if got == [] { assert had + got == had; }
    if begun != [] {
      assert (calls + begun)[..|calls|] == calls;
    } else {
      assert calls + begun == calls;
      if ends {
        var front := calls[..|calls| - 1];
        assert calls == front + [r.At(t).rec];
        SubsequenceGrows(had, front, r.At(t).rec);
      }
    }
  }

  lemma AccessAnswers(r: Ring, calls: seq<Record>, u: Tid, c: Choice, t: Tid)
    requires Inv(r) && Answers(r, calls, t)
    ensures Answers(Advance(r, u, c), calls + Begun(r, u, c, t), t)
  {
    AccessGrows(r, u, c);
    ClaimedGrows(r.tickets, Advance(r, u, c).tickets, u, NewlyClaimed(r, u, c, u), t);
    AccessOffers(r, u, c, t);
    AnswersGoOn(r, Advance(r, u, c), calls, Begun(r, u, c, t), NewlyClaimed(r, u, c, t),
                NewlyClaimed(r, u, c, t) != [] || Refused(r, u, t), t);
  }

  /** A call that begins gets its ticket, is refused, or is under way. */
  lemma AccessCounts(r: Ring, u: Tid, c: Choice, t: Tid)
    requires Inv(r)
    ensures |Begun(r, u, c, t)| + Underway(r, t) + |Claimed(r.tickets, t)|
            == |Claimed(Advance(r, u, c).tickets, t)| + (if Refused(r, u, t) then 1 else 0)
               + Underway(Advance(r, u, c), t)
  {
    AccessGrows(r, u, c);
    ClaimedGrows(r.tickets, Advance(r, u, c).tickets, u, NewlyClaimed(r, u, c, u), t);
    AccessOffers(r, u, c, t);
  }

  lemma CallsFirst(r: Ring, calls: seq<Record>, schedule: seq<(Tid, Choice)>, t: Tid, r1: Ring)
    requires Inv(r) && schedule != [] && r1 == Advance(r, schedule[0].0, schedule[0].1) && Inv(r1)
    ensures calls + Calls(r, schedule, t)
            == calls + Begun(r, schedule[0].0, schedule[0].1, t) + Calls(r1, schedule[1..], t)
  {
  }

  lemma {:induction false} ScheduleAnswers(r: Ring, calls: seq<Record>, schedule: seq<(Tid, Choice)>, t: Tid)
    requires Inv(r) && Answers(r, calls, t)
    ensures Answers(Run(r, schedule), calls + Calls(r, schedule, t), t)
    decreases |schedule|
  {
    if schedule == [] {
      assert calls + [] == calls;
    } else {
      var (u, c) := schedule[0];
      AdvanceKeeps(r, u, c);
      AccessAnswers(r, calls, u, c, t);
      CallsFirst(r, calls, schedule, t, Advance(r, u, c));
      ScheduleAnswers(Advance(r, u, c), calls + Begun(r, u, c, t), schedule[1..], t);
    }
  }

  lemma {:induction false} ScheduleCounts(r: Ring, schedule: seq<(Tid, Choice)>, t: Tid)
    requires Inv(r)
    ensures |Calls(r, schedule, t)| + Underway(r, t) + |Claimed(r.tickets, t)|
            == |Claimed(Run(r, schedule).tickets, t)| + Refusals(r, schedule, t) + Underway(Run(r, schedule), t)
    decreases |schedule|
  {
    if schedule != [] {
      var (u, c) := schedule[0];
      AdvanceKeeps(r, u, c);
      AccessCounts(r, u, c, t);
      ScheduleCounts(Advance(r, u, c), schedule[1..], t);
    }
  }

  lemma AnswersAreCalls(r: Ring, calls: seq<Record>, t: Tid)
    requires Answers(r, calls, t)
    ensures Subsequence(Claimed(r.tickets, t), calls)
  {
    if Offering(r.At(t)) {
      var front := calls[..|calls| - 1];
      assert calls == front + [r.At(t).rec];
      SubsequenceGrows(Claimed(r.tickets, t), front, r.At(t).rec);
    }
  }

  /**
   In every schedule the records that a thread got into the ring are arguments of
   its own calls of Enqueue, in the order of the calls and each call at most once;
   a call without a ticket was turned away, or is the one under way.
   */
  lemma TicketsAreCalls(n: nat, schedule: seq<(Tid, Choice)>, t: Tid)
    requires 2 <= n
    ensures var r := Run(Init(n), schedule);
            && Subsequence(Claimed(r.tickets, t), Calls(Init(n), schedule, t))
            && |Calls(Init(n), schedule, t)|
               == |Claimed(r.tickets, t)| + Refusals(Init(n), schedule, t) + Underway(r, t)
  {
    ScheduleAnswers(Init(n), [], schedule, t);
    ScheduleCounts(Init(n), schedule, t);
    var r, calls := Run(Init(n), schedule), Calls(Init(n), schedule, t);
    assert [] + calls == calls;
    AnswersAreCalls(r, calls, t);
  }

  /**
   Records come out by ticket: a Dequeue returns the record of its ticket, no
   ticket is returned twice, and the tickets of each writer are, in order, what it
   passed to Enqueue.
   */
  lemma FifoByTicket(n: nat, schedule: seq<(Tid, Choice)>)
    requires 2 <= n
    ensures var r := Run(Init(n), schedule);
            && r.readIndex <= |r.tickets|
            && (forall t: Tid :: Subsequence(Claimed(r.tickets, t), Calls(Init(n), schedule, t)))
            && (forall h :: 0 <= h < |r.handed| ==>
                  && r.handed[h].ticket < r.readIndex
                  && r.handed[h].rec == r.tickets[r.handed[h].ticket].rec)
            && (forall g, h :: 0 <= g < h < |r.handed| ==> r.handed[g].ticket != r.handed[h].ticket)
  {
    var r := Run(Init(n), schedule);
    forall t: Tid ensures Subsequence(Claimed(r.tickets, t), Calls(Init(n), schedule, t)) {
      TicketsAreCalls(n, schedule, t);
    }
    forall g, h | 0 <= g < h < |r.handed|
      ensures r.handed[g].ticket != r.handed[h].ticket
    {
      assert HandoutOk(r, g, r.handed[g]) && HandoutOk(r, h, r.handed[h]);
    }
    forall h | 0 <= h < |r.handed|
      ensures r.handed[h].ticket < r.readIndex && r.handed[h].rec == r.tickets[r.handed[h].ticket].rec
    {
      assert HandoutOk(r, h, r.handed[h]) && TicketOk(r, r.handed[h].ticket);
    }
  }

  /** Where the record of a claimed ticket is; the four places exclude each other. */
  datatype Place = WithWriter | InSlot | WithReader | Returned

  function PlaceOf(r: Ring, i: nat): Place
    requires i < |r.tickets|
  {
    match r.tickets[i].stage
    case Writing => WithWriter
    case Published => InSlot
    case _ => if i in r.taken then Returned else WithReader
  }

  /** No accepted record is lost or copied: each one is in exactly the place its ticket says. */
  lemma NoRecordLost(n: nat, schedule: seq<(Tid, Choice)>, i: nat)
    requires 2 <= n && i < |Run(Init(n), schedule).tickets|
    ensures var r := Run(Init(n), schedule);
            match PlaceOf(r, i)
            case WithWriter => Publishing(r.At(r.tickets[i].writer), i)
            case InSlot => r.SlotOf(i) == Slot(i + 1, r.tickets[i].rec)
            case WithReader => Consuming(r.At(r.tickets[i].reader), i)
            case Returned => Handout(i, r.tickets[i].reader, r.tickets[i].rec) in r.handed
  {
    var r := Run(Init(n), schedule);
    assert TicketOk(r, i);
    if PlaceOf(r, i) == Returned {
      var h := r.taken[i];
      assert HandoutOk(r, h, r.handed[h]);
      assert r.handed[h] == Handout(i, r.tickets[i].reader, r.tickets[i].rec);
    }
  }

  /** What was accepted and returned so far never changes afterwards. */
  lemma HistoryIsStable(r: Ring, t: Tid, c: Choice)
    requires Inv(r)
    ensures var r' := Advance(r, t, c);
            && |r.tickets| <= |r'.tickets|
            && (forall i :: 0 <= i < |r.tickets| ==>
                  && r'.tickets[i].rec == r.tickets[i].rec
                  && r'.tickets[i].writer == r.tickets[i].writer)
            && r.handed <= r'.handed
  {
    assert t in r.threads ==> ThreadOk(r, t);
  }

  /** The loaded slot turns an Enqueue away. */
  predicate Drops(r: Ring, pos: nat)
    requires 0 < r.Size()
  {
    r.SlotOf(pos).seqNo < pos
  }

  /**
   Enqueue drops a record exactly when its position is still the write index and
   the ticket one lap earlier is claimed but not released.
   */
  lemma DropsIffLapped(r: Ring, t: Tid)
    requires Inv(r) && r.At(t).EnqLoaded?
    ensures var pos := r.At(t).pos;
            Drops(r, pos) <==>
              && pos == r.writeIndex
              && r.Size() <= pos
              && r.tickets[pos - r.Size()].stage != Released
    ensures Drops(r, r.At(t).pos) <==> Advance(r, t, Proceed).At(t) == Idle
  {
    assert ThreadOk(r, t);
    var pos := r.At(t).pos;
    if pos < r.writeIndex { PassedSeq(r, pos); } else { HeadSeq(r); }
  }

  /** Dequeue reports an empty ring exactly when no published record sits at the read index. */
  lemma EmptyIffNothingPublished(r: Ring, t: Tid)
    requires Inv(r) && r.At(t).DeqLoaded?
    ensures var pos := r.At(t).pos;
            Advance(r, t, Proceed).At(t) == Idle <==>
              && pos == r.readIndex
              && (pos < |r.tickets| ==> r.tickets[pos].stage != Published)
  {
    assert ThreadOk(r, t);
    var pos := r.At(t).pos;
    if pos < r.writeIndex {
      PassedSeq(r, pos);
      assert TicketOk(r, pos);
    } else {
      HeadSeq(r);
    }
  }

  /** Three accesses of one thread in a row. */
  lemma RunThree(r: Ring, t: Tid, c: Choice, r1: Ring, r2: Ring)
    requires Inv(r) && r1 == Advance(r, t, c)
    requires Inv(r1) && r2 == Advance(r1, t, Proceed) && Inv(r2)
    ensures Run(r, [(t, c), (t, Proceed), (t, Proceed)]) == Advance(r2, t, Proceed)
  {
    RunOne(r, t, c);
    RunOne(r1, t, Proceed);
    RunOne(r2, t, Proceed);
    RunConcat(r, [(t, c)], [(t, Proceed)]);
    RunConcat(r, [(t, c)] + [(t, Proceed)], [(t, Proceed)]);
    assert [(t, c)] + [(t, Proceed)] + [(t, Proceed)] == [(t, c), (t, Proceed), (t, Proceed)];
  }

  lemma AdvanceLoadsWrite(r: Ring, t: Tid, rec: Record)
    requires Inv(r) && r.At(t) == Idle
    ensures var r1 := r.Goto(t, EnqStart(rec));
            Inv(r1) && Advance(r1, t, Proceed) == r.Goto(t, EnqLoaded(rec, r.writeIndex))
  {
    GotoKeeps(r, t, EnqStart(rec));
  }

  lemma AdvanceSeesFree(r: Ring, t: Tid, rec: Record)
    requires Inv(r) && r.At(t) == Idle && HeadFree(r)
    ensures var r2 := r.Goto(t, EnqLoaded(rec, r.writeIndex));
            Inv(r2) && Advance(r2, t, Proceed) == r.Goto(t, EnqCas(rec, r.writeIndex))
  {
    HeadSeq(r);
    GotoKeeps(r, t, EnqLoaded(rec, r.writeIndex));
  }

  /** A thread running alone on a ring with a free head reaches its claim in three accesses ... */
  lemma EnqueueAloneReachesCas(r: Ring, t: Tid, rec: Record)
    requires Inv(r) && r.At(t) == Idle && HeadFree(r)
    ensures Run(r, [(t, BeginEnqueue(rec)), (t, Proceed), (t, Proceed)]) == r.Goto(t, EnqCas(rec, r.writeIndex))
  {
    AdvanceLoadsWrite(r, t, rec);
    AdvanceSeesFree(r, t, rec);
    RunThree(r, t, BeginEnqueue(rec), r.Goto(t, EnqStart(rec)), r.Goto(t, EnqLoaded(rec, r.writeIndex)));
  }

  lemma ClaimStorePublish(r: Ring, t: Tid, rec: Record)
    requires 0 < r.Size() && r.writeIndex == |r.tickets|
    ensures var r' := Publish(StoreRecord(ClaimWrite(r, t, rec), t, rec, r.writeIndex), t, r.writeIndex);
            && r'.At(t) == EnqPublished(r.writeIndex)
            && r'.tickets == r.tickets + [Ticket(rec, t, t, Published)]
            && (forall u: Tid :: u != t ==> r'.At(u) == r.At(u))
            && r'.pending == r.pending && r'.readIndex == r.readIndex && r'.handed == r.handed
  {
  }

  lemma AdvanceClaims(r: Ring, t: Tid, rec: Record)
    requires Inv(r) && r.At(t) == EnqCas(rec, r.writeIndex)
    ensures var r' := ClaimWrite(r, t, rec);
            Advance(r, t, Proceed) == r' && Inv(r') && r'.At(t) == EnqClaimed(rec, r.writeIndex)
  {
    ClaimWriteKeeps(r, t);
  }

  lemma AdvanceStores(r: Ring, t: Tid, rec: Record, pos: nat)
    requires Inv(r) && r.At(t) == EnqClaimed(rec, pos)
    ensures var r' := StoreRecord(r, t, rec, pos);
            Advance(r, t, Proceed) == r' && Inv(r') && r'.At(t) == EnqWritten(pos)
  {
    StoreRecordKeeps(r, t);
  }

  /** ... and publishes its record in three more. */
  lemma CasAlonePublishes(r: Ring, t: Tid, rec: Record)
    requires Inv(r) && r.At(t) == EnqCas(rec, r.writeIndex)
    ensures var r' := Run(r, [(t, Proceed), (t, Proceed), (t, Proceed)]);
            && r'.At(t) == EnqPublished(r.writeIndex)
            && r'.tickets == r.tickets + [Ticket(rec, t, t, Published)]
            && (forall u: Tid :: u != t ==> r'.At(u) == r.At(u))
            && r'.pending == r.pending && r'.readIndex == r.readIndex && r'.handed == r.handed
  {
    var w := r.writeIndex;
    AdvanceClaims(r, t, rec);
    var r1 := ClaimWrite(r, t, rec);
    AdvanceStores(r1, t, rec, w);
    var r2 := StoreRecord(r1, t, rec, w);
    RunThree(r, t, Proceed, r1, r2);
    ClaimStorePublish(r, t, rec);
  }

  lemma AdvanceLoadsRead(r: Ring, t: Tid)
    requires Inv(r) && r.At(t) == Idle
    ensures var r1 := r.Goto(t, DeqStart);
            Inv(r1) && Advance(r1, t, Proceed) == r.Goto(t, DeqLoaded(r.readIndex))
  {
    GotoKeeps(r, t, DeqStart);
  }

  lemma AdvanceSeesPublished(r: Ring, t: Tid)
    requires Inv(r) && r.At(t) == Idle
    requires r.readIndex < |r.tickets| && r.tickets[r.readIndex].stage == Published
    ensures var r2 := r.Goto(t, DeqLoaded(r.readIndex));
            Inv(r2) && Advance(r2, t, Proceed) == r.Goto(t, DeqCas(r.readIndex))
  {
    PassedSeq(r, r.readIndex);
    GotoKeeps(r, t, DeqLoaded(r.readIndex));
  }

  /** A thread running alone on a ring with a published record at the read index reaches its claim ... */
  lemma DequeueAloneReachesCas(r: Ring, t: Tid)
    requires Inv(r) && r.At(t) == Idle
    requires r.readIndex < |r.tickets| && r.tickets[r.readIndex].stage == Published
    ensures Run(r, [(t, BeginDequeue), (t, Proceed), (t, Proceed)]) == r.Goto(t, DeqCas(r.readIndex))
  {
    AdvanceLoadsRead(r, t);
    AdvanceSeesPublished(r, t);
    RunThree(r, t, BeginDequeue, r.Goto(t, DeqStart), r.Goto(t, DeqLoaded(r.readIndex)));
  }

  lemma AdvanceClaimsRead(r: Ring, t: Tid)
    requires Inv(r) && r.At(t) == DeqCas(r.readIndex) && r.readIndex < |r.tickets|
    ensures var r' := ClaimRead(r, t);
            && Advance(r, t, Proceed) == r' && Inv(r') && r'.At(t) == DeqClaimed(r.readIndex)
            && r'.SlotOf(r.readIndex).data == r.tickets[r.readIndex].rec
  {
    assert ThreadOk(r, t) && TicketOk(r, r.readIndex);
    ClaimReadKeeps(r, t);
  }

  lemma AdvanceTakes(r: Ring, t: Tid, pos: nat)
    requires Inv(r) && r.At(t) == DeqClaimed(pos)
    ensures var r' := TakeRecord(r, t, pos);
            Advance(r, t, Proceed) == r' && Inv(r') && r'.At(t) == DeqTaken(pos, r.SlotOf(pos).data)
  {
    TakeRecordKeeps(r, t);
  }

  lemma AdvanceReleases(r: Ring, t: Tid, pos: nat, rec: Record)
    requires Inv(r) && r.At(t) == DeqTaken(pos, rec)
    ensures pos < |r.tickets| && Advance(r, t, Proceed) == Release(r, t, pos, rec)
  {
    assert ThreadOk(r, t);
  }

  lemma ClaimTakeRelease(r: Ring, t: Tid, rec: Record)
    requires 0 < r.Size() && r.readIndex < |r.tickets| && r.SlotOf(r.readIndex).data == rec
    ensures var pos := r.readIndex;
            var r' := Release(TakeRecord(ClaimRead(r, t), t, pos), t, pos, rec);
            && r'.At(t) == DeqReleased(pos, rec)
            && r'.SlotOf(pos) == Slot(pos + r.Size(), "")
            && r'.tickets == r.tickets[pos := r.tickets[pos].(reader := t, stage := Released)]
            && r'.readIndex == pos + 1 && r'.writeIndex == r.writeIndex
            && (forall u: Tid :: u != t ==> r'.At(u) == r.At(u))
            && r'.pending == r.pending && r'.handed == r.handed
  {
  }

  /** ... and three accesses later it has taken the record, and the slot and the ticket are released. */
  lemma CasAloneReleases(r: Ring, t: Tid)
    requires Inv(r) && r.At(t) == DeqCas(r.readIndex) && r.readIndex < |r.tickets|
    ensures var pos := r.readIndex;
            var r' := Run(r, [(t, Proceed), (t, Proceed), (t, Proceed)]);
            && r'.At(t) == DeqReleased(pos, r.tickets[pos].rec)
            && r'.SlotOf(pos) == Slot(pos + r.Size(), "")
            && r'.tickets == r.tickets[pos := r.tickets[pos].(reader := t, stage := Released)]
            && r'.readIndex == pos + 1 && r'.writeIndex == r.writeIndex
            && (forall u: Tid :: u != t ==> r'.At(u) == r.At(u))
            && r'.pending == r.pending && r'.handed == r.handed
  {
    var pos, rec := r.readIndex, r.tickets[r.readIndex].rec;
    AdvanceClaimsRead(r, t);
    var r1 := ClaimRead(r, t);
    AdvanceTakes(r1, t, pos);
    var r2 := TakeRecord(r1, t, pos);
    AdvanceReleases(r2, t, pos, rec);
    RunThree(r, t, Proceed, r1, r2);
    assert r1.slots == r.slots;
    ClaimTakeRelease(r, t, rec);
  }

  /** `pending_` may pass below zero: a Dequeue can overtake the increment of its producer. */
  lemma PendingCanBeNegative(n: nat) returns (schedule: seq<(Tid, Choice)>)
    requires 2 <= n
    ensures Run(Init(n), schedule).pending == -1
  {
    var a := OnePublished(n, 1);
    var b := DequeueAlone(Run(Init(n), a), 2);
    RunConcat(Init(n), a, b);
    schedule := a + b;
  }

  /** A producer has published and not yet counted its record. */
  lemma OnePublished(n: nat, p: Tid) returns (schedule: seq<(Tid, Choice)>)
    requires 2 <= n
    ensures var r := Run(Init(n), schedule);
            && r.pending == 0 && r.readIndex == 0 && |r.tickets| == 1 && r.tickets[0].stage == Published
            && forall u: Tid :: u != p ==> r.At(u) == Idle
  {
    var r0 := Init(n);
    EnqueueAloneReachesCas(r0, p, "x");
    var a, b := [(p, BeginEnqueue("x")), (p, Proceed), (p, Proceed)], [(p, Proceed), (p, Proceed), (p, Proceed)];
    CasAlonePublishes(Run(r0, a), p, "x");
    RunConcat(r0, a, b);
    schedule := a + b;
  }

  /** A whole Dequeue of a thread running alone. */
  lemma DequeueAlone(r: Ring, q: Tid) returns (schedule: seq<(Tid, Choice)>)
    requires Inv(r) && r.At(q) == Idle && r.readIndex < |r.tickets| && r.tickets[r.readIndex].stage == Published
    ensures Run(r, schedule).pending == r.pending - 1
  {
    DequeueAloneReachesCas(r, q);
    var a := [(q, BeginDequeue), (q, Proceed), (q, Proceed)];
    var b := ReleaseAndCount(Run(r, a), q);
    RunConcat(r, a, b);
    schedule := a + b;
  }

  lemma ReleaseAndCount(r: Ring, q: Tid) returns (schedule: seq<(Tid, Choice)>)
    requires Inv(r) && r.At(q) == DeqCas(r.readIndex) && r.readIndex < |r.tickets|
    ensures Run(r, schedule).pending == r.pending - 1
  {
    CasAloneReleases(r, q);
    var a := [(q, Proceed), (q, Proceed), (q, Proceed)];
    CountsOut(Run(r, a), q);
    RunConcat(r, a, [(q, Proceed)]);
    schedule := a + [(q, Proceed)];
  }

  lemma CountsOut(r: Ring, q: Tid)
    requires Inv(r) && r.At(q).DeqReleased?
    ensures Run(r, [(q, Proceed)]).pending == r.pending - 1
  {
    RunOne(r, q, Proceed);
    AdvanceCountsOut(r, q);
  }

  lemma AdvanceCountsOut(r: Ring, q: Tid)
    requires Inv(r) && r.At(q).DeqReleased?
    ensures Advance(r, q, Proceed) == CountOut(r, q, r.At(q).pos, r.At(q).rec)
  {
  }
}
