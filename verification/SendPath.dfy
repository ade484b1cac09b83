/**
 The double-buffered send path of a connection: `Send`, `SubmitWriteOnce` and
 `OnWriteComplete` over an output buffer, which the kernel may be reading, and a
 pending buffer, which collects output while a write is in flight.

 `Link` is the abstract state: what is queued, as byte sequences.  A `Path` adds
 the two real buffers, whose copies can overrun.  The class `Sender` keeps the
 buffers as objects and is proved to behave like both.

 The kernel executes a write at some moment while it is in flight, and the loop
 handles its completion later; the two are separate events.
 */
module SendPath {
  import opened Shared
  import opened Bytes
  import opened IoBuffers

  datatype Link = Link(
    stage: Stage,
    taken: seq<Byte>,       // front of the output buffer that the kernel has taken but not yet reported
    output: seq<Byte>,      // the rest of the output buffer
    pending: seq<Byte>,
    inFlight: bool,
    wire: seq<Byte>,        // history: bytes the kernel has taken
    accepted: seq<Byte>,    // history: bytes of the messages Send has queued
    shut: bool)             // the write side of the socket has been shut down

  /** One call of Send; `slot` says whether the poller has a submission slot if one is needed. */
  datatype Message = Message(data: seq<Byte>, slot: bool)

  /** Why a write that took nothing was answered: an error to retry, or a fatal one. */
  datatype Failure = Retry | Fatal

  /** What a completion reports. */
  datatype Result = Sent(n: nat) | Failed(f: Failure)

  function Queued(l: Link): seq<Byte> { l.output + l.pending }

  function AfterSubmit(l: Link, slot: bool): Link {
    if l.inFlight || l.output == [] then l else l.(inFlight := slot)
  }

  function AfterSend(l: Link, m: Message): Link {
    if l.stage != Connected then l
    else if l.inFlight then l.(pending := l.pending + m.data, accepted := l.accepted + m.data)
    else AfterSubmit(l.(output := l.output + m.data, accepted := l.accepted + m.data), m.slot)
  }

  /** The write-complete callback sends these messages, in order. */
  function AfterSends(l: Link, ms: seq<Message>): Link
    decreases |ms|
  {
    if ms == [] then l else AfterSends(AfterSend(l, ms[0]), ms[1..])
  }

  function AfterShutDown(l: Link): Link {
    if l.stage == Connected then l.(stage := Disconnecting, shut := true) else l
  }

  /** The kernel executes the write in flight, once, and takes up to `n` bytes; a shut socket takes none. */
  function AfterTake(l: Link, n: nat): Link {
    if !l.inFlight || l.taken != [] || l.shut then l
    else
      var k := if n < |l.output| then n else |l.output|;
      l.(taken := l.output[..k], output := l.output[k..], wire := l.wire + l.output[..k])
  }

  function AfterCallback(l: Link): Link {
    if l.stage == Disconnecting && l.taken + l.output == [] && l.pending == [] then l.(shut := true) else l
  }

  /** OnWriteComplete once the taken bytes have left the output buffer. */
  function AfterWritten(l: Link, callback: seq<Message>, slot: bool): Link {
    if l.output != [] then AfterSubmit(l, slot)
    else if l.pending != [] then AfterSubmit(l.(output := l.pending, pending := []), slot)
    else AfterCallback(AfterSends(l, callback))
  }

  /** The completion of the write in flight; `f` is the error it reports if the kernel took nothing. */
  function AfterComplete(l: Link, f: Failure, callback: seq<Message>, slot: bool): Link {
    var t := l.(inFlight := false, taken := []);
    if l.taken != [] then AfterWritten(t, callback, slot)
    else if f == Retry then AfterSubmit(t, slot)
    else t
  }

  datatype Event =
    | DoSend(m: Message)
    | DoTake(n: nat)
    | DoComplete(f: Failure, callback: seq<Message>, slot: bool)
    | DoShutDown

  function Step(l: Link, e: Event): Link {
    match e
    case DoSend(m) => AfterSend(l, m)
    case DoTake(n) => AfterTake(l, n)
    case DoComplete(f, callback, slot) => if l.inFlight then AfterComplete(l, f, callback, slot) else l
    case DoShutDown => AfterShutDown(l)
  }

  function Run(l: Link, es: seq<Event>): Link
    decreases |es|
  {
    if es == [] then l else Run(Step(l, es[0]), es[1..])
  }

  const FRESH: Link := Link(Connected, [], [], [], false, [], [], false)

  lemma {:induction false} RunAppend(l: Link, es: seq<Event>, e: Event)
    ensures Run(l, es + [e]) == Step(Run(l, es), e)
    decreases |es|
  {
    if es == [] {
      assert es + [e] == [e] && [e][1..] == [];
    } else {
      assert (es + [e])[0] == es[0] && (es + [e])[1..] == es[1..] + [e];
      RunAppend(Step(l, es[0]), es[1..], e);
    }
  }

  // ---------------------------------------------------------------------------
  // What is accepted: everything sent while connected
  // ---------------------------------------------------------------------------

  function Payload(ms: seq<Message>): seq<Byte>
    decreases |ms|
  {
    if ms == [] then [] else ms[0].data + Payload(ms[1..])
  }

  /** A completed write that leaves nothing queued, so that the write-complete callback runs. */
  predicate RunsCallback(l: Link, e: Event) {
    e.DoComplete? && l.inFlight && l.taken != [] && Queued(l) == []
  }

  /** What an event passes to Send on a connected link. */
  function OfferedBy(l: Link, e: Event): seq<Byte> {
    if l.stage != Connected then []
    else if e.DoSend? then e.m.data
    else if RunsCallback(l, e) then Payload(e.callback)
    else []
  }

  function Offered(l: Link, es: seq<Event>): seq<Byte>
    decreases |es|
  {
    if es == [] then [] else OfferedBy(l, es[0]) + Offered(Step(l, es[0]), es[1..])
  }

  lemma {:induction false} SendsAccept(l: Link, ms: seq<Message>)
    ensures var l' := AfterSends(l, ms);
            l'.stage == l.stage && l'.accepted == l.accepted + if l.stage == Connected then Payload(ms) else []
    decreases |ms|
  {
    if ms != [] {
      SendsAccept(AfterSend(l, ms[0]), ms[1..]);
      assert l.accepted + ms[0].data + Payload(ms[1..]) == l.accepted + Payload(ms);
    }
  }

  lemma StepAccepts(l: Link, e: Event)
    ensures Step(l, e).accepted == l.accepted + OfferedBy(l, e)
    ensures Step(l, e).stage == if e.DoShutDown? && l.stage == Connected then Disconnecting else l.stage
  {
    if e.DoComplete? { SendsAccept(l.(inFlight := false, taken := []), e.callback); }
  }

  /**
   Over every run the accepted bytes are exactly those passed to Send while
   connected, by the user or by the write-complete callback, which runs whenever a
   completed write leaves nothing queued.
   */
  lemma {:induction false} AcceptsAllOffered(l: Link, es: seq<Event>)
    ensures Run(l, es).accepted == l.accepted + Offered(l, es)
    decreases |es|
  {
    if es != [] {
      StepAccepts(l, es[0]);
      AcceptsAllOffered(Step(l, es[0]), es[1..]);
      assert l.accepted + OfferedBy(l, es[0]) + Offered(Step(l, es[0]), es[1..]) == l.accepted + Offered(l, es);
    }
  }

  /** The link is connected until ShutDownWrite is called, and never again. */
  lemma {:induction false} ConnectedUntilShutDown(l: Link, es: seq<Event>)
    requires l.stage == Connected
    ensures Run(l, es).stage == Connected <==> DoShutDown !in es
    ensures Run(l, es).stage in {Connected, Disconnecting}
    decreases |es|
  {
    if es != [] {
      StepAccepts(l, es[0]);
      if es[0].DoShutDown? { StaysDisconnecting(Step(l, es[0]), es[1..]); }
      else { ConnectedUntilShutDown(Step(l, es[0]), es[1..]); }
      assert es == [es[0]] + es[1..];
    }
  }

  lemma {:induction false} StaysDisconnecting(l: Link, es: seq<Event>)
    requires l.stage == Disconnecting
    ensures Run(l, es).stage == Disconnecting
    decreases |es|
  {
    if es != [] {
      StepAccepts(l, es[0]);
      StaysDisconnecting(Step(l, es[0]), es[1..]);
    }
  }

  /** After a Send, and after a completion that runs no callback, a write is in flight for exactly these reasons. */
  lemma WriteInFlightIff(l: Link, e: Event)
    requires !RunsCallback(l, e)
    ensures Step(l, e).inFlight <==>
              match e
              case DoSend(m) => l.inFlight || (l.stage == Connected && m.slot && l.output + m.data != [])
              case DoComplete(f, _, slot) =>
                l.inFlight && slot && if l.taken == [] then f == Retry && l.output != [] else Queued(l) != []
              case _ => l.inFlight
  {
  }

  // ---------------------------------------------------------------------------
  // Order: bytes on the wire, then output, then pending, are the accepted bytes
  // ---------------------------------------------------------------------------

  predicate InOrder(l: Link) {
    l.wire + Queued(l) == l.accepted
  }

  /** Output waits with no write in flight to carry it. */
  predicate Stranded(l: Link) {
    !l.inFlight && l.pending != []
  }

  predicate Healthy(l: Link) {
    && InOrder(l)
    && (l.inFlight <==> l.taken + l.output != [])
    && (l.pending != [] ==> l.inFlight)
  }

  predicate Smooth(e: Event) {
    match e
    case DoSend(m) => m.slot
    case DoTake(_) => true
    case DoComplete(f, callback, slot) => f == Retry && slot && forall k :: 0 <= k < |callback| ==> callback[k].slot
    case DoShutDown => true
  }

  lemma SendHealthy(l: Link, m: Message)
    requires Healthy(l) && m.slot
    ensures Healthy(AfterSend(l, m))
  {
    if l.stage == Connected {
      var l' := AfterSend(l, m);
      assert l'.wire + Queued(l') == l.wire + Queued(l) + m.data;
    }
  }

  lemma {:induction false} SendAllHealthy(l: Link, ms: seq<Message>)
    requires Healthy(l) && forall k :: 0 <= k < |ms| ==> ms[k].slot
    ensures Healthy(AfterSends(l, ms))
    decreases |ms|
  {
    if ms != [] {
      SendHealthy(l, ms[0]);
      SendAllHealthy(AfterSend(l, ms[0]), ms[1..]);
    }
  }

  /** The bytes the kernel takes leave the queue from the front. */
  lemma TakeKeepsBytes(l: Link, n: nat)
    ensures var t := AfterTake(l, n);
            t.wire + Queued(t) == l.wire + Queued(l) && t.taken + t.output == l.taken + l.output
  {
    var k := if n < |l.output| then n else |l.output|;
    assert l.output == l.output[..k] + l.output[k..];
    assert l.wire + l.output[..k] + (l.output[k..] + l.pending) == l.wire + (l.output + l.pending);
  }

  /** Moving the pending output into an empty output buffer changes no byte. */
  lemma SwapKeepsBytes(l: Link)
    requires l.output == []
    ensures Queued(l.(output := l.pending, pending := [])) == Queued(l)
  {
    assert l.pending + [] == [] + l.pending;
  }

  lemma WrittenHealthy(l: Link, callback: seq<Message>, slot: bool)
    requires InOrder(l) && !l.inFlight && l.taken == []
    requires slot && forall k :: 0 <= k < |callback| ==> callback[k].slot
    ensures Healthy(AfterWritten(l, callback, slot))
  {
    if l.output == [] && l.pending == [] { SendAllHealthy(l, callback); }
    else if l.output == [] { SwapKeepsBytes(l); }
  }

  lemma StepHealthy(l: Link, e: Event)
    requires Healthy(l) && Smooth(e)
    ensures Healthy(Step(l, e))
  {
    match e
    case DoSend(m) => SendHealthy(l, m);
    case DoTake(n) => TakeKeepsBytes(l, n);
    case DoComplete(f, callback, slot) =>
      if l.inFlight && l.taken != [] { WrittenHealthy(l.(inFlight := false, taken := []), callback, slot); }
    case DoShutDown =>
  }

  /**
   Over every run with submission slots and no fatal write error, nothing is lost,
   duplicated or reordered, and queued bytes always have a write in flight.
   */
  lemma {:induction false} RunKeepsOrder(l: Link, es: seq<Event>)
    requires Healthy(l) && forall k :: 0 <= k < |es| ==> Smooth(es[k])
    ensures Healthy(Run(l, es))
    decreases |es|
  {
    if es != [] {
      StepHealthy(l, es[0]);
      RunKeepsOrder(Step(l, es[0]), es[1..]);
    }
  }

  // ---------------------------------------------------------------------------
  // Without those assumptions the queue keeps its bytes, but their order can break
  // ---------------------------------------------------------------------------

  predicate NothingLost(l: Link) {
    multiset(l.wire + Queued(l)) == multiset(l.accepted)
  }

  lemma SendLosesNothing(l: Link, m: Message)
    requires NothingLost(l)
    ensures NothingLost(AfterSend(l, m))
  {
    if l.stage == Connected {
      if l.inFlight {
        assert l.wire + (l.output + (l.pending + m.data)) == l.wire + (l.output + l.pending) + m.data;
      } else {
        assert multiset(l.wire + (l.output + m.data + l.pending))
            == multiset(l.wire + (l.output + l.pending)) + multiset(m.data);
      }
    }
  }

  lemma {:induction false} SendAllLosesNothing(l: Link, ms: seq<Message>)
    requires NothingLost(l)
    ensures NothingLost(AfterSends(l, ms))
    decreases |ms|
  {
    if ms != [] {
      SendLosesNothing(l, ms[0]);
      SendAllLosesNothing(AfterSend(l, ms[0]), ms[1..]);
    }
  }

  lemma WrittenLosesNothing(l: Link, callback: seq<Message>, slot: bool)
    requires NothingLost(l)
    ensures NothingLost(AfterWritten(l, callback, slot))
  {
    if l.output == [] && l.pending == [] { SendAllLosesNothing(l, callback); }
    else if l.output == [] { SwapKeepsBytes(l); }
  }

  lemma StepLosesNothing(l: Link, e: Event)
    requires NothingLost(l)
    ensures NothingLost(Step(l, e))
  {
    match e
    case DoSend(m) => SendLosesNothing(l, m);
    case DoTake(n) => TakeKeepsBytes(l, n);
    case DoComplete(f, callback, slot) =>
      if l.taken != [] { WrittenLosesNothing(l.(inFlight := false, taken := []), callback, slot); }
    case DoShutDown =>
  }

  /** Over every run of the queue, sent and queued bytes are a permutation of the accepted ones. */
  lemma {:induction false} RunLosesNothing(l: Link, es: seq<Event>)
    requires NothingLost(l)
    ensures NothingLost(Run(l, es))
    decreases |es|
  {
    if es != [] {
      StepLosesNothing(l, es[0]);
      RunLosesNothing(Step(l, es[0]), es[1..]);
    }
  }

  /** A completion strands the pending output exactly on a fatal error or a refused resubmission. */
  lemma CompleteStrandsIff(l: Link, f: Failure, callback: seq<Message>, slot: bool)
    requires Healthy(l) && l.inFlight
    ensures Stranded(AfterComplete(l, f, callback, slot)) <==>
              l.pending != [] && (if l.taken == [] then f == Fatal || !slot else l.output != [] && !slot)
  {
    if l.taken != [] && l.output == [] && l.pending == [] {
      SendAllNeverStrands(l.(inFlight := false, taken := []), callback);
    }
  }

  lemma {:induction false} SendAllNeverStrands(l: Link, ms: seq<Message>)
    requires !Stranded(l)
    ensures !Stranded(AfterSends(l, ms))
    decreases |ms|
  {
    if ms != [] { SendAllNeverStrands(AfterSend(l, ms[0]), ms[1..]); }
  }

  // ---------------------------------------------------------------------------
  // Shutting down
  // ---------------------------------------------------------------------------

  /** Once ShutDownWrite has run, nothing is accepted and nothing reaches the wire. */
  predicate Over(l: Link) { l.shut && l.stage != Connected }

  lemma OverStep(l: Link, e: Event)
    requires Over(l)
    ensures var l' := Step(l, e); Over(l') && l'.wire == l.wire && l'.accepted == l.accepted
  {
    match e
    case DoComplete(f, callback, slot) => OverSends(l.(inFlight := false, taken := []), callback);
    case _ =>
  }

  lemma {:induction false} OverSends(l: Link, ms: seq<Message>)
    requires Over(l)
    ensures AfterSends(l, ms) == l
    decreases |ms|
  {
    if ms != [] { OverSends(l, ms[1..]); }
  }

  lemma {:induction false} OverRun(l: Link, es: seq<Event>)
    requires Over(l)
    ensures var l' := Run(l, es); Over(l') && l'.wire == l.wire && l'.accepted == l.accepted
    decreases |es|
  {
    if es != [] {
      OverStep(l, es[0]);
      OverRun(Step(l, es[0]), es[1..]);
    }
  }

  /**
   ShutDownWrite does not wait for queued output.  Whatever happens afterwards, the
   wire stays as it was, and the accepted bytes that never get there are exactly
   those the kernel had not taken; none are lost if and only if none were left.
   */
  lemma ShutDownCutsOff(l: Link, es: seq<Event>)
    requires InOrder(l) && l.stage == Connected
    ensures var l' := Run(AfterShutDown(l), es);
            && l'.wire == l.wire && l'.accepted == l'.wire + Queued(l)
            && (l'.wire == l'.accepted <==> Queued(l) == [])
  {
    OverRun(AfterShutDown(l), es);
    assert |l.accepted| == |l.wire| + |Queued(l)|;
    if Queued(l) == [] { assert l.wire + [] == l.wire; }
  }

  /** On a healthy link a caller can tell: with no write in flight nothing is lost. */
  lemma ShutDownWhenIdleIsClean(l: Link, es: seq<Event>)
    requires Healthy(l) && l.stage == Connected && !l.inFlight
    ensures Run(AfterShutDown(l), es).wire == Run(AfterShutDown(l), es).accepted
  {
    ShutDownCutsOff(l, es);
    assert |l.taken + l.output| == 0;
  }

  /** One message and a shutdown before the kernel gets to it: the message is lost whatever follows. */
  lemma ShutDownCanLose(es: seq<Event>)
    ensures var l := Run(FRESH, [DoSend(Message([1], true)), DoShutDown]);
            Run(l, es).wire == [] && Run(l, es).accepted == [1]
  {
    var l1 := AfterSend(FRESH, Message([1], true));
    var first := [DoSend(Message([1], true)), DoShutDown];
    assert Run(FRESH, first) == Run(l1, first[1..]) == Run(AfterShutDown(l1), first[1..][1..]);
    ShutDownCutsOff(l1, es);
  }

  /**
   What a caller can tell, who sees a write in flight but not how much of it the
   kernel has taken: whatever the kernel did and whatever follows, nothing is lost
   if and only if no write was in flight.
   */
  lemma ShutDownIsCleanIff(l: Link)
    requires Healthy(l) && l.stage == Connected && l.taken == []
    ensures (forall n: nat, es: seq<Event> ::
               var l' := Run(AfterShutDown(AfterTake(l, n)), es); l'.wire == l'.accepted) <==> !l.inFlight
  {
    if l.inFlight {
      assert AfterTake(l, 0) == l by {
        assert l.output[..0] == [] && l.output[0..] == l.output && l.wire + [] == l.wire;
      }
      ShutDownCutsOff(l, []);
      var l' := Run(AfterShutDown(AfterTake(l, 0)), []);
      assert l'.wire != l'.accepted;
    } else {
      forall n: nat, es: seq<Event>
        ensures var l' := Run(AfterShutDown(AfterTake(l, n)), es); l'.wire == l'.accepted
      {
        ShutDownWhenIdleIsClean(l, es);
      }
    }
  }

  predicate ShutWhenLeaving(l: Link) { l.stage == Connected || (l.stage == Disconnecting && l.shut) }

  lemma {:induction false} SendsKeepStage(l: Link, ms: seq<Message>)
    ensures AfterSends(l, ms).stage == l.stage && AfterSends(l, ms).shut == l.shut && AfterSends(l, ms).taken == l.taken
    decreases |ms|
  {
    if ms != [] { SendsKeepStage(AfterSend(l, ms[0]), ms[1..]); }
  }

  lemma {:induction false} RunShutsWhenLeaving(l: Link, es: seq<Event>)
    requires ShutWhenLeaving(l)
    ensures ShutWhenLeaving(Run(l, es))
    decreases |es|
  {
    if es != [] {
      match es[0] {
        case DoComplete(_, callback, _) => SendsKeepStage(l.(inFlight := false, taken := []), callback);
        case _ =>
      }
      RunShutsWhenLeaving(Step(l, es[0]), es[1..]);
    }
  }

  /**
   The other shutdown, which waits for an empty queue, never comes first: in every
   run, at the point where OnWriteComplete tests for it, after any callback, the
   socket of a connection that is leaving is shut already.
   */
  lemma DeferredShutDownIsNeverFirst(es: seq<Event>, callback: seq<Message>)
    ensures var l := Run(FRESH, es);
            var t := AfterSends(l.(inFlight := false, taken := []), callback);
            AfterCallback(t) == t
  {
    RunShutsWhenLeaving(FRESH, es);
    SendsKeepStage(Run(FRESH, es).(inFlight := false, taken := []), callback);
  }

  // ---------------------------------------------------------------------------
  // Sending on the real buffers
  // ---------------------------------------------------------------------------

  datatype Path = Path(link: Link, output: Buf, pending: Buf)

  /** The buffers hold what the link says; pending output, and an empty output buffer, start at the head. */
  ghost predicate Agrees(p: Path) {
    && p.output.Valid() && p.pending.Valid()
    && |p.output.bytes| <= PTRDIFF_MAX && |p.pending.bytes| <= PTRDIFF_MAX
    && p.output.Contents() == p.link.taken + p.link.output
    && p.pending.Contents() == p.link.pending
    && (p.link.taken != [] ==> p.link.inFlight)
    && p.pending.reading == RESERVED
    && (p.output.Contents() == [] ==> p.output.reading == RESERVED)
  }

  /** Send with its copy; nothing when the copy overruns. */
  function SendOn(p: Path, m: Message): Option<Path>
    requires p.output.Valid() && p.pending.Valid()
  {
    if p.link.stage != Connected then Some(p)
    else
      match Appended(if p.link.inFlight then p.pending else p.output, m.data)
      case Overrun => None
      case Done(b) =>
        if p.link.inFlight then Some(Path(AfterSend(p.link, m), p.output, b))
        else Some(Path(AfterSend(p.link, m), b, p.pending))
  }

  /** The copy of a Send of `n` bytes stays within its vector. */
  predicate SendGuard(p: Path, n: nat)
    requires p.output.Valid()
  {
    p.link.stage != Connected || p.link.inFlight || RoomGuard(p.output, n)
  }

  /** A Send overruns exactly when it appends to the output buffer and that has to compact. */
  lemma SendOverrunsIff(p: Path, m: Message)
    requires Agrees(p) && |m.data| <= PTRDIFF_MAX
    ensures SendOn(p, m).None? <==> !SendGuard(p, |m.data|)
    ensures SendOn(p, m).Some? ==> SendOn(p, m).value.link == AfterSend(p.link, m)
  {
    HeadAlignedMakesRoom(p.pending, |m.data|);
    AppendedIff(p.pending, m.data);
    AppendedIff(p.output, m.data);
  }

  /**
   For messages of `n` bytes, Send keeps the bytes and their order whatever the
   message if and only if a write is in flight, or nothing is pending and the
   output buffer makes room.
   */
  lemma SendKeepsOrderIff(p: Path, n: nat)
    requires Agrees(p) && InOrder(p.link) && p.link.stage == Connected && 0 < n <= PTRDIFF_MAX
    ensures (forall m: Message :: |m.data| == n ==> SendOn(p, m).Some? && InOrder(SendOn(p, m).value.link)) <==>
              p.link.inFlight || (p.link.pending == [] && RoomGuard(p.output, n))
  {
    if p.link.inFlight || (p.link.pending == [] && RoomGuard(p.output, n)) {
      forall m: Message | |m.data| == n ensures SendOn(p, m).Some? && InOrder(SendOn(p, m).value.link) {
        SendOverrunsIff(p, m);
        UnstrandedKeepsOrder(p.link, m);
      }
    } else {
      var m := Breaking(p.link, n);
      SendOverrunsIff(p, m);
      if p.link.pending != [] { StrandedBreaksOrder(p.link, n); }
      assert |m.data| == n && !(SendOn(p, m).Some? && InOrder(SendOn(p, m).value.link));
    }
  }

  lemma UnstrandedKeepsOrder(l: Link, m: Message)
    requires InOrder(l) && l.stage == Connected && !Stranded(l)
    ensures InOrder(AfterSend(l, m))
  {
    if l.inFlight {
      assert l.wire + (l.output + (l.pending + m.data)) == l.wire + (l.output + l.pending) + m.data;
    } else {
      assert l.wire + (l.output + m.data + []) == l.wire + (l.output + []) + m.data;
    }
  }

  /** A message that differs from the stranded output in its first byte. */
  function Breaking(l: Link, n: nat): Message {
    var x: Byte := if l.pending != [] && l.pending[0] == 0 then 1 else 0;
    Message(seq(n, _ => x), true)
  }

  lemma StrandedBreaksOrder(l: Link, n: nat)
    requires InOrder(l) && l.stage == Connected && Stranded(l) && 0 < n
    ensures !InOrder(AfterSend(l, Breaking(l, n)))
  {
    var m := Breaking(l, n);
    var l' := AfterSend(l, m);
    assert (l'.wire + Queued(l'))[|l.wire| + |l.output|] == m.data[0];
    assert l'.accepted[|l.wire| + |l.output|] == l.pending[0];
  }

  function TotalLength(ms: seq<Message>): nat
    decreases |ms|
  {
    if ms == [] then 0 else |ms[0].data| + TotalLength(ms[1..])
  }

  function Max(a: nat, b: nat): nat { if a < b then b else a }

  function VolumeOf(e: Event): nat {
    match e
    case DoSend(m) => |m.data|
    case DoComplete(_, callback, _) => TotalLength(callback)
    case _ => 0
  }

  /** All the bytes that the events of a run may queue. */
  function Volume(es: seq<Event>): nat
    decreases |es|
  {
    if es == [] then 0 else VolumeOf(es[0]) + Volume(es[1..])
  }

  lemma Prefix(l: Link, es: seq<Event>, n: nat)
    requires n < |es|
    ensures Run(l, es[..n + 1]) == Step(Run(l, es[..n]), es[n])
  {
    assert es[..n + 1] == es[..n] + [es[n]];
    RunAppend(l, es[..n], es[n]);
  }

  lemma Suffix(l: Link, es: seq<Event>, n: nat)
    requires n < |es|
    ensures Run(l, es[n..]) == Run(Step(l, es[n]), es[n + 1..])
    ensures Volume(es[n..]) == VolumeOf(es[n]) + Volume(es[n + 1..])
  {
    assert es[n..][1..] == es[n + 1..];
  }

  class Sender {
    var stage: Stage
    var output: IoBuffer
    var pending: IoBuffer
    var inFlight: bool
    var shut: bool
    var took: nat         // the kernel's side: how much of the output it has taken without reporting it yet
    ghost var wire: seq<Byte>
    ghost var accepted: seq<Byte>
    ghost var lent: Buf   // the output buffer as it was when the kernel was given its address

    ghost function View(): Link
      reads this, output, pending
      requires output.Valid() && pending.Valid() && took <= |output.Contents()|
    {
      var queued := output.Contents();
      Link(stage, queued[..took], queued[took..], pending.Contents(), inFlight, wire, accepted, shut)
    }

    ghost function Real(): Path
      reads this, output, pending
      requires output.Valid() && pending.Valid() && took <= |output.Contents()|
    {
      Path(View(), output.View(), pending.View())
    }

    /** The vector a write in flight points into has not been touched. */
    ghost predicate Valid()
      reads this, output, pending
    {
      && output != pending
      && output.Valid() && pending.Valid()
      && (inFlight ==> output.View() == lent && output.Contents() != [])
      && took <= |output.Contents()| && (0 < took ==> inFlight)
      && pending.reading == RESERVED
      && (output.Contents() == [] ==> output.reading == RESERVED)
    }

    /** Both vectors are in use up to index `n` at most. */
    ghost predicate Within(n: nat)
      reads this, output, pending
    {
      output.writing <= n && pending.writing <= n
    }

    lemma ValidAgrees()
      requires Valid()
      ensures Agrees(Real())
    {
      assert output.Contents()[..took] + output.Contents()[took..] == output.Contents();
    }

    constructor ()
      ensures Valid() && fresh(output) && fresh(pending)
      ensures View() == FRESH && Within(RESERVED) && |output.buffer| == RESERVED + INITIAL_CAPACITY
    {
      stage := Connected;
      output := new IoBuffer(INITIAL_CAPACITY);
      pending := new IoBuffer(INITIAL_CAPACITY);
      inFlight := false;
      shut := false;
      took := 0;
      wire := [];
      accepted := [];
    }

    method SubmitWriteOnce(slot: bool)
      requires Valid()
      modifies this`inFlight, this`lent
      ensures Valid()
      ensures View() == AfterSubmit(old(View()), slot)
      ensures old(inFlight) ==> lent == old(lent)
    {
      if inFlight || output.writing == output.reading { return; }
      if slot {
        inFlight := true;
        lent := output.View();
      }
    }

    /** The kernel executes the write in flight, unless it has or the socket is shut. */
    method KernelTakes(n: nat)
      requires Valid()
      modifies this`took, this`wire
      ensures Valid() && View() == AfterTake(old(View()), n)
    {
      if inFlight && took == 0 && !shut {
        took := if n < output.writing - output.reading then n else output.writing - output.reading;
        wire := wire + output.Contents()[..took];
      }
    }

    /** Queue a message.  The copy overruns exactly when it goes to the output buffer and that has to compact. */
    method Send(m: Message) returns (overrun: bool)
      requires Valid()
      requires output.writing + |m.data| <= PTRDIFF_MAX && pending.writing + |m.data| <= PTRDIFF_MAX
      modifies this, output, pending
      ensures output == old(output) && pending == old(pending)
      ensures overrun <==> old(stage) == Connected && !old(inFlight) && !RoomGuard(old(output.View()), |m.data|)
      ensures !overrun ==> Valid() && SendOn(old(Real()), m) == Some(Real()) && View() == AfterSend(old(View()), m)
      ensures old(inFlight) ==> output.View() == old(output.View())
      ensures !overrun ==> output.reading == old(output.reading)
      ensures !overrun ==> output.writing <= old(output.writing) + |m.data|
      ensures !overrun ==> pending.writing <= old(pending.writing) + |m.data|
      ensures overrun ==> accepted == old(accepted) && wire == old(wire)
    {
      overrun := false;
      if stage != Connected { return; }
      if inFlight { SendPending(m); } else { overrun := SendOutput(m); }
    }

    /** Send while a write is in flight. */
    method SendPending(m: Message)
      requires Valid() && stage == Connected && inFlight && pending.writing + |m.data| <= PTRDIFF_MAX
      modifies this`accepted, pending
      ensures Valid() && SendOn(old(Real()), m) == Some(Real()) && View() == AfterSend(old(View()), m)
      ensures pending.writing <= old(pending.writing) + |m.data|
    {
      HeadAlignedMakesRoom(pending.View(), |m.data|);
      AppendedIff(pending.View(), m.data);
      var overrun := pending.Append(m.data);
      accepted := accepted + m.data;
    }

    /** Send while no write is in flight. */
    method SendOutput(m: Message) returns (overrun: bool)
      requires Valid() && stage == Connected && !inFlight && output.writing + |m.data| <= PTRDIFF_MAX
      modifies this`accepted, this`inFlight, this`lent, output
      ensures overrun <==> !RoomGuard(old(output.View()), |m.data|)
      ensures !overrun ==> Valid() && SendOn(old(Real()), m) == Some(Real()) && View() == AfterSend(old(View()), m)
      ensures !overrun ==> output.reading == old(output.reading) && output.writing <= old(output.writing) + |m.data|
      ensures overrun ==> accepted == old(accepted)
    {
      overrun := AppendOutput(m.data);
      if !overrun { SubmitWriteOnce(m.slot); }
    }

    method AppendOutput(data: seq<Byte>) returns (overrun: bool)
      requires Valid() && !inFlight && output.writing + |data| <= PTRDIFF_MAX
      modifies this`accepted, output
      ensures overrun <==> Appended(old(output.View()), data) == Overrun
      ensures overrun <==> !RoomGuard(old(output.View()), |data|)
      ensures !overrun ==> Valid() && output.View() == Appended(old(output.View()), data).buf
      ensures !overrun ==>
                View() == old(View()).(output := old(View()).output + data, accepted := old(accepted) + data)
      ensures !overrun ==> output.reading == old(output.reading) && output.writing <= old(output.writing) + |data|
      ensures overrun ==> accepted == old(accepted)
    {
      AppendedIff(output.View(), data);
      overrun := output.Append(data);
      if !overrun { accepted := accepted + data; }
    }

    /** The messages that the write-complete callback sends, from an empty queue: none can overrun. */
    method RunCallback(ms: seq<Message>)
      requires Valid() && RESERVED + TotalLength(ms) <= PTRDIFF_MAX
      requires output.writing == pending.writing == output.reading == RESERVED
      modifies this, output, pending
      ensures output == old(output) && pending == old(pending)
      ensures Valid() && View() == AfterSends(old(View()), ms)
      ensures Within(RESERVED + TotalLength(ms))
    {
      var i := 0;
      ghost var sent := 0;
      while i < |ms|
        invariant 0 <= i <= |ms| && output == old(output) && pending == old(pending)
        invariant Valid() && output.reading == RESERVED
        invariant AfterSends(View(), ms[i..]) == AfterSends(old(View()), ms)
        invariant sent + TotalLength(ms[i..]) == TotalLength(ms)
        invariant output.writing <= RESERVED + sent && pending.writing <= RESERVED + sent
      {
        assert ms[i..][1..] == ms[i + 1..];
        HeadAlignedMakesRoom(output.View(), |ms[i].data|);
        sent := sent + |ms[i].data|;
        var overrun := Send(ms[i]);
        i := i + 1;
      }
      assert ms[i..] == [];
    }

    /** The report agrees with what the kernel has done. */
    predicate Honest(r: Result)
      reads this
    {
      if took > 0 then r == Sent(took) else r.Failed? || r.n == 0
    }

    /** The completion of the write in flight; a report of zero bytes is treated like a fatal error. */
    method OnWriteComplete(r: Result, callback: seq<Message>, slot: bool)
      requires Valid() && inFlight && Honest(r) && RESERVED + TotalLength(callback) <= PTRDIFF_MAX
      modifies this, output, pending
      ensures output == old(output) && pending == old(pending)
      ensures Valid() && View() == AfterComplete(old(View()), if r.Failed? then r.f else Fatal, callback, slot)
      ensures r.Sent? && 0 < r.n < |old(output.Contents())| ==>
                output.View() == old(output.View()).(reading := old(output.reading) + r.n)
      ensures Within(Max(old(Max(output.writing, pending.writing)), RESERVED + TotalLength(callback)))
    {
      if r.Sent? && r.n > 0 {
        Land(r.n);
        Written(callback, slot);
      } else {
        inFlight := false;
        if r == Failed(Retry) { SubmitWriteOnce(slot); }
      }
    }

    /** The write is over and the bytes it took leave the output buffer. */
    method Land(n: nat)
      requires Valid() && inFlight && n == took > 0
      modifies this`inFlight, this`took, output
      ensures Valid() && View() == old(View()).(inFlight := false, taken := [])
      ensures n < |old(output.Contents())| ==> output.View() == old(output.View()).(reading := old(output.reading) + n)
      ensures output.writing <= Max(old(output.writing), RESERVED)
    {
      inFlight := false;
      took := 0;
      output.Refresh(n);
    }

    /** OnWriteComplete once the taken bytes have left the output buffer. */
    method Written(callback: seq<Message>, slot: bool)
      requires Valid() && !inFlight && RESERVED + TotalLength(callback) <= PTRDIFF_MAX
      modifies this, output, pending
      ensures output == old(output) && pending == old(pending)
      ensures Valid() && View() == AfterWritten(old(View()), callback, slot)
      ensures old(output.Contents()) != [] ==> output.View() == old(output.View())
      ensures Within(Max(old(Max(output.writing, pending.writing)), RESERVED + TotalLength(callback)))
    {
      if output.writing - output.reading > 0 {
        SubmitWriteOnce(slot);
      } else if pending.writing - pending.reading > 0 {
        SwapIn(slot);
      } else {
        QueueIsEmpty(callback);
      }
    }

    /** The output buffer is empty: exchange it for the pending one and write that. */
    method SwapIn(slot: bool)
      requires Valid() && !inFlight && output.Contents() == [] && pending.Contents() != []
      modifies this, output, pending
      ensures output == old(output) && pending == old(pending)
      ensures Valid() && View() == AfterSubmit(old(View()).(output := old(View()).pending, pending := []), slot)
      ensures output.writing == old(pending.writing) && pending.writing == old(output.writing)
    {
      output.Swap(pending);
      SubmitWriteOnce(slot);
    }

    /** Nothing is left to write: run the callback, and shut down if that was put off. */
    method QueueIsEmpty(callback: seq<Message>)
      requires Valid() && !inFlight && output.Contents() == [] && pending.Contents() == []
      requires RESERVED + TotalLength(callback) <= PTRDIFF_MAX
      modifies this, output, pending
      ensures output == old(output) && pending == old(pending)
      ensures Valid() && View() == AfterCallback(AfterSends(old(View()), callback))
      ensures Within(RESERVED + TotalLength(callback))
    {
      SendsKeepStage(View(), callback);
      RunCallback(callback);
      assert output.Contents() == View().taken + View().output;
      if stage == Disconnecting && output.writing == output.reading && pending.writing == pending.reading {
        shut := true;
      }
    }

    method ShutDownWrite()
      requires Valid()
      modifies this`stage, this`shut
      ensures Valid() && View() == AfterShutDown(old(View()))
    {
      if stage == Connected {
        stage := Disconnecting;
        shut := true;
      }
    }

    /** One event of a run. */
    method Perform(e: Event) returns (overrun: bool)
      requires Valid() && RESERVED + VolumeOf(e) <= PTRDIFF_MAX && Within(PTRDIFF_MAX - VolumeOf(e))
      modifies this, output, pending
      ensures output == old(output) && pending == old(pending)
      ensures overrun <==> e.DoSend? && !SendGuard(old(Real()), |e.m.data|)
      ensures !overrun ==> Valid() && View() == Step(old(View()), e)
      ensures !overrun ==> Within(Max(old(Max(output.writing, pending.writing)), RESERVED) + VolumeOf(e))
      ensures overrun ==> accepted == old(accepted) && wire == old(wire)
    {
      overrun := false;
      if e.DoSend? { overrun := Send(e.m); } else { PerformOther(e); }
    }

    /** The completion of the write in flight reports what the kernel took, or the error. */
    method Complete(f: Failure, callback: seq<Message>, slot: bool)
      requires Valid() && inFlight && RESERVED + TotalLength(callback) <= PTRDIFF_MAX
      modifies this, output, pending
      ensures output == old(output) && pending == old(pending)
      ensures Valid() && View() == AfterComplete(old(View()), f, callback, slot)
      ensures Within(Max(old(Max(output.writing, pending.writing)), RESERVED) + TotalLength(callback))
    {
      OnWriteComplete(if took > 0 then Sent(took) else Failed(f), callback, slot);
    }

    /** Any event but a Send. */
    method PerformOther(e: Event)
      requires Valid() && !e.DoSend? && RESERVED + VolumeOf(e) <= PTRDIFF_MAX
      modifies this, output, pending
      ensures output == old(output) && pending == old(pending)
      ensures Valid() && View() == Step(old(View()), e)
      ensures Within(Max(old(Max(output.writing, pending.writing)), RESERVED) + VolumeOf(e))
    {
      match e
      case DoTake(n) => KernelTakes(n);
      case DoComplete(f, callback, slot) =>
        if inFlight { Complete(f, callback, slot); }
      case DoShutDown => ShutDownWrite();
    }
  }

  /**
   A whole run on the real buffers: with submission slots and no fatal write error
   no copy overruns, the queue stays in order, and the state is the abstract one.
   */
  method Drive(s: Sender, es: seq<Event>)
    requires s.Valid() && Healthy(s.View())
    requires forall k :: 0 <= k < |es| ==> Smooth(es[k])
    requires s.Within(RESERVED) && RESERVED + Volume(es) <= PTRDIFF_MAX
    modifies s, s.output, s.pending
    ensures s.output == old(s.output) && s.pending == old(s.pending)
    ensures s.Valid() && s.View() == Run(old(s.View()), es) && Healthy(s.View())
  {
    var i := 0;
    ghost var used: nat := 0;
    while i < |es|
      invariant 0 <= i <= |es| && s.output == old(s.output) && s.pending == old(s.pending)
      invariant s.Valid() && Healthy(s.View())
      invariant Run(s.View(), es[i..]) == Run(old(s.View()), es)
      invariant used + Volume(es[i..]) == Volume(es) && s.Within(RESERVED + used)
    {
      StepHealthy(s.View(), es[i]);
      Suffix(s.View(), es, i);
      s.ValidAgrees();
      HealthyNeverOverruns(s.Real(), es[i]);
      var overrun := s.Perform(es[i]);
      used := used + VolumeOf(es[i]);
      i := i + 1;
    }
    assert es[i..] == [];
  }

  /** With no write in flight a healthy queue is empty, so the output buffer starts at the head. */
  lemma HealthyNeverOverruns(p: Path, e: Event)
    requires p.output.Valid() && p.output.Contents() == p.link.taken + p.link.output
    requires p.output.Contents() == [] ==> p.output.reading == RESERVED
    requires Healthy(p.link)
    ensures e.DoSend? ==> SendGuard(p, |e.m.data|)
  {
    if e.DoSend? && !p.link.inFlight { HeadAlignedMakesRoom(p.output, |e.m.data|); }
  }

  /**
   Any run at all on the real buffers, up to the first copy that overruns: sent and
   queued bytes are a permutation of the accepted ones.  If the run is cut short,
   the event to blame is a Send with no write in flight and output left over.
   */
  method DriveAnyRun(s: Sender, es: seq<Event>) returns (overrun: bool, n: nat)
    requires s.Valid() && NothingLost(s.View())
    requires s.Within(RESERVED) && RESERVED + Volume(es) <= PTRDIFF_MAX
    modifies s, s.output, s.pending
    ensures s.output == old(s.output) && s.pending == old(s.pending)
    ensures n <= |es| && NothingLost(Run(old(s.View()), es[..n]))
    ensures !overrun ==> n == |es| && s.Valid() && s.View() == Run(old(s.View()), es)
    ensures overrun ==>
              && n < |es| && es[n].DoSend?
              && var l := Run(old(s.View()), es[..n]);
              && l.stage == Connected && !l.inFlight && l.output != [] && es[n].m.data != []
              && s.wire == l.wire && s.accepted == l.accepted
  {
    overrun, n := DriveToOverrun(s, es);
    RunLosesNothing(old(s.View()), es[..n]);
    assert es[..|es|] == es;
  }

  /** The run itself, with the event that stopped it. */
  method DriveToOverrun(s: Sender, es: seq<Event>) returns (overrun: bool, n: nat)
    requires s.Valid()
    requires s.Within(RESERVED) && RESERVED + Volume(es) <= PTRDIFF_MAX
    modifies s, s.output, s.pending
    ensures s.output == old(s.output) && s.pending == old(s.pending)
    ensures n <= |es|
    ensures !overrun ==> n == |es| && s.Valid() && s.View() == Run(old(s.View()), es[..n])
    ensures overrun ==>
              && n < |es| && es[n].DoSend?
              && var l := Run(old(s.View()), es[..n]);
              && l.stage == Connected && !l.inFlight && l.output != [] && es[n].m.data != []
              && s.wire == l.wire && s.accepted == l.accepted
  {
    overrun, n := false, 0;
    ghost var used: nat := 0;
    assert es[0..] == es;
    while n < |es|
      invariant 0 <= n <= |es| && s.output == old(s.output) && s.pending == old(s.pending)
      invariant s.Valid() && s.View() == Run(old(s.View()), es[..n])
      invariant used + Volume(es[n..]) == Volume(es) && s.Within(RESERVED + used)
    {
      Prefix(old(s.View()), es, n);
      Suffix(s.View(), es, n);
      s.ValidAgrees();
      ghost var before := s.Real();
      overrun := s.Perform(es[n]);
      if overrun {
        OverrunNeedsLeftover(before, es[n]);
        return;
      }
      used := used + VolumeOf(es[n]);
      n := n + 1;
    }
  }

  lemma OverrunNeedsLeftover(p: Path, e: Event)
    requires Agrees(p)
    ensures e.DoSend? && !SendGuard(p, |e.m.data|) ==>
              p.link.stage == Connected && !p.link.inFlight && p.link.output != [] && e.m.data != []
  {
    if e.DoSend? && p.output.reading == RESERVED { HeadAlignedMakesRoom(p.output, |e.m.data|); }
  }

  /** The link of a connection that sent `payload`: the kernel took half of it, the rest found no submission slot. */
  function HalfLink(payload: seq<Byte>): Link {
    AfterComplete(AfterTake(AfterSend(FRESH, Message(payload, true)), 500), Fatal, [], false)
  }

  /** Nothing is out of order or stranded on that link. */
  lemma HalfLinkIsInOrder(payload: seq<Byte>)
    requires |payload| == 1000
    ensures var l := HalfLink(payload); l.stage == Connected && !l.inFlight && InOrder(l) && !Stranded(l)
    ensures |AfterTake(AfterSend(FRESH, Message(payload, true)), 500).taken| == 500
  {
    TakeKeepsBytes(AfterSend(FRESH, Message(payload, true)), 500);
  }

  method AllSubmitted(payload: seq<Byte>) returns (s: Sender)
    requires |payload| == 1000
    ensures fresh(s) && fresh(s.output) && fresh(s.pending)
    ensures s.Valid() && s.View() == AfterSend(FRESH, Message(payload, true)) && s.pending.writing <= 1008
    ensures s.output.reading == 8 && s.output.writing == 1008 && |s.output.buffer| == 1032
  {
    s := new Sender();
    HeadAlignedMakesRoom(s.output.View(), 1000);
    AppendedIff(s.output.View(), payload);
    var overrun := s.Send(Message(payload, true));
  }

  method HalfSent(payload: seq<Byte>) returns (s: Sender)
    requires |payload| == 1000
    ensures fresh(s) && fresh(s.output) && fresh(s.pending)
    ensures s.Valid() && s.View() == HalfLink(payload) && s.pending.writing <= 1008
    ensures s.output.reading == 508 && s.output.writing == 1008 && |s.output.buffer| == 1032
  {
    s := AllSubmitted(payload);
    HalfLinkIsInOrder(payload);
    s.KernelTakes(500);
    assert s.took == |s.View().taken|;
    s.OnWriteComplete(Sent(500), [], false);
  }

  /** The link is in order and nothing is pending, yet the next hundred bytes overrun. */
  method OverrunAfterRefusal(payload: seq<Byte>, next: seq<Byte>) returns (overrun: bool)
    requires |payload| == 1000 && |next| == 100
    ensures overrun
  {
    var s := HalfSent(payload);
    HalfLinkIsInOrder(payload);
    overrun := s.Send(Message(next, true));
  }

  /** The promised order does break without an overrun: a fatal write error, then one more Send. */
  lemma OrderCanBreak()
    ensures var es := [DoSend(Message([1], true)), DoSend(Message([2], true)),
                       DoComplete(Fatal, [], true), DoSend(Message([3], true))];
            !InOrder(Run(FRESH, es))
  {
    var l1 := AfterSend(FRESH, Message([1], true));
    var l2 := AfterSend(l1, Message([2], true));
    var l3 := AfterComplete(l2, Fatal, [], true);
    var l4 := AfterSend(l3, Message([3], true));
    assert l4.wire + Queued(l4) == [1, 3, 2] && l4.accepted == [1, 2, 3];
    var es := [DoSend(Message([1], true)), DoSend(Message([2], true)),
               DoComplete(Fatal, [], true), DoSend(Message([3], true))];
    assert Run(FRESH, es) == Run(l1, es[1..]) == Run(l2, es[1..][1..]) == Run(l3, es[1..][1..][1..]);
    assert Run(l3, es[1..][1..][1..]) == Run(l4, es[1..][1..][1..][1..]);
  }
}
