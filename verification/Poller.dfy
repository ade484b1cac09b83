/**
 The io_uring operation table.

 Operations live in a map by key; a read, write or accept operation owns a heap
 context that somebody has to delete.  Cancellation is logical: the entry stays
 until its completion arrives.  `State` carries, besides the fields of the
 poller, the operation whose completion callback is running (LookupOp has taken
 it out of the map) and three history variables: the contexts created and
 deleted, named by the key drawn for them, and the keys for which the kernel
 still owes a completion.  A `slot` argument says whether io_uring_get_sqe finds
 a free submission entry.
 */
module Pollers {
  import opened Shared

  type Key = nat

  datatype Eventer = OfConnection(id: nat) | Other(n: nat)

  datatype Kind = Poll | Read | Write | Accept

  datatype Op = Op(
    kind: Kind,
    eventer: Option<Eventer>,
    context: Option<nat>,        // the object the context points back to
    completion: bool,            // a completion callback is set
    mask: nat)                   // history: the events a poll asked for

  datatype Interest = Interest(mask: nat, armed: bool, pollKey: Key)

  datatype Held = Nothing | Held(key: Key, op: Op, more: bool)

  datatype State = State(
    ops: map<Key, Op>,
    states: map<Eventer, Interest>,
    nextKey: Key,
    held: Held,
    made: set<Key>,
    freed: multiset<Key>,
    asked: set<Key>)
  {
    predicate Holds(k: Key) { held.Held? && held.key == k }

    /** Some operation still owns the context. */
    predicate Owned(k: Key) { (k in ops && ops[k].context.Some?) || Holds(k) }
  }

  function Start(): State { State(map[], map[], 1, Nothing, {}, multiset{}, {}) }

  // ---------------------------------------------------------------------------
  // Operations
  // ---------------------------------------------------------------------------

  /** SubmitPoll. */
  function AfterSubmitPoll(p: State, e: Eventer, slot: bool): State {
    if e !in p.states || p.states[e].mask == 0 || p.states[e].armed then p
    else if !slot then p.(nextKey := p.nextKey + 1)
    else
      p.(nextKey := p.nextKey + 1,
         ops := p.ops[p.nextKey := Op(Poll, Some(e), None, false, p.states[e].mask)],
         states := p.states[e := Interest(p.states[e].mask, true, p.nextKey)],
         asked := p.asked + {p.nextKey})
  }

  /** CancelPoll: the operation stays in the map with its eventer. */
  function AfterCancelPoll(p: State, e: Eventer, slot: bool): State {
    if e !in p.states || !p.states[e].armed || !slot then p
    else p.(states := p.states[e := Interest(p.states[e].mask, false, 0)])
  }

  function AfterAddEventer(p: State, e: Eventer, mask: nat, slot: bool): State {
    AfterSubmitPoll(p.(states := p.states[e := Interest(mask, false, 0)]), e, slot)
  }

  function AfterModifyEventer(p: State, e: Eventer, mask: nat, slot: bool): State {
    if e !in p.states then AfterAddEventer(p, e, mask, slot)
    else
      var q := p.(states := p.states[e := p.states[e].(mask := mask)]);
      if mask == 0 then AfterCancelPoll(q, e, slot) else AfterSubmitPoll(q, e, slot)
  }

  function AfterRemoveEventer(p: State, e: Eventer, slot: bool): State {
    var q := AfterCancelPoll(p, e, slot);
    q.(states := q.states - {e})
  }

  /** SubmitRead, SubmitWrite or SubmitAccept with a new context; on failure the caller keeps the context. */
  function AfterSubmit(p: State, kind: Kind, eventer: Option<Eventer>, self: nat, slot: bool): State {
    var q := p.(nextKey := p.nextKey + 1, made := p.made + {p.nextKey});
    if !slot then q
    else
      q.(ops := q.ops[p.nextKey := Op(kind, eventer, Some(self), true, 0)], asked := q.asked + {p.nextKey})
  }

  function AfterDelete(p: State, k: Key): State { p.(freed := p.freed + multiset{k}) }

  /** Submit, and delete the context when there was no slot, as every caller does. */
  function AfterSubmitOnce(p: State, kind: Kind, eventer: Option<Eventer>, self: nat, slot: bool): State {
    var q := AfterSubmit(p, kind, eventer, self, slot);
    if slot then q else AfterDelete(q, p.nextKey)
  }

  function Cancelled(op: Op): Op { op.(eventer := None, completion := false) }

  /** CancelOp, whether or not the kernel can be told. */
  function AfterCancelOp(p: State, k: Key): State {
    if k in p.ops then p.(ops := p.ops[k := Cancelled(p.ops[k])]) else p
  }

  /** A completion arrives; after the last one the kernel owes nothing. */
  function Answered(p: State, k: Key, more: bool): State {
    if more then p else p.(asked := p.asked - {k})
  }

  predicate Orphaned(p: State, op: Op) {
    (op.kind == Read || op.kind == Write) && (op.eventer == None || op.eventer.value !in p.states)
  }

  /** What HandleCqe does with an operation that has no callback: a poll is armed again. */
  function AfterSilentCqe(p: State, k: Key, op: Op, slot: bool): State {
    var q := if op.context.Some? then AfterDelete(p, k) else p;
    if op.kind == Poll && op.eventer.Some? && op.eventer.value in q.states then
      var e := op.eventer.value;
      AfterSubmitPoll(q.(states := q.states[e := q.states[e].(armed := false)]), e, slot)
    else q
  }

  /** HandleCqe up to the call of the completion callback, or all of it when there is no callback to run. */
  function AfterCqe(p: State, k: Key, more: bool, slot: bool): State {
    var p := Answered(p, k, more);
    if k == 0 || k !in p.ops then p
    else
      var op := p.ops[k];
      var q := p.(ops := p.ops - {k});
      if op.completion && Orphaned(p, op) then AfterDelete(q, k)
      else if op.completion then q.(held := Held(k, op, more))
      else AfterSilentCqe(q, k, op, slot)
  }

  /** The callback returns: keep the operation for its next completion, or it has deleted its context. */
  function AfterFinish(p: State): State {
    match p.held
    case Nothing => p
    case Held(k, op, more) =>
      if more then p.(held := Nothing, ops := p.ops[k := op])
      else AfterDelete(p.(held := Nothing), k)
  }

  /** The destructor deletes every context still in the map. */
  function AfterTeardown(p: State): State {
    p.(ops := map[], freed := p.freed + multiset(set k | k in p.ops && p.ops[k].context.Some?))
  }

  // ---------------------------------------------------------------------------
  // Runs
  // ---------------------------------------------------------------------------

  datatype Event =
    | AddEventer(e: Eventer, mask: nat, slot: bool)
    | ModifyEventer(e: Eventer, mask: nat, slot: bool)
    | RemoveEventer(e: Eventer, slot: bool)
    | SubmitOnce(kind: Kind, eventer: Option<Eventer>, self: nat, slot: bool)
    | CancelOp(k: Key)
    | Cqe(k: Key, more: bool, slot: bool)
    | Finish

  /**
   Reads, writes and accepts are what callers submit, reads and writes what they
   cancel; completions are handled one at a time; only an accept is answered more
   than once.
   */
  predicate Legal(p: State, ev: Event) {
    match ev
    case SubmitOnce(kind, _, _, _) => kind != Poll
    case CancelOp(k) => k in p.ops ==> p.ops[k].kind == Read || p.ops[k].kind == Write
    case Cqe(k, more, _) => p.held.Nothing? && (more ==> k in p.ops && p.ops[k].kind == Accept)
    case Finish => p.held.Held?
    case _ => true
  }

  function Step(p: State, ev: Event): State {
    if !Legal(p, ev) then p
    else
      match ev
      case AddEventer(e, mask, slot) => AfterAddEventer(p, e, mask, slot)
      case ModifyEventer(e, mask, slot) => AfterModifyEventer(p, e, mask, slot)
      case RemoveEventer(e, slot) => AfterRemoveEventer(p, e, slot)
      case SubmitOnce(kind, eventer, self, slot) => AfterSubmitOnce(p, kind, eventer, self, slot)
      case CancelOp(k) => AfterCancelOp(p, k)
      case Cqe(k, more, slot) => AfterCqe(p, k, more, slot)
      case Finish => AfterFinish(p)
  }

  function Run(p: State, evs: seq<Event>): State
    decreases |evs|
  {
    if evs == [] then p else Run(Step(p, evs[0]), evs[1..])
  }

  // ---------------------------------------------------------------------------
  // The invariant, key by key and eventer by eventer
  // ---------------------------------------------------------------------------

  predicate OpShape(op: Op) {
    if op.kind == Poll then op.context.None? && !op.completion && op.eventer.Some?
    else op.context.Some? && (!op.completion ==> op.eventer.None? && op.kind != Accept)
  }

  predicate KeyOk(p: State, k: Key) {
    && (k in p.ops ==>
          && 0 < k < p.nextKey && k in p.asked && !p.Holds(k)
          && OpShape(p.ops[k]) && (p.ops[k].kind == Poll <==> k !in p.made))
    && (k in p.asked ==> k in p.ops || (p.Holds(k) && p.held.more))
    && (k in p.made ==> 0 < k < p.nextKey)
    && p.freed[k] == (if k in p.made && !p.Owned(k) then 1 else 0)
  }

  predicate HeldOk(p: State) {
    p.held.Held? ==>
      && 0 < p.held.key < p.nextKey && p.held.key in p.made && p.held.key !in p.ops
      && p.held.op.completion && p.held.op.kind != Poll && OpShape(p.held.op)
      && (p.held.more ==> p.held.op.kind == Accept)
      && (p.held.more <==> p.held.key in p.asked)
  }

  ghost predicate Inv(p: State) {
    1 <= p.nextKey && HeldOk(p) && forall k :: KeyOk(p, k)
  }

  /** An armed eventer remembers an outstanding poll of its own. */
  predicate ArmOk(p: State, e: Eventer) {
    e in p.states && p.states[e].armed ==>
      && p.states[e].pollKey in p.ops
      && p.ops[p.states[e].pollKey].kind == Poll
      && p.ops[p.states[e].pollKey].eventer == Some(e)
  }

  ghost predicate ArmInv(p: State) { forall e :: ArmOk(p, e) }

  /** No registered eventer that wants events is deaf. */
  ghost predicate AllArmed(p: State) {
    forall e :: e in p.states && p.states[e].mask != 0 ==> p.states[e].armed
  }

  lemma SubmitPollKeeps(p: State, e: Eventer, slot: bool)
    requires Inv(p)
    ensures Inv(AfterSubmitPoll(p, e, slot))
  {
    forall k ensures KeyOk(AfterSubmitPoll(p, e, slot), k) { assert KeyOk(p, k); }
  }

  /** The table of eventers takes no part in the invariant of the operations. */
  lemma StatesAreFree(p: State, states: map<Eventer, Interest>)
    requires Inv(p)
    ensures Inv(p.(states := states))
  {
    forall k ensures KeyOk(p.(states := states), k) { assert KeyOk(p, k); }
  }

  lemma AddEventerKeeps(p: State, e: Eventer, mask: nat, slot: bool)
    requires Inv(p)
    ensures Inv(AfterAddEventer(p, e, mask, slot))
  {
    var states := p.states[e := Interest(mask, false, 0)];
    StatesAreFree(p, states);
    SubmitPollKeeps(p.(states := states), e, slot);
  }

  lemma ModifyEventerKeeps(p: State, e: Eventer, mask: nat, slot: bool)
    requires Inv(p)
    ensures Inv(AfterModifyEventer(p, e, mask, slot))
  {
    if e !in p.states { AddEventerKeeps(p, e, mask, slot); }
    else {
      var states := p.states[e := p.states[e].(mask := mask)];
      StatesAreFree(p, states);
      var q := p.(states := states);
      if mask == 0 { StatesAreFree(q, AfterCancelPoll(q, e, slot).states); }
      else { SubmitPollKeeps(q, e, slot); }
    }
  }

  lemma RemoveEventerKeeps(p: State, e: Eventer, slot: bool)
    requires Inv(p)
    ensures Inv(AfterRemoveEventer(p, e, slot))
  {
    StatesAreFree(p, AfterRemoveEventer(p, e, slot).states);
  }

  lemma SubmitOnceKeeps(p: State, kind: Kind, eventer: Option<Eventer>, self: nat, slot: bool)
    requires Inv(p) && kind != Poll
    ensures Inv(AfterSubmitOnce(p, kind, eventer, self, slot))
  {
    assert KeyOk(p, p.nextKey);
    forall k ensures KeyOk(AfterSubmitOnce(p, kind, eventer, self, slot), k) { assert KeyOk(p, k); }
  }

  lemma CancelOpKeeps(p: State, k: Key)
    requires Inv(p) && Legal(p, CancelOp(k))
    ensures Inv(AfterCancelOp(p, k))
  {
    forall j ensures KeyOk(AfterCancelOp(p, k), j) { assert KeyOk(p, j); }
  }

  lemma CqeKeeps(p: State, k: Key, more: bool, slot: bool)
    requires Inv(p) && Legal(p, Cqe(k, more, slot))
    ensures Inv(AfterCqe(p, k, more, slot))
  {
    assert KeyOk(p, k);
    var a := Answered(p, k, more);
    if k == 0 || k !in p.ops {
      forall j ensures KeyOk(a, j) { assert KeyOk(p, j); }
    } else {
      var op := p.ops[k];
      var q := a.(ops := a.ops - {k});
      if op.completion && Orphaned(p, op) {
        forall j ensures KeyOk(AfterDelete(q, k), j) { assert KeyOk(p, j); }
      } else if op.completion {
        forall j ensures KeyOk(q.(held := Held(k, op, more)), j) { assert KeyOk(p, j); }
      } else {
        var r := if op.context.Some? then AfterDelete(q, k) else q;
        forall j ensures KeyOk(r, j) { assert KeyOk(p, j); }
        if op.kind == Poll && op.eventer.Some? && op.eventer.value in r.states {
          var e := op.eventer.value;
          var states := r.states[e := r.states[e].(armed := false)];
          StatesAreFree(r, states);
          SubmitPollKeeps(r.(states := states), e, slot);
        }
      }
    }
  }

  lemma FinishKeeps(p: State)
    requires Inv(p)
    ensures Inv(AfterFinish(p))
  {
    forall k ensures KeyOk(AfterFinish(p), k) { assert KeyOk(p, k); }
  }

  lemma StepKeeps(p: State, ev: Event)
    requires Inv(p)
    ensures Inv(Step(p, ev))
  {
    if Legal(p, ev) {
      match ev
      case AddEventer(e, mask, slot) => AddEventerKeeps(p, e, mask, slot);
      case ModifyEventer(e, mask, slot) => ModifyEventerKeeps(p, e, mask, slot);
      case RemoveEventer(e, slot) => RemoveEventerKeeps(p, e, slot);
      case SubmitOnce(kind, eventer, self, slot) => SubmitOnceKeeps(p, kind, eventer, self, slot);
      case CancelOp(k) => CancelOpKeeps(p, k);
      case Cqe(k, more, slot) => CqeKeeps(p, k, more, slot);
      case Finish => FinishKeeps(p);
    }
  }

  lemma {:induction false} RunKeeps(p: State, evs: seq<Event>)
    requires Inv(p)
    ensures Inv(Run(p, evs))
    decreases |evs|
  {
    if evs != [] {
      StepKeeps(p, evs[0]);
      RunKeeps(Step(p, evs[0]), evs[1..]);
    }
  }

  // ---------------------------------------------------------------------------
  // Contexts
  // ---------------------------------------------------------------------------

  /**
   Over every run a context is deleted at most once, exactly when no operation
   owns it any more, and never while the kernel still owes its operation a
   completion.
   */
  lemma ContextsAreDeletedOnce(evs: seq<Event>, k: Key)
    ensures var p := Run(Start(), evs);
            && p.freed[k] <= 1
            && (k in p.made ==> (p.freed[k] == 1 <==> !p.Owned(k)))
            && (k !in p.made ==> p.freed[k] == 0)
            && (k in p.asked ==> p.freed[k] == 0)
  {
    StartsWell();
    RunKeeps(Start(), evs);
    assert KeyOk(Run(Start(), evs), k);
  }

  lemma StartsWell()
    ensures Inv(Start()) && ArmInv(Start()) && AllArmed(Start())
  {
    forall k ensures KeyOk(Start(), k) {}
  }

  /** With the teardown every context created has been deleted exactly once. */
  lemma TeardownLeaksNothing(evs: seq<Event>, k: Key)
    requires Run(Start(), evs).held.Nothing?
    ensures var p := Run(Start(), evs);
            AfterTeardown(p).freed[k] == if k in p.made then 1 else 0
  {
    StartsWell();
    RunKeeps(Start(), evs);
    assert KeyOk(Run(Start(), evs), k);
  }

  /** No step overwrites an entry: what is in the map stays, is marked cancelled, or goes; what is new has a new key. */
  lemma EntriesAreNotOverwritten(p: State, ev: Event, k: Key)
    requires Inv(p) && k in Step(p, ev).ops
    ensures k in p.ops ==> Step(p, ev).ops[k] == p.ops[k] || Step(p, ev).ops[k] == Cancelled(p.ops[k])
    ensures k !in p.ops ==>
              || k == p.nextKey
              || (p.Holds(k) && p.held.more && Step(p, ev).ops[k] == p.held.op)
  {
    assert KeyOk(p, k);
    if ev.Cqe? && Legal(p, ev) { CqeAddsFresh(p, ev.k, ev.more, ev.slot, k); }
  }

  lemma CqeAddsFresh(p: State, j: Key, more: bool, slot: bool, k: Key)
    requires k in AfterCqe(p, j, more, slot).ops
    ensures k == p.nextKey || (k in p.ops && AfterCqe(p, j, more, slot).ops[k] == p.ops[k])
  {
  }

  /**
   A completion of an uncancelled operation calls back if and only if the operation
   is an accept or its eventer is still registered; otherwise its context is deleted
   on the spot.
   */
  lemma CallsBackIff(p: State, k: Key, more: bool, slot: bool)
    requires Inv(p) && Legal(p, Cqe(k, more, slot)) && k in p.ops && p.ops[k].completion
    ensures var q, op := AfterCqe(p, k, more, slot), p.ops[k];
            var runs := op.kind == Accept || (op.eventer.Some? && op.eventer.value in p.states);
            && k !in q.ops
            && q.held == (if runs then Held(k, op, more) else Nothing)
            && q.freed[k] == (if runs then 0 else 1)
  {
    assert KeyOk(p, k);
  }

  /** The completion callback of the key will not run again. */
  predicate Silent(p: State, k: Key) {
    k < p.nextKey && !p.Holds(k) && (k in p.ops ==> !p.ops[k].completion)
  }

  /** A cancelled operation, and one whose last completion was handled, never calls back, whatever the kernel sends. */
  lemma {:induction false} SilentForEver(p: State, evs: seq<Event>, k: Key)
    requires Inv(p) && Silent(p, k)
    ensures Silent(Run(p, evs), k)
    decreases |evs|
  {
    if evs != [] {
      StepKeeps(p, evs[0]);
      SilentStep(p, evs[0], k);
      SilentForEver(Step(p, evs[0]), evs[1..], k);
    }
  }

  lemma SilentStep(p: State, ev: Event, k: Key)
    requires Inv(p) && Silent(p, k)
    ensures Silent(Step(p, ev), k)
  {
    assert KeyOk(p, k);
    if Legal(p, ev) {
      match ev
      case AddEventer(e, mask, slot) => PollSilent(p.(states := p.states[e := Interest(mask, false, 0)]), e, slot, k);
      case ModifyEventer(e, mask, slot) => ModifySilent(p, e, mask, slot, k);
      case Cqe(j, more, slot) => CqeSilent(p, j, more, slot, k);
      case _ =>
    }
  }

  lemma PollSilent(p: State, e: Eventer, slot: bool, k: Key)
    requires Silent(p, k)
    ensures Silent(AfterSubmitPoll(p, e, slot), k)
  {
  }

  lemma ModifySilent(p: State, e: Eventer, mask: nat, slot: bool, k: Key)
    requires Silent(p, k)
    ensures Silent(AfterModifyEventer(p, e, mask, slot), k)
  {
    if e !in p.states { PollSilent(p.(states := p.states[e := Interest(mask, false, 0)]), e, slot, k); }
    else { PollSilent(p.(states := p.states[e := p.states[e].(mask := mask)]), e, slot, k); }
  }

  lemma CqeSilent(p: State, j: Key, more: bool, slot: bool, k: Key)
    requires Silent(p, k) && p.held.Nothing?
    ensures Silent(AfterCqe(p, j, more, slot), k)
  {
  }

  // ---------------------------------------------------------------------------
  // Arming
  // ---------------------------------------------------------------------------

  lemma SubmitPollArms(p: State, e: Eventer, slot: bool)
    requires Inv(p) && ArmInv(p)
    ensures ArmInv(AfterSubmitPoll(p, e, slot))
  {
    forall d ensures ArmOk(AfterSubmitPoll(p, e, slot), d) {
      assert ArmOk(p, d);
      assert KeyOk(p, p.nextKey);
    }
  }

  /** Changing one entry without arming it keeps every other promise. */
  lemma UnarmedIsFine(p: State, e: Eventer, i: Interest)
    requires ArmInv(p) && (i.armed ==> e in p.states && p.states[e].armed && i.pollKey == p.states[e].pollKey)
    ensures ArmInv(p.(states := p.states[e := i]))
  {
    var q := p.(states := p.states[e := i]);
    assert ArmOk(p, e);
    forall d ensures ArmOk(q, d) { assert ArmOk(p, d); }
  }

  lemma CancelPollArms(p: State, e: Eventer, slot: bool)
    requires ArmInv(p)
    ensures ArmInv(AfterCancelPoll(p, e, slot))
  {
    if e in p.states && p.states[e].armed && slot {
      UnarmedIsFine(p, e, Interest(p.states[e].mask, false, 0));
    }
  }

  lemma AddEventerArms(p: State, e: Eventer, mask: nat, slot: bool)
    requires Inv(p) && ArmInv(p)
    ensures ArmInv(AfterAddEventer(p, e, mask, slot))
  {
    var i := Interest(mask, false, 0);
    UnarmedIsFine(p, e, i);
    StatesAreFree(p, p.states[e := i]);
    SubmitPollArms(p.(states := p.states[e := i]), e, slot);
  }

  lemma ModifyEventerArms(p: State, e: Eventer, mask: nat, slot: bool)
    requires Inv(p) && ArmInv(p)
    ensures ArmInv(AfterModifyEventer(p, e, mask, slot))
  {
    if e !in p.states { AddEventerArms(p, e, mask, slot); }
    else {
      var i := p.states[e].(mask := mask);
      UnarmedIsFine(p, e, i);
      StatesAreFree(p, p.states[e := i]);
      var q := p.(states := p.states[e := i]);
      if mask == 0 { CancelPollArms(q, e, slot); } else { SubmitPollArms(q, e, slot); }
    }
  }

  lemma RemoveEventerArms(p: State, e: Eventer, slot: bool)
    requires ArmInv(p)
    ensures ArmInv(AfterRemoveEventer(p, e, slot))
  {
    CancelPollArms(p, e, slot);
    forall d ensures ArmOk(AfterRemoveEventer(p, e, slot), d) { assert ArmOk(AfterCancelPoll(p, e, slot), d); }
  }

  /** Taking a poll out of the map is harmless once its eventer counts as unarmed. */
  lemma TakePollArms(p: State, k: Key, more: bool)
    requires ArmInv(p) && k in p.ops && p.ops[k].kind == Poll && p.ops[k].eventer.Some?
    ensures var e, a := p.ops[k].eventer.value, Answered(p, k, more);
            var q := a.(ops := a.ops - {k});
            && (e in p.states ==> ArmInv(q.(states := q.states[e := q.states[e].(armed := false)])))
            && (e !in p.states ==> ArmInv(q))
  {
    var e, a := p.ops[k].eventer.value, Answered(p, k, more);
    var q := a.(ops := a.ops - {k});
    var r := if e in p.states then q.(states := q.states[e := q.states[e].(armed := false)]) else q;
    forall d ensures ArmOk(r, d) { assert ArmOk(p, d); }
  }

  lemma CqeArms(p: State, k: Key, more: bool, slot: bool)
    requires Inv(p) && ArmInv(p) && Legal(p, Cqe(k, more, slot))
    ensures ArmInv(AfterCqe(p, k, more, slot))
  {
    assert KeyOk(p, k);
    if k in p.ops && p.ops[k].kind == Poll {
      TakePollArms(p, k, more);
      var e, a := p.ops[k].eventer.value, Answered(p, k, more);
      var q := a.(ops := a.ops - {k});
      if e in q.states {
        forall j ensures KeyOk(q, j) { assert KeyOk(p, j); }
        var states := q.states[e := q.states[e].(armed := false)];
        StatesAreFree(q, states);
        SubmitPollArms(q.(states := states), e, slot);
      }
    } else {
      forall d ensures ArmOk(AfterCqe(p, k, more, slot), d) { assert ArmOk(p, d); }
    }
  }

  lemma StepArms(p: State, ev: Event)
    requires Inv(p) && ArmInv(p)
    ensures ArmInv(Step(p, ev))
  {
    if Legal(p, ev) {
      match ev
      case AddEventer(e, mask, slot) => AddEventerArms(p, e, mask, slot);
      case ModifyEventer(e, mask, slot) => ModifyEventerArms(p, e, mask, slot);
      case RemoveEventer(e, slot) => RemoveEventerArms(p, e, slot);
      case Cqe(k, more, slot) => CqeArms(p, k, more, slot);
      case _ => OthersArm(p, ev);
    }
  }

  lemma OthersArm(p: State, ev: Event)
    requires Inv(p) && ArmInv(p) && Legal(p, ev) && (ev.SubmitOnce? || ev.CancelOp? || ev.Finish?)
    ensures ArmInv(Step(p, ev))
  {
    assert KeyOk(p, p.nextKey);
    forall e ensures ArmOk(Step(p, ev), e) { assert ArmOk(p, e); }
  }

  // ---------------------------------------------------------------------------
  // Registration
  // ---------------------------------------------------------------------------

  function MaskOf(p: State, e: Eventer): Option<nat> { if e in p.states then Some(p.states[e].mask) else None }

  /** What an event asks for on behalf of `e`, where `before` is what was asked for so far. */
  function AskedBy(before: Option<nat>, ev: Event, e: Eventer): Option<nat> {
    match ev
    case AddEventer(d, mask, _) => if d == e then Some(mask) else before
    case ModifyEventer(d, mask, _) => if d == e then Some(mask) else before
    case RemoveEventer(d, _) => if d == e then None else before
    case _ => before
  }

  function Asked(before: Option<nat>, evs: seq<Event>, e: Eventer): Option<nat>
    decreases |evs|
  {
    if evs == [] then before else Asked(AskedBy(before, evs[0], e), evs[1..], e)
  }

  lemma StepMask(p: State, ev: Event, e: Eventer)
    ensures MaskOf(Step(p, ev), e) == AskedBy(MaskOf(p, e), ev, e)
  {
    match ev
    case AddEventer(d, mask, slot) => PollMask(p.(states := p.states[d := Interest(mask, false, 0)]), d, slot, e);
    case ModifyEventer(d, mask, slot) => ModifyMask(p, d, mask, slot, e);
    case RemoveEventer(d, slot) => PollMask(p, d, slot, e);
    case Cqe(k, more, slot) => CqeMask(p, k, more, slot, e);
    case _ =>
  }

  lemma PollMask(p: State, d: Eventer, slot: bool, e: Eventer)
    ensures MaskOf(AfterSubmitPoll(p, d, slot), e) == MaskOf(p, e)
    ensures MaskOf(AfterCancelPoll(p, d, slot), e) == MaskOf(p, e)
  {
  }

  lemma ModifyMask(p: State, d: Eventer, mask: nat, slot: bool, e: Eventer)
    ensures MaskOf(AfterModifyEventer(p, d, mask, slot), e) == if d == e then Some(mask) else MaskOf(p, e)
  {
    if d !in p.states { PollMask(p.(states := p.states[d := Interest(mask, false, 0)]), d, slot, e); }
    else { PollMask(p.(states := p.states[d := p.states[d].(mask := mask)]), d, slot, e); }
  }

  lemma CqeMask(p: State, k: Key, more: bool, slot: bool, e: Eventer)
    ensures MaskOf(AfterCqe(p, k, more, slot), e) == MaskOf(p, e)
  {
    var a := Answered(p, k, more);
    if k != 0 && k in p.ops && !p.ops[k].completion {
      SilentMask(a.(ops := a.ops - {k}), k, p.ops[k], slot, e);
    }
  }

  lemma SilentMask(p: State, k: Key, op: Op, slot: bool, e: Eventer)
    ensures MaskOf(AfterSilentCqe(p, k, op, slot), e) == MaskOf(p, e)
  {
    var q := if op.context.Some? then AfterDelete(p, k) else p;
    if op.kind == Poll && op.eventer.Some? && op.eventer.value in q.states {
      var d := op.eventer.value;
      PollMask(q.(states := q.states[d := q.states[d].(armed := false)]), d, slot, e);
    }
  }

  lemma {:induction false} RunMask(p: State, evs: seq<Event>, e: Eventer)
    ensures MaskOf(Run(p, evs), e) == Asked(MaskOf(p, e), evs, e)
    decreases |evs|
  {
    if evs != [] {
      StepMask(p, evs[0], e);
      RunMask(Step(p, evs[0]), evs[1..], e);
    }
  }

  /**
   Over every run an eventer is registered if and only if the last thing asked for
   it was not its removal, and then with the mask asked for last; completions,
   submissions and cancellations have no part in it.
   */
  lemma MaskIsLastAsked(evs: seq<Event>, e: Eventer)
    ensures MaskOf(Run(Start(), evs), e) == Asked(None, evs, e)
  {
    RunMask(Start(), evs, e);
  }

  predicate Armed(p: State, e: Eventer) { e in p.states && p.states[e].armed }

  /** ModifyEventer arms for a mask and disarms without one, each if an entry is free. */
  lemma ModifyArmsIff(p: State, e: Eventer, mask: nat, slot: bool)
    ensures Armed(AfterModifyEventer(p, e, mask, slot), e) <==>
              if mask == 0 then Armed(p, e) && !slot else Armed(p, e) || slot
  {
  }

  /** No poll for `e` with key `k` is in the table, unless it was there before key `from` was drawn. */
  predicate NoPollSince(p: State, e: Eventer, from: Key, k: Key) {
    k in p.ops && p.ops[k].kind == Poll && p.ops[k].eventer == Some(e) ==> k < from
  }

  lemma UnregisteredStep(p: State, ev: Event, e: Eventer, from: Key, k: Key)
    requires Inv(p) && e !in p.states && AskedBy(None, ev, e) == None && NoPollSince(p, e, from, k)
    ensures NoPollSince(Step(p, ev), e, from, k)
  {
    match ev
    case AddEventer(_, _, _) =>
    case ModifyEventer(_, _, _) =>
    case Cqe(j, more, slot) => CqeUnregistered(p, j, more, slot, e, from, k);
    case _ =>
  }

  /** A poll is submitted only for a registered eventer. */
  lemma PollUnregistered(p: State, d: Eventer, slot: bool, e: Eventer, from: Key, k: Key)
    requires d != e && NoPollSince(p, e, from, k)
    ensures NoPollSince(AfterSubmitPoll(p, d, slot), e, from, k)
  {
  }

  lemma CqeUnregistered(p: State, j: Key, more: bool, slot: bool, e: Eventer, from: Key, k: Key)
    requires e !in p.states && NoPollSince(p, e, from, k)
    ensures NoPollSince(AfterCqe(p, j, more, slot), e, from, k)
  {
    var a := Answered(p, j, more);
    if j != 0 && j in p.ops && !p.ops[j].completion {
      SilentUnregistered(a.(ops := a.ops - {j}), j, p.ops[j], slot, e, from, k);
    }
  }

  lemma SilentUnregistered(p: State, j: Key, op: Op, slot: bool, e: Eventer, from: Key, k: Key)
    requires e !in p.states && NoPollSince(p, e, from, k)
    ensures NoPollSince(AfterSilentCqe(p, j, op, slot), e, from, k)
  {
    var q := if op.context.Some? then AfterDelete(p, j) else p;
    if op.kind == Poll && op.eventer.Some? && op.eventer.value in q.states {
      var d := op.eventer.value;
      PollUnregistered(q.(states := q.states[d := q.states[d].(armed := false)]), d, slot, e, from, k);
    }
  }

  /** An eventer that is removed is never polled for again, until it is added. */
  lemma {:induction false} RemovedIsDeaf(p: State, evs: seq<Event>, e: Eventer, from: Key, k: Key)
    requires Inv(p) && e !in p.states && NoPollSince(p, e, from, k)
    requires forall i :: 0 <= i < |evs| ==> AskedBy(None, evs[i], e) == None
    ensures e !in Run(p, evs).states && NoPollSince(Run(p, evs), e, from, k)
    decreases |evs|
  {
    if evs != [] {
      StepKeeps(p, evs[0]);
      StepMask(p, evs[0], e);
      UnregisteredStep(p, evs[0], e, from, k);
      RemovedIsDeaf(Step(p, evs[0]), evs[1..], e, from, k);
    }
  }

  /** From its removal on, whether or not the kernel can be told, no poll is submitted for an eventer. */
  lemma RemovalIsFinal(p: State, e: Eventer, slot: bool, evs: seq<Event>, k: Key)
    requires Inv(p)
    requires forall i :: 0 <= i < |evs| ==> AskedBy(None, evs[i], e) == None
    ensures var q := Run(AfterRemoveEventer(p, e, slot), evs);
            e !in q.states && NoPollSince(q, e, p.nextKey, k)
  {
    RemoveEventerKeeps(p, e, slot);
    assert KeyOk(p, k);
    RemovedIsDeaf(AfterRemoveEventer(p, e, slot), evs, e, p.nextKey, k);
  }

  /** The step has to arm a poll, so it needs a submission entry. */
  predicate NeedsSlot(p: State, ev: Event) {
    match ev
    case AddEventer(_, mask, _) => mask != 0
    case ModifyEventer(e, mask, _) => mask != 0 && (e in p.states ==> !p.states[e].armed)
    case Cqe(k, _, _) =>
      && k in p.ops && p.ops[k].kind == Poll && p.ops[k].eventer.Some?
      && p.ops[k].eventer.value in p.states && p.states[p.ops[k].eventer.value].mask != 0
    case _ => false
  }

  predicate SlotFree(ev: Event) {
    match ev
    case AddEventer(_, _, slot) => slot
    case ModifyEventer(_, _, slot) => slot
    case RemoveEventer(_, slot) => slot
    case SubmitOnce(_, _, _, slot) => slot
    case Cqe(_, _, slot) => slot
    case _ => true
  }

  /**
   No eventer goes deaf in a step if and only if the step has the submission entry
   it needs; in particular completions of polls that were cancelled, replaced or
   whose eventer is gone are harmless.
   */
  lemma StaysArmedIff(p: State, ev: Event)
    requires Inv(p) && AllArmed(p) && Legal(p, ev)
    ensures AllArmed(Step(p, ev)) <==> (NeedsSlot(p, ev) ==> SlotFree(ev))
  {
    var p' := Step(p, ev);
    if NeedsSlot(p, ev) {
      if ev.Cqe? { assert KeyOk(p, ev.k); }
      var e := if ev.Cqe? then p.ops[ev.k].eventer.value else ev.e;
      assert e in p'.states && p'.states[e].mask != 0 && (p'.states[e].armed <==> SlotFree(ev));
    } else if ev.Cqe? {
      assert KeyOk(p, ev.k);
    }
  }

  /** Over every run whose steps find free submission entries, every eventer that wants events has a poll out. */
  lemma {:induction false} NobodyIsDeaf(p: State, evs: seq<Event>)
    requires Inv(p) && ArmInv(p) && AllArmed(p)
    requires forall i :: 0 <= i < |evs| ==> SlotFree(evs[i])
    ensures ArmInv(Run(p, evs)) && AllArmed(Run(p, evs))
    decreases |evs|
  {
    if evs != [] {
      StepKeeps(p, evs[0]);
      StepArms(p, evs[0]);
      if Legal(p, evs[0]) { StaysArmedIff(p, evs[0]); }
      NobodyIsDeaf(Step(p, evs[0]), evs[1..]);
    }
  }

  /** The outstanding poll of an armed eventer asks for the events the eventer wants now. */
  predicate UpToDate(p: State, e: Eventer) {
    e in p.states && p.states[e].armed && p.states[e].pollKey in p.ops &&
      p.ops[p.states[e].pollKey].mask == p.states[e].mask
  }

  /** A change of interest reaches the kernel at once if and only if no poll is out that asks for something else. */
  lemma ModifyReachesKernelIff(p: State, e: Eventer, mask: nat)
    requires Inv(p) && ArmInv(p) && mask != 0
    ensures UpToDate(AfterModifyEventer(p, e, mask, true), e) <==>
              (e in p.states && p.states[e].armed ==>
                 p.states[e].pollKey in p.ops && p.ops[p.states[e].pollKey].mask == mask)
  {
    assert ArmOk(p, e);
  }

  lemma InterestCanBeStale()
    ensures var e := Other(0);
            !UpToDate(Run(Start(), [AddEventer(e, 0, true), ModifyEventer(e, 1, true), ModifyEventer(e, 5, true)]), e)
  {
    var e := Other(0);
    var p := Step(Start(), AddEventer(e, 0, true));
    var q := Step(p, ModifyEventer(e, 1, true));
    var evs := [AddEventer(e, 0, true), ModifyEventer(e, 1, true), ModifyEventer(e, 5, true)];
    assert Run(Start(), evs) == Run(p, evs[1..]) == Run(q, evs[1..][1..]) == Run(Step(q, evs[2]), evs[1..][1..][1..]);
  }

  // ---------------------------------------------------------------------------
  // The class
  // ---------------------------------------------------------------------------

  lemma OneMore(s: set<Key>, k: Key)
    requires k !in s
    ensures multiset(s + {k}) == multiset(s) + multiset{k}
  {
  }

  class Poller {
    var ops: map<Key, Op>
    var states: map<Eventer, Interest>
    var nextKey: Key
    var held: Held               // the operation a running HandleCqe has taken out of the map
    ghost var made: set<Key>
    ghost var freed: multiset<Key>
    ghost var asked: set<Key>

    ghost function View(): State
      reads this
    {
      State(ops, states, nextKey, held, made, freed, asked)
    }

    constructor ()
      ensures View() == Start()
    {
      ops, states, nextKey := map[], map[], 1;
      held, made, freed, asked := Nothing, {}, multiset{}, {};
    }

    /** Draw a new key unless the caller brings one. */
    method NormalizeKey(key: Key) returns (k: Key)
      modifies this`nextKey
      ensures key != 0 ==> k == key && nextKey == old(nextKey)
      ensures key == 0 ==> k == old(nextKey) && nextKey == old(nextKey) + 1
    {
      k := key;
      if key == 0 {
        k := nextKey;
        nextKey := nextKey + 1;
      }
    }

    /** Take the operation out of the map. */
    method LookupOp(k: Key) returns (op: Option<Op>)
      modifies this`ops
      ensures op == (if k != 0 && k in old(ops) then Some(old(ops)[k]) else None)
      ensures ops == (if k != 0 then old(ops) - {k} else old(ops))
    {
      if k == 0 || k !in ops { return None; }
      op := Some(ops[k]);
      ops := ops - {k};
    }

    method SubmitPoll(e: Eventer, slot: bool)
      modifies this
      ensures View() == AfterSubmitPoll(old(View()), e, slot)
    {
      if e !in states || states[e].mask == 0 || states[e].armed { return; }
      var k := NormalizeKey(0);
      if !slot { return; }
      ops := ops[k := Op(Poll, Some(e), None, false, states[e].mask)];
      states := states[e := Interest(states[e].mask, true, k)];
      asked := asked + {k};
    }

    method CancelPoll(e: Eventer, slot: bool)
      modifies this
      ensures View() == AfterCancelPoll(old(View()), e, slot)
    {
      if e !in states || !states[e].armed { return; }
      if !slot { return; }
      states := states[e := Interest(states[e].mask, false, 0)];
    }

    method AddEventer(e: Eventer, mask: nat, slot: bool)
      modifies this
      ensures View() == AfterAddEventer(old(View()), e, mask, slot)
    {
      states := states[e := Interest(mask, false, 0)];
      SubmitPoll(e, slot);
    }

    method ModifyEventer(e: Eventer, mask: nat, slot: bool)
      modifies this
      ensures View() == AfterModifyEventer(old(View()), e, mask, slot)
    {
      if e !in states {
        AddEventer(e, mask, slot);
        return;
      }
      states := states[e := states[e].(mask := mask)];
      if mask == 0 { CancelPoll(e, slot); } else { SubmitPoll(e, slot); }
    }

    method RemoveEventer(e: Eventer, slot: bool)
      modifies this
      ensures View() == AfterRemoveEventer(old(View()), e, slot)
    {
      CancelPoll(e, slot);
      states := states - {e};
    }

    /** SubmitRead, SubmitWrite and SubmitAccept; zero says there was no submission entry. */
    method Submit(kind: Kind, eventer: Option<Eventer>, self: nat, slot: bool) returns (key: Key)
      modifies this
      ensures View() == AfterSubmit(old(View()), kind, eventer, self, slot)
      ensures key == if slot then old(nextKey) else 0
    {
      key := NormalizeKey(0);
      made := made + {key};
      if !slot { return 0; }
      ops := ops[key := Op(kind, eventer, Some(self), true, 0)];
      asked := asked + {key};
    }

    /** Somebody deletes the context drawn under this key. */
    ghost method DeleteContext(k: Key)
      modifies this`freed
      ensures View() == AfterDelete(old(View()), k)
    {
      freed := freed + multiset{k};
    }

    /** Mark the operation cancelled; tell the kernel if there is a submission entry. */
    method CancelOp(k: Key, slot: bool) returns (told: bool)
      modifies this`ops
      ensures View() == (if k == 0 then old(View()) else AfterCancelOp(old(View()), k))
      ensures told == (k != 0 && slot)
    {
      if k == 0 { return false; }
      if k in ops { ops := ops[k := ops[k].(eventer := None, completion := false)]; }
      told := slot;
    }

    /** The part of HandleCqe before the completion callback; `held` says whether there is one to run. */
    method HandleCqe(k: Key, more: bool, slot: bool)
      requires held.Nothing?
      modifies this
      ensures View() == AfterCqe(old(View()), k, more, slot)
    {
      asked := if more then asked else asked - {k};
      var found := LookupOp(k);
      if found.None? { return; }
      var op := found.value;
      if op.completion {
        if (op.kind == Read || op.kind == Write) && (op.eventer.None? || op.eventer.value !in states) {
          DeleteContext(k);
          return;
        }
        held := Held(k, op, more);
        return;
      }
      HandleSilentCqe(k, op, slot);
    }

    /** The end of HandleCqe, for an operation without a callback. */
    method HandleSilentCqe(k: Key, op: Op, slot: bool)
      modifies this
      ensures View() == AfterSilentCqe(old(View()), k, op, slot)
    {
      if op.context.Some? { DeleteContext(k); }
      if op.kind == Poll && op.eventer.Some? && op.eventer.value in states {
        var e := op.eventer.value;
        states := states[e := states[e].(armed := false)];
        SubmitPoll(e, slot);
      }
    }

    /** The part of HandleCqe after the completion callback, which has deleted the context of a finished operation. */
    method FinishCqe()
      modifies this
      ensures View() == AfterFinish(old(View()))
    {
      if held.Nothing? { return; }
      var run := held;
      held := Nothing;
      if run.more { ops := ops[run.key := run.op]; } else { DeleteContext(run.key); }
    }

    /** The destructor. */
    method Destroy()
      modifies this`ops, this`freed
      ensures View() == AfterTeardown(old(View()))
    {
      var left := ops.Keys;
      ghost var done: set<Key> := {};
      while left != {}
        invariant left <= ops.Keys && ops == old(ops)
        invariant forall k :: k in done <==> k in ops && k !in left && ops[k].context.Some?
        invariant freed == old(freed) + multiset(done)
        decreases |left|
      {
        var k :| k in left;
        left := left - {k};
        if ops[k].context.Some? {
          OneMore(done, k);
          freed := freed + multiset{k};
          done := done + {k};
        }
      }
      assert done == set k | k in ops && ops[k].context.Some?;
      ops := map[];
    }
  }
}
