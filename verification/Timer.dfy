/**
 The timer queue and the pass over expired tasks, with periodic re-registration.

 Times are microseconds.  The queue is an ordered multimap: equal deadlines keep
 their insertion order, which the history field `serial` records.
 */
module Timers {
  type Id = nat

  /** `interval` is zero for a one-shot task; `id` stays the same when a periodic task is registered again. */
  datatype Task = Task(deadline: int, interval: int, id: Id, serial: nat)

  predicate Before(x: Task, y: Task) {
    x.deadline < y.deadline || (x.deadline == y.deadline && x.serial < y.serial)
  }

  predicate Sorted(ts: seq<Task>) {
    forall i, j :: 0 <= i < j < |ts| ==> Before(ts[i], ts[j])
  }

  /** Insert behind every task whose deadline is not later. */
  function Insert(ts: seq<Task>, t: Task): (r: seq<Task>)
    ensures |r| == |ts| + 1
    ensures forall x :: x in r <==> x == t || x in ts
    decreases |ts|
  {
    if ts == [] || t.deadline < ts[0].deadline then [t] + ts
    else
      var rest := Insert(ts[1..], t);
      assert ts == [ts[0]] + ts[1..];
      [ts[0]] + rest
  }

  lemma {:induction false} InsertSorted(ts: seq<Task>, t: Task)
    requires Sorted(ts) && forall x :: x in ts ==> x.serial < t.serial
    ensures Sorted(Insert(ts, t))
    decreases |ts|
  {
    if ts != [] && ts[0].deadline <= t.deadline {
      InsertSorted(ts[1..], t);
      var rest := Insert(ts[1..], t);
      forall j | 0 <= j < |rest| ensures Before(ts[0], rest[j]) { assert rest[j] in rest; }
    }
  }

  /** Where the new task goes: behind all that are not later, in front of the first that is. */
  lemma {:induction false} InsertPlace(ts: seq<Task>, t: Task) returns (k: nat)
    ensures k <= |ts| && Insert(ts, t) == ts[..k] + [t] + ts[k..]
    ensures forall i :: 0 <= i < k ==> ts[i].deadline <= t.deadline
    ensures k < |ts| ==> t.deadline < ts[k].deadline
    decreases |ts|
  {
    if ts == [] || t.deadline < ts[0].deadline {
      k := 0;
    } else {
      var j := InsertPlace(ts[1..], t);
      k := j + 1;
      assert ts[..k] == [ts[0]] + ts[1..][..j] && ts[k..] == ts[1..][j..];
    }
  }

  /** The length of the expired prefix: the tasks whose deadline is not later than `now`. */
  function ExpiredCount(ts: seq<Task>, now: int): (n: nat)
    ensures n <= |ts|
    ensures forall i :: 0 <= i < n ==> ts[i].deadline <= now
    ensures n < |ts| ==> now < ts[n].deadline
    decreases |ts|
  {
    if ts == [] || now < ts[0].deadline then 0 else 1 + ExpiredCount(ts[1..], now)
  }

  /** In a sorted queue everything behind the expired prefix is later than `now`. */
  lemma RestIsLater(ts: seq<Task>, now: int)
    requires Sorted(ts)
    ensures forall i :: ExpiredCount(ts, now) <= i < |ts| ==> now < ts[i].deadline
  {
    var n := ExpiredCount(ts, now);
    forall i | n <= i < |ts| ensures now < ts[i].deadline {
      assert n < i ==> Before(ts[n], ts[i]);
    }
  }

  // ---------------------------------------------------------------------------
  // The wait before the next deadline
  // ---------------------------------------------------------------------------

  /** Division by 1000 that truncates toward zero. */
  function Milli(us: int): int { if 0 <= us then us / 1000 else -((-us) / 1000) }

  /** The cast of a 64-bit difference to a 32-bit int. */
  function Cast32(x: int): (y: int)
    ensures -0x8000_0000 <= y < 0x8000_0000
  {
    var u := x % 0x1_0000_0000;
    if u < 0x8000_0000 then u else u - 0x1_0000_0000
  }

  function MinTimeDuration(ts: seq<Task>, now: int): (d: int)
    ensures 0 <= d
  {
    if ts == [] then 10000
    else
      var d := Cast32(Milli(ts[0].deadline) - Milli(now));
      if d > 0 then d else 0
  }

  /** The wait ends before the first deadline has passed, to the millisecond. */
  predicate WakesInTime(ts: seq<Task>, now: int)
    requires ts != []
  {
    var left := Milli(ts[0].deadline) - Milli(now);
    MinTimeDuration(ts, now) <= if 0 <= left then left else 0
  }

  /** It always does, except when a deadline lies so far in the past that the cast turns it positive. */
  lemma WakesInTimeIff(ts: seq<Task>, now: int)
    requires ts != []
    ensures var left := Milli(ts[0].deadline) - Milli(now);
            WakesInTime(ts, now) <==> -0x8000_0000 <= left || !(0 < left % 0x1_0000_0000 < 0x8000_0000)
  {
    var left := Milli(ts[0].deadline) - Milli(now);
    assert left == (left / 0x1_0000_0000) * 0x1_0000_0000 + left % 0x1_0000_0000;
  }

  /** Within the range of an int the wait is exactly the time left, and nothing for a task that is due. */
  lemma WaitsForFirstDeadline(ts: seq<Task>, now: int)
    requires ts != [] && -0x8000_0000 <= Milli(ts[0].deadline) - Milli(now) < 0x8000_0000
    ensures var left := Milli(ts[0].deadline) - Milli(now);
            MinTimeDuration(ts, now) == if 0 < left then left else 0
  {
    var left := Milli(ts[0].deadline) - Milli(now);
    assert left < 0 ==> (left + 0x1_0000_0000) % 0x1_0000_0000 == left % 0x1_0000_0000;
  }

  /** A task overdue by a little more than 2^31 milliseconds makes the loop wait almost as long again. */
  lemma OverdueTaskCanWait()
    ensures var now := 0x8000_0001 * 1000;
            MinTimeDuration([Task(0, 0, 0, 0)], now) == 0x7FFF_FFFF && !WakesInTime([Task(0, 0, 0, 0)], now)
  {
  }

  // ---------------------------------------------------------------------------
  // Registration and passes
  // ---------------------------------------------------------------------------

  /** A callback that ran: when, in a pass that began when, and whether the task then wants to go on. */
  datatype Firing = Firing(task: Task, at: int, returnTime: int, goesOn: bool)

  datatype State = State(
    tasks: seq<Task>,
    nextId: Id,
    nextSerial: nat,
    entry: map<Id, Task>,     // history: the entry under which a task is pending
    ended: set<Id>,           // history: tasks that will not fire again
    fired: seq<Firing>)       // history: the callbacks run

  const EMPTY: State := State([], 0, 0, map[], {}, [])

  function Enter(s: State, deadline: int, interval: int, id: Id): State {
    var t := Task(deadline, interval, id, s.nextSerial);
    s.(tasks := Insert(s.tasks, t), nextSerial := s.nextSerial + 1, entry := s.entry[id := t])
  }

  /** RunAt, RunAfter, RunSoon (interval zero) and RunEveryUntil. */
  function Register(s: State, deadline: int, interval: int): State {
    Enter(s, deadline, interval, s.nextId).(nextId := s.nextId + 1)
  }

  datatype Registration = Registration(deadline: int, interval: int)

  /** What a callback does: the tasks it registers, and what its continue predicate says afterwards. */
  datatype Reaction = Reaction(registers: seq<Registration>, goesOn: bool)

  function RegisterAll(s: State, rs: seq<Registration>): State
    decreases |rs|
  {
    if rs == [] then s else RegisterAll(Register(s, rs[0].deadline, rs[0].interval), rs[1..])
  }

  /** The callback has run; register the task again if it is periodic and goes on. */
  function Settle(s: State, t: Task, now: int, returnTime: int, goesOn: bool): State {
    var s1 := s.(fired := s.fired + [Firing(t, now, returnTime, goesOn)]);
    if t.interval != 0 && goesOn then Enter(s1, returnTime + t.interval, t.interval, t.id)
    else s1.(entry := s1.entry - {t.id}, ended := s1.ended + {t.id})
  }

  /** Run one expired task. */
  function Fire(s: State, t: Task, now: int, returnTime: int, r: Reaction): State {
    Settle(RegisterAll(s, r.registers), t, now, returnTime, r.goesOn)
  }

  function FireAll(s: State, todo: seq<Task>, now: int, returnTime: int, react: Task -> Reaction): State
    decreases |todo|
  {
    if todo == [] then s
    else FireAll(Fire(s, todo[0], now, returnTime, react(todo[0])), todo[1..], now, returnTime, react)
  }

  /** One pass: take the expired prefix out of the queue, then run it in order. */
  function Pass(s: State, now: int, returnTime: int, react: Task -> Reaction): State {
    var n := ExpiredCount(s.tasks, now);
    FireAll(s.(tasks := s.tasks[n..]), s.tasks[..n], now, returnTime, react)
  }

  // ---------------------------------------------------------------------------
  // The invariant; `todo` are the expired tasks that a pass has yet to run
  // ---------------------------------------------------------------------------

  ghost predicate EntryOk(entry: map<Id, Task>, bound: nat, t: Task) {
    t.serial < bound && t.id in entry && entry[t.id] == t
  }

  ghost predicate QueueOk(s: State, todo: seq<Task>) {
    && Sorted(s.tasks) && Sorted(todo)
    && (forall t :: t in s.tasks ==> EntryOk(s.entry, s.nextSerial, t) && t !in todo)
    && (forall t :: t in todo ==> EntryOk(s.entry, s.nextSerial, t))
  }

  ghost predicate PendingOk(s: State, todo: seq<Task>) {
    && (forall i :: i in s.entry ==>
          i < s.nextId && s.entry[i].id == i && (s.entry[i] in s.tasks || s.entry[i] in todo))
    && (forall i: Id :: i < s.nextId ==> (i in s.entry <==> i !in s.ended))
    && (forall i :: i in s.ended ==> i < s.nextId)
  }

  ghost predicate FiredOk(s: State) {
    && (forall h :: 0 <= h < |s.fired| ==>
          && s.fired[h].task.deadline <= s.fired[h].at
          && (s.fired[h].task.interval == 0 ==> s.fired[h].task.id in s.ended))
    && (forall g, h :: 0 <= g < h < |s.fired| && s.fired[g].task.interval == 0 ==>
          s.fired[g].task.id != s.fired[h].task.id)
  }

  ghost predicate Inv(s: State, todo: seq<Task>) {
    QueueOk(s, todo) && PendingOk(s, todo) && FiredOk(s)
  }

  lemma RegisterKeeps(s: State, todo: seq<Task>, deadline: int, interval: int)
    requires Inv(s, todo)
    ensures Inv(Register(s, deadline, interval), todo)
  {
    var t := Task(deadline, interval, s.nextId, s.nextSerial);
    InsertSorted(s.tasks, t);
    assert s.nextId !in s.entry;
  }

  lemma {:induction false} RegisterAllKeeps(s: State, todo: seq<Task>, rs: seq<Registration>)
    requires Inv(s, todo)
    ensures Inv(RegisterAll(s, rs), todo)
    ensures RegisterAll(s, rs).fired == s.fired
    decreases |rs|
  {
    if rs != [] {
      RegisterKeeps(s, todo, rs[0].deadline, rs[0].interval);
      RegisterAllKeeps(Register(s, rs[0].deadline, rs[0].interval), todo, rs[1..]);
    }
  }

  /** In a sorted list the first task occurs only once. */
  lemma HeadIsUnique(ts: seq<Task>)
    requires ts != [] && Sorted(ts)
    ensures ts[0] !in ts[1..] && Sorted(ts[1..])
    ensures forall x :: x in ts <==> x == ts[0] || x in ts[1..]
  {
    assert ts == [ts[0]] + ts[1..];
  }

  lemma SettleAgainQueue(s: State, todo: seq<Task>, now: int, returnTime: int)
    requires todo != [] && Inv(s, todo) && todo[0].interval != 0
    ensures QueueOk(Settle(s, todo[0], now, returnTime, true), todo[1..])
  {
    var t, rest := todo[0], todo[1..];
    HeadIsUnique(todo);
    var again := Task(returnTime + t.interval, t.interval, t.id, s.nextSerial);
    InsertSorted(s.tasks, again);
    var s' := Settle(s, t, now, returnTime, true);
    assert EntryOk(s.entry, s.nextSerial, t);
    forall x | x in rest ensures EntryOk(s'.entry, s'.nextSerial, x) && x != again {
      assert EntryOk(s.entry, s.nextSerial, x);
    }
    forall x | x in s'.tasks ensures EntryOk(s'.entry, s'.nextSerial, x) && x !in rest {
      assert x != again ==> EntryOk(s.entry, s.nextSerial, x);
    }
  }

  lemma SettleAgainKeeps(s: State, todo: seq<Task>, now: int, returnTime: int)
    requires todo != [] && Inv(s, todo) && todo[0].deadline <= now && todo[0].interval != 0
    ensures Inv(Settle(s, todo[0], now, returnTime, true), todo[1..])
  {
    var t, rest := todo[0], todo[1..];
    HeadIsUnique(todo);
    SettleAgainQueue(s, todo, now, returnTime);
    var s' := Settle(s, t, now, returnTime, true);
    assert EntryOk(s.entry, s.nextSerial, t);
    forall i | i in s'.entry
      ensures s'.entry[i].id == i && (s'.entry[i] in s'.tasks || s'.entry[i] in rest)
    {
      assert i != t.id ==> i in s.entry && s.entry[i] != t;
    }
  }

  lemma SettleEndKeeps(s: State, todo: seq<Task>, now: int, returnTime: int, goesOn: bool)
    requires todo != [] && Inv(s, todo) && todo[0].deadline <= now && (todo[0].interval == 0 || !goesOn)
    ensures Inv(Settle(s, todo[0], now, returnTime, goesOn), todo[1..])
  {
    var t, rest := todo[0], todo[1..];
    HeadIsUnique(todo);
    var s' := Settle(s, t, now, returnTime, goesOn);
    assert EntryOk(s.entry, s.nextSerial, t);
    forall x | x in rest ensures EntryOk(s'.entry, s'.nextSerial, x) { assert EntryOk(s.entry, s.nextSerial, x); }
    forall i | i in s'.entry
      ensures s'.entry[i] in s'.tasks || s'.entry[i] in rest
    {
      assert i != t.id && i in s.entry && s.entry[i] != t;
    }
  }

  lemma SettleKeeps(s: State, todo: seq<Task>, now: int, returnTime: int, goesOn: bool)
    requires todo != [] && Inv(s, todo) && todo[0].deadline <= now
    ensures Inv(Settle(s, todo[0], now, returnTime, goesOn), todo[1..])
  {
    if todo[0].interval != 0 && goesOn { SettleAgainKeeps(s, todo, now, returnTime); }
    else { SettleEndKeeps(s, todo, now, returnTime, goesOn); }
  }

  lemma {:induction false} FireAllKeeps(s: State, todo: seq<Task>, now: int, returnTime: int, react: Task -> Reaction)
    requires Inv(s, todo) && forall t :: t in todo ==> t.deadline <= now
    ensures Inv(FireAll(s, todo, now, returnTime, react), [])
    decreases |todo|
  {
    if todo != [] {
      var r := react(todo[0]);
      RegisterAllKeeps(s, todo, r.registers);
      var s1 := RegisterAll(s, r.registers);
      assert todo[0] in todo;
      SettleKeeps(s1, todo, now, returnTime, r.goesOn);
      FireAllKeeps(Fire(s, todo[0], now, returnTime, r), todo[1..], now, returnTime, react);
    }
  }

  lemma SplitKeeps(s: State, n: nat)
    requires Inv(s, []) && n <= |s.tasks|
    ensures Inv(s.(tasks := s.tasks[n..]), s.tasks[..n])
  {
    var todo, left := s.tasks[..n], s.tasks[n..];
    assert s.tasks == todo + left;
    forall x | x in left ensures x in s.tasks && x !in todo {
      var j :| 0 <= j < |left| && left[j] == x;
      forall i | 0 <= i < n ensures todo[i] != x { assert Before(s.tasks[i], s.tasks[n + j]); }
    }
  }

  lemma PassKeeps(s: State, now: int, returnTime: int, react: Task -> Reaction)
    requires Inv(s, [])
    ensures Inv(Pass(s, now, returnTime, react), [])
  {
    var n := ExpiredCount(s.tasks, now);
    SplitKeeps(s, n);
    FireAllKeeps(s.(tasks := s.tasks[n..]), s.tasks[..n], now, returnTime, react);
  }

  // ---------------------------------------------------------------------------
  // Results over every run
  // ---------------------------------------------------------------------------

  datatype Event =
    | DoRegister(deadline: int, interval: int)
    | DoPass(now: int, returnTime: int, react: Task -> Reaction)

  function Step(s: State, e: Event): State {
    match e
    case DoRegister(deadline, interval) => Register(s, deadline, interval)
    case DoPass(now, returnTime, react) => Pass(s, now, returnTime, react)
  }

  function Run(s: State, es: seq<Event>): State
    decreases |es|
  {
    if es == [] then s else Run(Step(s, es[0]), es[1..])
  }

  lemma StepKeeps(s: State, e: Event)
    requires Inv(s, [])
    ensures Inv(Step(s, e), [])
  {
    match e
    case DoRegister(deadline, interval) => RegisterKeeps(s, [], deadline, interval);
    case DoPass(now, returnTime, react) => PassKeeps(s, now, returnTime, react);
  }

  lemma {:induction false} RunKeeps(s: State, es: seq<Event>)
    requires Inv(s, [])
    ensures Inv(Run(s, es), [])
    decreases |es|
  {
    if es != [] {
      StepKeeps(s, es[0]);
      RunKeeps(Step(s, es[0]), es[1..]);
    }
  }

  // ---------------------------------------------------------------------------
  // What was asked for
  // ---------------------------------------------------------------------------

  /** The registrations that the callbacks of these tasks make, in order. */
  function RequestsIn(todo: seq<Task>, react: Task -> Reaction): seq<Registration>
    decreases |todo|
  {
    if todo == [] then [] else react(todo[0]).registers + RequestsIn(todo[1..], react)
  }

  function RequestsOf(s: State, e: Event): seq<Registration> {
    match e
    case DoRegister(deadline, interval) => [Registration(deadline, interval)]
    case DoPass(now, _, react) => RequestsIn(s.tasks[..ExpiredCount(s.tasks, now)], react)
  }

  /** All registrations of a run, in order; the number of one is the id of its task. */
  function Requests(s: State, es: seq<Event>): seq<Registration>
    decreases |es|
  {
    if es == [] then [] else RequestsOf(s, es[0]) + Requests(Step(s, es[0]), es[1..])
  }

  /**
   When a task is due next, from what was asked for it and what has fired: at the
   deadline asked for, and after a firing one interval after the start of its pass.
   */
  function Due(fired: seq<Firing>, r: Registration, id: Id): int
    decreases |fired|
  {
    if fired == [] then r.deadline
    else
      var last := fired[|fired| - 1];
      if last.task.id == id then last.returnTime + r.interval else Due(fired[..|fired| - 1], r, id)
  }

  /** A firing after which the task does not go on. */
  predicate Last(f: Firing) { f.task.interval == 0 || !f.goesOn }

  ghost predicate EndedOk(s: State, id: Id) {
    id in s.ended <==> exists h :: 0 <= h < |s.fired| && s.fired[h].task.id == id && Last(s.fired[h])
  }

  predicate EntryAsAsked(s: State, asked: seq<Registration>, id: Id) {
    id in s.entry ==>
      && id < |asked|
      && s.entry[id].interval == asked[id].interval
      && s.entry[id].deadline == Due(s.fired, asked[id], id)
  }

  predicate FiredAsAsked(s: State, asked: seq<Registration>, h: nat)
    requires h < |s.fired|
  {
    var t := s.fired[h].task;
    && t.id < |asked|
    && t.interval == asked[t.id].interval
    && t.deadline == Due(s.fired[..h], asked[t.id], t.id)
  }

  /** Every entry and every firing is what was asked for. */
  ghost predicate AsAsked(s: State, asked: seq<Registration>) {
    && |asked| == s.nextId
    && (forall id :: EntryAsAsked(s, asked, id))
    && (forall h :: 0 <= h < |s.fired| ==> FiredAsAsked(s, asked, h))
    && (forall id :: EndedOk(s, id))
  }

  lemma {:induction false} DueWithoutFiring(fired: seq<Firing>, r: Registration, id: Id)
    requires forall h :: 0 <= h < |fired| ==> fired[h].task.id != id
    ensures Due(fired, r, id) == r.deadline
    decreases |fired|
  {
    if fired != [] { DueWithoutFiring(fired[..|fired| - 1], r, id); }
  }

  lemma RegisterAsAsked(s: State, asked: seq<Registration>, r: Registration)
    requires AsAsked(s, asked)
    ensures AsAsked(Register(s, r.deadline, r.interval), asked + [r])
  {
    var s', more := Register(s, r.deadline, r.interval), asked + [r];
    forall h | 0 <= h < |s'.fired| ensures FiredAsAsked(s', more, h) { assert FiredAsAsked(s, asked, h); }
    forall id ensures EntryAsAsked(s', more, id) {
      assert EntryAsAsked(s, asked, id);
      if id == s.nextId {
        forall h | 0 <= h < |s.fired| ensures s.fired[h].task.id != id { assert FiredAsAsked(s, asked, h); }
        DueWithoutFiring(s.fired, r, id);
      }
    }
    forall id ensures EndedOk(s', id) { assert EndedOk(s, id); }
  }

  lemma {:induction false} RegisterAllAsAsked(s: State, asked: seq<Registration>, rs: seq<Registration>)
    requires AsAsked(s, asked)
    ensures AsAsked(RegisterAll(s, rs), asked + rs)
    decreases |rs|
  {
    if rs == [] {
      assert asked + rs == asked;
    } else {
      RegisterAsAsked(s, asked, rs[0]);
      RegisterAllAsAsked(Register(s, rs[0].deadline, rs[0].interval), asked + [rs[0]], rs[1..]);
      assert asked + [rs[0]] + rs[1..] == asked + rs;
    }
  }

  lemma SettleEnded(s: State, t: Task, now: int, returnTime: int, goesOn: bool, id: Id)
    requires EndedOk(s, id)
    ensures EndedOk(Settle(s, t, now, returnTime, goesOn), id)
  {
    var s', n := Settle(s, t, now, returnTime, goesOn), |s.fired|;
    assert s'.fired[n] == Firing(t, now, returnTime, goesOn);
    if id in s.ended {
      var h :| 0 <= h < n && s.fired[h].task.id == id && Last(s.fired[h]);
      assert s'.fired[h] == s.fired[h];
    }
    if id in s'.ended && id !in s.ended { assert Last(s'.fired[n]); }
    forall h | 0 <= h < |s'.fired| && s'.fired[h].task.id == id && Last(s'.fired[h]) ensures id in s'.ended {
      assert h < n ==> s.fired[h] == s'.fired[h];
    }
  }

  lemma SettleAsAsked(s: State, asked: seq<Registration>, t: Task, now: int, returnTime: int, goesOn: bool)
    requires AsAsked(s, asked) && t.id in s.entry && s.entry[t.id] == t
    ensures AsAsked(Settle(s, t, now, returnTime, goesOn), asked)
  {
    var s', n := Settle(s, t, now, returnTime, goesOn), |s.fired|;
    assert s'.fired[..n] == s.fired && EntryAsAsked(s, asked, t.id);
    forall h | 0 <= h < |s'.fired| ensures FiredAsAsked(s', asked, h) {
      assert h < n ==> FiredAsAsked(s, asked, h) && s'.fired[..h] == s.fired[..h];
    }
    forall id ensures EntryAsAsked(s', asked, id) { assert EntryAsAsked(s, asked, id); }
    forall id ensures EndedOk(s', id) { SettleEnded(s, t, now, returnTime, goesOn, id); }
  }

  lemma Associative(a: seq<Registration>, b: seq<Registration>, c: seq<Registration>)
    ensures a + (b + c) == a + b + c
  {
  }

  lemma RequestsFirst(asked: seq<Registration>, todo: seq<Task>, react: Task -> Reaction)
    requires todo != []
    ensures asked + RequestsIn(todo, react) == asked + react(todo[0]).registers + RequestsIn(todo[1..], react)
  {
    Associative(asked, react(todo[0]).registers, RequestsIn(todo[1..], react));
  }

  lemma FireAsAsked(s: State, asked: seq<Registration>, todo: seq<Task>, now: int, returnTime: int,
                    react: Task -> Reaction) returns (s': State, more: seq<Registration>)
    requires todo != [] && Inv(s, todo) && AsAsked(s, asked) && forall t :: t in todo ==> t.deadline <= now
    ensures FireAll(s, todo, now, returnTime, react) == FireAll(s', todo[1..], now, returnTime, react)
    ensures asked + RequestsIn(todo, react) == more + RequestsIn(todo[1..], react)
    ensures Inv(s', todo[1..]) && AsAsked(s', more) && forall t :: t in todo[1..] ==> t.deadline <= now
  {
    var r := react(todo[0]);
    more := asked + r.registers;
    RequestsFirst(asked, todo, react);
    RegisterAllKeeps(s, todo, r.registers);
    RegisterAllAsAsked(s, asked, r.registers);
    var s1 := RegisterAll(s, r.registers);
    assert todo[0] in todo && EntryOk(s1.entry, s1.nextSerial, todo[0]);
    SettleAsAsked(s1, more, todo[0], now, returnTime, r.goesOn);
    SettleKeeps(s1, todo, now, returnTime, r.goesOn);
    s' := Fire(s, todo[0], now, returnTime, r);
  }

  lemma {:induction false} FireAllAsAsked(s: State, asked: seq<Registration>, todo: seq<Task>, now: int,
                                          returnTime: int, react: Task -> Reaction,
                                          end: State, all: seq<Registration>)
    requires Inv(s, todo) && AsAsked(s, asked) && forall t :: t in todo ==> t.deadline <= now
    requires end == FireAll(s, todo, now, returnTime, react) && all == asked + RequestsIn(todo, react)
    ensures AsAsked(end, all)
    decreases |todo|
  {
    if todo == [] {
      assert all == asked;
    } else {
      var s', more := FireAsAsked(s, asked, todo, now, returnTime, react);
      FireAllAsAsked(s', more, todo[1..], now, returnTime, react, end, all);
    }
  }

  /** Taking the expired prefix out of the queue leaves the history alone. */
  lemma SplitAsAsked(s: State, asked: seq<Registration>, tasks: seq<Task>)
    requires AsAsked(s, asked)
    ensures AsAsked(s.(tasks := tasks), asked)
  {
    var s' := s.(tasks := tasks);
    forall h | 0 <= h < |s'.fired| ensures FiredAsAsked(s', asked, h) { assert FiredAsAsked(s, asked, h); }
    forall id ensures EntryAsAsked(s', asked, id) { assert EntryAsAsked(s, asked, id); }
    forall id ensures EndedOk(s', id) { assert EndedOk(s, id); }
  }

  lemma StepAsAsked(s: State, asked: seq<Registration>, e: Event)
    requires Inv(s, []) && AsAsked(s, asked)
    ensures AsAsked(Step(s, e), asked + RequestsOf(s, e))
  {
    match e
    case DoRegister(deadline, interval) => RegisterAsAsked(s, asked, Registration(deadline, interval));
    case DoPass(now, returnTime, react) =>
      var n := ExpiredCount(s.tasks, now);
      SplitKeeps(s, n);
      SplitAsAsked(s, asked, s.tasks[n..]);
      FireAllAsAsked(s.(tasks := s.tasks[n..]), asked, s.tasks[..n], now, returnTime, react,
                     Step(s, e), asked + RequestsOf(s, e));
  }

  lemma RunRequestsFirst(asked: seq<Registration>, s: State, es: seq<Event>)
    requires es != []
    ensures asked + Requests(s, es) == asked + RequestsOf(s, es[0]) + Requests(Step(s, es[0]), es[1..])
  {
    Associative(asked, RequestsOf(s, es[0]), Requests(Step(s, es[0]), es[1..]));
  }

  lemma {:induction false} RunAsAsked(s: State, asked: seq<Registration>, es: seq<Event>)
    requires Inv(s, []) && AsAsked(s, asked)
    ensures AsAsked(Run(s, es), asked + Requests(s, es))
    decreases |es|
  {
    if es == [] {
      assert asked + Requests(s, es) == asked;
    } else {
      StepKeeps(s, es[0]);
      StepAsAsked(s, asked, es[0]);
      RunAsAsked(Step(s, es[0]), asked + RequestsOf(s, es[0]), es[1..]);
      RunRequestsFirst(asked, s, es);
    }
  }

  lemma AsAskedFromStart(es: seq<Event>)
    ensures AsAsked(Run(EMPTY, es), Requests(EMPTY, es))
  {
    assert AsAsked(EMPTY, []) by { forall id ensures EndedOk(EMPTY, id) {} }
    RunAsAsked(EMPTY, [], es);
    assert [] + Requests(EMPTY, es) == Requests(EMPTY, es);
  }

  /**
   Over every run: a task first fires for the deadline asked for it and then each
   time for one interval after the pass that fired it last, never before that
   moment; and a task asked for without an interval fires at most once.
   */
  lemma NeverEarlyAndOnce(es: seq<Event>)
    ensures var s, asked := Run(EMPTY, es), Requests(EMPTY, es);
            && |asked| == s.nextId
            && (forall h :: 0 <= h < |s.fired| ==>
                  && s.fired[h].task.id < |asked|
                  && s.fired[h].task.interval == asked[s.fired[h].task.id].interval
                  && s.fired[h].task.deadline
                     == Due(s.fired[..h], asked[s.fired[h].task.id], s.fired[h].task.id) <= s.fired[h].at)
            && (forall g, h :: 0 <= g < h < |s.fired| && asked[s.fired[g].task.id].interval == 0 ==>
                  s.fired[g].task.id != s.fired[h].task.id)
  {
    RunKeeps(EMPTY, es);
    AsAskedFromStart(es);
    var s, asked := Run(EMPTY, es), Requests(EMPTY, es);
    forall h | 0 <= h < |s.fired|
      ensures s.fired[h].task.id < |asked| && s.fired[h].task.interval == asked[s.fired[h].task.id].interval
      ensures s.fired[h].task.deadline
              == Due(s.fired[..h], asked[s.fired[h].task.id], s.fired[h].task.id) <= s.fired[h].at
    {
      assert FiredAsAsked(s, asked, h);
    }
    forall g, h | 0 <= g < h < |s.fired| && asked[s.fired[g].task.id].interval == 0
      ensures s.fired[g].task.id != s.fired[h].task.id
    {
      assert FiredAsAsked(s, asked, g);
    }
  }

  /** The clock does not run backwards from `t0` on. */
  predicate ClockRises(es: seq<Event>, t0: int)
    decreases |es|
  {
    es == [] ||
    match es[0]
    case DoRegister(_, _) => ClockRises(es[1..], t0)
    case DoPass(now, _, _) => t0 <= now && ClockRises(es[1..], now)
  }

  /** The firings happened in the order of time, up to `t0`. */
  ghost predicate Chronicle(fired: seq<Firing>, t0: int) {
    && (forall h :: 0 <= h < |fired| ==> fired[h].at <= t0)
    && (forall g, h :: 0 <= g < h < |fired| ==> fired[g].at <= fired[h].at)
  }

  lemma {:induction false} RunChronicle(s: State, es: seq<Event>, t0: int) returns (t1: int)
    requires ClockRises(es, t0) && Chronicle(s.fired, t0)
    ensures Chronicle(Run(s, es).fired, t1)
    decreases |es|
  {
    if es == [] {
      t1 := t0;
    } else {
      match es[0]
      case DoRegister(_, _) => t1 := RunChronicle(Step(s, es[0]), es[1..], t0);
      case DoPass(now, returnTime, react) =>
        PassFires(s, now, returnTime, react);
        t1 := RunChronicle(Step(s, es[0]), es[1..], now);
    }
  }

  lemma {:induction false} NotBefore(s: State, asked: seq<Registration>, t0: int, h: nat)
    requires AsAsked(s, asked) && FiredOk(s) && Chronicle(s.fired, t0) && h < |s.fired|
    ensures s.fired[h].task.id < |asked| && asked[s.fired[h].task.id].deadline <= s.fired[h].at
  {
    var id := s.fired[h].task.id;
    assert FiredAsAsked(s, asked, h);
    if g :| 0 <= g < h && s.fired[g].task.id == id {
      NotBefore(s, asked, t0, g);
    } else {
      DueWithoutFiring(s.fired[..h], asked[id], id);
    }
  }

  /** With a clock that does not run backwards, no callback ever runs before the deadline first asked for. */
  lemma NeverBeforeAsked(es: seq<Event>, t0: int, h: nat)
    requires ClockRises(es, t0) && h < |Run(EMPTY, es).fired|
    ensures var s, asked := Run(EMPTY, es), Requests(EMPTY, es);
            s.fired[h].task.id < |asked| && asked[s.fired[h].task.id].deadline <= s.fired[h].at
  {
    RunKeeps(EMPTY, es);
    AsAskedFromStart(es);
    var t1 := RunChronicle(EMPTY, es, t0);
    NotBefore(Run(EMPTY, es), Requests(EMPTY, es), t1, h);
  }

  /**
   Between passes a registered task has exactly one entry in the queue until it
   ends, with the interval asked for and the deadline it is due at next, and none
   afterwards; it ends when it has fired without an interval or did not want to go
   on.  The queue is ordered by deadline, then insertion.
   */
  lemma OneEntryUntilEnded(es: seq<Event>, id: Id)
    requires id < Run(EMPTY, es).nextId
    ensures var s, asked := Run(EMPTY, es), Requests(EMPTY, es);
            && Sorted(s.tasks) && id < |asked|
            && (id !in s.ended ==>
                  exists k :: && 0 <= k < |s.tasks| && s.tasks[k].id == id
                              && s.tasks[k].interval == asked[id].interval
                              && s.tasks[k].deadline == Due(s.fired, asked[id], id))
            && (id in s.ended ==> forall k :: 0 <= k < |s.tasks| ==> s.tasks[k].id != id)
            && (forall j, k :: 0 <= j < k < |s.tasks| ==> s.tasks[j].id != s.tasks[k].id)
            && (id in s.ended <==>
                  exists h :: 0 <= h < |s.fired| && s.fired[h].task.id == id && Last(s.fired[h]))
  {
    RunKeeps(EMPTY, es);
    AsAskedFromStart(es);
    var s, asked := Run(EMPTY, es), Requests(EMPTY, es);
    assert EndedOk(s, id) && EntryAsAsked(s, asked, id);
    if id !in s.ended {
      var k :| 0 <= k < |s.tasks| && s.tasks[k] == s.entry[id];
      assert s.tasks[k] in s.tasks && EntryOk(s.entry, s.nextSerial, s.tasks[k]);
      assert s.tasks[k].id == id;
    }
    forall k | 0 <= k < |s.tasks| ensures s.tasks[k].id !in s.ended {
      assert s.tasks[k] in s.tasks && EntryOk(s.entry, s.nextSerial, s.tasks[k]);
    }
    forall j, k | 0 <= j < k < |s.tasks| ensures s.tasks[j].id != s.tasks[k].id {
      assert s.tasks[j] in s.tasks && s.tasks[k] in s.tasks;
      assert Before(s.tasks[j], s.tasks[k]);
    }
  }

  function Firings(ts: seq<Task>, now: int, returnTime: int, react: Task -> Reaction): (fs: seq<Firing>)
    ensures |fs| == |ts|
    ensures forall k :: 0 <= k < |ts| ==> fs[k] == Firing(ts[k], now, returnTime, react(ts[k]).goesOn)
  {
    seq(|ts|, k requires 0 <= k < |ts| => Firing(ts[k], now, returnTime, react(ts[k]).goesOn))
  }

  lemma {:induction false} FireAllFires(s: State, todo: seq<Task>, now: int, returnTime: int, react: Task -> Reaction)
    ensures FireAll(s, todo, now, returnTime, react).fired == s.fired + Firings(todo, now, returnTime, react)
    decreases |todo|
  {
    if todo != [] {
      var s' := Fire(s, todo[0], now, returnTime, react(todo[0]));
      RegisterAllFires(s, react(todo[0]).registers);
      FireAllFires(s', todo[1..], now, returnTime, react);
      assert s.fired + [Firing(todo[0], now, returnTime, react(todo[0]).goesOn)]
             + Firings(todo[1..], now, returnTime, react) == s.fired + Firings(todo, now, returnTime, react);
    }
  }

  lemma {:induction false} RegisterAllFires(s: State, rs: seq<Registration>)
    ensures RegisterAll(s, rs).fired == s.fired
    decreases |rs|
  {
    if rs != [] { RegisterAllFires(Register(s, rs[0].deadline, rs[0].interval), rs[1..]); }
  }

  /**
   A pass runs exactly the queued tasks that are due, by deadline and then by
   insertion; what it leaves of them is later than `now`.
   */
  lemma PassFiresExactlyTheDue(s: State, now: int, returnTime: int, react: Task -> Reaction)
    requires Inv(s, [])
    ensures var n := ExpiredCount(s.tasks, now);
            && Pass(s, now, returnTime, react).fired == s.fired + Firings(s.tasks[..n], now, returnTime, react)
            && Sorted(s.tasks[..n])
            && (forall k :: 0 <= k < |s.tasks| ==> (s.tasks[k].deadline <= now <==> k < n))
  {
    RestIsLater(s.tasks, now);
    PassFires(s, now, returnTime, react);
  }

  lemma PassFires(s: State, now: int, returnTime: int, react: Task -> Reaction)
    ensures var n := ExpiredCount(s.tasks, now);
            Pass(s, now, returnTime, react).fired == s.fired + Firings(s.tasks[..n], now, returnTime, react)
  {
    var n := ExpiredCount(s.tasks, now);
    FireAllFires(s.(tasks := s.tasks[n..]), s.tasks[..n], now, returnTime, react);
  }

  // ---------------------------------------------------------------------------
  // The classes
  // ---------------------------------------------------------------------------

  class Timer {
    var timePoints: seq<Task>

    constructor ()
      ensures timePoints == []
    {
      timePoints := [];
    }

    /** Queue a task behind every task that is not later; `k` is its place. */
    method AddTimeTask(t: Task) returns (ghost k: nat)
      modifies this
      ensures k <= |old(timePoints)| && timePoints == old(timePoints)[..k] + [t] + old(timePoints)[k..]
      ensures forall i :: 0 <= i < k ==> old(timePoints)[i].deadline <= t.deadline
      ensures k < |old(timePoints)| ==> t.deadline < old(timePoints)[k].deadline
      ensures old(Sorted(timePoints)) && (forall x :: x in old(timePoints) ==> x.serial < t.serial) ==>
                Sorted(timePoints)
      ensures timePoints == Insert(old(timePoints), t)
    {
      k := InsertPlace(timePoints, t);
      if Sorted(timePoints) && forall x :: x in timePoints ==> x.serial < t.serial { InsertSorted(timePoints, t); }
      timePoints := Insert(timePoints, t);
    }

    /** Milliseconds to wait for the first deadline, ten seconds when there is none. */
    method GetMinTimeDuration(now: int) returns (duration: int)
      ensures duration == MinTimeDuration(timePoints, now)
      ensures timePoints == [] ==> duration == 10000
      ensures timePoints != [] && -0x8000_0000 <= Milli(timePoints[0].deadline) - Milli(now) ==>
                WakesInTime(timePoints, now)
    {
      if timePoints == [] { return 10000; }
      WakesInTimeIff(timePoints, now);
      duration := Cast32(Milli(timePoints[0].deadline) - Milli(now));
      if duration <= 0 { duration := 0; }
    }

    /** Take the tasks that are due out of the queue. */
    method GetExpiredTimeTasks(now: int) returns (expired: seq<Task>)
      modifies this
      ensures expired + timePoints == old(timePoints)
      ensures forall t :: t in expired ==> t.deadline <= now
      ensures timePoints != [] ==> now < timePoints[0].deadline
      ensures old(Sorted(timePoints)) ==> Sorted(expired) && Sorted(timePoints)
      ensures old(Sorted(timePoints)) ==> forall t :: t in timePoints ==> now < t.deadline
    {
      expired := [];
      var i := 0;
      while i < |timePoints| && timePoints[i].deadline <= now
        invariant 0 <= i <= |timePoints| && expired == timePoints[..i]
        invariant timePoints == old(timePoints)
        invariant forall k :: 0 <= k < i ==> timePoints[k].deadline <= now
      {
        expired := expired + [timePoints[i]];
        i := i + 1;
      }
      ghost var before := timePoints;
      timePoints := timePoints[i..];
      if Sorted(before) {
        forall t | t in timePoints ensures now < t.deadline {
          var k :| 0 <= k < |timePoints| && timePoints[k] == t;
          assert k > 0 ==> Before(before[i], before[i + k]);
        }
      }
    }
  }

  /** The part of the event manager that owns the timer. */
  class TaskLoop {
    var timer: Timer
    var nextId: Id
    var nextSerial: nat
    ghost var entry: map<Id, Task>
    ghost var ended: set<Id>
    ghost var fired: seq<Firing>

    ghost function View(): State
      reads this, timer
    {
      State(timer.timePoints, nextId, nextSerial, entry, ended, fired)
    }

    constructor ()
      ensures View() == EMPTY && fresh(timer)
    {
      timer := new Timer();
      nextId, nextSerial := 0, 0;
      entry, ended, fired := map[], {}, [];
    }

    /** What RunAt, RunAfter, RunSoon and RunEveryUntil have in common. */
    method Run(deadline: int, interval: int) returns (id: Id)
      modifies this, timer
      ensures timer == old(timer)
      ensures View() == Register(old(View()), deadline, interval) && id == old(nextId)
      ensures timer.timePoints == Insert(old(timer.timePoints), Task(deadline, interval, id, old(nextSerial)))
    {
      id := nextId;
      var t := Task(deadline, interval, id, nextSerial);
      ghost var k := timer.AddTimeTask(t);
      entry := entry[id := t];
      nextId, nextSerial := nextId + 1, nextSerial + 1;
    }

    method RunAt(deadline: int) returns (id: Id)
      modifies this, timer
      ensures timer == old(timer) && View() == Register(old(View()), deadline, 0) && id == old(nextId)
      ensures timer.timePoints == Insert(old(timer.timePoints), Task(deadline, 0, id, old(nextSerial)))
    {
      id := Run(deadline, 0);
    }

    method RunAfter(now: int, delay: int) returns (id: Id)
      modifies this, timer
      ensures timer == old(timer) && View() == Register(old(View()), now + delay, 0) && id == old(nextId)
      ensures timer.timePoints == Insert(old(timer.timePoints), Task(now + delay, 0, id, old(nextSerial)))
    {
      id := Run(now + delay, 0);
    }

    method RunSoon(now: int) returns (id: Id)
      modifies this, timer
      ensures timer == old(timer) && View() == Register(old(View()), now, 0) && id == old(nextId)
      ensures timer.timePoints == Insert(old(timer.timePoints), Task(now, 0, id, old(nextSerial)))
    {
      id := Run(now, 0);
    }

    /** The first time is one interval after the start. */
    method RunEveryUntil(interval: int, start: int) returns (id: Id)
      modifies this, timer
      ensures timer == old(timer) && View() == Register(old(View()), start + interval, interval) && id == old(nextId)
      ensures timer.timePoints ==
              Insert(old(timer.timePoints), Task(start + interval, interval, id, old(nextSerial)))
    {
      id := Run(start + interval, interval);
    }

    method RunCallback(rs: seq<Registration>)
      modifies this, timer
      ensures timer == old(timer)
      ensures View() == RegisterAll(old(View()), rs)
    {
      var i := 0;
      while i < |rs|
        invariant 0 <= i <= |rs| && timer == old(timer)
        invariant RegisterAll(View(), rs[i..]) == RegisterAll(old(View()), rs)
      {
        assert rs[i..][1..] == rs[i + 1..];
        var id := Run(rs[i].deadline, rs[i].interval);
        i := i + 1;
      }
      assert rs[i..] == [];
    }

    /** After its callback a periodic task that goes on is registered for the next time only. */
    method Reschedule(t: Task, ghost now: int, returnTime: int, goesOn: bool)
      modifies this, timer
      ensures timer == old(timer)
      ensures View() == Settle(old(View()), t, now, returnTime, goesOn)
    {
      fired := fired + [Firing(t, now, returnTime, goesOn)];
      if t.interval != 0 && goesOn {
        var again := Task(returnTime + t.interval, t.interval, t.id, nextSerial);
        ghost var k := timer.AddTimeTask(again);
        entry := entry[t.id := again];
        nextSerial := nextSerial + 1;
      } else {
        entry := entry - {t.id};
        ended := ended + {t.id};
      }
    }

    method DoExpiredTimeTasks(now: int, returnTime: int, react: Task -> Reaction)
      requires Sorted(timer.timePoints)
      modifies this, timer
      ensures timer == old(timer)
      ensures View() == Pass(old(View()), now, returnTime, react)
    {
      RestIsLater(timer.timePoints, now);
      ghost var start := View();
      var expired := timer.GetExpiredTimeTasks(now);
      SamePrefix(start.tasks, expired, timer.timePoints, now);
      var i := 0;
      while i < |expired|
        invariant 0 <= i <= |expired| && timer == old(timer)
        invariant FireAll(View(), expired[i..], now, returnTime, react) == Pass(start, now, returnTime, react)
      {
        assert expired[i..][1..] == expired[i + 1..];
        var r := react(expired[i]);
        RunCallback(r.registers);
        Reschedule(expired[i], now, returnTime, r.goesOn);
        i := i + 1;
      }
      assert expired[i..] == [];
    }
  }

  /** The expired prefix is determined by what it and the rest contain. */
  lemma SamePrefix(ts: seq<Task>, expired: seq<Task>, rest: seq<Task>, now: int)
    requires ts == expired + rest
    requires (forall t :: t in expired ==> t.deadline <= now) && (rest != [] ==> now < rest[0].deadline)
    ensures ExpiredCount(ts, now) == |expired| && ts[..|expired|] == expired && ts[|expired|..] == rest
  {
  }
}
