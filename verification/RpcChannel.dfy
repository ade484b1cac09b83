/**
 Call matching in the asynchronous RPC channel, and the protocol two channels run.

 Each channel is client and server at once.  A message once sent may reach the
 other side late, out of order, several times or never.
 */
module RpcChannel {
  import opened Shared
  import opened Bytes

  type Id = int
  type Payload = seq<Byte>

  datatype ErrorCode = NoService | NoMethod | InvalidRequest

  datatype Message =
    | Request(id: Id, service: string, method_: string, request: Payload)
    | Response(id: Id, answer: Option<Payload>, error: Option<ErrorCode>)
    | Other(id: Id)    // the remaining message types are ignored

  /** What the caller left with CallMethod: a response object and a completion closure, either may be null. */
  datatype Call = Call(hasResponse: bool, hasDone: bool)

  /** Which requests a method can parse, by service and method name. */
  type Services = map<string, map<string, Payload -> bool>>

  /** A message with, for a response, the request it answers (history only, never sent). */
  datatype Packet = Packet(msg: Message, cause: Option<Message>)

  /** A call that came to its end: its response object was filled and its closure, if any, was run. */
  datatype Completion = Completion(id: Id, answer: Option<Payload>, ran: bool, cause: Option<Message>)

  datatype Peer = Peer(
    lastId: Id,
    outstanding: map<Id, Call>,
    services: Option<Services>,
    closures: seq<Message>,            // requests handed to a service that has not run its closure yet
    outbox: seq<Packet>,               // history: everything sent
    issued: map<Id, Message>,          // history: requests by id
    calls: map<Id, Call>,              // history: what each call was made with
    received: set<Id>,                 // history: the ids of the responses that have arrived
    handled: seq<Message>,             // history: requests received
    answers: set<(Message, Option<Payload>)>,  // history: what was answered to which request
    completed: seq<Completion>)        // history: finished calls

  function NewPeer(lastId: Id, services: Option<Services>): Peer {
    Peer(lastId, map[], services, [], [], map[], map[], {}, [], {}, [])
  }

  function AfterCall(p: Peer, c: Call, service: string, method_: string, request: Payload): Peer {
    var id := p.lastId + 1;
    var msg := Request(id, service, method_, request);
    p.(lastId := id, outstanding := p.outstanding[id := c], outbox := p.outbox + [Packet(msg, None)],
       issued := p.issued[id := msg], calls := p.calls[id := c])
  }

  /** The error a request meets before it reaches a service, if any. */
  function Route(services: Option<Services>, m: Message): Option<ErrorCode>
    requires m.Request?
  {
    if services.None? || m.service !in services.value then Some(NoService)
    else if m.method_ !in services.value[m.service] then Some(NoMethod)
    else if !services.value[m.service][m.method_](m.request) then Some(InvalidRequest)
    else None
  }

  /** What each error code says about a request, and what its absence says. */
  predicate RightError(services: Option<Services>, m: Message, error: Option<ErrorCode>)
    requires m.Request?
  {
    var hasService := services.Some? && m.service in services.value;
    var hasMethod := hasService && m.method_ in services.value[m.service];
    var parses := hasMethod && services.value[m.service][m.method_](m.request);
    match error
    case Some(NoService) => !hasService
    case Some(NoMethod) => hasService && !hasMethod
    case Some(InvalidRequest) => hasMethod && !parses
    case None => parses
  }

  function AfterResponse(p: Peer, m: Message, cause: Option<Message>): Peer
    requires m.Response?
  {
    var p := p.(received := p.received + {m.id});
    if m.id !in p.outstanding then p
    else
      var c := p.outstanding[m.id];
      var q := p.(outstanding := p.outstanding - {m.id});
      if c.hasResponse then q.(completed := q.completed + [Completion(m.id, m.answer, c.hasDone, cause)]) else q
  }

  function AfterRequest(p: Peer, m: Message): Peer
    requires m.Request?
  {
    var q := p.(handled := p.handled + [m]);
    match Route(p.services, m)
    case Some(code) =>
      q.(outbox := q.outbox + [Packet(Response(m.id, None, Some(code)), Some(m))], answers := q.answers + {(m, None)})
    case None => q.(closures := q.closures + [m])
  }

  function AfterMessage(p: Peer, k: Packet): Peer {
    match k.msg
    case Response(_, _, _) => AfterResponse(p, k.msg, k.cause)
    case Request(_, _, _, _) => AfterRequest(p, k.msg)
    case Other(_) => p
  }

  /** The service runs the closure of request number `k` with its answer. */
  function AfterDone(p: Peer, k: nat, answer: Payload): Peer
    requires k < |p.closures|
  {
    var m := p.closures[k];
    p.(closures := p.closures[..k] + p.closures[k + 1..],
       outbox := p.outbox + [Packet(Response(m.id, Some(answer), None), Some(m))],
       answers := p.answers + {(m, Some(answer))})
  }

  // ---------------------------------------------------------------------------
  // The class
  // ---------------------------------------------------------------------------

  class RpcAsyncChannel {
    var id: Id
    var outstandingCalls: map<Id, Call>
    var services: Option<Services>
    var closures: seq<Message>
    ghost var outbox: seq<Packet>
    ghost var issued: map<Id, Message>
    ghost var calls: map<Id, Call>
    ghost var received: set<Id>
    ghost var handled: seq<Message>
    ghost var answers: set<(Message, Option<Payload>)>
    ghost var completed: seq<Completion>

    ghost function View(): Peer
      reads this
    {
      Peer(id, outstandingCalls, services, closures, outbox, issued, calls, received, handled, answers, completed)
    }

    /** The identifier counter has no initial value of its own. */
    constructor (start: Id, available: Option<Services>)
      ensures View() == NewPeer(start, available)
    {
      id := start;
      outstandingCalls := map[];
      services := available;
      closures := [];
      outbox := [];
      issued := map[];
      calls := map[];
      received := {};
      handled := [];
      answers := {};
      completed := [];
    }

    method CallMethod(c: Call, service: string, method_: string, request: Payload) returns (sent: Message)
      modifies this
      ensures View() == AfterCall(old(View()), c, service, method_, request)
      ensures sent == Request(old(id) + 1, service, method_, request)
    {
      id := id + 1;
      sent := Request(id, service, method_, request);
      outstandingCalls := outstandingCalls[id := c];
      outbox := outbox + [Packet(sent, None)];
      issued := issued[id := sent];
      calls := calls[id := c];
    }

    /** Returns the reply that is sent at once, if any, and whether a completion closure was run. */
    method OnRpcMessage(m: Message, ghost cause: Option<Message>) returns (reply: Option<Message>, ran: bool)
      modifies this
      ensures View() == AfterMessage(old(View()), Packet(m, cause))
      ensures m.Response? && m.id !in old(outstandingCalls) ==>
                View() == old(View()).(received := old(received) + {m.id}) && reply == None && !ran
      ensures ran <==> && m.Response? && m.id in old(outstandingCalls)
                       && old(outstandingCalls)[m.id].hasResponse && old(outstandingCalls)[m.id].hasDone
      ensures ran ==> m.id !in outstandingCalls
      ensures reply.Some? ==>
                && m.Request? && reply.value.Response? && reply.value.id == m.id && reply.value.answer == None
                && reply.value.error.Some? && RightError(services, m, reply.value.error)
      ensures m.Request? && reply == None ==> closures == old(closures) + [m] && RightError(services, m, None)
    {
      reply, ran := None, false;
      match m {
        case Response(mid, answer, _) =>
          received := received + {mid};
          if mid in outstandingCalls {
            var c := outstandingCalls[mid];
            outstandingCalls := outstandingCalls - {mid};
            if c.hasResponse {
              ran := c.hasDone;
              completed := completed + [Completion(mid, answer, c.hasDone, cause)];
            }
          }
        case Request(mid, service, method_, request) =>
          handled := handled + [m];
          var code := Route(services, m);
          if code.Some? {
            reply := Some(Response(mid, None, code));
            outbox := outbox + [Packet(reply.value, Some(m))];
            answers := answers + {(m, None)};
          } else {
            closures := closures + [m];
          }
        case Other(_) =>
      }
    }

    method DoneCallback(k: nat, answer: Payload) returns (sent: Message)
      requires k < |closures|
      modifies this
      ensures View() == AfterDone(old(View()), k, answer)
      ensures sent == Response(old(closures[k].id), Some(answer), None)
    {
      sent := Response(closures[k].id, Some(answer), None);
      outbox := outbox + [Packet(sent, Some(closures[k]))];
      answers := answers + {(closures[k], Some(answer))};
      closures := closures[..k] + closures[k + 1..];
    }
  }

  // ---------------------------------------------------------------------------
  // Two channels and the network between them
  // ---------------------------------------------------------------------------

  datatype Act =
    | DoCall(c: Call, service: string, method_: string, request: Payload)
    | DoReceive(k: nat)                   // any message the other side ever sent, again or for the first time
    | DoDone(k: nat, answer: Payload)

  datatype World = World(a: Peer, b: Peer)

  function Acted(self: Peer, other: Peer, act: Act): Peer {
    match act
    case DoCall(c, service, method_, request) => AfterCall(self, c, service, method_, request)
    case DoReceive(k) => if k < |other.outbox| then AfterMessage(self, other.outbox[k]) else self
    case DoDone(k, answer) => if k < |self.closures| then AfterDone(self, k, answer) else self
  }

  /** One step of side a, or of side b. */
  function Step(w: World, onA: bool, act: Act): World {
    if onA then w.(a := Acted(w.a, w.b, act)) else w.(b := Acted(w.b, w.a, act))
  }

  function Run(w: World, acts: seq<(bool, Act)>): World
    decreases |acts|
  {
    if acts == [] then w else Run(Step(w, acts[0].0, acts[0].1), acts[1..])
  }

  // ---------------------------------------------------------------------------
  // Every call ends at most once, and only with an answer to its own request
  // ---------------------------------------------------------------------------

  ghost predicate IssuedOk(p: Peer) {
    && (forall i :: i in p.issued ==> i <= p.lastId && p.issued[i].Request? && p.issued[i].id == i)
    && (forall k :: 0 <= k < |p.outbox| && p.outbox[k].msg.Request? ==>
          var m := p.outbox[k].msg; m.id in p.issued && p.issued[m.id] == m)
    && (forall i :: i in p.outstanding ==> i in p.issued)
  }

  /** Everything `server` does for others it does for a request that `client` issued. */
  ghost predicate ServesOk(client: Peer, server: Peer) {
    && (forall k :: 0 <= k < |server.closures| ==> IssuedBy(client, server.closures[k]))
    && (forall k :: 0 <= k < |server.outbox| && server.outbox[k].msg.Response? ==>
          Answers(client, server, server.outbox[k].msg.id, server.outbox[k].cause, server.outbox[k].msg.answer))
  }

  predicate IssuedBy(client: Peer, m: Message) {
    m.Request? && m.id in client.issued && client.issued[m.id] == m
  }

  /** `answer` is what `server` answered to the request that `client` issued under this id. */
  predicate Answers(client: Peer, server: Peer, id: Id, cause: Option<Message>, answer: Option<Payload>) {
    && cause.Some? && cause.value.id == id && IssuedBy(client, cause.value)
    && (cause.value, answer) in server.answers
  }

  ghost predicate CompletedOk(p: Peer, q: Peer) {
    && (forall h :: 0 <= h < |p.completed| ==>
          && p.completed[h].id !in p.outstanding
          && Answers(p, q, p.completed[h].id, p.completed[h].cause, p.completed[h].answer))
    && (forall g, h :: 0 <= g < h < |p.completed| ==> p.completed[g].id != p.completed[h].id)
  }

  ghost predicate Inv(w: World) {
    && IssuedOk(w.a) && IssuedOk(w.b)
    && ServesOk(w.a, w.b) && ServesOk(w.b, w.a)
    && CompletedOk(w.a, w.b) && CompletedOk(w.b, w.a)
  }

  lemma CallKeeps(p: Peer, q: Peer, c: Call, service: string, method_: string, request: Payload)
    requires IssuedOk(p) && ServesOk(p, q) && ServesOk(q, p) && CompletedOk(p, q) && CompletedOk(q, p)
    ensures var p' := AfterCall(p, c, service, method_, request);
            IssuedOk(p') && ServesOk(p', q) && ServesOk(q, p') && CompletedOk(p', q) && CompletedOk(q, p')
  {
  }

  lemma ResponseKeeps(p: Peer, q: Peer, m: Message, cause: Option<Message>)
    requires IssuedOk(p) && ServesOk(p, q) && ServesOk(q, p) && CompletedOk(p, q) && CompletedOk(q, p)
    requires m.Response? && Answers(p, q, m.id, cause, m.answer)
    ensures var p' := AfterResponse(p, m, cause);
            IssuedOk(p') && ServesOk(p', q) && ServesOk(q, p') && CompletedOk(p', q) && CompletedOk(q, p')
  {
  }

  lemma RequestKeeps(p: Peer, q: Peer, m: Message)
    requires IssuedOk(p) && ServesOk(p, q) && ServesOk(q, p) && CompletedOk(p, q) && CompletedOk(q, p)
    requires IssuedBy(q, m)
    ensures var p' := AfterRequest(p, m);
            IssuedOk(p') && ServesOk(p', q) && ServesOk(q, p') && CompletedOk(p', q) && CompletedOk(q, p')
  {
  }

  lemma DoneKeeps(p: Peer, q: Peer, k: nat, answer: Payload)
    requires IssuedOk(p) && ServesOk(p, q) && ServesOk(q, p) && CompletedOk(p, q) && CompletedOk(q, p)
    requires k < |p.closures|
    ensures var p' := AfterDone(p, k, answer);
            IssuedOk(p') && ServesOk(p', q) && ServesOk(q, p') && CompletedOk(p', q) && CompletedOk(q, p')
  {
    assert IssuedBy(q, p.closures[k]);
  }

  /** One side acts; by symmetry this covers both. */
  lemma ActedKeeps(p: Peer, q: Peer, act: Act)
    requires Inv(World(p, q))
    ensures Inv(World(Acted(p, q, act), q))
  {
    match act
    case DoCall(c, service, method_, request) => CallKeeps(p, q, c, service, method_, request);
    case DoReceive(k) =>
      if k < |q.outbox| {
        var packet := q.outbox[k];
        match packet.msg
        case Response(_, _, _) => ResponseKeeps(p, q, packet.msg, packet.cause);
        case Request(_, _, _, _) => RequestKeeps(p, q, packet.msg);
        case Other(_) =>
      }
    case DoDone(k, answer) => if k < |p.closures| { DoneKeeps(p, q, k, answer); }
  }

  lemma StepKeeps(w: World, onA: bool, act: Act)
    requires Inv(w)
    ensures Inv(Step(w, onA, act))
  {
    if onA { ActedKeeps(w.a, w.b, act); } else { ActedKeeps(w.b, w.a, act); }
  }

  lemma {:induction false} RunKeeps(w: World, acts: seq<(bool, Act)>)
    requires Inv(w)
    ensures Inv(Run(w, acts))
    decreases |acts|
  {
    if acts != [] {
      StepKeeps(w, acts[0].0, acts[0].1);
      RunKeeps(Step(w, acts[0].0, acts[0].1), acts[1..]);
    }
  }

  /** Whatever the network does: no call completes twice, and each gets an answer to its own request. */
  lemma CallsCompleteOnceWithOwnAnswer(start: Id, start': Id, s: Option<Services>, s': Option<Services>,
                                       acts: seq<(bool, Act)>)
    ensures var w := Run(World(NewPeer(start, s), NewPeer(start', s')), acts);
            var p := w.a;
            && (forall g, h :: 0 <= g < h < |p.completed| ==> p.completed[g].id != p.completed[h].id)
            && (forall h :: 0 <= h < |p.completed| ==>
                  var d := p.completed[h];
                  d.id !in p.outstanding && d.id in p.issued && (p.issued[d.id], d.answer) in w.b.answers)
  {
    RunKeeps(World(NewPeer(start, s), NewPeer(start', s')), acts);
  }

  // ---------------------------------------------------------------------------
  // Every handled request gets exactly one response
  // ---------------------------------------------------------------------------

  /** How many of the messages carry this id. */
  function CountIds(ms: seq<Message>, id: Id): nat
    decreases |ms|
  {
    if ms == [] then 0 else (if ms[0].id == id then 1 else 0) + CountIds(ms[1..], id)
  }

  /** How many of the packets are responses with this id. */
  function CountResponses(ks: seq<Packet>, id: Id): nat
    decreases |ks|
  {
    if ks == [] then 0
    else (if ks[0].msg.Response? && ks[0].msg.id == id then 1 else 0) + CountResponses(ks[1..], id)
  }

  lemma {:induction false} CountIdsConcat(a: seq<Message>, b: seq<Message>, id: Id)
    ensures CountIds(a + b, id) == CountIds(a, id) + CountIds(b, id)
    decreases |a|
  {
    if a == [] {
      assert a + b == b;
    } else {
      CountIdsConcat(a[1..], b, id);
      assert (a + b)[1..] == a[1..] + b;
    }
  }

  lemma {:induction false} CountResponsesConcat(a: seq<Packet>, b: seq<Packet>, id: Id)
    ensures CountResponses(a + b, id) == CountResponses(a, id) + CountResponses(b, id)
    decreases |a|
  {
    if a == [] {
      assert a + b == b;
    } else {
      CountResponsesConcat(a[1..], b, id);
      assert (a + b)[1..] == a[1..] + b;
    }
  }

  /** Responses sent and closures still open for an id are as many as the requests handled with it. */
  predicate Balanced(p: Peer, id: Id) {
    CountResponses(p.outbox, id) + CountIds(p.closures, id) == CountIds(p.handled, id)
  }

  lemma CallKeepsBalance(p: Peer, c: Call, service: string, method_: string, request: Payload, id: Id)
    requires Balanced(p, id)
    ensures Balanced(AfterCall(p, c, service, method_, request), id)
  {
    var k := Packet(Request(p.lastId + 1, service, method_, request), None);
    CountResponsesConcat(p.outbox, [k], id);
    assert [k][1..] == [];
  }

  lemma RequestKeepsBalance(p: Peer, m: Message, id: Id)
    requires Balanced(p, id) && m.Request?
    ensures Balanced(AfterRequest(p, m), id)
  {
    CountIdsConcat(p.handled, [m], id);
    CountIdsConcat(p.closures, [m], id);
    assert [m][1..] == [];
    match Route(p.services, m)
    case Some(code) =>
      var k := Packet(Response(m.id, None, Some(code)), Some(m));
      CountResponsesConcat(p.outbox, [k], id);
      assert [k][1..] == [];
    case None =>
  }

  lemma DoneKeepsBalance(p: Peer, k: nat, answer: Payload, id: Id)
    requires Balanced(p, id) && k < |p.closures|
    ensures Balanced(AfterDone(p, k, answer), id)
  {
    var m := p.closures[k];
    var packet := Packet(Response(m.id, Some(answer), None), Some(m));
    CountResponsesConcat(p.outbox, [packet], id);
    assert [packet][1..] == [];
    CountIdsConcat(p.closures[..k], p.closures[k + 1..], id);
    CountIdsConcat(p.closures[..k], p.closures[k..], id);
    assert p.closures[..k] + p.closures[k..] == p.closures;
    assert p.closures[k..][1..] == p.closures[k + 1..];
  }

  lemma ActedKeepsBalance(p: Peer, q: Peer, act: Act, id: Id)
    requires Balanced(p, id)
    ensures Balanced(Acted(p, q, act), id)
  {
    match act
    case DoCall(c, service, method_, request) => CallKeepsBalance(p, c, service, method_, request, id);
    case DoReceive(k) =>
      if k < |q.outbox| && q.outbox[k].msg.Request? { RequestKeepsBalance(p, q.outbox[k].msg, id); }
    case DoDone(k, answer) => if k < |p.closures| { DoneKeepsBalance(p, k, answer, id); }
  }

  lemma {:induction false} RunKeepsBalance(w: World, acts: seq<(bool, Act)>, id: Id)
    requires Balanced(w.a, id) && Balanced(w.b, id)
    ensures Balanced(Run(w, acts).a, id) && Balanced(Run(w, acts).b, id)
    decreases |acts|
  {
    if acts != [] {
      if acts[0].0 { ActedKeepsBalance(w.a, w.b, acts[0].1, id); }
      else { ActedKeepsBalance(w.b, w.a, acts[0].1, id); }
      RunKeepsBalance(Step(w, acts[0].0, acts[0].1), acts[1..], id);
    }
  }

  /** Once every closure has run, each id has had exactly as many responses as requests were handled with it. */
  lemma EveryRequestIsAnsweredOnce(start: Id, start': Id, s: Option<Services>, s': Option<Services>,
                                   acts: seq<(bool, Act)>, id: Id)
    ensures var p := Run(World(NewPeer(start, s), NewPeer(start', s')), acts).b;
            && CountResponses(p.outbox, id) <= CountIds(p.handled, id)
            && (p.closures == [] ==> CountResponses(p.outbox, id) == CountIds(p.handled, id))
  {
    RunKeepsBalance(World(NewPeer(start, s), NewPeer(start', s')), acts, id);
  }

  // ---------------------------------------------------------------------------
  // Errors are reported for what they are
  // ---------------------------------------------------------------------------

  /** A response with an error code carries the one its request deserves; any other carries an answer. */
  predicate RoutedOk(services: Option<Services>, k: Packet) {
    k.msg.Response? ==>
      && k.cause.Some? && k.cause.value.Request? && k.cause.value.id == k.msg.id
      && RightError(services, k.cause.value, k.msg.error)
      && (k.msg.answer.Some? <==> k.msg.error.None?)
  }

  /** The requests in the hands of a service are those that found it. */
  ghost predicate Routed(p: Peer) {
    && (forall k :: 0 <= k < |p.outbox| ==> RoutedOk(p.services, p.outbox[k]))
    && (forall k :: 0 <= k < |p.closures| ==> p.closures[k].Request? && RightError(p.services, p.closures[k], None))
  }

  lemma ActedRoutes(p: Peer, q: Peer, act: Act)
    requires Routed(p)
    ensures Routed(Acted(p, q, act)) && Acted(p, q, act).services == p.services
  {
  }

  lemma {:induction false} RunRoutes(w: World, acts: seq<(bool, Act)>)
    requires Routed(w.a) && Routed(w.b)
    ensures Routed(Run(w, acts).a) && Run(w, acts).a.services == w.a.services
    ensures Routed(Run(w, acts).b) && Run(w, acts).b.services == w.b.services
    decreases |acts|
  {
    if acts != [] {
      if acts[0].0 { ActedRoutes(w.a, w.b, acts[0].1); } else { ActedRoutes(w.b, w.a, acts[0].1); }
      RunRoutes(Step(w, acts[0].0, acts[0].1), acts[1..]);
    }
  }

  /**
   Over every run each response tells the truth about its request: the service is
   unknown, or the service is known and the method is not, or both are known and the
   request does not parse, or it carries the answer of the method.
   */
  lemma ErrorsAreTrue(start: Id, start': Id, s: Option<Services>, s': Option<Services>, acts: seq<(bool, Act)>, k: nat)
    requires k < |Run(World(NewPeer(start, s), NewPeer(start', s')), acts).b.outbox|
    ensures RoutedOk(s', Run(World(NewPeer(start, s), NewPeer(start', s')), acts).b.outbox[k])
  {
    RunRoutes(World(NewPeer(start, s), NewPeer(start', s')), acts);
  }

  // ---------------------------------------------------------------------------
  // Which answered calls complete
  // ---------------------------------------------------------------------------

  function Ended(ds: seq<Completion>): set<Id>
    decreases |ds|
  {
    if ds == [] then {} else Ended(ds[..|ds| - 1]) + {ds[|ds| - 1].id}
  }

  lemma EndedOneMore(ds: seq<Completion>, d: Completion)
    ensures Ended(ds + [d]) == Ended(ds) + {d.id}
  {
    assert (ds + [d])[..|ds|] == ds;
  }

  /**
   A response settles the call: it is no longer outstanding, and has ended iff it
   had a response object; its closure was run iff it had one.
   */
  ghost predicate SettledOk(p: Peer) {
    && (forall i :: i in p.received ==> i in p.issued)
    && (forall i :: i in p.issued ==>
          && i in p.calls
          && (i in p.received <==> i !in p.outstanding)
          && (i in p.outstanding ==> p.outstanding[i] == p.calls[i])
          && (i in Ended(p.completed) <==> i in p.received && p.calls[i].hasResponse))
    && (forall h :: 0 <= h < |p.completed| ==>
          var d := p.completed[h]; d.id in p.issued && d.id in p.calls && (d.ran <==> p.calls[d.id].hasDone))
  }

  lemma CallSettles(p: Peer, c: Call, service: string, method_: string, request: Payload)
    requires IssuedOk(p) && SettledOk(p)
    requires forall i :: i in Ended(p.completed) ==> i in p.issued
    ensures SettledOk(AfterCall(p, c, service, method_, request))
  {
  }

  lemma ResponseSettles(p: Peer, m: Message, cause: Option<Message>)
    requires SettledOk(p) && m.Response? && m.id in p.issued
    ensures SettledOk(AfterResponse(p, m, cause))
  {
    if m.id in p.outstanding {
      EndedOneMore(p.completed, Completion(m.id, m.answer, p.outstanding[m.id].hasDone, cause));
    }
  }

  lemma {:induction false} EndedWereIssued(p: Peer, q: Peer, ds: seq<Completion>)
    requires forall h :: 0 <= h < |ds| ==> Answers(p, q, ds[h].id, ds[h].cause, ds[h].answer)
    ensures forall i :: i in Ended(ds) ==> i in p.issued
    decreases |ds|
  {
    if ds != [] { EndedWereIssued(p, q, ds[..|ds| - 1]); }
  }

  lemma ActedSettles(p: Peer, q: Peer, act: Act)
    requires Inv(World(p, q)) && SettledOk(p)
    ensures SettledOk(Acted(p, q, act))
  {
    match act
    case DoCall(c, service, method_, request) =>
      EndedWereIssued(p, q, p.completed);
      CallSettles(p, c, service, method_, request);
    case DoReceive(k) =>
      if k < |q.outbox| && q.outbox[k].msg.Response? {
        var packet := q.outbox[k];
        assert Answers(p, q, packet.msg.id, packet.cause, packet.msg.answer);
        ResponseSettles(p, packet.msg, packet.cause);
      }
    case DoDone(_, _) =>
  }

  lemma {:induction false} RunSettles(w: World, acts: seq<(bool, Act)>)
    requires Inv(w) && SettledOk(w.a) && SettledOk(w.b)
    ensures SettledOk(Run(w, acts).a) && SettledOk(Run(w, acts).b)
    decreases |acts|
  {
    if acts != [] {
      StepKeeps(w, acts[0].0, acts[0].1);
      if acts[0].0 { ActedSettles(w.a, w.b, acts[0].1); } else { ActedSettles(w.b, w.a, acts[0].1); }
      RunSettles(Step(w, acts[0].0, acts[0].1), acts[1..]);
    }
  }

  /**
   Over every run: a response belongs to a call that was made, and once it has
   arrived the call is over; it has completed if and only if it was made with a
   response object; and a call that completed had its closure run if and only if it
   was made with one.
   */
  lemma CompletesIffResponseObject(start: Id, start': Id, s: Option<Services>, s': Option<Services>,
                                   acts: seq<(bool, Act)>, i: Id)
    ensures var p := Run(World(NewPeer(start, s), NewPeer(start', s')), acts).a;
            && (i in p.received ==> i in p.calls && i !in p.outstanding)
            && (i in p.received ==> (i in Ended(p.completed) <==> p.calls[i].hasResponse))
            && (i in p.issued && i !in p.received ==> i in p.outstanding && i !in Ended(p.completed))
            && (forall h :: 0 <= h < |p.completed| ==>
                  var d := p.completed[h]; d.id in p.calls && (d.ran <==> p.calls[d.id].hasDone))
  {
    var w := World(NewPeer(start, s), NewPeer(start', s'));
    RunSettles(w, acts);
  }

  /** A call with a closure but no response object: its answer arrives, and the closure never runs. */
  lemma ClosureIsDropped(services: Services, service: string, method_: string, request: Payload, answer: Payload)
    requires Route(Some(services), Request(1, service, method_, request)) == None
    ensures var acts := [(true, DoCall(Call(false, true), service, method_, request)), (false, DoReceive(0)),
                         (false, DoDone(0, answer)), (true, DoReceive(0))];
            var p := Run(World(NewPeer(0, None), NewPeer(0, Some(services))), acts).a;
            p.received == {1} && p.outstanding == map[] && p.completed == []
  {
    var acts := [(true, DoCall(Call(false, true), service, method_, request)), (false, DoReceive(0)),
                 (false, DoDone(0, answer)), (true, DoReceive(0))];
    var w := World(NewPeer(0, None), NewPeer(0, Some(services)));
    var w1 := Step(w, true, acts[0].1);
    var w2 := Step(w1, false, DoReceive(0));
    var w3 := Step(w2, false, DoDone(0, answer));
    var w4 := Step(w3, true, DoReceive(0));
    FourSteps(w, acts);
    assert w1.a.outbox == [Packet(Request(1, service, method_, request), None)];
    assert w2.b.closures == [Request(1, service, method_, request)] && w2.b.outbox == [];
    assert w3.b.outbox == [Packet(Response(1, Some(answer), None), Some(Request(1, service, method_, request)))];
    assert w3.a == w1.a;
  }

  lemma FourSteps(w: World, acts: seq<(bool, Act)>)
    requires |acts| == 4
    ensures Run(w, acts) == Step(Step(Step(Step(w, acts[0].0, acts[0].1), acts[1].0, acts[1].1), acts[2].0, acts[2].1),
                                 acts[3].0, acts[3].1)
  {
    var w1 := Step(w, acts[0].0, acts[0].1);
    var w2 := Step(w1, acts[1].0, acts[1].1);
    var w3 := Step(w2, acts[2].0, acts[2].1);
    assert acts[1..][1..] == acts[2..] && acts[2..][1..] == acts[3..] && acts[3..][1..] == [];
    var w4 := Step(w3, acts[3].0, acts[3].1);
    assert Run(w, acts) == Run(w1, acts[1..]) == Run(w2, acts[2..]) == Run(w3, acts[3..]) == Run(w4, acts[3..][1..]);
  }
}
