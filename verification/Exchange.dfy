/** Calls and publishes of one stream and the peer stream that serves them: requests,
    cancellations, responses, messages and their acks, in any number and any order of
    delivery and completion. */
module Exchange {

  type Text = seq<nat>

  // What the user asked for; `Once` is a publish with at-most-once consistency
  datatype Job = Call(rpc: Text, data: Text) | Async(rpc: Text, data: Text)
               | Publish(data: Text) | Once(data: Text)

  predicate IsRpc(j: Job) { j.Call? || j.Async? }

  // An empty error text is no error
  datatype Reply = Reply(data: Text, err: Text)

  datatype Event = Value(data: Text) | Fault(err: Text)

  // The sync hub: a waiter is resolved at most once
  datatype Wait = Pending | Resolved(ev: Event)

  // What the user got. The callback of an asynchronous call reports its completion without
  // storing the response
  datatype Result = Returned(data: Text) | Completed | Confirmed | Sent | Error(err: Text)

  datatype Caller = Caller(issued: map<nat, Job>, waiters: map<nat, Wait>, results: map<nat, Result>)

  // Where the goroutine of a request is: in the handler, past it, past the release of its
  // context, past its one attempt to respond
  datatype Pc = Running | Handled | Released | Responded

  /** `rpcCancels` is the source's map, as the set of its keys; `cancelled` and `attempts`
      count how often a request's cancel function ran and a response was tried, `produced`
      is what handlers left in the response, and `dones` the messages the application
      acknowledged without an error text. */
  datatype Callee = Callee(received: map<nat, Job>, rpcCancels: set<nat>, pc: map<nat, Pc>,
                           cancelled: map<nat, nat>, attempts: map<nat, nat>,
                           produced: map<nat, Reply>, dones: set<nat>)

  datatype Forth = Request(id: nat, job: Job) | RequestCancel(id: nat) | Message(id: nat, job: Job)

  datatype Back = Response(id: nat, reply: Reply) | MessageAck(id: nat, err: Text)

  datatype World = World(c: Caller, s: Callee, forth: multiset<Forth>, back: multiset<Back>)

  const NEW_WORLD := World(Caller(map[], map[], map[]),
                           Callee(map[], {}, map[], map[], map[], map[], {}),
                           multiset{}, multiset{})

  datatype Act =
    | Issue(id: nat, job: Job)             // Call, CallAsync, Publish, PublishAsync
    | Expire(id: nat, err: Text)           // a timeout, a context, the hub closing
    | Finish(id: nat)                      // the waiter's event reaches the user
    | GiveUp(id: nat, err: Text, tell: bool) // Call's ctx.Done arm; `tell` unless a deadline
    | TakeRequest(p: Forth, found: bool)   // `found`: some handler is registered or hijacks
    | TakeCancel(p: Forth)
    | Handle(id: nat, reply: Reply)        // the handler returns, or panics into an error
    | Release(id: nat)
    | Respond(id: nat, up: bool)           // `up`: the dialogue took the response
    | TakeMessage(p: Forth)
    | AppAck(id: nat, err: Text)           // Done, or Error; as often as it likes
    | TakeResponse(b: Back)
    | TakeMessageAck(b: Back)

  const NO_SUCH_RPC: Text := [1]

  predicate Can(w: World, a: Act) {
    match a
    case Issue(id, _) => id !in w.c.issued
    case Expire(id, err) => id in w.c.waiters && w.c.waiters[id] == Pending
    case Finish(id) => id in w.c.waiters && w.c.waiters[id].Resolved? && id in w.c.issued
    case GiveUp(id, _, _) => id in w.c.waiters && id in w.c.issued && w.c.issued[id].Call?
    case TakeRequest(p, _) => p in w.forth && p.Request?
    case TakeCancel(p) => p in w.forth && p.RequestCancel?
    case Handle(id, _) => id in w.s.pc && w.s.pc[id] == Running
    case Release(id) => id in w.s.pc && w.s.pc[id] == Handled
    case Respond(id, _) => id in w.s.pc && w.s.pc[id] == Released && id in w.s.produced
    case TakeMessage(p) => p in w.forth && p.Message?
    case AppAck(id, _) => id in w.s.received && !IsRpc(w.s.received[id])
    case TakeResponse(b) => b in w.back && b.Response?
    case TakeMessageAck(b) => b in w.back && b.MessageAck?
  }

  function Times(m: map<nat, nat>, id: nat): nat { if id in m then m[id] else 0 }

  function Bump(m: map<nat, nat>, id: nat): map<nat, nat> { m[id := Times(m, id) + 1] }

  // shub.Ack and shub.Error: resolve a waiter that is still pending
  function Resolve(c: Caller, id: nat, ev: Event): Caller {
    if id in c.waiters && c.waiters[id] == Pending then c.(waiters := c.waiters[id := Resolved(ev)]) else c
  }

  function EventOf(data: Text, err: Text): Event { if err != [] then Fault(err) else Value(data) }

  function ResultOf(j: Job, ev: Event): Result {
    match ev
    case Fault(err) => Error(err)
    case Value(d) => if j.Call? then Returned(d) else if j.Async? then Completed else Confirmed
  }

  // delete the entry and run the cancel function, if there is one
  function Cancel(s: Callee, id: nat): Callee {
    if id in s.rpcCancels then s.(rpcCancels := s.rpcCancels - {id}, cancelled := Bump(s.cancelled, id)) else s
  }

  function Store(s: Callee, id: nat, job: Job): Callee {
    s.(received := s.received[id := job], rpcCancels := s.rpcCancels + {id}, pc := s.pc[id := Running])
  }

  function Over(s: Callee, id: nat): Callee {
    s.(pc := s.pc[id := Responded], attempts := Bump(s.attempts, id))
  }

  /** handleInRequestPacket: the cancel function is stored first; without a handler it is run
      and deleted again and the caller is told. */
  function HandleInRequest(s: Callee, id: nat, job: Job, found: bool): Callee {
    if found then Store(s, id, job) else Over(Cancel(Store(s, id, job), id), id)
  }

  function Do(w: World, a: Act): (w': World)
    requires Can(w, a)
  {
    match a
    case Issue(id, job) =>
      if job.Once? then
        w.(c := w.c.(issued := w.c.issued[id := job], results := w.c.results[id := Sent]),
           forth := w.forth + multiset{Message(id, job)})
      else
        w.(c := w.c.(issued := w.c.issued[id := job], waiters := w.c.waiters[id := Pending]),
           forth := w.forth + multiset{if IsRpc(job) then Request(id, job) else Message(id, job)})
    case Expire(id, err) => w.(c := Resolve(w.c, id, Fault(err)))
    case Finish(id) =>
      w.(c := w.c.(waiters := w.c.waiters - {id},
                   results := w.c.results[id := ResultOf(w.c.issued[id], w.c.waiters[id].ev)]))
    case GiveUp(id, err, tell) =>
      w.(c := w.c.(waiters := w.c.waiters - {id}, results := w.c.results[id := Error(err)]),
         forth := if tell then w.forth + multiset{RequestCancel(id)} else w.forth)
    case TakeRequest(p, found) =>
      w.(s := HandleInRequest(w.s, p.id, p.job, found), forth := w.forth - multiset{p},
         back := if found then w.back else w.back + multiset{Response(p.id, Reply([], NO_SUCH_RPC))})
    case TakeCancel(p) => w.(s := Cancel(w.s, p.id), forth := w.forth - multiset{p})
    case Handle(id, reply) =>
      w.(s := w.s.(pc := w.s.pc[id := Handled], produced := w.s.produced[id := reply]))
    case Release(id) =>
      var s := Cancel(w.s, id);
      w.(s := s.(pc := s.pc[id := Released]))
    case Respond(id, up) =>
      w.(s := Over(w.s, id),
         back := if up then w.back + multiset{Response(id, w.s.produced[id])} else w.back)
    case TakeMessage(p) =>
      w.(s := w.s.(received := w.s.received[p.id := p.job]), forth := w.forth - multiset{p})
    case AppAck(id, err) =>
      w.(s := if err == [] then w.s.(dones := w.s.dones + {id}) else w.s,
         back := w.back + multiset{MessageAck(id, err)})
    case TakeResponse(b) =>
      w.(c := Resolve(w.c, b.id, EventOf(b.reply.data, b.reply.err)), back := w.back - multiset{b})
    case TakeMessageAck(b) =>
      w.(c := Resolve(w.c, b.id, EventOf([], b.err)), back := w.back - multiset{b})
  }

  predicate CanRun(w: World, acts: seq<Act>)
    decreases |acts|
  {
    acts == [] || (Can(w, acts[0]) && CanRun(Do(w, acts[0]), acts[1..]))
  }

  function Run(w: World, acts: seq<Act>): (w': World)
    requires CanRun(w, acts)
    decreases |acts|
  {
    if acts == [] then w else Run(Do(w, acts[0]), acts[1..])
  }

  // Invariants

  /** The callee side stands behind this event for this job. */
  predicate Vouched(s: Callee, id: nat, job: Job, ev: Event) {
    ev.Value? ==>
      if IsRpc(job) then id in s.produced && s.produced[id] == Reply(ev.data, []) && id in s.received
      else id in s.dones
  }

  predicate WaiterOk(w: World, id: nat)
    requires id in w.c.waiters
  {
    && id in w.c.issued && !w.c.issued[id].Once? && id !in w.c.results
    && (w.c.waiters[id].Resolved? ==> Vouched(w.s, id, w.c.issued[id], w.c.waiters[id].ev))
  }

  predicate ResultOk(w: World, id: nat)
    requires id in w.c.results
  {
    && id in w.c.issued
    && (match w.c.results[id]
        case Returned(d) => w.c.issued[id].Call? && Vouched(w.s, id, w.c.issued[id], Value(d))
        case Completed => w.c.issued[id].Async? && id in w.s.produced && w.s.produced[id].err == []
                          && id in w.s.received
        case Confirmed => w.c.issued[id].Publish? && id in w.s.dones
        case Sent => w.c.issued[id].Once?
        case Error(_) => true)
  }

  predicate ForthOk(w: World, p: Forth) {
    && p.id in w.c.issued
    && (p.RequestCancel? || (p.job == w.c.issued[p.id] && p.id !in w.s.received
                             && p.Request? == IsRpc(p.job) && w.forth[p] == 1))
  }

  predicate BackOk(w: World, b: Back) {
    && b.id in w.s.received
    && (match b
        case Response(id, reply) =>
          IsRpc(w.s.received[id]) && (reply.err == [] ==> id in w.s.produced && w.s.produced[id] == reply)
        case MessageAck(id, err) => !IsRpc(w.s.received[id]) && (err == [] ==> id in w.s.dones))
  }

  /** One request at the callee: its entry in `rpcCancels` is there exactly while its cancel
      function has not run, and it has tried to respond exactly when it is over. */
  predicate RequestOk(s: Callee, id: nat)
    requires id in s.pc
  {
    && id in s.received && IsRpc(s.received[id])
    && Times(s.cancelled, id) <= 1
    && (id in s.rpcCancels <==> Times(s.cancelled, id) == 0)
    && (HandlerGone(s.pc[id]) ==> id !in s.rpcCancels)
    && Times(s.attempts, id) == (if s.pc[id] == Responded then 1 else 0)
    && (s.pc[id] == Handled || s.pc[id] == Released ==> id in s.produced)
  }

  // The handler has returned and its context was released
  predicate HandlerGone(p: Pc) { p == Released || p == Responded }

  predicate CalleeOk(s: Callee) {
    && s.rpcCancels <= s.pc.Keys
    && (forall id :: id in s.pc ==> RequestOk(s, id))
    && (forall id :: id in s.received && IsRpc(s.received[id]) ==> id in s.pc)
    && (forall id :: id in s.produced ==> id in s.pc && s.pc[id] != Running)
    && s.cancelled.Keys <= s.pc.Keys && s.attempts.Keys <= s.pc.Keys
    && s.dones <= s.received.Keys
  }

  predicate Inv(w: World) {
    && CalleeOk(w.s)
    && (forall id :: id in w.s.received ==> id in w.c.issued && w.s.received[id] == w.c.issued[id])
    && (forall id :: id in w.c.waiters ==> WaiterOk(w, id))
    && (forall id :: id in w.c.results ==> ResultOk(w, id))
    && (forall p :: p in w.forth ==> ForthOk(w, p))
    && (forall b :: b in w.back ==> BackOk(w, b))
  }

  /** How the callee can change under everybody else: it forgets nothing. */
  predicate Grows(s: Callee, t: Callee) {
    && (forall id :: id in s.received ==> id in t.received && t.received[id] == s.received[id])
    && (forall id :: id in s.produced ==> id in t.produced && t.produced[id] == s.produced[id])
    && s.dones <= t.dones
  }

  /** Everything the caller side and the responses rely on survives. */
  lemma {:induction false} Relies(w: World, t: Callee)
    requires Inv(w) && Grows(w.s, t)
    requires forall id :: id in t.received ==> id in w.c.issued && t.received[id] == w.c.issued[id]
    ensures var w' := w.(s := t);
            && (forall id :: id in w.c.waiters ==> WaiterOk(w', id))
            && (forall id :: id in w.c.results ==> ResultOk(w', id))
            && (forall b :: b in w.back ==> BackOk(w', b))
  {
    var w' := w.(s := t);
    forall id | id in w.c.waiters ensures WaiterOk(w', id) {
      assert WaiterOk(w, id);
    }
    forall id | id in w.c.results ensures ResultOk(w', id) {
      assert ResultOk(w, id);
    }
    forall b | b in w.back ensures BackOk(w', b) {
      assert BackOk(w, b);
    }
  }

  lemma {:induction false} CancelKeeps(s: Callee, id: nat)
    requires CalleeOk(s)
    ensures CalleeOk(Cancel(s, id)) && Grows(s, Cancel(s, id)) && Cancel(s, id).received == s.received
    ensures id !in Cancel(s, id).rpcCancels
    ensures Cancel(s, id).pc == s.pc && Cancel(s, id).produced == s.produced
            && Cancel(s, id).attempts == s.attempts
  {
    var t := Cancel(s, id);
    forall k | k in t.pc ensures RequestOk(t, k) {
      assert RequestOk(s, k);
    }
  }

  /** One request moves on. */
  lemma {:induction false} MoveKeeps(s: Callee, t: Callee, id: nat)
    requires CalleeOk(s) && id in s.pc && id in t.pc
    requires t.pc == s.pc[id := t.pc[id]] && t.received == s.received && t.dones == s.dones
    requires t.rpcCancels == s.rpcCancels && t.cancelled == s.cancelled
    requires forall k :: k != id ==> Times(t.attempts, k) == Times(s.attempts, k)
    requires forall k :: k in t.attempts ==> k == id || k in s.attempts
    requires forall k :: k in t.produced ==> k == id || k in s.produced
    requires forall k :: k in s.produced ==> k in t.produced
    requires id in t.produced ==> t.pc[id] != Running
    requires RequestOk(t, id)
    ensures CalleeOk(t)
  {
    forall k | k in t.pc ensures RequestOk(t, k) {
      assert RequestOk(s, k);
    }
  }

  lemma {:induction false} StoreKeeps(s: Callee, id: nat, job: Job)
    requires CalleeOk(s) && id !in s.received && IsRpc(job)
    ensures CalleeOk(Store(s, id, job)) && Grows(s, Store(s, id, job))
  {
    assert id !in s.pc by {
      assert id in s.pc ==> RequestOk(s, id);
    }
    var t := Store(s, id, job);
    forall k | k in t.pc ensures RequestOk(t, k) {
      assert k != id ==> RequestOk(s, k);
    }
  }

  /** A request is released and answered, with or without a handler behind it. */
  lemma {:induction false} AnswerKeeps(s: Callee, id: nat)
    requires CalleeOk(s) && id in s.pc && (s.pc[id] == Running || s.pc[id] == Handled)
    ensures CalleeOk(Over(Cancel(s, id), id)) && Grows(s, Over(Cancel(s, id), id))
  {
    CancelKeeps(s, id);
    var t := Cancel(s, id);
    assert RequestOk(t, id);
    MoveKeeps(t, Over(t, id), id);
  }

  /** A new request: stored, and without a handler over at once. */
  lemma {:induction false} RequestKeeps(s: Callee, id: nat, job: Job, found: bool)
    requires CalleeOk(s) && id !in s.received && IsRpc(job)
    ensures var t := HandleInRequest(s, id, job, found);
            CalleeOk(t) && Grows(s, t) && t.received == s.received[id := job]
  {
    StoreKeeps(s, id, job);
    if !found {
      AnswerKeeps(Store(s, id, job), id);
    }
  }

  /** The caller changes its own tables and sends one packet. */
  lemma {:induction false} CallerActKeeps(w: World, c: Caller, p: Forth, sent: bool)
    requires Inv(w)
    requires forall id :: id in w.c.issued ==> id in c.issued && c.issued[id] == w.c.issued[id]
    requires var w' := w.(c := c);
             && (forall id :: id in c.waiters ==> WaiterOk(w', id))
             && (forall id :: id in c.results ==> ResultOk(w', id))
    requires p.id in c.issued
    requires !p.RequestCancel? ==>
               p.id !in w.c.issued && p.job == c.issued[p.id] && p.Request? == IsRpc(p.job)
    ensures Inv(w.(c := c, forth := if sent then w.forth + multiset{p} else w.forth))
  {
    var w' := w.(c := c, forth := if sent then w.forth + multiset{p} else w.forth);
    var v := w.(c := c);
    forall q | q in w'.forth ensures ForthOk(w', q) {
      assert q in w.forth ==> ForthOk(w, q);
    }
    forall id | id in c.waiters ensures WaiterOk(w', id) {
      assert WaiterOk(v, id);
    }
    forall id | id in c.results ensures ResultOk(w', id) {
      assert ResultOk(v, id);
    }
    forall b | b in w'.back ensures BackOk(w', b) {
      assert BackOk(w, b);
    }
  }

  lemma {:induction false} IssueKeeps(w: World, id: nat, job: Job)
    requires Inv(w) && Can(w, Issue(id, job))
    ensures Inv(Do(w, Issue(id, job)))
  {
    var c := Do(w, Issue(id, job)).c;
    var w' := w.(c := c);
    forall k | k in c.waiters ensures WaiterOk(w', k) {
      assert k in w.c.waiters ==> WaiterOk(w, k);
      assert k in w.c.results ==> ResultOk(w, k);
    }
    forall k | k in c.results ensures ResultOk(w', k) {
      assert k in w.c.results ==> ResultOk(w, k);
    }
    CallerActKeeps(w, c, if IsRpc(job) then Request(id, job) else Message(id, job), true);
  }

  lemma {:induction false} GiveUpKeeps(w: World, id: nat, err: Text, tell: bool)
    requires Inv(w) && Can(w, GiveUp(id, err, tell))
    ensures Inv(Do(w, GiveUp(id, err, tell)))
  {
    var c := Do(w, GiveUp(id, err, tell)).c;
    var w' := w.(c := c);
    forall k | k in c.waiters ensures WaiterOk(w', k) {
      assert WaiterOk(w, k);
    }
    forall k | k in c.results ensures ResultOk(w', k) {
      assert k in w.c.results ==> ResultOk(w, k);
    }
    CallerActKeeps(w, c, RequestCancel(id), tell);
  }

  lemma {:induction false} FinishKeeps(w: World, id: nat)
    requires Inv(w) && Can(w, Finish(id))
    ensures Inv(Do(w, Finish(id)))
  {
    var w' := Do(w, Finish(id));
    assert WaiterOk(w, id);
    forall k | k in w'.c.results ensures ResultOk(w', k) {
      assert k != id ==> ResultOk(w, k);
    }
    forall k | k in w'.c.waiters ensures WaiterOk(w', k) {
      assert WaiterOk(w, k);
    }
    forall p | p in w'.forth ensures ForthOk(w', p) {
      assert ForthOk(w, p);
    }
    forall b | b in w'.back ensures BackOk(w', b) {
      assert BackOk(w, b);
    }
  }

  /** Resolving a waiter with an event the callee stands behind. */
  lemma {:induction false} ResolveKeeps(w: World, id: nat, ev: Event, back: multiset<Back>)
    requires Inv(w) && back <= w.back
    requires id in w.c.waiters && id in w.c.issued ==> Vouched(w.s, id, w.c.issued[id], ev)
    ensures Inv(w.(c := Resolve(w.c, id, ev), back := back))
  {
    var w' := w.(c := Resolve(w.c, id, ev), back := back);
    forall k | k in w'.c.waiters ensures WaiterOk(w', k) {
      assert WaiterOk(w, k);
    }
    forall k | k in w'.c.results ensures ResultOk(w', k) {
      assert ResultOk(w, k);
    }
    forall p | p in w'.forth ensures ForthOk(w', p) {
      assert ForthOk(w, p);
    }
    forall b | b in w'.back ensures BackOk(w', b) {
      assert b in w.back && BackOk(w, b);
    }
  }

  /** The callee changes, takes messages, and sends one it stands behind. */
  lemma {:induction false} CalleeActKeeps(w: World, t: Callee, forth: multiset<Forth>, sent: multiset<Back>)
    requires Inv(w) && CalleeOk(t) && Grows(w.s, t) && forth <= w.forth
    requires forall id :: id in t.received ==> id in w.c.issued && t.received[id] == w.c.issued[id]
    requires forall p :: p in forth && !p.RequestCancel? ==> p.id !in t.received
    requires forall b :: b in sent ==> BackOk(w.(s := t), b)
    ensures Inv(w.(s := t, forth := forth, back := w.back + sent))
  {
    var w' := w.(s := t, forth := forth, back := w.back + sent);
    Relies(w, t);
    var v := w.(s := t);
    forall k | k in w'.c.waiters ensures WaiterOk(w', k) {
      assert WaiterOk(v, k);
    }
    forall k | k in w'.c.results ensures ResultOk(w', k) {
      assert ResultOk(v, k);
    }
    forall p | p in w'.forth ensures ForthOk(w', p) {
      assert p in w.forth && ForthOk(w, p);
      assert forth[p] <= w.forth[p];
    }
    forall b | b in w'.back ensures BackOk(w', b) {
      assert BackOk(v, b);
    }
  }

  lemma {:induction false} TakeKeeps(w: World, p: Forth, t: Callee, sent: multiset<Back>)
    requires Inv(w) && p in w.forth && !p.RequestCancel?
    requires CalleeOk(t) && Grows(w.s, t) && t.received == w.s.received[p.id := p.job]
    requires forall b :: b in sent ==> BackOk(w.(s := t), b)
    ensures Inv(w.(s := t, forth := w.forth - multiset{p}, back := w.back + sent))
  {
    assert ForthOk(w, p);
    var forth := w.forth - multiset{p};
    forall q | q in forth && !q.RequestCancel? ensures q.id !in t.received {
      assert q in w.forth && ForthOk(w, q);
      assert q.id == p.id ==> q == p;
    }
    CalleeActKeeps(w, t, forth, sent);
  }

  lemma {:induction false} TakeRequestKeeps(w: World, p: Forth, found: bool)
    requires Inv(w) && Can(w, TakeRequest(p, found))
    ensures Inv(Do(w, TakeRequest(p, found)))
  {
    assert ForthOk(w, p);
    RequestKeeps(w.s, p.id, p.job, found);
    var t := HandleInRequest(w.s, p.id, p.job, found);
    var b := Response(p.id, Reply([], NO_SUCH_RPC));
    var sent := if found then multiset{} else multiset{b};
    assert NO_SUCH_RPC != [];
    assert BackOk(w.(s := t), b);
    TakeKeeps(w, p, t, sent);
    assert w.back + multiset{} == w.back;
  }

  lemma {:induction false} TakeMessageKeeps(w: World, p: Forth)
    requires Inv(w) && Can(w, TakeMessage(p))
    ensures Inv(Do(w, TakeMessage(p)))
  {
    assert ForthOk(w, p);
    var t := w.s.(received := w.s.received[p.id := p.job]);
    forall k | k in t.pc ensures RequestOk(t, k) {
      assert RequestOk(w.s, k);
    }
    TakeKeeps(w, p, t, multiset{});
    assert w.back + multiset{} == w.back;
  }

  /** A request moves on, perhaps sending its response. */
  lemma {:induction false} RequestActKeeps(w: World, t: Callee, sent: multiset<Back>)
    requires Inv(w) && CalleeOk(t) && Grows(w.s, t) && t.received == w.s.received
    requires forall b :: b in sent ==> BackOk(w.(s := t), b)
    ensures Inv(w.(s := t, back := w.back + sent))
  {
    forall q | q in w.forth && !q.RequestCancel? ensures q.id !in t.received {
      assert ForthOk(w, q);
    }
    CalleeActKeeps(w, t, w.forth, sent);
  }

  lemma {:induction false} HandleKeeps(w: World, id: nat, reply: Reply)
    requires Inv(w) && Can(w, Handle(id, reply))
    ensures Inv(Do(w, Handle(id, reply)))
  {
    var t := Do(w, Handle(id, reply)).s;
    assert RequestOk(w.s, id);
    MoveKeeps(w.s, t, id);
    RequestActKeeps(w, t, multiset{});
    assert w.back + multiset{} == w.back;
  }

  lemma {:induction false} ReleaseKeeps(w: World, id: nat)
    requires Inv(w) && Can(w, Release(id))
    ensures Inv(Do(w, Release(id)))
  {
    CancelKeeps(w.s, id);
    var s, t := Cancel(w.s, id), Do(w, Release(id)).s;
    assert RequestOk(s, id);
    MoveKeeps(s, t, id);
    RequestActKeeps(w, t, multiset{});
    assert w.back + multiset{} == w.back;
  }

  lemma {:induction false} RespondKeeps(w: World, id: nat, up: bool)
    requires Inv(w) && Can(w, Respond(id, up))
    ensures Inv(Do(w, Respond(id, up)))
  {
    var t := Over(w.s, id);
    assert RequestOk(w.s, id);
    MoveKeeps(w.s, t, id);
    RequestActKeeps(w, t, if up then multiset{Response(id, w.s.produced[id])} else multiset{});
    assert w.back + multiset{} == w.back;
  }

  lemma {:induction false} TakeCancelKeeps(w: World, p: Forth)
    requires Inv(w) && Can(w, TakeCancel(p))
    ensures Inv(Do(w, TakeCancel(p)))
  {
    CancelKeeps(w.s, p.id);
    forall q | q in w.forth && !q.RequestCancel? ensures q.id !in w.s.received {
      assert ForthOk(w, q);
    }
    CalleeActKeeps(w, Cancel(w.s, p.id), w.forth - multiset{p}, multiset{});
    assert w.back + multiset{} == w.back;
  }

  lemma {:induction false} AppAckKeeps(w: World, id: nat, err: Text)
    requires Inv(w) && Can(w, AppAck(id, err))
    ensures Inv(Do(w, AppAck(id, err)))
  {
    var t := Do(w, AppAck(id, err)).s;
    forall k | k in t.pc ensures RequestOk(t, k) {
      assert RequestOk(w.s, k);
    }
    forall q | q in w.forth && !q.RequestCancel? ensures q.id !in t.received {
      assert ForthOk(w, q);
    }
    CalleeActKeeps(w, t, w.forth, multiset{MessageAck(id, err)});
  }

  function BackEvent(b: Back): Event {
    if b.Response? then EventOf(b.reply.data, b.reply.err) else EventOf([], b.err)
  }

  lemma {:induction false} BackVouches(w: World, b: Back)
    requires Inv(w) && b in w.back
    ensures b.id in w.c.issued && Vouched(w.s, b.id, w.c.issued[b.id], BackEvent(b))
  {
    assert BackOk(w, b);
  }

  lemma {:induction false} BackKeeps(w: World, b: Back)
    requires Inv(w) && b in w.back
    ensures Inv(Do(w, if b.Response? then TakeResponse(b) else TakeMessageAck(b)))
  {
    BackVouches(w, b);
    ResolveKeeps(w, b.id, BackEvent(b), w.back - multiset{b});
  }

  lemma {:induction false} ActKeeps(w: World, a: Act)
    requires Inv(w) && Can(w, a)
    ensures Inv(Do(w, a))
  {
    match a
    case Issue(id, job) => IssueKeeps(w, id, job);
    case GiveUp(id, err, tell) => GiveUpKeeps(w, id, err, tell);
    case Expire(id, err) => ResolveKeeps(w, id, Fault(err), w.back);
    case Finish(id) => FinishKeeps(w, id);
    case TakeRequest(p, found) => TakeRequestKeeps(w, p, found);
    case TakeCancel(p) => TakeCancelKeeps(w, p);
    case TakeMessage(p) => TakeMessageKeeps(w, p);
    case AppAck(id, err) => AppAckKeeps(w, id, err);
    case TakeResponse(b) => BackKeeps(w, b);
    case TakeMessageAck(b) => BackKeeps(w, b);
    case Handle(id, reply) => HandleKeeps(w, id, reply);
    case Release(id) => ReleaseKeeps(w, id);
    case Respond(id, up) => RespondKeeps(w, id, up);
  }

  lemma {:induction false} RunKeeps(w: World, acts: seq<Act>)
    requires Inv(w) && CanRun(w, acts)
    ensures Inv(Run(w, acts))
    decreases |acts|
  {
    if acts != [] {
      ActKeeps(w, acts[0]);
      RunKeeps(Do(w, acts[0]), acts[1..]);
    }
  }

  /** RPC pairing, end to end: a Call that returned a response returned exactly what the
      peer's handler produced for that id, and the handler was given exactly that call. */
  lemma {:induction false} CallReturnsItsReply(acts: seq<Act>, id: nat)
    requires CanRun(NEW_WORLD, acts)
    requires var w := Run(NEW_WORLD, acts); id in w.c.results && w.c.results[id].Returned?
    ensures var w := Run(NEW_WORLD, acts);
            && id in w.c.issued && w.c.issued[id].Call?
            && id in w.s.received && w.s.received[id] == w.c.issued[id]
            && id in w.s.produced && w.s.produced[id] == Reply(w.c.results[id].data, [])
  {
    RunKeeps(NEW_WORLD, acts);
    assert ResultOk(Run(NEW_WORLD, acts), id);
  }

  /** The same for CallAsync, as far as it goes: a completion without error is the completion of
      that very call, whose handler was given it and left no error. */
  lemma {:induction false} AsyncCompletesItsCall(acts: seq<Act>, id: nat)
    requires CanRun(NEW_WORLD, acts)
    requires var w := Run(NEW_WORLD, acts); id in w.c.results && w.c.results[id].Completed?
    ensures var w := Run(NEW_WORLD, acts);
            && id in w.c.issued && w.c.issued[id].Async?
            && id in w.s.received && w.s.received[id] == w.c.issued[id]
            && id in w.s.produced && w.s.produced[id].err == []
  {
    RunKeeps(NEW_WORLD, acts);
    assert ResultOk(Run(NEW_WORLD, acts), id);
  }

  /** Publish confirmation: a Publish that is not at-most-once returned without error only
      if the peer's application acknowledged that very message without an error text. */
  lemma {:induction false} PublishIsConfirmed(acts: seq<Act>, id: nat)
    requires CanRun(NEW_WORLD, acts)
    requires var w := Run(NEW_WORLD, acts); id in w.c.results && w.c.results[id].Confirmed?
    ensures var w := Run(NEW_WORLD, acts);
            && id in w.c.issued && w.c.issued[id].Publish?
            && id in w.s.dones && id in w.s.received && w.s.received[id] == w.c.issued[id]
  {
    RunKeeps(NEW_WORLD, acts);
    assert ResultOk(Run(NEW_WORLD, acts), id);
  }

  /** The books of the serving side. */
  predicate Accounted(s: Callee) {
    && s.rpcCancels == (set id | id in s.received && IsRpc(s.received[id]) && Times(s.cancelled, id) == 0)
    && (forall id :: id in s.received && IsRpc(s.received[id]) ==>
          && id in s.pc && Times(s.cancelled, id) <= 1
          && (HandlerGone(s.pc[id]) ==> Times(s.cancelled, id) == 1)
          && Times(s.attempts, id) == if s.pc[id] == Responded then 1 else 0)
    && ((forall id :: id in s.pc ==> HandlerGone(s.pc[id])) ==> s.rpcCancels == {})
  }

  lemma {:induction false} CalleeAccounts(s: Callee)
    requires CalleeOk(s)
    ensures Accounted(s)
  {
    assert forall id :: id in s.pc ==> RequestOk(s, id);
  }

  /** In-flight accounting: a request is in `rpcCancels` exactly while its cancel function has
      not run, the function runs exactly once for a request past its handler's release and
      never twice for any, a request that is over has tried to respond once and no other has,
      and the map is empty as soon as no handler is running. */
  lemma {:induction false} InFlightAccounting(acts: seq<Act>)
    requires CanRun(NEW_WORLD, acts)
    ensures Accounted(Run(NEW_WORLD, acts).s)
  {
    RunKeeps(NEW_WORLD, acts);
    CalleeAccounts(Run(NEW_WORLD, acts).s);
  }

  lemma {:induction false} ActFinal(w: World, a: Act, id: nat)
    requires Inv(w) && Can(w, a) && id in w.c.results
    ensures var c := Do(w, a).c; id in c.results && c.results[id] == w.c.results[id]
  {
    assert ResultOk(w, id);
    assert id in w.c.waiters ==> WaiterOk(w, id);
  }

  /** A result is final: after a timeout, a cancellation or a reply, no late response, ack or
      expiry changes what the user was told. */
  lemma {:induction false} ResultsAreFinal(w: World, acts: seq<Act>, id: nat)
    requires Inv(w) && CanRun(w, acts) && id in w.c.results
    ensures var c := Run(w, acts).c; id in c.results && c.results[id] == w.c.results[id]
    decreases |acts|
  {
    if acts != [] {
      ActFinal(w, acts[0], id);
      ActKeeps(w, acts[0]);
      ResultsAreFinal(Do(w, acts[0]), acts[1..], id);
    }
  }
}
