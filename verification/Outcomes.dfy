/** What reaches the user: every reply, acknowledgement, expiry and cancellation of the exchange
    protocol seen from the call or publish it belongs to. */
module Outcomes {
  import opened Exchange

  /** What the user of `job` is told when the peer answers `data` with this error text. */
  function Told(job: Job, data: Text, err: Text): (r: Result) {
    if err != [] then Error(err)
    else match job
      case Call(_, _) => Returned(data)
      case Async(_, _) => Completed
      case Publish(_) => Confirmed
      case Once(_) => Sent
  }

  // A run of several acts

  lemma {:induction false} RunSnoc(w: World, acts: seq<Act>, v: World, a: Act) returns (more: seq<Act>)
    requires CanRun(w, acts) && Run(w, acts) == v && Can(v, a)
    ensures CanRun(w, more) && Run(w, more) == Do(v, a)
    decreases |acts|
  {
    if acts == [] {
      more := [a];
    } else {
      var rest := RunSnoc(Do(w, acts[0]), acts[1..], v, a);
      more := [acts[0]] + rest;
      assert more[1..] == rest;
    }
  }

  // Answers

  /** A waiter whose answer has come is finished with it. */
  lemma {:induction false} Finished(w: World, id: nat)
    requires Inv(w) && id in w.c.waiters && w.c.waiters[id].Resolved?
    ensures Can(w, Finish(id)) && id in w.c.issued
    ensures var c, ev, job := Do(w, Finish(id)).c, w.c.waiters[id].ev, w.c.issued[id];
            && id in c.results && id !in c.waiters
            && c.results[id] == if ev.Fault? then Error(ev.err) else Told(job, ev.data, [])
  {
    assert WaiterOk(w, id);
  }

  /** A response in flight and a call that waits for it: taken and finished, it tells the user what
      the handler left. A Call gets the very data, a CallAsync its completion, and an error text is
      the error of either. */
  lemma {:induction false} ResponseReachesUser(w: World, id: nat, reply: Reply)
    requires Inv(w) && Response(id, reply) in w.back && id in w.c.waiters && w.c.waiters[id] == Pending
    ensures var a := TakeResponse(Response(id, reply));
            && Can(w, a) && Can(Do(w, a), Finish(id)) && id in w.c.issued && IsRpc(w.c.issued[id])
            && (var c := Do(Do(w, a), Finish(id)).c;
                id in c.results && c.results[id] == Told(w.c.issued[id], reply.data, reply.err))
  {
    var a := TakeResponse(Response(id, reply));
    ActKeeps(w, a);
    assert BackOk(w, Response(id, reply)) && WaiterOk(w, id);
    Finished(Do(w, a), id);
  }

  /** So does an acknowledgement: a Publish is confirmed, or fails with the error text. */
  lemma {:induction false} AckReachesUser(w: World, id: nat, err: Text)
    requires Inv(w) && MessageAck(id, err) in w.back && id in w.c.waiters && w.c.waiters[id] == Pending
    ensures var a := TakeMessageAck(MessageAck(id, err));
            && Can(w, a) && Can(Do(w, a), Finish(id)) && id in w.c.issued && w.c.issued[id].Publish?
            && (var c := Do(Do(w, a), Finish(id)).c;
                id in c.results && c.results[id] == if err == [] then Confirmed else Error(err))
  {
    var a := TakeMessageAck(MessageAck(id, err));
    ActKeeps(w, a);
    assert BackOk(w, MessageAck(id, err)) && WaiterOk(w, id);
    Finished(Do(w, a), id);
  }

  /** A timeout reaches the user as the error it is. */
  lemma {:induction false} ExpiryReachesUser(w: World, id: nat, err: Text)
    requires Inv(w) && id in w.c.waiters && w.c.waiters[id] == Pending
    ensures Can(w, Expire(id, err)) && Can(Do(w, Expire(id, err)), Finish(id))
    ensures var c := Do(Do(w, Expire(id, err)), Finish(id)).c; id in c.results && c.results[id] == Error(err)
  {
    ActKeeps(w, Expire(id, err));
    Finished(Do(w, Expire(id, err)), id);
  }

  /** An answer to nobody, or to somebody who has one already, changes nothing at the caller; an
      answer in time changes its own waiter only. */
  lemma {:induction false} AnswerTouchesOne(w: World, a: Act)
    requires Can(w, a) && (a.TakeResponse? || a.TakeMessageAck?)
    ensures var c, id := Do(w, a).c, a.b.id;
            && c.issued == w.c.issued && c.results == w.c.results && c.waiters.Keys == w.c.waiters.Keys
            && (forall k :: k in w.c.waiters && k != id ==> c.waiters[k] == w.c.waiters[k])
            && (c != w.c <==> id in w.c.waiters && w.c.waiters[id] == Pending)
    ensures Do(w, a).forth == w.forth && w.back == Do(w, a).back + multiset{a.b}
  {
  }

  // Cancellation

  /** A Call that is given up fails at once and nobody waits for it any more; unless a deadline
      passed, the peer is told. */
  lemma {:induction false} GivenUp(w: World, id: nat, err: Text, tell: bool)
    requires Inv(w) && id in w.c.waiters && id in w.c.issued && w.c.issued[id].Call?
    ensures Can(w, GiveUp(id, err, tell))
    ensures var v := Do(w, GiveUp(id, err, tell));
            && id in v.c.results && v.c.results[id] == Error(err) && id !in v.c.waiters
            && v.forth == if tell then w.forth + multiset{RequestCancel(id)} else w.forth
  {
  }

  /** The peer that is told cancels that request, if it is in flight, and no other. */
  lemma {:induction false} CancelTouchesOne(w: World, id: nat)
    requires Inv(w) && RequestCancel(id) in w.forth
    ensures Can(w, TakeCancel(RequestCancel(id)))
    ensures var s := Do(w, TakeCancel(RequestCancel(id))).s;
            && s.rpcCancels == w.s.rpcCancels - {id}
            && Times(s.cancelled, id) == Times(w.s.cancelled, id) + (if id in w.s.rpcCancels then 1 else 0)
            && (forall k :: k != id ==> Times(s.cancelled, k) == Times(w.s.cancelled, k))
            && s == w.s.(rpcCancels := s.rpcCancels, cancelled := s.cancelled)
    ensures w.forth == Do(w, TakeCancel(RequestCancel(id))).forth + multiset{RequestCancel(id)}
  {
  }

  // From the request to the result

  /** What issuing a job does: it is waited for and its packet is on the way, but a publish that is
      at most once is over. */
  lemma {:induction false} Issued(w: World, id: nat, job: Job)
    requires Inv(w) && id !in w.c.issued
    ensures Can(w, Issue(id, job))
    ensures var v := Do(w, Issue(id, job));
            && Inv(v) && id in v.c.issued && v.c.issued[id] == job && v.s == w.s
            && (if IsRpc(job) then Request(id, job) in v.forth else Message(id, job) in v.forth)
            && (if job.Once? then id in v.c.results && v.c.results[id] == Sent && id !in v.c.waiters
                else id in v.c.waiters && v.c.waiters[id] == Pending)
  {
    ActKeeps(w, Issue(id, job));
    assert id in w.c.waiters ==> WaiterOk(w, id);
  }

  /** The callee serves a request it has taken, and the caller does not move meanwhile. */
  lemma {:induction false} Served(w: World, id: nat, reply: Reply) returns (acts: seq<Act>)
    requires Inv(w) && id in w.s.pc && w.s.pc[id] == Running
    ensures CanRun(w, acts) && Inv(Run(w, acts))
    ensures Run(w, acts).c == w.c && Response(id, reply) in Run(w, acts).back
  {
    var w1 := Do(w, Handle(id, reply));
    var w2 := Do(w1, Release(id));
    assert w2.s.pc[id] == Released && id in w2.s.produced && w2.s.produced[id] == reply;
    acts := RunSnoc(w, [], w, Handle(id, reply));
    acts := RunSnoc(w, acts, w1, Release(id));
    acts := RunSnoc(w, acts, w2, Respond(id, true));
    RunKeeps(w, acts);
  }

  /** In any state, for any call and whatever its handler leaves: a run from the call to the user
      being told. Without a handler the error says so. */
  lemma {:induction false} CallRuns(w: World, id: nat, job: Job, found: bool, reply: Reply) returns (acts: seq<Act>)
    requires Inv(w) && id !in w.c.issued && IsRpc(job)
    ensures CanRun(w, acts)
    ensures var c := Run(w, acts).c;
            id in c.results
            && c.results[id] == if found then Told(job, reply.data, reply.err) else Error(NO_SUCH_RPC)
  {
    Issued(w, id, job);
    acts := RunSnoc(w, [], w, Issue(id, job));
    var w1 := Do(w, Issue(id, job));
    var take := TakeRequest(Request(id, job), found);
    acts := RunSnoc(w, acts, w1, take);
    ActKeeps(w1, take);
    var v := Do(w1, take);
    var answer := reply;
    if found {
      var more := Served(v, id, reply);
      acts := RunMore(w, acts, v, more);
      v := Run(v, more);
    } else {
      answer := Reply([], NO_SUCH_RPC);
    }
    ResponseReachesUser(v, id, answer);
    acts := RunSnoc(w, acts, v, TakeResponse(Response(id, answer)));
    acts := RunSnoc(w, acts, Do(v, TakeResponse(Response(id, answer))), Finish(id));
  }

  /** The same for a Publish, whatever the application says to it. */
  lemma {:induction false} PublishRuns(w: World, id: nat, data: Text, err: Text) returns (acts: seq<Act>)
    requires Inv(w) && id !in w.c.issued
    ensures CanRun(w, acts)
    ensures var c := Run(w, acts).c;
            id in c.results && c.results[id] == if err == [] then Confirmed else Error(err)
  {
    var job := Publish(data);
    Issued(w, id, job);
    acts := RunSnoc(w, [], w, Issue(id, job));
    var w1 := Do(w, Issue(id, job));
    acts := RunSnoc(w, acts, w1, TakeMessage(Message(id, job)));
    var w2 := Do(w1, TakeMessage(Message(id, job)));
    acts := RunSnoc(w, acts, w2, AppAck(id, err));
    var v := Do(w2, AppAck(id, err));
    RunKeeps(w, acts);
    AckReachesUser(v, id, err);
    acts := RunSnoc(w, acts, v, TakeMessageAck(MessageAck(id, err)));
    acts := RunSnoc(w, acts, Do(v, TakeMessageAck(MessageAck(id, err))), Finish(id));
  }

  lemma {:induction false} RunMore(w: World, acts: seq<Act>, v: World, more: seq<Act>) returns (all: seq<Act>)
    requires CanRun(w, acts) && Run(w, acts) == v && CanRun(v, more)
    ensures CanRun(w, all) && Run(w, all) == Run(v, more)
    decreases |acts|
  {
    if acts == [] {
      all := more;
    } else {
      var rest := RunMore(Do(w, acts[0]), acts[1..], v, more);
      all := [acts[0]] + rest;
      assert all[1..] == rest;
    }
  }

  lemma {:induction false} NewWorldOk()
    ensures Inv(NEW_WORLD)
  {
  }

  /** From the very start: any call, any reply of its handler, and the user is told exactly that. */
  lemma {:induction false} FirstCallRuns(id: nat, job: Job, reply: Reply) returns (acts: seq<Act>)
    requires IsRpc(job)
    ensures CanRun(NEW_WORLD, acts)
    ensures var c := Run(NEW_WORLD, acts).c;
            && id in c.results
            && (reply.err != [] ==> c.results[id] == Error(reply.err))
            && (reply.err == [] && job.Call? ==> c.results[id] == Returned(reply.data))
            && (reply.err == [] && job.Async? ==> c.results[id] == Completed)
  {
    NewWorldOk();
    acts := CallRuns(NEW_WORLD, id, job, true, reply);
  }

  // The history is true: what counts as acknowledged, left by a handler or received became so by the
  // act that does it, with exactly that content

  /** Acts that leave the history alone. */
  lemma {:induction false} HistoryStays(w: World, a: Act)
    requires Can(w, a) && !a.Handle? && !a.AppAck? && !a.TakeRequest? && !a.TakeMessage?
    ensures var s := Do(w, a).s; s.produced == w.s.produced && s.received == w.s.received && s.dones == w.s.dones
  {
    if !a.TakeCancel? && !a.Release? && !a.Respond? {
      CallerLeavesCallee(w, a);
    }
  }

  lemma {:induction false} CallerLeavesCallee(w: World, a: Act)
    requires Can(w, a)
    requires a.Issue? || a.Expire? || a.Finish? || a.GiveUp? || a.TakeResponse? || a.TakeMessageAck?
    ensures Do(w, a).s == w.s
  {
  }

  lemma {:induction false} DonesAreTrue(w: World, a: Act, id: nat)
    requires Can(w, a) && id !in w.s.dones
    ensures id in Do(w, a).s.dones <==> a == AppAck(id, [])
  {
  }

  lemma {:induction false} ProducedIsTrue(w: World, a: Act, id: nat, reply: Reply)
    requires Can(w, a) && id !in w.s.produced
    ensures id in Do(w, a).s.produced && Do(w, a).s.produced[id] == reply <==> a == Handle(id, reply)
  {
    if !a.Handle? && !a.AppAck? && !a.TakeRequest? && !a.TakeMessage? {
      HistoryStays(w, a);
    }
  }

  lemma {:induction false} ReceivedIsTrue(w: World, a: Act, id: nat, job: Job)
    requires Can(w, a) && id !in w.s.received
    ensures id in Do(w, a).s.received && Do(w, a).s.received[id] == job
            <==> (a.TakeRequest? && a.p == Request(id, job)) || (a.TakeMessage? && a.p == Message(id, job))
  {
    if a.TakeRequest? {
      RequestReceived(w.s, a.p.id, a.p.job, a.found);
    } else if !a.Handle? && !a.AppAck? && !a.TakeMessage? {
      HistoryStays(w, a);
    }
  }

  lemma {:induction false} RequestReceived(s: Callee, id: nat, job: Job, found: bool)
    ensures HandleInRequest(s, id, job, found).received == s.received[id := job]
  {
  }

  // One answer to a request

  /** A response in flight is the only one for its request, which is over. */
  predicate OnlyAnswer(w: World, b: Back) {
    b.Response? ==>
      && w.back[b] == 1 && b.id in w.s.pc && w.s.pc[b.id] == Responded
      && (forall c :: c in w.back && c.Response? && c.id == b.id ==> c == b)
  }

  predicate OnlyAnswers(w: World) {
    forall b :: b in w.back ==> OnlyAnswer(w, b)
  }

  /** The request is over and no response to it is in flight. */
  predicate Settled(w: World, id: nat) {
    && id in w.s.pc && w.s.pc[id] == Responded
    && (forall b :: b in w.back && b.Response? ==> b.id != id)
  }

  /** No act sends a response unless its request goes from waiting for one to over. */
  lemma {:induction false} BackGrows(w: World, a: Act, b: Back)
    requires Inv(w) && Can(w, a) && b.Response?
    ensures Do(w, a).back[b] <= w.back[b] + 1
    ensures Do(w, a).back[b] > w.back[b] ==>
              && (b.id in w.s.pc ==> w.s.pc[b.id] != Responded)
              && b.id in Do(w, a).s.pc && Do(w, a).s.pc[b.id] == Responded
              && b == Answer(w, a)
  {
    if a.TakeRequest? {
      assert ForthOk(w, a.p);
      assert a.p.id in w.s.pc ==> RequestOk(w.s, a.p.id);
    }
  }

  // The response that the act may send
  function Answer(w: World, a: Act): Back {
    match a
    case TakeRequest(p, _) => Response(p.id, Reply([], NO_SUCH_RPC))
    case Respond(id, _) => Response(id, if id in w.s.produced then w.s.produced[id] else Reply([], []))
    case _ => MessageAck(0, [])
  }

  lemma {:induction false} OverStays(w: World, a: Act, id: nat)
    requires Inv(w) && Can(w, a) && id in w.s.pc && w.s.pc[id] == Responded
    ensures id in Do(w, a).s.pc && Do(w, a).s.pc[id] == Responded
  {
    if a.Issue? || a.Expire? || a.Finish? || a.GiveUp? || a.TakeResponse? || a.TakeMessageAck? {
      CallerLeavesCallee(w, a);
    } else if a.TakeRequest? {
      assert ForthOk(w, a.p);
      assert RequestOk(w.s, id);
      RequestMovesOne(w.s, a.p.id, a.p.job, a.found);
    } else {
      CalleeMovesOn(w, a, id);
    }
  }

  lemma {:induction false} RequestMovesOne(s: Callee, id: nat, job: Job, found: bool)
    ensures var t := HandleInRequest(s, id, job, found);
            forall k :: k in s.pc && k != id ==> k in t.pc && t.pc[k] == s.pc[k]
  {
  }

  lemma {:induction false} CalleeMovesOn(w: World, a: Act, id: nat)
    requires Can(w, a) && id in w.s.pc && w.s.pc[id] == Responded
    requires a.TakeCancel? || a.Handle? || a.Release? || a.Respond? || a.TakeMessage? || a.AppAck?
    ensures id in Do(w, a).s.pc && Do(w, a).s.pc[id] == Responded
  {
  }

  lemma {:induction false} ActAnswers(w: World, a: Act)
    requires Inv(w) && OnlyAnswers(w) && Can(w, a)
    ensures OnlyAnswers(Do(w, a))
  {
    var v := Do(w, a);
    forall b | b in v.back && b.Response? ensures OnlyAnswer(v, b) {
      StillOnly(w, a, b);
    }
  }

  lemma {:induction false} StillOnly(w: World, a: Act, b: Back)
    requires Inv(w) && OnlyAnswers(w) && Can(w, a) && b in Do(w, a).back && b.Response?
    ensures OnlyAnswer(Do(w, a), b)
  {
    var v := Do(w, a);
    BackGrows(w, a, b);
    assert b in w.back ==> OnlyAnswer(w, b);
    if b in w.back {
      OverStays(w, a, b.id);
    }
    forall c | c in v.back && c.Response? && c.id == b.id ensures c == b {
      BackGrows(w, a, c);
      assert c in w.back ==> OnlyAnswer(w, c);
    }
  }

  lemma {:induction false} SettledStays(w: World, a: Act, id: nat)
    requires Inv(w) && Can(w, a) && Settled(w, id)
    ensures Settled(Do(w, a), id)
  {
    OverStays(w, a, id);
    forall b | b in Do(w, a).back && b.Response? ensures b.id != id {
      BackGrows(w, a, b);
    }
  }

  lemma {:induction false} RunAnswers(w: World, acts: seq<Act>)
    requires Inv(w) && OnlyAnswers(w) && CanRun(w, acts)
    ensures OnlyAnswers(Run(w, acts)) && Inv(Run(w, acts))
    decreases |acts|
  {
    if acts != [] {
      ActKeeps(w, acts[0]);
      ActAnswers(w, acts[0]);
      RunAnswers(Do(w, acts[0]), acts[1..]);
    }
  }

  lemma {:induction false} RunSettled(w: World, acts: seq<Act>, id: nat)
    requires Inv(w) && CanRun(w, acts) && Settled(w, id)
    ensures Settled(Run(w, acts), id)
    decreases |acts|
  {
    if acts != [] {
      ActKeeps(w, acts[0]);
      SettledStays(w, acts[0], id);
      RunSettled(Do(w, acts[0]), acts[1..], id);
    }
  }

  /** In every run a request has at most one response: there is never a second one in flight, and
      once it was taken there is none for ever. */
  lemma {:induction false} AnsweredOnce(before: seq<Act>, b: Back, after: seq<Act>)
    requires CanRun(NEW_WORLD, before)
    requires var w := Run(NEW_WORLD, before);
             b.Response? && Can(w, TakeResponse(b)) && CanRun(Do(w, TakeResponse(b)), after)
    ensures var w := Run(NEW_WORLD, before);
            && (forall c :: c in w.back && c.Response? && c.id == b.id ==> c == b) && w.back[b] == 1
            && (forall c :: c in Run(Do(w, TakeResponse(b)), after).back && c.Response? ==> c.id != b.id)
  {
    NewWorldOk();
    RunAnswers(NEW_WORLD, before);
    TakenAnswer(Run(NEW_WORLD, before), b, after);
  }

  lemma {:induction false} TakenAnswer(w: World, b: Back, after: seq<Act>)
    requires Inv(w) && OnlyAnswers(w) && Can(w, TakeResponse(b)) && CanRun(Do(w, TakeResponse(b)), after)
    ensures OnlyAnswer(w, b) && Settled(Run(Do(w, TakeResponse(b)), after), b.id)
  {
    var v := Do(w, TakeResponse(b));
    assert OnlyAnswer(w, b);
    forall c | c in v.back && c.Response? ensures c.id != b.id {
      assert c in w.back && OnlyAnswer(w, c);
    }
    ActKeeps(w, TakeResponse(b));
    RunSettled(v, after, b.id);
  }
}
