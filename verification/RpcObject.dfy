/** The serving side of a stream: its rpcCancels map as the handlers mutate it. Each critical
    section is proved to be a step of the exchange protocol and to keep its books. */
module RpcObject {
  import opened Options
  import opened Exchange

  /** A hijacking handler takes every call, or those that match its pattern, or those that do
      not. */
  datatype Hijack = Hijack(pattern: Option<Text -> bool>, wanted: bool)

  predicate Catches(h: Option<Hijack>, rpc: Text) {
    h.Some? && (h.value.pattern.None? || h.value.pattern.value(rpc) == h.value.wanted)
  }

  class StreamRpc {
    var rpcCancels: map<nat, nat>          // request id to its cancel function
    var localRPCs: set<Text>
    var hijackRPC: Option<Hijack>
    ghost var received: map<nat, Job>
    ghost var pc: map<nat, Pc>
    ghost var cancelled: map<nat, nat>     // how often each cancel function ran
    ghost var attempts: map<nat, nat>
    ghost var produced: map<nat, Reply>
    ghost var dones: set<nat>

    ghost function View(): Callee
      reads this
    {
      Callee(received, rpcCancels.Keys, pc, cancelled, attempts, produced, dones)
    }

    ghost predicate Keyed()
      reads this
    {
      forall id :: id in rpcCancels ==> rpcCancels[id] == id
    }

    ghost predicate Valid()
      reads this
    {
      Keyed() && CalleeOk(View())
    }

    constructor ()
      ensures Valid() && View() == NEW_WORLD.s
    {
      rpcCancels, localRPCs, hijackRPC := map[], {}, None;
      received, pc, cancelled, attempts, produced, dones := map[], map[], map[], map[], map[], {};
    }

    predicate Found(rpc: Text)
      reads this
    {
      Catches(hijackRPC, rpc) || rpc in localRPCs
    }

    /** Delete the entry and run what it held, if there is one. */
    method CancelEntry(id: nat) returns (ran: bool)
      requires Keyed()
      modifies `rpcCancels, `cancelled
      ensures Keyed() && View() == Cancel(old(View()), id) && ran == (id in old(rpcCancels))
      ensures rpcCancels == old(rpcCancels) - {id}
    {
      ran := id in rpcCancels;
      if ran {
        rpcCancels := rpcCancels - {id};
        cancelled := Bump(cancelled, id);
      }
    }

    method TakeRequest(id: nat, job: Job) returns (answered: bool)
      requires Keyed() && IsRpc(job)
      modifies `rpcCancels, `received, `pc, `cancelled, `attempts
      ensures Keyed() && answered == !Found(job.rpc)
      ensures View() == HandleInRequest(old(View()), id, job, !answered)
    {
      rpcCancels := rpcCancels[id := id];
      received, pc := received[id := job], pc[id := Running];
      if Catches(hijackRPC, job.rpc) {
        return false;
      }
      if job.rpc in localRPCs {
        return false;
      }
      var _ := CancelEntry(id);
      pc, attempts := pc[id := Responded], Bump(attempts, id);
      return true;
    }

    /** handleInRequestPacket up to the handler's goroutine; `answered` is that neither the
        hijacker nor a registered handler took the call and the caller was told so. The books are
        kept for an id that was not seen before. */
    method HandleInRequestPacket(id: nat, job: Job) returns (answered: bool)
      requires Keyed() && IsRpc(job)
      modifies `rpcCancels, `received, `pc, `cancelled, `attempts
      ensures Keyed() && answered == !Found(job.rpc)
      ensures job.rpc in localRPCs ==> !answered
      ensures hijackRPC.None? && job.rpc !in localRPCs ==> answered
      ensures hijackRPC.Some? && hijackRPC.value.pattern.None? ==> !answered
      ensures hijackRPC.Some? && hijackRPC.value.pattern.Some? && job.rpc !in localRPCs ==>
                (answered <==> if hijackRPC.value.wanted then !hijackRPC.value.pattern.value(job.rpc)
                               else hijackRPC.value.pattern.value(job.rpc))
      ensures View() == HandleInRequest(old(View()), id, job, !answered)
      ensures rpcCancels.Keys - {id} == old(rpcCancels.Keys) - {id} && (id in rpcCancels <==> !answered)
      ensures old(Valid()) && id !in old(received) ==>
                && Valid() && id !in old(rpcCancels)
                && (answered ==> Times(cancelled, id) == 1 && Times(attempts, id) == 1)
    {
      ghost var s := View();
      if CalleeOk(s) && id !in s.received {
        RequestBooked(s, id, job, Found(job.rpc));
      }
      RequestEntry(s, id, job, Found(job.rpc));
      answered := TakeRequest(id, job);
      assert View() == HandleInRequest(s, id, job, !answered);
    }

    /** handleInRequestCancelPacket, for an id that is known or not. */
    method HandleInRequestCancelPacket(id: nat)
      requires Keyed()
      modifies `rpcCancels, `cancelled
      ensures Keyed() && View() == Cancel(old(View()), id) && rpcCancels == old(rpcCancels) - {id}
      ensures old(Valid()) ==> Valid()
    {
      if CalleeOk(View()) {
        CancelKeeps(View(), id);
      }
      var _ := CancelEntry(id);
    }

    /** The handler of `id` comes back, or its panic is turned into an error. */
    method HandlerReturned(id: nat, reply: Reply)
      requires Keyed() && id in pc && pc[id] == Running
      modifies `pc, `produced
      ensures Keyed() && View() == AfterHandler(old(View()), id, reply)
      ensures id in pc && pc[id] == Handled && id in produced && produced[id] == reply
      ensures old(Valid()) ==> Valid()
    {
      if CalleeOk(View()) {
        ReturnBooked(View(), id, reply);
      }
      pc, produced := pc[id := Handled], produced[id := reply];
    }

    method Release(id: nat)
      requires Keyed()
      modifies `rpcCancels, `cancelled, `pc, `attempts
      ensures Keyed() && View() == Over(Cancel(old(View()), id), id)
      ensures rpcCancels == old(rpcCancels) - {id}
    {
      var _ := CancelEntry(id);
      pc, attempts := pc[id := Responded], Bump(attempts, id);
    }

    /** The part of doRPC that follows the handler: release the context, then one attempt to
        send what the handler left. */
    method FinishRPC(id: nat, reply: Reply) returns (response: Back)
      requires Keyed() && id in pc && pc[id] == Handled && id in produced && produced[id] == reply
      modifies `rpcCancels, `cancelled, `pc, `attempts
      ensures Keyed() && View() == Over(Cancel(old(View()), id), id) && response == Response(id, reply)
      ensures rpcCancels == old(rpcCancels) - {id}
      ensures old(Valid()) ==> Valid() && Times(cancelled, id) == 1 && Times(attempts, id) == 1
    {
      ghost var s := View();
      if CalleeOk(s) {
        FinishBooked(s, id);
      }
      Release(id);
      assert View() == Over(Cancel(s, id), id);
      response := Response(id, reply);
    }

    // What of it matters to the request itself
    method Admit(id: nat, job: Job) returns (answered: bool)
      requires Keyed() && IsRpc(job)
      modifies `rpcCancels, `received, `pc, `cancelled, `attempts
      ensures Keyed() && answered == !Found(job.rpc)
      ensures rpcCancels.Keys - {id} == old(rpcCancels.Keys) - {id} && (answered ==> id !in rpcCancels)
      ensures !answered ==> id in pc && pc[id] == Running
      ensures old(Valid()) && id !in old(received) ==>
                && Valid() && id !in old(rpcCancels)
                && (answered ==> Times(cancelled, id) == 1 && Times(attempts, id) == 1)
    {
      answered := HandleInRequestPacket(id, job);
    }

    method Complete(id: nat, reply: Reply, cancel: bool) returns (response: Back)
      requires Keyed() && id in pc && pc[id] == Running
      modifies `rpcCancels, `pc, `cancelled, `attempts, `produced
      ensures Keyed() && rpcCancels.Keys == old(rpcCancels.Keys) - {id}
      ensures response == Response(id, reply)
      ensures old(Valid()) ==> Valid() && Times(cancelled, id) == 1 && Times(attempts, id) == 1
    {
      if cancel {
        HandleInRequestCancelPacket(id);
      }
      HandlerReturned(id, reply);
      response := FinishRPC(id, reply);
    }

    /** A request from its arrival to its response, cancelled on the way or not: it is answered
        once, by what its handler left or by the error that there is none, and its entry is gone.
        For an id that was not seen before its cancel function has run once, one response was
        tried, and the requests in flight are the ones that were. */
    method Serve(id: nat, job: Job, reply: Reply, cancel: bool) returns (response: Back)
      requires Keyed() && IsRpc(job)
      modifies `rpcCancels, `received, `pc, `cancelled, `attempts, `produced
      ensures Keyed() && rpcCancels.Keys == old(rpcCancels.Keys) - {id}
      ensures response == Response(id, if Found(job.rpc) then reply else Reply([], NO_SUCH_RPC))
      ensures old(Valid()) && id !in old(received) ==>
                && Valid() && rpcCancels.Keys == old(rpcCancels.Keys)
                && Times(cancelled, id) == 1 && Times(attempts, id) == 1
    {
      var answered := Admit(id, job);
      if answered {
        response := Response(id, Reply([], NO_SUCH_RPC));
      } else {
        response := Complete(id, reply, cancel);
      }
    }
  }

  /** The books of the object, at every moment its mutex is free. */
  lemma {:induction false} ObjectAccounted(o: StreamRpc)
    requires o.Valid()
    ensures Accounted(o.View())
  {
    CalleeAccounts(o.View());
  }

  lemma {:induction false} NotInFlight(s: Callee, id: nat)
    requires CalleeOk(s) && id !in s.received
    ensures id !in s.rpcCancels && id !in s.pc && Times(s.cancelled, id) == 0 && Times(s.attempts, id) == 0
  {
    assert id in s.pc ==> RequestOk(s, id);
  }

  lemma {:induction false} RequestEntry(s: Callee, id: nat, job: Job, found: bool)
    ensures var t := HandleInRequest(s, id, job, found);
            t.rpcCancels - {id} == s.rpcCancels - {id} && (id in t.rpcCancels <==> found)
            && (found ==> id in t.pc && t.pc[id] == Running)
  {
  }

  lemma {:induction false} RequestCounts(s: Callee, id: nat, job: Job, found: bool)
    requires id !in s.rpcCancels && Times(s.cancelled, id) == 0 && Times(s.attempts, id) == 0
    ensures var t := HandleInRequest(s, id, job, found);
            && t.rpcCancels - {id} == s.rpcCancels && (id in t.rpcCancels <==> found)
            && (!found ==> Times(t.cancelled, id) == 1 && Times(t.attempts, id) == 1)
  {
    assert s.rpcCancels + {id} - {id} == s.rpcCancels;
  }

  lemma {:induction false} RequestBooked(s: Callee, id: nat, job: Job, found: bool)
    requires CalleeOk(s) && id !in s.received && IsRpc(job)
    ensures var t := HandleInRequest(s, id, job, found);
            && CalleeOk(t)
            && t.rpcCancels - {id} == s.rpcCancels && (id in t.rpcCancels <==> found)
            && (!found ==> Times(t.cancelled, id) == 1 && Times(t.attempts, id) == 1)
  {
    NotInFlight(s, id);
    RequestKeeps(s, id, job, found);
    RequestCounts(s, id, job, found);
  }

  function AfterHandler(s: Callee, id: nat, reply: Reply): Callee {
    s.(pc := s.pc[id := Handled], produced := s.produced[id := reply])
  }

  lemma {:induction false} ReturnBooked(s: Callee, id: nat, reply: Reply)
    requires CalleeOk(s) && id in s.pc && s.pc[id] == Running
    ensures CalleeOk(AfterHandler(s, id, reply))
  {
    assert RequestOk(s, id);
    MoveKeeps(s, AfterHandler(s, id, reply), id);
  }

  lemma {:induction false} FinishBooked(s: Callee, id: nat)
    requires CalleeOk(s) && id in s.pc && s.pc[id] == Handled
    ensures var t := Over(Cancel(s, id), id);
            CalleeOk(t) && Times(t.cancelled, id) == 1 && Times(t.attempts, id) == 1
  {
    AnswerKeeps(s, id);
    assert RequestOk(Over(Cancel(s, id), id), id);
  }
}
