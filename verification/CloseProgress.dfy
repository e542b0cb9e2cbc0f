/** Completion of the close protocol: without its timers, and under every scheduling. */
module CloseProgress {
  import opened Handshake
  import opened CloseProtocol
  import opened CloseSafety

  /** Work left at an endpoint: a packet weighs less the closer it is to the peer's handler,
      and a peer's close packet not yet received still has to spawn two goroutines. */
  function Work(x: End): (n: nat) {
    |x.readIn| + 2 * |x.net| + 3 * |x.writeOut| + 4 * |x.writeIn|
    + 5 * (x.pendDismiss + x.pendAck + |x.app.queue|) + 6 * x.pendClose
    + (if x.facts.recv then 0 else 12) + (if x.app.drained then 0 else 6)
  }

  function TotalWork(s: Sys): (n: nat) {
    Work(s.a) + Work(s.b)
  }

  lemma {:induction false} OutDismissAdds(x: End)
    ensures Work(OutDismiss(x)) <= Work(x) + 3
  {
  }

  lemma {:induction false} OutAckAdds(x: End)
    ensures Work(OutAck(x)) <= Work(x) + 3
  {
    if NextPhase(x.phase, CloseAck).Some? {
      assert OutAck(x).app == x.app && OutAck(x).facts.recv == x.facts.recv;
    }
  }

  lemma {:induction false} InDismissAdds(x: End)
    requires !x.facts.recv
    ensures Work(InDismiss(x)) <= Work(x)
  {
    if NextPhase(x.phase, CloseRecv).Some? {
      assert InDismiss(x).app == x.app && InDismiss(x).facts.recv;
    }
  }

  lemma {:induction false} InAckAdds(x: End)
    ensures Work(InAck(x)) == Work(x)
  {
    if NextPhase(x.phase, CloseAck).Some? {
      assert InAck(x).app == x.app && InAck(x).facts.recv == x.facts.recv;
    }
  }

  lemma {:induction false} OutWorks(x: End)
    requires x.writeIn != []
    ensures Work(HandleOut(x)) < Work(x)
  {
    var r := x.(writeIn := x.writeIn[1..]);
    assert Work(r) == Work(x) - 4;
    match x.writeIn[0]
    case Data(_) =>
    case Dismiss => OutDismissAdds(r);
    case Ack => OutAckAdds(r);
  }

  lemma {:induction false} InWorks(x: End)
    requires x.readIn != [] && (x.readIn[0] == Dismiss ==> !x.facts.recv)
    ensures Work(HandleIn(x)) < Work(x)
  {
    var r := x.(readIn := x.readIn[1..]);
    assert Work(r) == Work(x) - 1;
    match x.readIn[0]
    case Data(_) =>
    case Dismiss => InDismissAdds(r);
    case Ack => InAckAdds(r);
  }

  lemma {:induction false} ActWorks(x: End, y: End, c: Act)
    requires Can(x, y, c) && Internal(c) && !c.Eof?
    requires c.In? && x.readIn[0] == Dismiss ==> !x.facts.recv
    ensures Work(Do(x, y, c)) + Work(Peer(y, c)) < Work(x) + Work(y)
  {
    match c
    case In => InWorks(x);
    case Out => OutWorks(x);
    case _ =>
  }

  lemma {:induction false} OneDismissOnly(x: End, y: End, c: Act)
    requires Both(x, y) && Can(x, y, c)
    ensures !c.Eof?
    ensures c.In? && x.readIn[0] == Dismiss ==> !x.facts.recv
  {
    NeverEof(x, y);
  }

  lemma {:induction false} StepWorks(s: Sys, l: Label)
    requires Inv(s) && CanStep(s, l) && Internal(l.act)
    ensures TotalWork(Step(s, l)) < TotalWork(s)
  {
    if l.left {
      OneDismissOnly(s.a, s.b, l.act);
      ActWorks(s.a, s.b, l.act);
    } else {
      OneDismissOnly(s.b, s.a, l.act);
      ActWorks(s.b, s.a, l.act);
    }
  }

  /** A dialogue or connection is being closed: its Close was called or is about to be. */
  predicate Started(x: End) {
    x.once || x.pendClose > 0
  }

  /** Closing has begun: that, or the stream above was closed and will drain. */
  predicate Closing(x: End) {
    Started(x) || x.app.closing
  }

  /** No goroutine of the endpoint `x` can move. */
  ghost predicate Idle(x: End, y: End) {
    forall c :: Protocol(c) ==> !Can(x, y, c)
  }

  lemma {:induction false} IdleEnd(x: End, y: End)
    requires Both(x, y) && Idle(x, y)
    ensures y.net == [] && x.pendClose == 0
    ensures !x.fin ==> x.writeIn == [] && x.readIn == [] && x.writeOut == []
                       && x.pendDismiss == 0 && x.pendAck == 0
    ensures x.kind == Dialogue ==> x.writeOut == []
  {
    assert !Can(x, y, Arrive) && !Can(x, y, RunClose) && !Can(x, y, Flush);
    assert !Can(x, y, Out) && !Can(x, y, In) && !Can(x, y, PutDismiss) && !Can(x, y, PutAck);
  }

  /** With nothing in flight, what one side did the other has seen. */
  lemma {:induction false} IdleLink(x: End, y: End)
    requires Both(x, y) && Idle(x, y) && Idle(y, x)
    ensures x.facts.sent ==> y.facts.recv
    ensures x.facts.ackOut ==> y.facts.ackIn
    ensures Started(x) ==> x.facts.sent
    ensures x.facts.recv ==> x.facts.ackOut && x.once
  {
    IdleEnd(x, y);
    IdleEnd(y, x);
    InvCausal(x, y);
  }

  lemma {:induction false} IdleMeansFinished(x: End, y: End)
    requires Both(x, y) && Idle(x, y) && Idle(y, x) && (Started(x) || Started(y))
    ensures x.fin && y.fin
  {
    IdleLink(x, y);
    IdleLink(y, x);
  }

  /** No goroutine at all can move. */
  ghost predicate Quiet(s: Sys) {
    forall c: Act :: Internal(c) ==> !Can(s.a, s.b, c) && !Can(s.b, s.a, c)
  }

  /** No deadlock: once closing has begun anywhere, a state in which no goroutine can move
      is one in which both endpoints have ended. */
  lemma {:induction false} StuckMeansFinished(s: Sys)
    requires Inv(s) && (Closing(s.a) || Closing(s.b)) && Quiet(s)
    ensures s.a.fin && s.b.fin
  {
    assert !Can(s.a, s.b, Move) && !Can(s.a, s.b, Drain);
    assert !Can(s.b, s.a, Move) && !Can(s.b, s.a, Drain);
    IdleMeansFinished(s.a, s.b);
  }

  predicate AllInternal(ls: seq<Label>) {
    forall i :: 0 <= i < |ls| ==> Internal(ls[i].act)
  }

  /** No livelock: the goroutines alone can take no more steps than the work at hand. */
  lemma {:induction false} RunIsBounded(s: Sys, ls: seq<Label>)
    requires Inv(s) && CanRun(s, ls) && AllInternal(ls)
    ensures |ls| + TotalWork(Run(s, ls)) <= TotalWork(s)
    decreases |ls|
  {
    if ls != [] {
      StepWorks(s, ls[0]);
      StepKeeps(s, ls[0]);
      RunIsBounded(Step(s, ls[0]), ls[1..]);
    }
  }

  lemma {:induction false} ClosingStays(x: End, y: End, c: Act)
    requires Can(x, y, c)
    ensures Closing(x) ==> Closing(Do(x, y, c))
    ensures Closing(y) ==> Closing(Peer(y, c))
  {
  }

  lemma {:induction false} RunStaysClosing(s: Sys, ls: seq<Label>)
    requires CanRun(s, ls) && (Closing(s.a) || Closing(s.b))
    ensures var t := Run(s, ls); Closing(t.a) || Closing(t.b)
    decreases |ls|
  {
    if ls != [] {
      if ls[0].left {
        ClosingStays(s.a, s.b, ls[0].act);
      } else {
        ClosingStays(s.b, s.a, ls[0].act);
      }
      RunStaysClosing(Step(s, ls[0]), ls[1..]);
    }
  }

  /** Dismiss completion. Take any reachable state in which closing has begun, and let the
      goroutines run in any order until none can move: they do stop, within TotalWork(s)
      steps, and when they stop both endpoints have ended. No timer is involved. */
  lemma {:induction false} CloseCompletes(s: Sys, ls: seq<Label>)
    requires Inv(s) && (Closing(s.a) || Closing(s.b))
    requires CanRun(s, ls) && AllInternal(ls)
    ensures |ls| <= TotalWork(s)
    ensures Quiet(Run(s, ls)) ==> Run(s, ls).a.fin && Run(s, ls).b.fin
  {
    RunIsBounded(s, ls);
    RunKeeps(s, ls);
    RunStaysClosing(s, ls);
    var t := Run(s, ls);
    if Quiet(t) {
      StuckMeansFinished(t);
    }
  }
}
