/** Safety of the close protocol: no close event is ever refused, and an endpoint ends
    exactly when its four facts hold. */
module CloseSafety {
  import opened Handshake
  import opened CloseProtocol

  function Count(s: seq<Pkt>, p: Pkt): (n: nat) {
    if s == [] then 0 else (if s[0] == p then 1 else 0) + Count(s[1..], p)
  }

  lemma {:induction false} CountAppend(s: seq<Pkt>, t: seq<Pkt>, p: Pkt)
    ensures Count(s + t, p) == Count(s, p) + Count(t, p)
  {
    if s == [] {
      assert s + t == t;
    } else {
      assert (s + t)[1..] == s[1..] + t;
      CountAppend(s[1..], t, p);
    }
  }

  lemma {:induction false} CountPush(s: seq<Pkt>, q: Pkt)
    ensures Count(s + [q], Dismiss) == Count(s, Dismiss) + (if q == Dismiss then 1 else 0)
    ensures Count(s + [q], Ack) == Count(s, Ack) + (if q == Ack then 1 else 0)
  {
    CountAppend(s, [q], Dismiss);
    CountAppend(s, [q], Ack);
  }

  function One(b: bool): nat { if b then 1 else 0 }

  /** What holds of one endpoint: its close packet and its acknowledgement exist once, as
      a spawned goroutine, on `writeIn`, or past the handler. */
  predicate Local(x: End) {
    && !x.bad
    && (x.fin <==> Done(x.facts))
    && (!x.fin ==> PhaseFits(x.phase, x.facts))
    && One(x.facts.sent) + Count(x.writeIn, Dismiss) + x.pendDismiss == One(x.once)
    && One(x.facts.ackOut) + Count(x.writeIn, Ack) + x.pendAck == One(x.facts.recv)
    && (x.facts.recv ==> x.once || x.pendClose > 0)
    && (x.app.drained ==> x.once)
    && (x.kind == Connection ==> Count(x.writeOut, Ack) == 0 && !x.app.closing && x.app.queue == [])
  }

  /** Packets from `x` to `y`: whatever the handler sent is in flight or was received. */
  predicate Link(x: End, y: End) {
    && Count(y.readIn, Dismiss) + Count(x.net, Dismiss) + Count(x.writeOut, Dismiss)
       + One(y.facts.recv) == One(x.facts.sent)
    && Count(y.readIn, Ack) + Count(x.net, Ack) + Count(x.writeOut, Ack)
       + One(y.facts.ackIn) == One(x.facts.ackOut)
  }

  predicate Both(x: End, y: End) {
    Local(x) && Local(y) && Link(x, y) && Link(y, x) && x.kind == y.kind
  }

  predicate Inv(s: Sys) {
    Both(s.a, s.b)
  }

  function FactsOf(s: Sys): Pair {
    Pair(s.a.facts, s.b.facts)
  }

  lemma {:induction false} InvCausal(x: End, y: End)
    requires Both(x, y)
    ensures Causal(Pair(x.facts, y.facts))
  {
  }

  lemma {:induction false} OutDismissKeeps(x: End, y: End)
    requires Both(x, y) && Can(x, y, Out) && x.writeIn[0] == Dismiss
    ensures Both(HandleOut(x), y)
  {
    InvCausal(x, y);
    CountPush(x.writeOut, Dismiss);
    TableFollowsFacts(x.phase, x.facts, CloseSent, true);
  }

  lemma {:induction false} OutAckKeeps(x: End, y: End)
    requires Both(x, y) && Can(x, y, Out) && x.writeIn[0] == Ack
    ensures Both(HandleOut(x), y)
  {
    InvCausal(x, y);
    CountPush(x.writeOut, Ack);
    CountPush(x.net, Ack);
    TableFollowsFacts(x.phase, x.facts, CloseAck, true);
  }

  lemma {:induction false} InDismissKeeps(x: End, y: End)
    requires Both(x, y) && Can(x, y, In) && x.readIn[0] == Dismiss
    ensures Both(HandleIn(x), y)
  {
    InvCausal(x, y);
    CountPush(x.writeOut, Ack);
    TableFollowsFacts(x.phase, x.facts, CloseRecv, false);
  }

  lemma {:induction false} InAckKeeps(x: End, y: End)
    requires Both(x, y) && Can(x, y, In) && x.readIn[0] == Ack
    ensures Both(HandleIn(x), y)
  {
    InvCausal(x, y);
    TableFollowsFacts(x.phase, x.facts, CloseAck, false);
  }

  lemma {:induction false} OutDataKeeps(x: End, y: End)
    requires Both(x, y) && Can(x, y, Out) && x.writeIn[0].Data?
    ensures Both(HandleOut(x), y)
  {
    CountPush(x.writeOut, x.writeIn[0]);
  }

  lemma {:induction false} InDataKeeps(x: End, y: End)
    requires Both(x, y) && Can(x, y, In) && x.readIn[0].Data?
    ensures Both(HandleIn(x), y)
  {
  }

  lemma {:induction false} TransferKeeps(x: End, y: End, c: Act)
    requires Both(x, y) && Can(x, y, c) && (c.Flush? || c.Arrive?)
    ensures Both(Do(x, y, c), Peer(y, c))
  {
    if c.Flush? {
      CountPush(x.net, x.writeOut[0]);
    } else {
      CountPush(x.readIn, y.net[0]);
    }
  }

  lemma {:induction false} PutKeeps(x: End, y: End, c: Act)
    requires Both(x, y) && Can(x, y, c)
    requires c.DirectWrite? || c.Move? || c.PutDismiss? || c.PutAck?
    ensures Both(Do(x, y, c), y)
  {
    CountPush(x.writeIn, Do(x, y, c).writeIn[|x.writeIn|]);
  }

  lemma {:induction false} CloseKeeps(x: End, y: End, c: Act)
    requires Both(x, y) && Can(x, y, c)
    requires c.AppWrite? || c.AppClose? || c.CloseCall? || c.RunClose? || c.Drain?
    ensures Both(Do(x, y, c), y)
  {
  }

  /** The transport cannot end under an endpoint that still waits. */
  lemma {:induction false} NeverEof(x: End, y: End)
    requires Both(x, y)
    ensures !Can(x, y, Eof)
  {
    InvCausal(x, y);
  }

  lemma {:induction false} ActKeeps(x: End, y: End, c: Act)
    requires Both(x, y) && Can(x, y, c)
    ensures Both(Do(x, y, c), Peer(y, c))
  {
    match c
    case Out =>
      match x.writeIn[0] {
        case Data(_) => OutDataKeeps(x, y);
        case Dismiss => OutDismissKeeps(x, y);
        case Ack => OutAckKeeps(x, y);
      }
    case In =>
      match x.readIn[0] {
        case Data(_) => InDataKeeps(x, y);
        case Dismiss => InDismissKeeps(x, y);
        case Ack => InAckKeeps(x, y);
      }
    case Flush => TransferKeeps(x, y, c);
    case Arrive => TransferKeeps(x, y, c);
    case DirectWrite(_) => PutKeeps(x, y, c);
    case Move => PutKeeps(x, y, c);
    case PutDismiss => PutKeeps(x, y, c);
    case PutAck => PutKeeps(x, y, c);
    case Eof => NeverEof(x, y);
    case _ => CloseKeeps(x, y, c);
  }

  /** Both is symmetric, so a step of either endpoint keeps the invariant. */
  lemma {:induction false} StepKeeps(s: Sys, l: Label)
    requires Inv(s) && CanStep(s, l)
    ensures Inv(Step(s, l))
  {
    if l.left {
      ActKeeps(s.a, s.b, l.act);
    } else {
      ActKeeps(s.b, s.a, l.act);
    }
  }

  lemma {:induction false} RunKeeps(s: Sys, ls: seq<Label>)
    requires Inv(s) && CanRun(s, ls)
    ensures Inv(Run(s, ls))
    decreases |ls|
  {
    if ls != [] {
      StepKeeps(s, ls[0]);
      RunKeeps(Step(s, ls[0]), ls[1..]);
    }
  }

  lemma {:induction false} InitialInv(s: Sys)
    requires Initial(s)
    ensures Inv(s)
  {
  }

  /** Dismiss safety. Start two endpoints open, let either side close at any moment, any
      number of times, with any traffic and any scheduling: no FSM ever refuses a close
      event, no transport ends early, and an endpoint has ended if and only if it sent its
      close packet, received the peer's, acknowledged it and was acknowledged. */
  lemma {:induction false} CloseIsSafe(s: Sys, ls: seq<Label>)
    requires Initial(s) && CanRun(s, ls)
    ensures var t := Run(s, ls);
            && !t.a.bad && !t.b.bad
            && (t.a.fin <==> Done(t.a.facts))
            && (t.b.fin <==> Done(t.b.facts))
            && (t.a.fin || PhaseFits(t.a.phase, t.a.facts))
            && (t.b.fin || PhaseFits(t.b.phase, t.b.facts))
  {
    RunKeeps(s, ls);
  }

  // Refinement of the abstract handshake

  /** A dialogue that was acknowledged takes the peer's close packet, which it acknowledges
      from inside the handler. */
  predicate LastAck(x: End, c: Act) {
    x.kind == Dialogue && c.In? && x.phase == Half && x.readIn != [] && x.readIn[0] == Dismiss
  }

  lemma {:induction false} ActRefines(x: End, y: End, c: Act)
    requires Both(x, y) && Can(x, y, c)
    ensures var f, g := x.facts, Do(x, y, c).facts;
            || g == f
            || Advance(f, y.facts, g)
            || (LastAck(x, c) && Advance(f, y.facts, f.(recv := true))
                && Advance(f.(recv := true), y.facts, g))
  {
    InvCausal(x, y);
    NeverEof(x, y);
    if c.Out? && x.writeIn[0] == Dismiss {
      TableFollowsFacts(x.phase, x.facts, CloseSent, true);
    } else if c.Out? && x.writeIn[0] == Ack {
      TableFollowsFacts(x.phase, x.facts, CloseAck, true);
    } else if c.In? && x.readIn[0] == Dismiss {
      TableFollowsFacts(x.phase, x.facts, CloseRecv, false);
    } else if c.In? && x.readIn[0] == Ack {
      TableFollowsFacts(x.phase, x.facts, CloseAck, false);
    }
  }

  /** A step of the queues is no step of the handshake, or one; only a dialogue's final
      acknowledgement, sent from inside the handler, is two, and it always is. */
  lemma {:induction false} StepRefines(s: Sys, l: Label) returns (p: seq<Pair>)
    requires Inv(s) && CanStep(s, l)
    ensures Chain(p) && p[0] == FactsOf(s) && p[|p| - 1] == FactsOf(Step(s, l))
    ensures |p| <= 3
    ensures |p| == 3 <==> if l.left then LastAck(s.a, l.act) else LastAck(s.b, l.act)
  {
    var f, g := FactsOf(s), FactsOf(Step(s, l));
    if l.left {
      ActRefines(s.a, s.b, l.act);
      p := if f == g then [f] else if Advance(f.l, f.r, g.l) then [f, g]
           else [f, f.(l := f.l.(recv := true)), g];
    } else {
      ActRefines(s.b, s.a, l.act);
      p := if f == g then [f] else if Advance(f.r, f.l, g.r) then [f, g]
           else [f, f.(r := f.r.(recv := true)), g];
    }
  }

  lemma {:induction false} Join(p: seq<Pair>, q: seq<Pair>) returns (r: seq<Pair>)
    requires Chain(p) && Chain(q) && p[|p| - 1] == q[0]
    ensures Chain(r) && r[0] == p[0] && r[|r| - 1] == q[|q| - 1]
  {
    r := p + q[1..];
  }

  /** Every run of two dialogues, and every run of a client and a server connection, is a
      run of the one abstract handshake. */
  lemma {:induction false} RunRefines(s: Sys, ls: seq<Label>) returns (p: seq<Pair>)
    requires Inv(s) && CanRun(s, ls)
    ensures Chain(p) && p[0] == FactsOf(s) && p[|p| - 1] == FactsOf(Run(s, ls))
    ensures |p| <= 9
    decreases |ls|
  {
    if ls == [] {
      p := [FactsOf(s)];
    } else {
      var q := StepRefines(s, ls[0]);
      StepKeeps(s, ls[0]);
      var r := RunRefines(Step(s, ls[0]), ls[1..]);
      p := Join(q, r);
      InvCausal(s.a, s.b);
      ChainCausal(p);
    }
  }
}
