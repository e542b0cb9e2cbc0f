/** The data path of a connection: everything written reaches the other side, in order, for as
    long as that side is open, and nothing is invented or reordered after that. */
module ConnData {
  import opened Handshake
  import opened CloseProtocol
  import opened CloseSafety
  import opened CloseProgress
  import opened CloseData

  predicate Conns(x: End, y: End) {
    Both(x, y) && x.kind == Connection
  }

  /** From `x` to `y`: `y` has a prefix of what `x` was given. While `y` is open that and what is in
      flight are all of it, and a queued close packet is behind exactly what precedes it. */
  predicate OpenFlow(x: End, y: End) {
    && y.got <= x.log
    && (y.phase == Open ==>
          && !y.fin && y.got + Items(Path(x, y)) == x.log
          && (Queued(x) ==> x.cut <= |x.log| && |y.got| + Ahead(Path(x, y)) == x.cut))
  }

  /** A side that has left its open phase does not come back to it. */
  lemma {:induction false} OpenIsFirst(p: Phase, e: Event)
    ensures NextPhase(p, e).Some? ==> NextPhase(p, e).value != Open
  {
  }

  // What the handler of `x` changes, as far as items are concerned

  lemma {:induction false} ConnOut(x: End, y: End)
    requires Conns(x, y) && Can(x, y, Out)
    ensures var x', p := HandleOut(x), x.writeIn[0];
            && x'.writeIn == x.writeIn[1..] && x'.readIn == x.readIn && x'.got == x.got
            && x'.log == x.log && x'.cut == x.cut && Queued(x') == Queued(x)
            && (p != Ack ==> x'.writeOut == x.writeOut + [p] && x'.net == x.net)
            && (p == Ack ==> x'.writeOut == x.writeOut && x'.net == x.net + [Ack])
            && (x'.phase == Open ==> x.phase == Open && !x'.fin && !x.fin) && (p != Dismiss && p != Ack ==> x'.fin == x.fin)
  {
    InvCausal(x, y);
    match x.writeIn[0] {
      case Data(_) =>
      case Dismiss => TableFollowsFacts(x.phase, x.facts, CloseSent, true); OpenIsFirst(x.phase, CloseSent);
      case Ack => TableFollowsFacts(x.phase, x.facts, CloseAck, true); OpenIsFirst(x.phase, CloseAck);
    }
  }

  lemma {:induction false} ConnIn(x: End, y: End)
    requires Conns(x, y) && Can(x, y, In)
    ensures var x', p := HandleIn(x), x.readIn[0];
            && x'.readIn == x.readIn[1..] && x'.writeIn == x.writeIn && x'.writeOut == x.writeOut && x'.net == x.net
            && x'.log == x.log && x'.cut == x.cut && Queued(x') == Queued(x)
            && x'.got == (if p.Data? && x.phase == Open then x.got + [p.item] else x.got)
            && (x'.phase == Open ==> x.phase == Open && p.Data? && !x'.fin)
  {
    InvCausal(x, y);
    match x.readIn[0]
    case Data(_) =>
    case Dismiss => TableFollowsFacts(x.phase, x.facts, CloseRecv, false); OpenIsFirst(x.phase, CloseRecv);
    case Ack => TableFollowsFacts(x.phase, x.facts, CloseAck, false); OpenIsFirst(x.phase, CloseAck);
  }

  // The two directions

  /** An acknowledgement on the wire passes what waits in writeOut and disturbs no item. */
  lemma {:induction false} AckAhead(f: seq<Pkt>, out: seq<Pkt>, q: seq<Pkt>)
    requires q != [] && q[0] == Ack
    ensures Items(f + [Ack] + out + q[1..]) == Items(f + out + q)
    ensures Ahead(f + [Ack] + out + q[1..]) == Ahead(f + out + q)
  {
    PathInsertAck(f, out + q[1..]);
    PathInsertAck(f + out, q[1..]);
    assert f + [Ack] + out + q[1..] == f + [Ack] + (out + q[1..]);
    assert f + out + q[1..] == f + (out + q[1..]);
    assert f + out + q == (f + out) + [Ack] + q[1..];
  }

  lemma {:induction false} OutFlow(x: End, x': End, y: End)
    requires OpenFlow(x, y) && x.writeIn != []
    requires x'.writeIn == x.writeIn[1..] && x'.log == x.log && x'.cut == x.cut && Queued(x') == Queued(x)
    requires var p := x.writeIn[0];
             && (p != Ack ==> x'.writeOut == x.writeOut + [p] && x'.net == x.net)
             && (p == Ack ==> x'.writeOut == x.writeOut && x'.net == x.net + [Ack])
    ensures OpenFlow(x', y)
  {
    if x.writeIn[0] == Ack {
      AckAhead(y.readIn + x.net, x.writeOut, x.writeIn);
      assert Path(x', y) == (y.readIn + x.net) + [Ack] + x.writeOut + x.writeIn[1..];
    } else {
      assert x'.writeOut + x'.writeIn == x.writeOut + x.writeIn;
      assert Path(x', y) == (y.readIn + x.net) + (x'.writeOut + x'.writeIn) == Path(x, y);
    }
  }

  /** The receiver takes the head of what is in flight. */
  lemma {:induction false} InFlow(x: End, y: End, y': End)
    requires OpenFlow(x, y) && y.readIn != []
    requires y'.readIn == y.readIn[1..]
    requires y'.got == (if y.readIn[0].Data? && y.phase == Open then y.got + [y.readIn[0].item] else y.got)
    requires y'.phase == Open ==> y.phase == Open && y.readIn[0].Data? && !y'.fin
    ensures OpenFlow(x, y')
  {
    var p := Path(x, y);
    assert Path(x, y') == p[1..] && p[0] == y.readIn[0];
    if y.phase == Open && p[0].Data? {
      assert Items(p) == [p[0].item] + Items(p[1..]);
      assert y'.got + Items(p[1..]) == y.got + Items(p);
    }
  }

  lemma {:induction false} PutFlow(x: End, y: End, c: Act)
    requires Conns(x, y) && OpenFlow(x, y) && Can(x, y, c)
    requires c.DirectWrite? || c.PutDismiss? || c.PutAck?
    ensures OpenFlow(Do(x, y, c), y)
  {
    var x' := Do(x, y, c);
    var q := x'.writeIn[|x.writeIn|];
    assert y.phase == Open ==> !y.facts.recv;
    PathCount(x, y);
    assert Path(x', y) == Path(x, y) + [q];
    PathPush(Path(x, y), q);
  }

  lemma {:induction false} MoveFlow(x: End, y: End, c: Act)
    requires OpenFlow(x, y) && Can(x, y, c) && c.Flush?
    ensures OpenFlow(Do(x, y, c), y)
  {
    var x' := Do(x, y, c);
    assert x'.net + x'.writeOut == x.net + x.writeOut;
    assert Path(x', y) == y.readIn + (x'.net + x'.writeOut) + x.writeIn == Path(x, y);
  }

  lemma {:induction false} ArriveFlow(x: End, y: End)
    requires OpenFlow(x, y) && Can(y, x, Arrive)
    ensures OpenFlow(Peer(x, Arrive), Do(y, x, Arrive))
  {
    var x', y' := Peer(x, Arrive), Do(y, x, Arrive);
    if !y.fin {
      assert y'.readIn + x'.net == y.readIn + x.net;
      assert Path(x', y') == (y'.readIn + x'.net) + x.writeOut + x.writeIn == Path(x, y);
    }
  }

  /** A direction depends on the sender's queues and history and the receiver's front. */
  lemma {:induction false} SameFlow(x: End, y: End, x': End, y': End)
    requires OpenFlow(x, y) && Path(x', y') == Path(x, y)
    requires x'.log == x.log && x'.cut == x.cut && Queued(x') == Queued(x)
    requires y'.got == y.got && (y'.phase == Open ==> y.phase == Open && !y'.fin)
    ensures OpenFlow(x', y')
  {
  }

  /** Every act keeps the direction away from `x` ... */
  lemma {:induction false} SendFlow(x: End, y: End, c: Act)
    requires Conns(x, y) && OpenFlow(x, y) && Can(x, y, c)
    ensures OpenFlow(Do(x, y, c), Peer(y, c))
  {
    match c
    case Out =>
      ConnOut(x, y);
      OutFlow(x, HandleOut(x), y);
    case In =>
      ConnIn(x, y);
      SameFlow(x, y, HandleIn(x), y);
    case DirectWrite(_) => PutFlow(x, y, c);
    case PutDismiss => PutFlow(x, y, c);
    case PutAck => PutFlow(x, y, c);
    case Flush => MoveFlow(x, y, c);
    case Eof => NeverEof(x, y);
    case _ => RestFlow(x, y, c);
  }

  lemma {:induction false} RestFlow(x: End, y: End, c: Act)
    requires Conns(x, y) && OpenFlow(x, y) && Can(x, y, c)
    requires c.AppWrite? || c.AppClose? || c.CloseCall? || c.RunClose? || c.Drain? || c.Move? || c.Arrive?
    ensures OpenFlow(Do(x, y, c), Peer(y, c))
  {
    var x', y' := Do(x, y, c), Peer(y, c);
    assert Path(x', y') == Path(x, y);
    SameFlow(x, y, x', y');
  }

  /** ... and the one towards it. */
  lemma {:induction false} ReceiveFlow(x: End, y: End, c: Act)
    requires Conns(x, y) && OpenFlow(y, x) && Can(x, y, c)
    ensures OpenFlow(Peer(y, c), Do(x, y, c))
  {
    match c
    case Out =>
      ConnOut(x, y);
      SameFlow(y, x, y, HandleOut(x));
    case In =>
      ConnIn(x, y);
      InFlow(y, x, HandleIn(x));
    case Arrive => ArriveFlow(y, x);
    case Eof => NeverEof(x, y);
    case _ => StillFlow(x, y, c);
  }

  lemma {:induction false} StillFlow(x: End, y: End, c: Act)
    requires OpenFlow(y, x) && Can(x, y, c) && !c.Out? && !c.In? && !c.Arrive? && !c.Eof?
    ensures OpenFlow(y, Do(x, y, c))
  {
    var x' := Do(x, y, c);
    assert Path(y, x') == Path(y, x);
    SameFlow(y, x, y, x');
  }

  predicate ConnInv(s: Sys) {
    Conns(s.a, s.b) && OpenFlow(s.a, s.b) && OpenFlow(s.b, s.a)
  }

  lemma {:induction false} ActConn(x: End, y: End, c: Act)
    requires ConnInv(Sys(x, y)) && Can(x, y, c)
    ensures ConnInv(Sys(Do(x, y, c), Peer(y, c))) && ConnInv(Sys(Peer(y, c), Do(x, y, c)))
  {
    ActKeeps(x, y, c);
    KindStays(x, y, c);
    SendFlow(x, y, c);
    ReceiveFlow(x, y, c);
  }

  lemma {:induction false} StepConn(s: Sys, l: Label)
    requires ConnInv(s) && CanStep(s, l)
    ensures ConnInv(Step(s, l))
  {
    if l.left {
      ActConn(s.a, s.b, l.act);
    } else {
      ActConn(s.b, s.a, l.act);
    }
  }

  lemma {:induction false} RunConn(s: Sys, ls: seq<Label>)
    requires ConnInv(s) && CanRun(s, ls)
    ensures ConnInv(Run(s, ls))
    decreases |ls|
  {
    if ls != [] {
      StepConn(s, ls[0]);
      RunConn(Step(s, ls[0]), ls[1..]);
    }
  }

  lemma {:induction false} NewFlow(x: End)
    requires x.readIn == [] && x.net == [] && x.writeOut == [] && x.writeIn == []
    requires x.got == [] && x.log == [] && !x.once && !x.fin
    ensures OpenFlow(x, x)
  {
    assert Path(x, x) == [];
  }

  lemma {:induction false} InitialConn(s: Sys)
    requires Initial(s) && s.a.kind == Connection
    ensures ConnInv(s)
  {
    InitialInv(s);
    NewFlow(s.a);
  }

  /** What a connection promises of its data, from `x` to `y`. */
  predicate ConnDelivers(x: End, y: End) {
    && y.got <= x.log
    && (y.phase == Open ==> y.got + Items(Path(x, y)) == x.log)
    && (y.phase == Open && y.readIn != [] && y.readIn[0] == Dismiss ==> x.cut <= |x.log| && y.got == x.log[..x.cut])
  }

  lemma {:induction false} FlowDelivers(x: End, y: End)
    requires Conns(x, y) && OpenFlow(x, y)
    ensures ConnDelivers(x, y)
  {
    if y.phase == Open && y.readIn != [] && y.readIn[0] == Dismiss {
      PathCount(x, y);
      PathCounted(x, y);
      assert Path(x, y)[0] == Dismiss;
    }
  }

  lemma {:induction false} PathCounted(x: End, y: End)
    requires y.readIn != [] && y.readIn[0] == Dismiss
    ensures Count(Path(x, y), Dismiss) > 0
  {
    assert Path(x, y)[0] == Dismiss;
  }

  /** Connection data, in both directions and every run: what a side has received is a prefix of what
      the other was given; while it is open, that and what is in flight are all of it; and the
      close packet that ends an open side finds it with everything given before. */
  lemma {:induction false} ConnDataInOrder(s: Sys, ls: seq<Label>)
    requires Initial(s) && s.a.kind == Connection && CanRun(s, ls)
    ensures var t := Run(s, ls); ConnDelivers(t.a, t.b) && ConnDelivers(t.b, t.a)
  {
    InitialConn(s);
    RunConnDelivers(s, ls);
  }

  lemma {:induction false} RunConnDelivers(s: Sys, ls: seq<Label>)
    requires ConnInv(s) && CanRun(s, ls)
    ensures var t := Run(s, ls); ConnDelivers(t.a, t.b) && ConnDelivers(t.b, t.a)
  {
    RunConn(s, ls);
    var t := Run(s, ls);
    FlowDelivers(t.a, t.b);
    FlowDelivers(t.b, t.a);
  }

  // Everything written arrives

  lemma {:induction false} QuietPath(x: End, y: End)
    requires Both(x, y) && Idle(x, y) && Idle(y, x) && !x.fin && !y.fin
    ensures Path(x, y) == []
  {
    IdleEnd(x, y);
    IdleEnd(y, x);
  }

  /** Two connections that nobody closes: let the goroutines run in any order until none can move,
      which they do within the work at hand, and each side has all that the other was given. */
  lemma {:induction false} OpenConnsDeliver(s: Sys, ls: seq<Label>)
    requires ConnInv(s) && CanRun(s, ls) && AllInternal(ls)
    ensures |ls| <= TotalWork(s)
    ensures var t := Run(s, ls);
            Quiet(t) && t.a.phase == Open && t.b.phase == Open ==> t.b.got == t.a.log && t.a.got == t.b.log
  {
    RunIsBounded(s, ls);
    RunConn(s, ls);
    var t := Run(s, ls);
    if Quiet(t) && t.a.phase == Open && t.b.phase == Open {
      QuietDelivers(t);
    }
  }

  lemma {:induction false} QuietDelivers(t: Sys)
    requires ConnInv(t) && Quiet(t) && t.a.phase == Open && t.b.phase == Open
    ensures t.b.got == t.a.log && t.a.got == t.b.log
  {
    QuietPath(t.a, t.b);
    QuietPath(t.b, t.a);
    assert t.b.got + [] == t.b.got && t.a.got + [] == t.a.got;
  }

  /** The same for two dialogues and the streams above them: once nothing moves, each reader's side
      has every packet handed to the other dialogue and every write of the other stream. */
  lemma {:induction false} OpenDialoguesDeliver(s: Sys, ls: seq<Label>)
    requires DataInv(s) && CanRun(s, ls) && AllInternal(ls)
    ensures |ls| <= TotalWork(s)
    ensures var t := Run(s, ls);
            Quiet(t) && !t.a.fin && !t.b.fin ==>
              t.b.got == t.a.log && Streamed(t.b.got) == t.a.app.log
              && t.a.got == t.b.log && Streamed(t.a.got) == t.b.app.log
  {
    RunIsBounded(s, ls);
    RunData(s, ls);
    var t := Run(s, ls);
    if Quiet(t) && !t.a.fin && !t.b.fin {
      QuietDialogue(t.a, t.b, t);
      QuietDialogue(t.b, t.a, Sys(t.b, t.a));
    }
  }

  lemma {:induction false} QuietDialogue(x: End, y: End, t: Sys)
    requires t == Sys(x, y) && DataInv(t) && Quiet(t) && !x.fin && !y.fin
    ensures y.got == x.log && Streamed(y.got) == x.app.log
  {
    assert !Can(x, y, Move);
    QuietPath(x, y);
    assert y.got + [] == y.got && Streamed(x.log) + [] == Streamed(x.log);
  }

  /** The first packet, from a user of `a` to the other side's readOutCh, on either layer. */
  lemma {:induction false} FirstPacketArrives(s: Sys, id: nat) returns (ls: seq<Label>)
    requires Initial(s)
    ensures CanRun(s, ls) && Run(s, ls).b.got == [Item(id, true)] == Run(s, ls).a.log
  {
    var i, j, k := Label(true, DirectWrite(id)), Label(true, Out), Label(true, Flush);
    var m, n := Label(false, Arrive), Label(false, In);
    var s1 := Step(s, i);
    assert s1.a.writeIn == [Data(Item(id, true))];
    var s2 := Step(s1, j);
    assert s2.a.writeOut == [Data(Item(id, true))];
    var s3 := Step(s2, k);
    assert s3.a.net == [Data(Item(id, true))];
    RunOf2(s, i, j);
    RunOf1(s2, k);
    RunConcat(s, [i, j], [k]);
    DeliverFirst(s3, Item(id, true));
    RunOf2(s3, m, n);
    RunConcat(s, [i, j] + [k], [m, n]);
    ls := [i, j] + [k] + [m, n];
  }

  lemma {:induction false} DeliverFirst(s: Sys, i: Item)
    requires s.a.net == [Data(i)] && s.b.readIn == [] && s.b.got == [] && !s.b.fin && s.b.phase == Open
    ensures var m, n := Label(false, Arrive), Label(false, In);
            CanStep(s, m) && CanStep(Step(s, m), n)
            && (var t := Step(Step(s, m), n); t.b.got == [i] && t.a.log == s.a.log)
  {
  }
}
