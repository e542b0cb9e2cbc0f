/** Once the close packet is queued: exactly how many of the items handed to a dialogue reach
    the peer whatever happens. */
module CloseGuarantee {
  import opened Handshake
  import opened CloseProtocol
  import opened CloseSafety
  import opened CloseProgress
  import opened CloseData
  import opened CloseExact

  // Close packets and acknowledgements on a path

  predicate HasControl(p: seq<Pkt>) {
    Count(p, Dismiss) > 0 || Count(p, Ack) > 0
  }

  /** How many items precede the last close packet or acknowledgement. */
  function Before(p: seq<Pkt>): (n: nat) {
    if p == [] || !HasControl(p[1..]) then 0 else (if p[0].Data? then 1 else 0) + Before(p[1..])
  }

  /** The first of them is a close packet. */
  predicate DismissFirst(p: seq<Pkt>) {
    p != [] && (p[0] == Dismiss || (p[0].Data? && DismissFirst(p[1..])))
  }

  lemma {:induction false} ControlAppend(p: seq<Pkt>, q: seq<Pkt>)
    ensures HasControl(p + q) == (HasControl(p) || HasControl(q))
  {
    CountAppend(p, q, Dismiss);
    CountAppend(p, q, Ack);
  }

  lemma {:induction false} BeforeAppend(p: seq<Pkt>, q: seq<Pkt>)
    ensures Before(p + q) == if HasControl(q) then |Items(p)| + Before(q) else Before(p)
  {
    if p == [] {
      assert p + q == q;
      if !HasControl(q) {
        BeforeNone(q);
      }
    } else {
      assert (p + q)[1..] == p[1..] + q && (p + q)[0] == p[0];
      ControlAppend(p[1..], q);
      BeforeAppend(p[1..], q);
    }
  }

  lemma {:induction false} BeforeNone(p: seq<Pkt>)
    requires !HasControl(p)
    ensures Before(p) == 0
  {
    if p != [] {
      assert Count(p[1..], Dismiss) <= Count(p, Dismiss) && Count(p[1..], Ack) <= Count(p, Ack);
    }
  }

  lemma {:induction false} BeforeBound(p: seq<Pkt>)
    ensures Before(p) <= |Items(p)|
  {
    if p != [] {
      BeforeBound(p[1..]);
    }
  }

  lemma {:induction false} DismissFirstPush(p: seq<Pkt>, q: Pkt)
    ensures DismissFirst(p + [q]) == (DismissFirst(p) || (!HasControl(p) && q == Dismiss))
  {
    if p == [] {
      assert p + [q] == [q] && [q][1..] == [];
    } else {
      assert (p + [q])[1..] == p[1..] + [q] && (p + [q])[0] == p[0];
      DismissFirstPush(p[1..], q);
    }
  }

  // The guarantee

  /** What has left the handler of `x`. */
  function Front(x: End, y: End): (p: seq<Pkt>) {
    y.readIn + x.net + x.writeOut
  }

  /** The acknowledgement of `x` is on its way or past. */
  predicate Issued(x: End) {
    x.facts.ackOut || Count(x.writeIn, Ack) > 0
  }

  /** Before its acknowledgement is issued: it will go out behind everything, because it is
      already due, or because the peer's close packet is sure to arrive before the peer's
      acknowledgement and so will not be answered from inside the handler. */
  predicate Behind(x: End, y: End) {
    x.facts.recv || (DismissFirst(Path(y, x)) && !x.facts.ackIn)
  }

  function Sure(path: seq<Pkt>, front: seq<Pkt>, got: nat, all: nat,
                issued: bool, behind: bool, sent: bool): (n: nat) {
    if issued then got + Before(path)
    else if behind then all
    else got + if sent then |Items(front)| else Before(path)
  }

  /** How many of the items handed to `x` are sure to reach `y`, its close packet being queued:
      with the acknowledgement on its way, those ahead of the later of the two; with the
      acknowledgement still to come, all, unless it can be sent from inside the handler, and
      then those that have left the handler or precede the close packet. */
  function Guaranteed(x: End, y: End): (n: nat) {
    Sure(Path(x, y), Front(x, y), |y.got|, |x.log|, Issued(x), Behind(x, y), x.facts.sent)
  }

  predicate Ready(x: End, y: End) {
    Dialogues(x, y) && Flows(x, y) && Queued(x)
  }

  lemma {:induction false} FrontItems(x: End, y: End)
    ensures |Items(Front(x, y))| <= |Items(Path(x, y))|
  {
    ItemsAppend(Front(x, y), x.writeIn);
    assert Path(x, y) == Front(x, y) + x.writeIn;
  }

  lemma {:induction false} GuaranteedBound(x: End, y: End)
    requires Ready(x, y)
    ensures Guaranteed(x, y) <= |x.log|
    ensures y.fin ==> Guaranteed(x, y) == |y.got|
  {
    InvCausal(x, y);
    FrontItems(x, y);
    BeforeBound(Path(x, y));
    if y.fin {
      PathControls(x, y);
      BeforeNone(Path(x, y));
    }
  }

  /** Close packet and acknowledgement of `x` that are on the path. */
  lemma {:induction false} PathControls(x: End, y: End)
    requires Dialogues(x, y) && Queued(x)
    ensures Count(Path(x, y), Dismiss) == if y.facts.recv then 0 else 1
    ensures Count(Path(x, y), Ack) == if Issued(x) && !y.facts.ackIn then 1 else 0
    ensures y.facts.ackIn ==> Issued(x)
  {
    InvCausal(x, y);
    PathCounts(x, y, Dismiss);
    PathCounts(x, y, Ack);
  }

  lemma {:induction false} PathCounts(x: End, y: End, q: Pkt)
    ensures Count(Path(x, y), q)
            == Count(y.readIn, q) + Count(x.net, q) + Count(x.writeOut, q) + Count(x.writeIn, q)
  {
    CountAppend(y.readIn, x.net, q);
    CountAppend(y.readIn + x.net, x.writeOut, q);
    CountAppend(y.readIn + x.net + x.writeOut, x.writeIn, q);
  }

  // What the acts do to it

  lemma {:induction false} OutFacts(x: End, y: End)
    requires Dialogues(x, y) && Can(x, y, Out)
    ensures var f, p := x.facts, x.writeIn[0];
            HandleOut(x).facts == f.(sent := f.sent || p == Dismiss, ackOut := f.ackOut || p == Ack)
  {
    InvCausal(x, y);
    match x.writeIn[0] {
      case Data(_) =>
      case Dismiss => TableFollowsFacts(x.phase, x.facts, CloseSent, true);
      case Ack => TableFollowsFacts(x.phase, x.facts, CloseAck, true);
    }
  }

  /** The last acknowledgement is sent from inside the handler. */
  predicate Bypass(x: End) {
    x.readIn != [] && x.readIn[0] == Dismiss && x.phase == Half
  }

  lemma {:induction false} InFacts(x: End, y: End)
    requires Dialogues(x, y) && Can(x, y, In)
    ensures var x', f, p := HandleIn(x), x.facts, x.readIn[0];
            && x'.facts == f.(recv := f.recv || p == Dismiss, ackIn := f.ackIn || p == Ack,
                              ackOut := f.ackOut || Bypass(x))
            && x'.writeOut == if Bypass(x) then x.writeOut + [Ack] else x.writeOut
  {
    InvCausal(x, y);
    match x.readIn[0]
    case Data(_) =>
    case Dismiss => TableFollowsFacts(x.phase, x.facts, CloseRecv, false);
    case Ack => TableFollowsFacts(x.phase, x.facts, CloseAck, false);
  }

  /** The handler of `x` takes a packet of its own: it stays where it is on the path. */
  lemma {:induction false} OutSure(x: End, x': End, y: End)
    requires Ready(x, y) && x.writeIn != [] && !x.fin
    requires x'.writeOut == x.writeOut + [x.writeIn[0]] && x'.writeIn == x.writeIn[1..]
    requires x'.net == x.net && x'.readIn == x.readIn && x'.log == x.log
    requires var f, p := x.facts, x.writeIn[0];
             x'.facts == f.(sent := f.sent || p == Dismiss, ackOut := f.ackOut || p == Ack)
    ensures Guaranteed(x', y) >= Guaranteed(x, y)
    ensures Issued(x) || !x.facts.sent ==> Guaranteed(x', y) == Guaranteed(x, y)
  {
    var p := x.writeIn[0];
    assert x'.writeOut + x'.writeIn == x.writeOut + x.writeIn;
    assert Path(x', y) == (y.readIn + x.net) + (x'.writeOut + x'.writeIn) == Path(x, y);
    assert Path(y, x') == Path(y, x);
    assert Front(x', y) == Front(x, y) + [p];
    ItemsAppend(Front(x, y), [p]);
    if p == Dismiss && !Issued(x) {
      assert Path(x, y) == Front(x, y) + x.writeIn;
      BeforeAppend(Front(x, y), x.writeIn);
      assert !HasControl(x.writeIn[1..]);
    }
  }

  /** The handler of `x` takes a packet of the peer. */
  lemma {:induction false} InSure(x: End, x': End, y: End)
    requires Ready(x, y) && x.readIn != [] && !x.fin
    requires x'.readIn == x.readIn[1..] && x'.writeIn == x.writeIn && x'.net == x.net && x'.log == x.log
    requires x'.writeOut == if Bypass(x) then x.writeOut + [Ack] else x.writeOut
    requires var f, p := x.facts, x.readIn[0];
             x'.facts == f.(recv := f.recv || p == Dismiss, ackIn := f.ackIn || p == Ack,
                            ackOut := f.ackOut || Bypass(x))
    ensures Guaranteed(x', y) >= Guaranteed(x, y)
    ensures Issued(x) || !Behind(x, y) ==> Guaranteed(x', y) == Guaranteed(x, y)
  {
    InvCausal(x, y);
    assert Path(y, x') == Path(y, x)[1..] && Path(y, x)[0] == x.readIn[0];
    GuaranteedBound(x, y);
    if Bypass(x) {
      assert Path(x', y) == Front(x, y) + ([Ack] + x.writeIn);
      BeforeAppend(Front(x, y), [Ack] + x.writeIn);
      assert ([Ack] + x.writeIn)[1..] == x.writeIn;
    } else {
      assert Path(x', y) == Path(x, y) && Front(x', y) == Front(x, y);
    }
  }

  /** The handler of `y` takes a packet of `x`. */
  lemma {:induction false} PeerInSure(x: End, y: End, y': End)
    requires Ready(x, y) && y.readIn != [] && !y.fin
    requires y'.readIn == y.readIn[1..] && |y'.got| == |y.got| + if y.readIn[0].Data? then 1 else 0
    requires Issued(x) || Behind(x, y') == Behind(x, y)
    ensures Guaranteed(x, y') >= Guaranteed(x, y)
    ensures !Issued(x) || HasControl(Path(x, y)) || !y.readIn[0].Data?
            ==> Guaranteed(x, y') == Guaranteed(x, y)
  {
    var p, f := Path(x, y), Front(x, y);
    assert Path(x, y') == p[1..] && Front(x, y') == f[1..] && p[0] == f[0] == y.readIn[0];
    PathControls(x, y);
    InvCausal(x, y);
    assert p == [p[0]] + p[1..];
    if !HasControl(p[1..]) {
      BeforeNone(p[1..]);
    }
  }

  /** The guarantee is about the two paths and the facts of `x`. */
  lemma {:induction false} SameSure(x: End, y: End, x': End, y': End)
    requires Path(x', y') == Path(x, y) && Front(x', y') == Front(x, y)
    requires Issued(x) || Path(y', x') == Path(y, x)
    requires |y'.got| == |y.got| && |x'.log| == |x.log|
    requires x'.facts == x.facts && x'.writeIn == x.writeIn
    ensures Guaranteed(x', y') == Guaranteed(x, y)
  {
  }

  lemma {:induction false} PutDataSure(x: End, x': End, y: End, q: Pkt)
    requires Ready(x, y) && q.Data?
    requires x'.writeIn == x.writeIn + [q] && x'.writeOut == x.writeOut && x'.net == x.net
    requires x'.readIn == x.readIn && x'.facts == x.facts && |x'.log| >= |x.log|
    ensures Guaranteed(x', y) >= Guaranteed(x, y)
  {
    assert Path(x', y) == Path(x, y) + [q] && Front(x', y) == Front(x, y) && Path(y, x') == Path(y, x);
    CountPush(x.writeIn, q);
    BeforeAppend(Path(x, y), [q]);
    assert !HasControl([q]);
  }

  lemma {:induction false} PutAckSure(x: End, x': End, y: End)
    requires Ready(x, y) && x.pendAck > 0
    requires x'.writeIn == x.writeIn + [Ack] && x'.writeOut == x.writeOut && x'.net == x.net
    requires x'.facts == x.facts && x'.log == x.log
    ensures Guaranteed(x', y) == Guaranteed(x, y) == |x.log|
  {
    InvCausal(x, y);
    assert Path(x', y) == Path(x, y) + [Ack];
    CountPush(x.writeIn, Ack);
    BeforeAppend(Path(x, y), [Ack]);
    assert HasControl([Ack]) && Before([Ack]) == 0;
  }

  lemma {:induction false} PutSure(x: End, y: End, c: Act)
    requires Ready(x, y) && Can(x, y, c) && (c.DirectWrite? || c.Move? || c.PutAck?)
    ensures Guaranteed(Do(x, y, c), y) >= Guaranteed(x, y)
    ensures c.PutAck? ==> Guaranteed(Do(x, y, c), y) == Guaranteed(x, y)
  {
    var x' := Do(x, y, c);
    if c.PutAck? {
      PutAckSure(x, x', y);
    } else {
      PutDataSure(x, x', y, x'.writeIn[|x.writeIn|]);
    }
  }

  /** A packet moves along, or is dropped by an endpoint that has ended. */
  lemma {:induction false} FlushSure(x: End, x': End, y: End)
    requires x.writeOut != [] && x'.writeOut == x.writeOut[1..] && x'.net == x.net + [x.writeOut[0]]
    requires x'.writeIn == x.writeIn && x'.readIn == x.readIn
    ensures Path(x', y) == Path(x, y) && Front(x', y) == Front(x, y) && Path(y, x') == Path(y, x)
  {
    assert x'.net + x'.writeOut == x.net + x.writeOut;
    assert Front(x', y) == y.readIn + (x'.net + x'.writeOut) == Front(x, y);
    assert Path(x', y) == Front(x', y) + x.writeIn;
  }

  lemma {:induction false} ArriveSure(x: End, y: End, y': End, x': End)
    requires x.net != [] && x' == x.(net := x.net[1..])
    requires y' == y.(readIn := y.readIn + [x.net[0]])
    ensures Path(x', y') == Path(x, y) && Front(x', y') == Front(x, y) && Path(y', x') == Path(y, x)
  {
    assert y'.readIn + x'.net == y.readIn + x.net;
    assert Front(x', y') == (y'.readIn + x'.net) + x.writeOut == Front(x, y);
    assert Path(x', y') == Front(x', y') + x.writeIn;
  }

  lemma {:induction false} TransferSure(x: End, y: End, c: Act)
    requires Ready(x, y) && Can(x, y, c) && (c.Flush? || c.Arrive?)
    ensures Guaranteed(Do(x, y, c), Peer(y, c)) == Guaranteed(x, y)
  {
    var x', y' := Do(x, y, c), Peer(y, c);
    if c.Flush? {
      FlushSure(x, x', y);
    } else if !x.fin {
      ArriveSure(y, x, x', y');
      assert Path(x', y') == Path(x, y) && Front(x', y') == Front(x, y);
    }
    SameSure(x, y, x', y');
  }

  lemma {:induction false} PeerTransferSure(x: End, y: End, c: Act)
    requires Ready(x, y) && Can(y, x, c) && (c.Flush? || c.Arrive?)
    ensures Guaranteed(Peer(x, c), Do(y, x, c)) == Guaranteed(x, y)
  {
    var x', y' := Peer(x, c), Do(y, x, c);
    if c.Arrive? && y.fin {
      DropSure(x, y);
    } else {
      if c.Flush? {
        FlushSure(y, y', x);
      } else {
        ArriveSure(x, y, y', x');
      }
      SameSure(x, y, x', y');
    }
  }

  /** Nothing that counts is left on the path to an endpoint that has ended. */
  lemma {:induction false} DropSure(x: End, y: End)
    requires Ready(x, y) && Can(y, x, Arrive) && y.fin
    ensures Guaranteed(Peer(x, Arrive), y) == Guaranteed(x, y) == |y.got|
  {
    var x' := Peer(x, Arrive);
    InvCausal(x, y);
    GuaranteedBound(x, y);
    PathControls(x, y);
    PathCounts(x, y, Dismiss);
    PathCounts(x, y, Ack);
    PathCounts(x', y, Dismiss);
    PathCounts(x', y, Ack);
    BeforeNone(Path(x', y));
  }

  /** The peer puts a packet of its own on its queue. */
  lemma {:induction false} PeerPutSure(x: End, y: End, c: Act)
    requires Ready(x, y) && Can(y, x, c)
    requires c.DirectWrite? || c.Move? || c.PutDismiss? || c.PutAck?
    ensures Guaranteed(x, Do(y, x, c)) >= Guaranteed(x, y)
    ensures !c.PutDismiss? || x.facts.ackIn || Issued(x) ==> Guaranteed(x, Do(y, x, c)) == Guaranteed(x, y)
  {
    var y' := Do(y, x, c);
    var q := y'.writeIn[|y.writeIn|];
    GuaranteedBound(x, y);
    assert Path(x, y') == Path(x, y) && Front(x, y') == Front(x, y);
    assert Path(y', x) == Path(y, x) + [q];
    DismissFirstPush(Path(y, x), q);
  }

  lemma {:induction false} PeerHandlesSure(x: End, y: End)
    requires Ready(x, y) && Can(y, x, In)
    ensures Guaranteed(x, HandleIn(y)) >= Guaranteed(x, y)
    ensures !Issued(x) || HasControl(Path(x, y)) || !y.readIn[0].Data?
            ==> Guaranteed(x, HandleIn(y)) == Guaranteed(x, y)
  {
    var y' := HandleIn(y);
    InvCausal(x, y);
    InFrame(y, x);
    InFacts(y, x);
    if !Issued(x) {
      assert y.phase == Half ==> y.facts.recv;
      assert y.facts.recv ==> y.readIn[0] != Dismiss;
      assert Path(y', x) == Path(y, x);
    }
    PeerInSure(x, y, y');
  }

  lemma {:induction false} OwnGrows(x: End, y: End, c: Act)
    requires Ready(x, y) && Can(x, y, c)
    ensures Guaranteed(Do(x, y, c), Peer(y, c)) >= Guaranteed(x, y)
  {
    match c
    case Out =>
      OutFrame(x, y);
      OutFacts(x, y);
      OutSure(x, HandleOut(x), y);
    case In =>
      InFrame(x, y);
      InFacts(x, y);
      InSure(x, HandleIn(x), y);
    case Flush => TransferSure(x, y, c);
    case Arrive => TransferSure(x, y, c);
    case DirectWrite(_) => PutSure(x, y, c);
    case Move => PutSure(x, y, c);
    case PutAck => PutSure(x, y, c);
    case Eof => NeverEof(x, y);
    case _ => IdleSure(x, y, c);
  }

  /** Calls of Close and the stream's own business touch no queue of the dialogue. */
  lemma {:induction false} IdleSure(x: End, y: End, c: Act)
    requires Ready(x, y) && Can(x, y, c)
    requires c.AppWrite? || c.AppClose? || c.CloseCall? || c.RunClose? || c.Drain? || c.PutDismiss?
    ensures !c.PutDismiss? && Guaranteed(Do(x, y, c), y) == Guaranteed(x, y)
  {
    var x' := Do(x, y, c);
    assert Path(x', y) == Path(x, y) && Path(y, x') == Path(y, x) && Front(x', y) == Front(x, y);
    SameSure(x, y, x', y);
  }

  lemma {:induction false} PeerIdleSure(x: End, y: End, c: Act)
    requires Ready(x, y) && Can(y, x, c)
    requires c.AppWrite? || c.AppClose? || c.CloseCall? || c.RunClose? || c.Drain?
    ensures Guaranteed(x, Do(y, x, c)) == Guaranteed(x, y)
  {
    var y' := Do(y, x, c);
    assert Path(y', x) == Path(y, x) && Path(x, y') == Path(x, y) && Front(x, y') == Front(x, y);
    SameSure(x, y, x, y');
  }

  lemma {:induction false} PeerOutSure(x: End, y: End)
    requires Ready(x, y) && Can(y, x, Out)
    ensures Guaranteed(x, HandleOut(y)) == Guaranteed(x, y)
  {
    var y' := HandleOut(y);
    OutFrame(y, x);
    assert y'.writeOut + y'.writeIn == y.writeOut + y.writeIn;
    assert Path(y', x) == (x.readIn + y.net) + (y'.writeOut + y'.writeIn) == Path(y, x);
    assert Path(x, y') == Path(x, y) && Front(x, y') == Front(x, y);
    SameSure(x, y, x, y');
  }

  lemma {:induction false} PeerGrows(x: End, y: End, c: Act)
    requires Ready(x, y) && Can(y, x, c)
    ensures Guaranteed(Peer(x, c), Do(y, x, c)) >= Guaranteed(x, y)
  {
    match c
    case In => PeerHandlesSure(x, y);
    case Out => PeerOutSure(x, y);
    case Flush => PeerTransferSure(x, y, c);
    case Arrive => PeerTransferSure(x, y, c);
    case DirectWrite(_) => PeerPutSure(x, y, c);
    case Move => PeerPutSure(x, y, c);
    case PutDismiss => PeerPutSure(x, y, c);
    case PutAck => PeerPutSure(x, y, c);
    case Eof => NeverEof(y, x);
    case _ => PeerIdleSure(x, y, c);
  }

  // Every run

  lemma {:induction false} QueuedStays(x: End, y: End, c: Act)
    requires Dialogues(x, y) && Queued(x) && Can(x, y, c)
    ensures Queued(Do(x, y, c))
  {
    match c
    case Out => OutFrame(x, y);
    case In => InFrame(x, y);
    case _ =>
  }

  lemma {:induction false} StepGuarantees(s: Sys, l: Label)
    requires DataInv(s) && Queued(s.a) && CanStep(s, l)
    ensures Queued(Step(s, l).a)
    ensures Guaranteed(Step(s, l).a, Step(s, l).b) >= Guaranteed(s.a, s.b)
  {
    if l.left {
      QueuedStays(s.a, s.b, l.act);
      OwnGrows(s.a, s.b, l.act);
    } else {
      PeerGrows(s.a, s.b, l.act);
    }
  }

  lemma {:induction false} RunGuarantees(s: Sys, ls: seq<Label>)
    requires DataInv(s) && Queued(s.a) && CanRun(s, ls)
    ensures var t := Run(s, ls);
            DataInv(t) && Queued(t.a) && Guaranteed(t.a, t.b) >= Guaranteed(s.a, s.b)
    decreases |ls|
  {
    if ls != [] {
      StepGuarantees(s, ls[0]);
      StepData(s, ls[0]);
      RunGuarantees(Step(s, ls[0]), ls[1..]);
    }
  }

  /** Whatever happens, a peer that has ended holds the guaranteed items. */
  lemma {:induction false} GuaranteedArrive(s: Sys, ls: seq<Label>)
    requires DataInv(s) && Queued(s.a) && CanRun(s, ls) && Run(s, ls).b.fin
    ensures Guaranteed(s.a, s.b) <= |s.a.log|
    ensures s.a.log[..Guaranteed(s.a, s.b)] <= Run(s, ls).b.got
  {
    var t := Run(s, ls);
    GuaranteedBound(s.a, s.b);
    RunGuarantees(s, ls);
    GuaranteedBound(t.a, t.b);
    PrecedesRun(s, ls, 0);
  }

  // ... and no run need deliver more

  lemma {:induction false} OwnSame(x: End, y: End, c: Act)
    requires Ready(x, y) && Can(x, y, c) && Protocol(c)
    requires c.Out? ==> Issued(x) || !x.facts.sent
    requires c.In? ==> Issued(x) || !Behind(x, y)
    ensures Guaranteed(Do(x, y, c), Peer(y, c)) == Guaranteed(x, y)
  {
    match c
    case Out =>
      OutFrame(x, y);
      OutFacts(x, y);
      OutSure(x, HandleOut(x), y);
    case In =>
      InFrame(x, y);
      InFacts(x, y);
      InSure(x, HandleIn(x), y);
    case PutAck => PutSure(x, y, c);
    case PutDismiss => IdleSure(x, y, c);
    case RunClose => IdleSure(x, y, c);
    case _ => TransferSure(x, y, c);
  }

  lemma {:induction false} PeerSame(x: End, y: End, c: Act)
    requires Ready(x, y) && Can(y, x, c) && Protocol(c)
    requires c.In? ==> !Issued(x) || HasControl(Path(x, y)) || !y.readIn[0].Data?
    requires c.PutDismiss? ==> Issued(x) || x.facts.ackIn
    ensures Guaranteed(Peer(x, c), Do(y, x, c)) == Guaranteed(x, y)
  {
    match c
    case In => PeerHandlesSure(x, y);
    case Out => PeerOutSure(x, y);
    case PutDismiss => PeerPutSure(x, y, c);
    case PutAck => PeerPutSure(x, y, c);
    case RunClose => PeerIdleSure(x, y, c);
    case _ => PeerTransferSure(x, y, c);
  }

  /** With everything guaranteed, no move of the endpoints changes that. */
  lemma {:induction false} AllSame(s: Sys, l: Label)
    requires DataInv(s) && Queued(s.a) && CanStep(s, l) && Protocol(l.act)
    requires Guaranteed(s.a, s.b) == |s.a.log|
    ensures Guaranteed(Step(s, l).a, Step(s, l).b) == Guaranteed(s.a, s.b)
  {
    StepGuarantees(s, l);
    StepData(s, l);
    AloneSystem(s, l);
    GuaranteedBound(Step(s, l).a, Step(s, l).b);
  }

  /** `y` has everything it waits for from `x`, and still owes its own acknowledgement. */
  lemma {:induction false} OwesAck(x: End, y: End)
    requires Ready(x, y) && Issued(x) && !HasControl(Path(x, y)) && !y.fin
    ensures y.pendAck > 0 || y.writeIn != []
  {
    PathControls(x, y);
    InvCausal(x, y);
  }

  /** The acknowledgement is issued: let `y` end without taking another item. */
  lemma {:induction false} NextIssued(s: Sys) returns (l: Label)
    requires DataInv(s) && Queued(s.a) && Issued(s.a) && !s.b.fin
    ensures CanStep(s, l) && Protocol(l.act)
    ensures Guaranteed(Step(s, l).a, Step(s, l).b) == Guaranteed(s.a, s.b)
  {
    l := NextMove(s);
    if l == Label(false, In) && s.b.readIn[0].Data? && !HasControl(Path(s.a, s.b)) {
      OwesAck(s.a, s.b);
      l := Label(false, if s.b.pendAck > 0 then PutAck else Out);
    }
    if l.left {
      OwnSame(s.a, s.b, l.act);
    } else {
      PeerSame(s.a, s.b, l.act);
    }
  }

  /** The acknowledgement can be sent from inside the handler: let it. */
  lemma {:induction false} BypassMove(x: End, y: End) returns (left: bool, c: Act)
    requires Ready(x, y) && !Issued(x) && !Behind(x, y)
    ensures Protocol(c) && if left then Can(x, y, c) else Can(y, x, c)
    ensures left && c.Out? ==> !x.facts.sent
    ensures !left && c.PutDismiss? ==> x.facts.ackIn
  {
    InvCausal(x, y);
    if !x.facts.sent {
      left, c := true, Out;
    } else if x.readIn != [] {
      left, c := true, In;
    } else if y.net != [] {
      left, c := true, Arrive;
    } else if y.writeOut != [] {
      left, c := false, Flush;
    } else if y.writeIn != [] {
      left, c := false, Out;
    } else if x.writeOut != [] {
      left, c := true, Flush;
    } else if x.net != [] {
      left, c := false, Arrive;
    } else if y.readIn != [] {
      left, c := false, In;
    } else if y.pendAck > 0 {
      left, c := false, PutAck;
    } else if y.pendClose > 0 {
      left, c := false, RunClose;
    } else {
      left, c := false, PutDismiss;
    }
  }

  lemma {:induction false} NextBypass(s: Sys) returns (l: Label)
    requires DataInv(s) && Queued(s.a) && !Issued(s.a) && !Behind(s.a, s.b)
    ensures CanStep(s, l) && Protocol(l.act)
    ensures Guaranteed(Step(s, l).a, Step(s, l).b) == Guaranteed(s.a, s.b)
  {
    var left, c := BypassMove(s.a, s.b);
    l := Label(left, c);
    if left {
      OwnSame(s.a, s.b, c);
    } else {
      PeerSame(s.a, s.b, c);
    }
  }

  lemma {:induction false} NextBehind(s: Sys) returns (l: Label)
    requires DataInv(s) && Queued(s.a) && !Issued(s.a) && Behind(s.a, s.b) && !s.b.fin
    ensures CanStep(s, l) && Protocol(l.act)
    ensures Guaranteed(Step(s, l).a, Step(s, l).b) == Guaranteed(s.a, s.b)
  {
    l := NextMove(s);
    AllSame(s, l);
  }

  /** Closing goes on, and nothing more is guaranteed than `n` items. */
  predicate Stubborn(s: Sys, n: nat) {
    DataInv(s) && Queued(s.a) && Guaranteed(s.a, s.b) == n
  }

  lemma {:induction false} NextStubborn(s: Sys, n: nat) returns (l: Label)
    requires Stubborn(s, n) && !s.b.fin
    ensures CanStep(s, l) && Protocol(l.act) && Stubborn(Step(s, l), n)
    ensures TotalWork(Step(s, l)) < TotalWork(s)
  {
    if Issued(s.a) {
      l := NextIssued(s);
    } else if Behind(s.a, s.b) {
      l := NextBehind(s);
    } else {
      l := NextBypass(s);
    }
    StepGuarantees(s, l);
    StepData(s, l);
    StepWorks(s, l);
  }

  /** A run that ends the peer and delivers the guaranteed items only. */
  lemma {:induction false} FinishStubborn(s: Sys, n: nat) returns (ls: seq<Label>)
    requires Stubborn(s, n)
    ensures CanRun(s, ls) && Run(s, ls).b.fin && |Run(s, ls).b.got| == n
    decreases TotalWork(s)
  {
    if s.b.fin {
      ls := [];
      GuaranteedBound(s.a, s.b);
    } else {
      var l := NextStubborn(s, n);
      var rest := FinishStubborn(Step(s, l), n);
      ls := [l] + rest;
      assert ls[1..] == rest;
    }
  }

  /** The guarantee is exact: from every state with the close packet queued, every run that
      ends the peer delivers the first Guaranteed(s.a, s.b) of the items handed to the
      dialogue, and some run delivers these and no others. */
  lemma {:induction false} GuaranteeIsExact(s: Sys) returns (ls: seq<Label>)
    requires DataInv(s) && Queued(s.a)
    ensures Guaranteed(s.a, s.b) <= |s.a.log|
    ensures forall ms :: CanRun(s, ms) && Run(s, ms).b.fin
                         ==> s.a.log[..Guaranteed(s.a, s.b)] <= Run(s, ms).b.got
    ensures CanRun(s, ls) && Run(s, ls).b.fin && Run(s, ls).b.got == s.a.log[..Guaranteed(s.a, s.b)]
  {
    ls := FinishStubborn(s, Guaranteed(s.a, s.b));
    forall ms | CanRun(s, ms) && Run(s, ms).b.fin
      ensures Guaranteed(s.a, s.b) <= |s.a.log|
      ensures s.a.log[..Guaranteed(s.a, s.b)] <= Run(s, ms).b.got
    {
      GuaranteedArrive(s, ms);
    }
    assert s.a.log[..Guaranteed(s.a, s.b)] <= Run(s, ls).b.got;
  }

  /** Which writes survive once the close packet is queued: every way to end the peer delivers
      all that was ever written to the stream if and only if the stream's queue is empty and
      no item beyond the guaranteed ones came from it. With SurvivesIffDrained this is every
      state of a dialogue that is being closed. */
  lemma {:induction false} SurvivesIffGuaranteed(s: Sys)
    requires DataInv(s) && Queued(s.a)
    ensures Guaranteed(s.a, s.b) <= |s.a.log|
    ensures (s.a.app.queue == [] && Streamed(s.a.log[..Guaranteed(s.a, s.b)]) == Streamed(s.a.log))
            <==> forall ls :: CanRun(s, ls) && Run(s, ls).b.fin
                              ==> s.a.app.log <= Streamed(Run(s, ls).b.got)
  {
    var ms := GuaranteeIsExact(s);
    var kept := s.a.log[..Guaranteed(s.a, s.b)];
    StreamedPrefix(kept, s.a.log);
    if s.a.app.queue == [] && Streamed(kept) == Streamed(s.a.log) {
      forall ls | CanRun(s, ls) && Run(s, ls).b.fin
        ensures s.a.app.log <= Streamed(Run(s, ls).b.got)
      {
        StreamedPrefix(kept, Run(s, ls).b.got);
      }
    } else {
      assert CanRun(s, ms) && Run(s, ms).b.fin;
      assert |Streamed(kept)| < |s.a.app.log|;
    }
  }
}
