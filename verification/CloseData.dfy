/** Data before goodbye: what a dialogue was given before its close packet reaches the
    peer before the peer ends, and nothing is reordered or invented. */
module CloseData {
  import opened Handshake
  import opened CloseProtocol
  import opened CloseSafety

  function Items(s: seq<Pkt>): (r: seq<Item>) {
    if s == [] then [] else (if s[0].Data? then [s[0].item] else []) + Items(s[1..])
  }

  /** How many items precede the first close packet. */
  function Ahead(s: seq<Pkt>): (n: nat) {
    if s == [] || s[0] == Dismiss then 0 else (if s[0].Data? then 1 else 0) + Ahead(s[1..])
  }

  /** The items that came through the stream's queue. */
  function Streamed(s: seq<Item>): (r: seq<nat>) {
    if s == [] then [] else (if s[0].direct then [] else [s[0].id]) + Streamed(s[1..])
  }

  lemma {:induction false} ItemsAppend(s: seq<Pkt>, t: seq<Pkt>)
    ensures Items(s + t) == Items(s) + Items(t)
  {
    if s == [] {
      assert s + t == t;
    } else {
      var head := if s[0].Data? then [s[0].item] else [];
      assert (s + t)[1..] == s[1..] + t && (s + t)[0] == s[0];
      ItemsAppend(s[1..], t);
      assert Items(s + t) == head + (Items(s[1..]) + Items(t));
      assert Items(s) == head + Items(s[1..]);
    }
  }

  lemma {:induction false} AheadAppend(s: seq<Pkt>, t: seq<Pkt>)
    ensures Ahead(s + t) == if Count(s, Dismiss) > 0 then Ahead(s) else |Items(s)| + Ahead(t)
  {
    if s == [] {
      assert s + t == t;
    } else {
      assert (s + t)[1..] == s[1..] + t;
      AheadAppend(s[1..], t);
    }
  }

  lemma {:induction false} StreamedAppend(s: seq<Item>, t: seq<Item>)
    ensures Streamed(s + t) == Streamed(s) + Streamed(t)
  {
    if s == [] {
      assert s + t == t;
    } else {
      var head := if s[0].direct then [] else [s[0].id];
      assert (s + t)[1..] == s[1..] + t && (s + t)[0] == s[0];
      StreamedAppend(s[1..], t);
      assert Streamed(s + t) == head + (Streamed(s[1..]) + Streamed(t));
      assert Streamed(s) == head + Streamed(s[1..]);
    }
  }

  lemma {:induction false} StreamedPrefix(s: seq<Item>, t: seq<Item>)
    requires s <= t
    ensures Streamed(s) <= Streamed(t)
  {
    assert t == s + t[|s|..];
    StreamedAppend(s, t[|s|..]);
  }

  /** Everything on its way from `x` to `y`, in the order `y` will handle it. */
  function Path(x: End, y: End): (p: seq<Pkt>) {
    y.readIn + x.net + x.writeOut + x.writeIn
  }

  /** The close packet has been put on `writeIn`. */
  predicate Queued(x: End) {
    x.once && x.pendDismiss == 0
  }

  /** Items of `log` on the way over `path` to a receiver that already has `got`, where the
      first `cut` are the ones a queued close packet must not overtake. */
  predicate Flow(path: seq<Pkt>, got: seq<Item>, log: seq<Item>, cut: nat,
                 fin: bool, recv: bool, queued: bool) {
    && got <= log
    && (!fin ==> got + Items(path) == log)
    && (queued ==> cut <= |log|
                   && (if recv then cut <= |got| else |got| + Ahead(path) == cut))
  }

  predicate Flows(x: End, y: End) {
    Flow(Path(x, y), y.got, x.log, x.cut, y.fin, y.facts.recv, Queued(x))
  }

  predicate Dialogues(x: End, y: End) {
    Both(x, y) && x.kind == Dialogue
  }

  lemma {:induction false} PathCount(x: End, y: End)
    requires Both(x, y)
    ensures !y.facts.recv ==> (Count(Path(x, y), Dismiss) > 0 <==> Queued(x))
    ensures !Queued(x) ==> !y.facts.recv
  {
    CountAppend(y.readIn, x.net, Dismiss);
    CountAppend(y.readIn + x.net, x.writeOut, Dismiss);
    CountAppend(y.readIn + x.net + x.writeOut, x.writeIn, Dismiss);
  }

  /** A packet joins the end of the path. */
  lemma {:induction false} PathPush(path: seq<Pkt>, q: Pkt)
    ensures Items(path + [q]) == Items(path) + (if q.Data? then [q.item] else [])
    ensures Count(path, Dismiss) > 0 ==> Ahead(path + [q]) == Ahead(path)
    ensures Count(path, Dismiss) == 0 && !q.Data? ==> Ahead(path + [q]) == |Items(path)|
  {
    ItemsAppend(path, [q]);
    AheadAppend(path, [q]);
  }

  /** An acknowledgement may be inserted anywhere without disturbing the items. */
  lemma {:induction false} PathInsertAck(s: seq<Pkt>, t: seq<Pkt>)
    ensures Items(s + [Ack] + t) == Items(s + t)
    ensures Ahead(s + [Ack] + t) == Ahead(s + t)
  {
    ItemsAppend(s, t);
    ItemsAppend(s, [Ack]);
    ItemsAppend(s + [Ack], t);
    AheadAppend(s, t);
    AheadAppend(s, [Ack] + t);
    assert s + [Ack] + t == s + ([Ack] + t);
    assert ([Ack] + t)[1..] == t;
  }

  // The sender's acts

  lemma {:induction false} PutFlows(x: End, y: End, c: Act)
    requires Dialogues(x, y) && Flows(x, y) && Can(x, y, c)
    requires c.DirectWrite? || c.Move? || c.PutDismiss? || c.PutAck?
    ensures Flows(Do(x, y, c), y)
  {
    PathCount(x, y);
    var x' := Do(x, y, c);
    var q := x'.writeIn[|x.writeIn|];
    assert Path(x', y) == Path(x, y) + [q];
    PathPush(Path(x, y), q);
  }

  /** What handling an outgoing packet changes, as far as items are concerned. */
  lemma {:induction false} OutFrame(x: End, y: End)
    requires Dialogues(x, y) && Can(x, y, Out)
    ensures var x' := HandleOut(x);
            && x'.writeOut == x.writeOut + [x.writeIn[0]] && x'.writeIn == x.writeIn[1..]
            && x'.net == x.net && x'.readIn == x.readIn && x'.got == x.got
            && x'.log == x.log && x'.cut == x.cut && Queued(x') == Queued(x)
            && x'.facts.recv == x.facts.recv && x'.app == x.app
  {
    InvCausal(x, y);
    match x.writeIn[0] {
      case Data(_) =>
      case Dismiss => TableFollowsFacts(x.phase, x.facts, CloseSent, true);
      case Ack => TableFollowsFacts(x.phase, x.facts, CloseAck, true);
    }
  }

  lemma {:induction false} OutFlows(x: End, x': End, y: End)
    requires Flows(x, y) && Flows(y, x) && x.writeIn != []
    requires x'.writeOut == x.writeOut + [x.writeIn[0]] && x'.writeIn == x.writeIn[1..]
    requires x'.net == x.net && x'.readIn == x.readIn && x'.got == x.got
    requires x'.log == x.log && x'.cut == x.cut && Queued(x') == Queued(x)
    requires x'.facts.recv == x.facts.recv && (x.fin ==> x'.fin)
    ensures Flows(x', y) && Flows(y, x')
  {
    assert x'.writeOut + x'.writeIn == x.writeOut + x.writeIn;
    assert Path(x', y) == (y.readIn + x.net) + (x'.writeOut + x'.writeIn) == Path(x, y);
    assert Path(y, x') == Path(y, x);
  }

  lemma {:induction false} FlushFlows(x: End, y: End)
    requires Flows(x, y) && Can(x, y, Flush)
    ensures Flows(Do(x, y, Flush), y)
  {
    var x' := Do(x, y, Flush);
    assert x'.net + x'.writeOut == x.net + x.writeOut;
    assert Path(x', y) == y.readIn + (x'.net + x'.writeOut) + x'.writeIn == Path(x, y);
  }

  /** What handling an incoming packet changes, as far as items are concerned. */
  lemma {:induction false} InFrame(x: End, y: End)
    requires Dialogues(x, y) && Can(x, y, In)
    ensures var x', p := HandleIn(x), x.readIn[0];
            && x'.readIn == x.readIn[1..]
            && x'.got == (if p.Data? then x.got + [p.item] else x.got)
            && x'.facts.recv == (x.facts.recv || p == Dismiss)
            && (p.Data? ==> !x'.fin)
            && x'.writeIn == x.writeIn && x'.net == x.net
            && (x'.writeOut == x.writeOut || x'.writeOut == x.writeOut + [Ack])
            && x'.log == x.log && x'.cut == x.cut && Queued(x') == Queued(x) && x'.app == x.app
  {
    InvCausal(x, y);
    match x.readIn[0]
    case Data(_) =>
    case Dismiss => TableFollowsFacts(x.phase, x.facts, CloseRecv, false);
    case Ack => TableFollowsFacts(x.phase, x.facts, CloseAck, false);
  }

  /** The outgoing side: the bypass inserts an acknowledgement before `writeIn`. */
  lemma {:induction false} InFlowsOut(x: End, x': End, y: End)
    requires Flows(x, y)
    requires x'.writeIn == x.writeIn && x'.net == x.net
    requires x'.writeOut == x.writeOut || x'.writeOut == x.writeOut + [Ack]
    requires x'.log == x.log && x'.cut == x.cut && Queued(x') == Queued(x)
    ensures Flows(x', y)
  {
    if x'.writeOut != x.writeOut {
      PathInsertAck(y.readIn + x.net + x.writeOut, x.writeIn);
      assert Path(x', y) == (y.readIn + x.net + x.writeOut) + [Ack] + x.writeIn;
    }
  }

  // The receiver's acts: items flow from `y` to `x`

  lemma {:induction false} InFlows(x: End, x': End, y: End)
    requires Flows(y, x) && x.readIn != [] && !x.fin
    requires x.readIn[0] == Dismiss ==> !x.facts.recv
    requires var p := x.readIn[0];
             && x'.readIn == x.readIn[1..]
             && x'.got == (if p.Data? then x.got + [p.item] else x.got)
             && x'.facts.recv == (x.facts.recv || p == Dismiss)
    ensures Flows(y, x')
  {
    var p := Path(y, x);
    assert Path(y, x') == p[1..] && p[0] == x.readIn[0];
    assert Items(p) == (if p[0].Data? then [p[0].item] else []) + Items(p[1..]);
    assert x'.got + Items(p[1..]) == x.got + Items(p);
  }

  lemma {:induction false} ArriveFlows(x: End, y: End)
    requires Dialogues(x, y) && Flows(y, x) && Can(x, y, Arrive)
    ensures Flows(Peer(y, Arrive), Do(x, y, Arrive))
  {
    var x', y' := Do(x, y, Arrive), Peer(y, Arrive);
    if !x.fin {
      assert x'.readIn + y'.net == x.readIn + y.net;
      assert Path(y', x') == (x'.readIn + y'.net) + y.writeOut + y.writeIn == Path(y, x);
    }
  }

  /** Only the handler and the writer touch the queues; everything else leaves both
      directions as they are. */
  lemma {:induction false} ActFlows(x: End, y: End, c: Act)
    requires Dialogues(x, y) && Flows(x, y) && Flows(y, x) && Can(x, y, c)
    ensures Flows(Do(x, y, c), Peer(y, c)) && Flows(Peer(y, c), Do(x, y, c))
  {
    match c
    case Out => HandlerFlows(x, y, c);
    case In => HandlerFlows(x, y, c);
    case Flush => FlushFlows(x, y); FlushFlowsIn(x, y);
    case Arrive => ArriveFlows(x, y); ArriveFlowsOut(x, y);
    case DirectWrite(_) => PutFlows(x, y, c); PutFlowsIn(x, y, c);
    case Move => PutFlows(x, y, c); PutFlowsIn(x, y, c);
    case PutDismiss => PutFlows(x, y, c); PutFlowsIn(x, y, c);
    case PutAck => PutFlows(x, y, c); PutFlowsIn(x, y, c);
    case Eof => NeverEof(x, y);
    case _ => CloseFlows(x, y, c);
  }

  lemma {:induction false} HandlerFlows(x: End, y: End, c: Act)
    requires Dialogues(x, y) && Flows(x, y) && Flows(y, x) && Can(x, y, c) && (c.Out? || c.In?)
    ensures Flows(Do(x, y, c), y) && Flows(y, Do(x, y, c))
  {
    if c.Out? {
      OutFrame(x, y);
      OutFlows(x, HandleOut(x), y);
    } else {
      InFrame(x, y);
      InFlows(x, HandleIn(x), y);
      InFlowsOut(x, HandleIn(x), y);
    }
  }

  // The other direction, which these acts do not touch

  lemma {:induction false} FlushFlowsIn(x: End, y: End)
    requires Flows(y, x) && Can(x, y, Flush)
    ensures Flows(y, Do(x, y, Flush))
  {
    assert Path(y, Do(x, y, Flush)) == Path(y, x);
  }

  lemma {:induction false} PutFlowsIn(x: End, y: End, c: Act)
    requires Flows(y, x) && Can(x, y, c)
    requires c.DirectWrite? || c.Move? || c.PutDismiss? || c.PutAck?
    ensures Flows(y, Do(x, y, c))
  {
    assert Path(y, Do(x, y, c)) == Path(y, x);
  }

  lemma {:induction false} ArriveFlowsOut(x: End, y: End)
    requires Dialogues(x, y) && Flows(x, y) && Can(x, y, Arrive)
    ensures Flows(Do(x, y, Arrive), Peer(y, Arrive))
  {
    assert Path(Do(x, y, Arrive), Peer(y, Arrive)) == Path(x, y);
  }

  lemma {:induction false} CloseFlows(x: End, y: End, c: Act)
    requires Dialogues(x, y) && Flows(x, y) && Flows(y, x) && Can(x, y, c)
    requires c.AppWrite? || c.AppClose? || c.CloseCall? || c.RunClose? || c.Drain?
    ensures Flows(Do(x, y, c), y) && Flows(y, Do(x, y, c))
  {
    var x' := Do(x, y, c);
    assert Path(x', y) == Path(x, y) && Path(y, x') == Path(y, x);
  }

  // The stream above the dialogue

  /** Writes are in the stream's queue or were forwarded, in order; and when it was the drain
      that closed the dialogue, everything written before Close went in ahead. */
  predicate Source(x: End) {
    && Streamed(x.log) + x.app.queue == x.app.log
    && (Queued(x) ==> x.cut <= |x.log|)
    && (x.app.closing ==> x.app.mark <= |x.app.log|)
    && (x.app.clean ==> x.once && x.app.closing
                        && x.app.mark <= |Streamed(if Queued(x) then x.log[..x.cut] else x.log)|)
  }

  lemma {:induction false} PutSource(x: End, y: End, c: Act)
    requires Source(x) && Can(x, y, c)
    requires c.DirectWrite? || c.Move?
    ensures Source(Do(x, y, c))
  {
    var x' := Do(x, y, c);
    var i := x'.log[|x.log|];
    StreamedAppend(x.log, [i]);
    assert Streamed([i]) == if i.direct then [] else [i.id];
    assert Streamed(x'.log) + x'.app.queue == x'.app.log;
    if Queued(x) {
      assert x'.log[..x.cut] == x.log[..x.cut];
    }
  }

  lemma {:induction false} CloseSource(x: End, y: End, c: Act)
    requires Local(x) && Source(x) && Can(x, y, c)
    requires c.AppWrite? || c.AppClose? || c.CloseCall? || c.RunClose? || c.Drain?
             || c.PutDismiss? || c.PutAck?
    ensures Source(Do(x, y, c))
  {
    var x' := Do(x, y, c);
    assert x'.log == x.log;
    assert x.log[..|x.log|] == x.log;
    assert Streamed(x'.log) + x'.app.queue == x'.app.log;
  }

  lemma {:induction false} ActSource(x: End, y: End, c: Act)
    requires Dialogues(x, y) && Source(x) && Can(x, y, c)
    ensures Source(Do(x, y, c))
  {
    match c
    case Out => HandlerSource(x, y, c);
    case In => HandlerSource(x, y, c);
    case Flush => WireSource(x, y, c);
    case Arrive => WireSource(x, y, c);
    case DirectWrite(_) => PutSource(x, y, c);
    case Move => PutSource(x, y, c);
    case Eof => NeverEof(x, y);
    case _ => CloseSource(x, y, c);
  }

  lemma {:induction false} HandlerSource(x: End, y: End, c: Act)
    requires Dialogues(x, y) && Source(x) && Can(x, y, c) && (c.Out? || c.In?)
    ensures Source(Do(x, y, c))
  {
    if c.Out? {
      OutFrame(x, y);
    } else {
      InFrame(x, y);
    }
    SameSource(x, Do(x, y, c));
  }

  lemma {:induction false} WireSource(x: End, y: End, c: Act)
    requires Source(x) && Can(x, y, c) && (c.Flush? || c.Arrive?)
    ensures Source(Do(x, y, c))
  {
    SameSource(x, Do(x, y, c));
  }

  lemma {:induction false} SameSource(x: End, x': End)
    requires Source(x) && x'.log == x.log && x'.app == x.app && x'.cut == x.cut
    requires x'.once == x.once && x'.pendDismiss == x.pendDismiss
    ensures Source(x')
  {
  }

  predicate DataInv(s: Sys) {
    && Dialogues(s.a, s.b) && Flows(s.a, s.b) && Flows(s.b, s.a) && Source(s.a) && Source(s.b)
  }

  lemma {:induction false} ActData(x: End, y: End, c: Act)
    requires DataInv(Sys(x, y)) && Can(x, y, c)
    ensures DataInv(Sys(Do(x, y, c), Peer(y, c)))
    ensures DataInv(Sys(Peer(y, c), Do(x, y, c)))
  {
    ActKeeps(x, y, c);
    ActFlows(x, y, c);
    ActSource(x, y, c);
    KindStays(x, y, c);
    assert Source(Peer(y, c));
  }

  lemma {:induction false} KindStays(x: End, y: End, c: Act)
    requires Can(x, y, c)
    ensures Do(x, y, c).kind == x.kind && Peer(y, c).kind == y.kind
  {
  }

  lemma {:induction false} StepData(s: Sys, l: Label)
    requires DataInv(s) && CanStep(s, l)
    ensures DataInv(Step(s, l))
  {
    if l.left {
      ActData(s.a, s.b, l.act);
    } else {
      ActData(s.b, s.a, l.act);
    }
  }

  lemma {:induction false} RunData(s: Sys, ls: seq<Label>)
    requires DataInv(s) && CanRun(s, ls)
    ensures DataInv(Run(s, ls))
    decreases |ls|
  {
    if ls != [] {
      StepData(s, ls[0]);
      RunData(Step(s, ls[0]), ls[1..]);
    }
  }

  /** What `y` holds of the data `x` was given: in order and without gaps, a prefix of what
      was handed to the dialogue, and of what was written to the stream above it. Once `y`
      has ended it has everything handed over before the close packet was queued; and where
      the stream's own drain closed the dialogue, every Write that returned before Close. */
  predicate Delivered(x: End, y: End) {
    && y.got <= x.log && Streamed(y.got) <= x.app.log
    && (y.fin ==> x.cut <= |x.log| && x.log[..x.cut] <= y.got)
    && (y.fin && x.app.clean ==>
          x.app.mark <= |x.app.log| && x.app.log[..x.app.mark] <= Streamed(y.got))
  }

  lemma {:induction false} DataInvDelivers(x: End, y: End)
    requires Dialogues(x, y) && Flows(x, y) && Source(x)
    ensures Delivered(x, y)
  {
    StreamedPrefix(y.got, x.log);
    if y.fin {
      InvCausal(x, y);
      assert Queued(x);
      StreamedPrefix(x.log[..x.cut], y.got);
    }
  }

  lemma {:induction false} EmptyFlows(x: End)
    requires x.readIn == [] && x.net == [] && x.writeOut == [] && x.writeIn == []
    requires x.got == [] && x.log == [] && !x.once
    ensures Flows(x, x)
  {
    assert Path(x, x) == [];
  }

  lemma {:induction false} EmptyLocal(x: End)
    requires x.kind == Dialogue && !x.bad && !x.fin && !x.once && x.phase == Open && x.facts == NO_FACTS
    requires x.readIn == [] && x.net == [] && x.writeOut == [] && x.writeIn == [] && x.log == []
    requires x.pendClose == 0 && x.pendDismiss == 0 && x.pendAck == 0
    requires x.app == Stream([], [], false, 0, false, false)
    ensures Both(x, x) && Source(x)
  {
    assert Streamed(x.log) == [];
  }

  lemma {:induction false} InitialData(x: End)
    requires x == NewEnd(x.kind) && x.kind == Dialogue
    ensures DataInv(Sys(x, x))
  {
    EmptyFlows(x);
    EmptyLocal(x);
  }

  lemma {:induction false} RunDelivers(s: Sys, ls: seq<Label>)
    requires DataInv(s) && CanRun(s, ls)
    ensures var t := Run(s, ls); Delivered(t.a, t.b) && Delivered(t.b, t.a)
  {
    RunData(s, ls);
    var t := Run(s, ls);
    DataInvDelivers(t.a, t.b);
    DataInvDelivers(t.b, t.a);
  }

  /** Data before goodbye, in both directions, in every reachable state. */
  lemma {:induction false} DataBeforeGoodbye(s: Sys, ls: seq<Label>)
    requires Initial(s) && s.a.kind == Dialogue && CanRun(s, ls)
    ensures var t := Run(s, ls); Delivered(t.a, t.b) && Delivered(t.b, t.a)
  {
    InitialData(s.a);
    RunDelivers(s, ls);
  }
}
