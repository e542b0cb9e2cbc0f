/** A client and a server connection object facing each other: whatever is done to them they stay
    in step, and once either is closed the goroutines bring both to their end. */
module ConnPair {
  import opened Options
  import opened Handshake
  import opened CloseProtocol
  import opened CloseSafety
  import opened ConnData
  import opened CloseProgress
  import opened CloseExact
  import opened ConnObject

  ghost function Both2(a: BaseConn, b: BaseConn): (s: Sys)
    requires a.Valid() && b.Valid()
    reads a, b
  {
    Sys(a.View(), b.View())
  }

  ghost predicate InStep(a: BaseConn, b: BaseConn)
    reads a, b
  {
    a != b && a.Valid() && b.Valid() && ConnInv(Both2(a, b))
  }

  lemma {:induction false} InStepMeans(a: BaseConn, b: BaseConn)
    requires InStep(a, b)
    ensures !a.failed && !b.failed
    ensures (a.ended <==> Done(a.facts)) && (b.ended <==> Done(b.facts))
    ensures ConnDelivers(a.View(), b.View()) && ConnDelivers(b.View(), a.View())
  {
    FlowDelivers(a.View(), b.View());
    FlowDelivers(b.View(), a.View());
  }

  // What can be done to a connection object; the rest of the protocol belongs to streams, or
  // happens inside the handler
  predicate Doable(c: Act) {
    c.DirectWrite? || c.CloseCall? || c.PutDismiss? || c.PutAck? || c.Out? || c.In? || c.Flush? || c.Arrive?
  }

  /** One act of an object: the protocol's step, and the call of Close it makes. */
  function ConnStep(s: Sys, l: Label): (t: Sys)
    requires CanStep(s, l)
  {
    var t := Step(s, l);
    if l.left then t.(a := Settle(t.a)) else t.(b := Settle(t.b))
  }

  lemma {:induction false} ActSettles(x: End, y: End, c: Act)
    requires Both(x, y) && x.pendClose == 0 && Can(x, y, c) && Doable(c)
    ensures Do(x, y, c).pendClose <= 1 && Settle(Do(x, y, c)).pendClose == 0
    ensures Both(Settle(Do(x, y, c)), Peer(y, c))
    ensures !c.In? ==> Settle(Do(x, y, c)) == Do(x, y, c)
  {
    ActKeeps(x, y, c);
    if c.In? {
      InSettles(x, y);
    }
    SettleKeeps(Do(x, y, c), Peer(y, c));
  }

  /** An act of an object is a run of the protocol of one step or two. */
  lemma {:induction false} ConnStepIsRun(s: Sys, l: Label) returns (ls: seq<Label>)
    requires Inv(s) && s.a.pendClose == 0 && s.b.pendClose == 0 && CanStep(s, l) && Doable(l.act)
    ensures CanRun(s, ls) && Run(s, ls) == ConnStep(s, l) && 1 <= |ls| <= 2
  {
    var t := Step(s, l);
    StepKeeps(s, l);
    var x, y := if l.left then s.a else s.b, if l.left then s.b else s.a;
    ActSettles(x, y, l.act);
    var x', y' := Do(x, y, l.act), Peer(y, l.act);
    SettleKeeps(x', y');
    if x'.pendClose > 0 {
      RunOf2(s, l, Label(l.left, RunClose));
      ls := [l, Label(l.left, RunClose)];
    } else {
      RunOf1(s, l);
      ls := [l];
    }
  }

  /** readPkt: the head of the peer's wire goes to `a`, or nowhere. */
  method Deliver(a: BaseConn, b: BaseConn)
    requires a != b && a.Valid() && b.Valid() && b.netconn != []
    modifies a`readIn, b`netconn
    ensures a.Valid() && b.Valid()
    ensures a.View() == Do(old(a.View()), old(b.View()), Arrive)
    ensures b.View() == Peer(old(b.View()), Arrive)
  {
    if !a.ended {
      a.readIn := a.readIn + [b.netconn[0]];
    }
    b.netconn := b.netconn[1..];
  }

  method PerformOne(a: BaseConn, b: BaseConn, c: Act)
    requires a != b && a.Valid() && b.Valid() && Both(a.View(), b.View())
    requires Can(a.View(), b.View(), c) && Doable(c)
    modifies a, b
    ensures a.Valid() && b.Valid()
    ensures a.View() == Settle(Do(old(a.View()), old(b.View()), c)) && b.View() == Peer(old(b.View()), c)
  {
    ActSettles(a.View(), b.View(), c);
    match c
    case DirectWrite(id) => a.Write(Item(id, true));
    case CloseCall => a.Close();
    case PutDismiss => a.SendDisConn();
    case PutAck => a.SendAck();
    case Out => a.HandleOut(b.View());
    case In => a.HandleIn(b.View());
    case Flush => a.WritePkt();
    case Arrive => Deliver(a, b);
  }

  lemma {:induction false} ConnStepKeeps(s: Sys, l: Label)
    requires ConnInv(s) && s.a.pendClose == 0 && s.b.pendClose == 0 && CanStep(s, l) && Doable(l.act)
    ensures ConnInv(ConnStep(s, l))
  {
    var ls := ConnStepIsRun(s, l);
    RunConn(s, ls);
  }

  /** Any act of either object is what the protocol does, and leaves them in step. */
  method Perform(a: BaseConn, b: BaseConn, l: Label)
    requires InStep(a, b) && CanStep(Both2(a, b), l) && Doable(l.act)
    modifies a, b
    ensures InStep(a, b) && Both2(a, b) == ConnStep(old(Both2(a, b)), l)
    ensures !a.failed && !b.failed
  {
    ghost var s := Both2(a, b);
    ConnStepKeeps(s, l);
    if l.left {
      PerformOne(a, b, l.act);
    } else {
      PerformOne(b, a, l.act);
    }
    assert Both2(a, b) == ConnStep(s, l);
  }

  predicate Newly(x: End) { x == NewEnd(x.kind) && x.kind == Connection }

  method NewConn(client: bool) returns (a: BaseConn)
    ensures fresh(a) && a.Valid() && Newly(a.View()) && a.client == client
  {
    a := new BaseConn(client);
  }

  lemma {:induction false} FreshPair(s: Sys)
    requires Newly(s.a) && Newly(s.b)
    ensures Initial(s) && ConnInv(s)
  {
    assert s.a == s.b;
    InitialConn(s);
  }

  /** A client and a server past their handshake are in step. */
  method NewPair() returns (a: BaseConn, b: BaseConn)
    ensures fresh(a) && fresh(b) && a.client && !b.client && InStep(a, b) && Initial(Both2(a, b))
  {
    a := NewConn(true);
    b := NewConn(false);
    FreshPair(Both2(a, b));
  }

  /** Something about `a` that can move, if there is anything. */
  method Pending(a: BaseConn, b: BaseConn) returns (r: Option<Act>)
    requires a != b && a.Valid() && b.Valid()
    ensures r.Some? ==> Protocol(r.value) && Doable(r.value) && Can(a.View(), b.View(), r.value)
    ensures r.None? ==> Idle(a.View(), b.View())
  {
    if !a.ended && a.disConnSends > 0 { return Some(PutDismiss); }
    if !a.ended && a.ackSends > 0 { return Some(PutAck); }
    if !a.ended && a.writeIn != [] { return Some(Out); }
    if !a.ended && a.readIn != [] { return Some(In); }
    if !a.ended && a.writeOut != [] { return Some(Flush); }
    if b.netconn != [] { return Some(Arrive); }
    return None;
  }

  lemma {:induction false} SettleWorks(x: End)
    requires x.pendClose <= 1
    ensures Work(Settle(x)) <= Work(x) && (Started(x) ==> Started(Settle(x)))
  {
  }

  lemma {:induction false} MoveOn(s: Sys, l: Label)
    requires Inv(s) && s.a.pendClose == 0 && s.b.pendClose == 0
    requires CanStep(s, l) && Doable(l.act) && Protocol(l.act)
    ensures TotalWork(ConnStep(s, l)) < TotalWork(s)
    ensures Started(s.a) || Started(s.b) ==> Started(ConnStep(s, l).a) || Started(ConnStep(s, l).b)
  {
    StepWorks(s, l);
    var t := Step(s, l);
    if l.left {
      StartedStays(s.a, s.b, l.act);
      ActSettles(s.a, s.b, l.act);
      SettleWorks(t.a);
    } else {
      StartedStays(s.b, s.a, l.act);
      ActSettles(s.b, s.a, l.act);
      SettleWorks(t.b);
    }
  }

  /** Once either object is being closed, run the goroutines in this order until none can move:
      both objects end, without an error. */
  method CloseBoth(a: BaseConn, b: BaseConn)
    requires InStep(a, b) && (Started(a.View()) || Started(b.View()))
    modifies a, b
    ensures InStep(a, b) && a.ended && b.ended && !a.failed && !b.failed
    ensures ConnDelivers(a.View(), b.View()) && ConnDelivers(b.View(), a.View())
  {
    while true
      invariant InStep(a, b) && (Started(a.View()) || Started(b.View()))
      decreases TotalWork(Both2(a, b))
    {
      var l;
      var c := Pending(a, b);
      if c.Some? {
        l := Label(true, c.value);
      } else {
        c := Pending(b, a);
        if c.None? {
          break;
        }
        l := Label(false, c.value);
      }
      MoveOn(Both2(a, b), l);
      Perform(a, b, l);
    }
    IdleMeansFinished(a.View(), b.View());
    InStepMeans(a, b);
  }
}
