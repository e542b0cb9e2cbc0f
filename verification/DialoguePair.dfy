/** Two dialogue objects, one at each end of a connection: whatever is done to them they stay in
    step, and once either is closed the goroutines bring both to their end. */
module DialoguePair {
  import opened Options
  import opened Handshake
  import opened CloseProtocol
  import opened CloseSafety
  import opened CloseProgress
  import opened CloseData
  import opened CloseExact
  import opened DialogueObject

  ghost function Both2(a: Dialogue, b: Dialogue): (s: Sys)
    requires a.Valid() && b.Valid()
    reads a, b
  {
    Sys(a.View(), b.View())
  }

  /** The two objects are in step, as far as closing and data are concerned. */
  ghost predicate InStep(a: Dialogue, b: Dialogue)
    reads a, b
  {
    a != b && a.Valid() && b.Valid() && DataInv(Both2(a, b))
  }

  /** What being in step means for a user of the two objects. */
  lemma {:induction false} InStepMeans(a: Dialogue, b: Dialogue)
    requires InStep(a, b)
    ensures !a.failed && !b.failed
    ensures (a.ended <==> Done(a.facts)) && (b.ended <==> Done(b.facts))
    ensures Delivered(a.View(), b.View()) && Delivered(b.View(), a.View())
  {
    DataInvDelivers(a.View(), b.View());
    DataInvDelivers(b.View(), a.View());
  }

  /** readPkt of the manager at `a`: the head of the peer's wire goes to `a`, or nowhere. */
  method Deliver(a: Dialogue, b: Dialogue)
    requires a != b && a.Valid() && b.Valid() && b.wire != []
    modifies a`readIn, b`wire
    ensures a.Valid() && b.Valid()
    ensures a.View() == Do(old(a.View()), old(b.View()), Arrive)
    ensures b.View() == Peer(old(b.View()), Arrive)
  {
    if !a.ended {
      a.readIn := a.readIn + [b.wire[0]];
    }
    b.wire := b.wire[1..];
  }

  /** What the users of `a` and the stream above it can do. */
  method PerformUser(a: Dialogue, b: Dialogue, c: Act)
    requires a != b && a.Valid() && b.Valid() && Can(a.View(), b.View(), c) && !Protocol(c) && !c.Eof?
    modifies a
    ensures a.Valid() && a.View() == Do(old(a.View()), old(b.View()), c)
  {
    match c
    case AppWrite(id) => a.StreamWrite(id);
    case AppClose => a.StreamClose();
    case DirectWrite(id) => a.Write(Item(id, true));
    case CloseCall => a.Close();
    case Move => a.StreamForward();
    case Drain => a.StreamDrained();
  }

  /** What the goroutines of `a` can do. */
  method PerformProtocol(a: Dialogue, b: Dialogue, c: Act)
    requires a != b && a.Valid() && b.Valid() && Both(a.View(), b.View())
    requires Can(a.View(), b.View(), c) && Protocol(c)
    modifies a, b`wire
    ensures a.Valid() && b.Valid()
    ensures a.View() == Do(old(a.View()), old(b.View()), c) && b.View() == Peer(old(b.View()), c)
  {
    match c
    case RunClose => a.CloseAsync();
    case PutDismiss => a.SendDismiss();
    case PutAck => a.SendAck();
    case Out => a.HandleOut(b.View());
    case In => a.HandleIn(b.View());
    case Flush => a.WritePkt();
    case Arrive => Deliver(a, b);
  }

  method PerformOne(a: Dialogue, b: Dialogue, c: Act)
    requires a != b && a.Valid() && b.Valid() && Both(a.View(), b.View()) && Can(a.View(), b.View(), c)
    modifies a, b
    ensures a.Valid() && b.Valid()
    ensures a.View() == Do(old(a.View()), old(b.View()), c) && b.View() == Peer(old(b.View()), c)
  {
    NeverEof(a.View(), b.View());
    if c.AppWrite? || c.AppClose? || c.DirectWrite? || c.CloseCall? || c.Move? || c.Drain? {
      PerformUser(a, b, c);
    } else {
      PerformProtocol(a, b, c);
    }
  }

  /** Any act of either object is the step of the protocol, and leaves them in step. */
  method Perform(a: Dialogue, b: Dialogue, l: Label)
    requires InStep(a, b) && CanStep(Both2(a, b), l)
    modifies a, b
    ensures InStep(a, b) && Both2(a, b) == Step(old(Both2(a, b)), l)
  {
    ghost var s := Both2(a, b);
    StepData(s, l);
    if l.left {
      PerformOne(a, b, l.act);
    } else {
      PerformOne(b, a, l.act);
    }
    assert Both2(a, b) == Step(s, l);
  }

  /** Every run, played on two objects in step: neither ever fails, each has ended exactly when
      its handshake is done, and each holds what the other was given, in order and before it
      ends. */
  method Play(a: Dialogue, b: Dialogue, ls: seq<Label>)
    requires InStep(a, b) && CanRun(Both2(a, b), ls)
    modifies a, b
    ensures InStep(a, b) && Both2(a, b) == Run(old(Both2(a, b)), ls)
    ensures !a.failed && !b.failed
    ensures (a.ended <==> Done(a.facts)) && (b.ended <==> Done(b.facts))
    ensures Delivered(a.View(), b.View()) && Delivered(b.View(), a.View())
  {
    ghost var end := Run(Both2(a, b), ls);
    var rest := ls;
    while rest != []
      invariant InStep(a, b) && CanRun(Both2(a, b), rest) && Run(Both2(a, b), rest) == end
      decreases |rest|
    {
      Perform(a, b, rest[0]);
      rest := rest[1..];
    }
    InStepMeans(a, b);
  }

  predicate Newly(x: End) { x == NewEnd(x.kind) && x.kind == Dialogue }

  method NewDialogue() returns (a: Dialogue)
    ensures fresh(a) && a.Valid() && Newly(a.View())
  {
    a := new Dialogue();
  }

  /** Two new objects are in step. */
  method NewPair() returns (a: Dialogue, b: Dialogue)
    ensures fresh(a) && fresh(b) && InStep(a, b) && Initial(Both2(a, b))
  {
    a := NewDialogue();
    b := NewDialogue();
    FreshPair(Both2(a, b));
  }

  lemma {:induction false} FreshPair(s: Sys)
    requires Newly(s.a) && Newly(s.b)
    ensures Initial(s) && DataInv(s)
  {
    assert s == Sys(s.a, s.a);
    InitialData(s.a);
  }

  /** A goroutine of `a` that can move, if there is one. */
  method Pending(a: Dialogue, b: Dialogue) returns (r: Option<Act>)
    requires a != b && a.Valid() && b.Valid()
    ensures r.Some? ==> Protocol(r.value) && Can(a.View(), b.View(), r.value)
    ensures r.None? ==> Idle(a.View(), b.View())
  {
    if a.closeCalls > 0 { return Some(RunClose); }
    if !a.ended && a.dismissSends > 0 { return Some(PutDismiss); }
    if !a.ended && a.ackSends > 0 { return Some(PutAck); }
    if !a.ended && a.writeIn != [] { return Some(Out); }
    if !a.ended && a.readIn != [] { return Some(In); }
    if a.writeOut != [] { return Some(Flush); }
    if b.wire != [] { return Some(Arrive); }
    return None;
  }

  /** Once either object is being closed, run the goroutines in this order until none can move:
      both objects end, without an error, and with all that was given to the other before its
      close packet. */
  method CloseBoth(a: Dialogue, b: Dialogue)
    requires InStep(a, b) && (Started(a.View()) || Started(b.View()))
    modifies a, b
    ensures InStep(a, b) && a.ended && b.ended && !a.failed && !b.failed
    ensures Delivered(a.View(), b.View()) && Delivered(b.View(), a.View())
  {
    while true
      invariant InStep(a, b) && (Started(a.View()) || Started(b.View()))
      decreases TotalWork(Both2(a, b))
    {
      var l;
      var c := Pending(a, b);
      if c.Some? {
        l := Label(true, c.value);
      } else {
        c := Pending(b, a);
        if c.None? {
          break;
        }
        l := Label(false, c.value);
      }
      MoveOn(Both2(a, b), l);
      Perform(a, b, l);
    }
    IdleMeansFinished(a.View(), b.View());
    InStepMeans(a, b);
  }
}
