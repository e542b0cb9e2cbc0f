/** Exactly which writes survive a close, and how a close can be completed without the
    stream above taking part. */
module CloseExact {
  import opened Handshake
  import opened CloseProtocol
  import opened CloseSafety
  import opened CloseProgress
  import opened CloseData

  /** A goroutine of one of the endpoints that can move. */
  lemma {:induction false} NextMove(s: Sys) returns (l: Label)
    requires Inv(s) && (Started(s.a) || Started(s.b))
    requires !(s.a.fin && s.b.fin)
    ensures CanStep(s, l) && Protocol(l.act)
  {
    if !Idle(s.a, s.b) {
      var c :| Protocol(c) && Can(s.a, s.b, c);
      l := Label(true, c);
    } else if !Idle(s.b, s.a) {
      var c :| Protocol(c) && Can(s.b, s.a, c);
      l := Label(false, c);
    } else {
      IdleMeansFinished(s.a, s.b);
      assert false;
    }
  }

  predicate AllProtocol(ls: seq<Label>) {
    forall i :: 0 <= i < |ls| ==> Protocol(ls[i].act)
  }

  lemma {:induction false} StartedStays(x: End, y: End, c: Act)
    requires Can(x, y, c)
    ensures Started(x) ==> Started(Do(x, y, c))
    ensures Started(y) ==> Started(Peer(y, c))
  {
  }

  lemma {:induction false} MoveOn(s: Sys, l: Label)
    requires Inv(s) && CanStep(s, l) && Protocol(l.act)
    ensures Inv(Step(s, l)) && TotalWork(Step(s, l)) < TotalWork(s)
    ensures Started(s.a) || Started(s.b) ==> Started(Step(s, l).a) || Started(Step(s, l).b)
  {
    StepKeeps(s, l);
    StepWorks(s, l);
    if l.left {
      StartedStays(s.a, s.b, l.act);
    } else {
      StartedStays(s.b, s.a, l.act);
    }
  }

  /** From every state in which closing a dialogue or a connection has begun, the endpoints'
      own goroutines can bring both to their end, the streams above taking no part. */
  lemma {:induction false} FinishAlone(s: Sys) returns (ls: seq<Label>)
    requires Inv(s) && (Started(s.a) || Started(s.b))
    ensures CanRun(s, ls) && AllProtocol(ls)
    ensures Run(s, ls).a.fin && Run(s, ls).b.fin
    decreases TotalWork(s)
  {
    if s.a.fin && s.b.fin {
      ls := [];
    } else {
      var l := NextMove(s);
      MoveOn(s, l);
      var rest := FinishAlone(Step(s, l));
      ls := [l] + rest;
      assert ls[1..] == rest;
    }
  }

  /** Without the stream, nothing new is handed to the dialogue. */
  lemma {:induction false} AloneStep(x: End, y: End, c: Act)
    requires Dialogues(x, y) && Can(x, y, c) && Protocol(c)
    ensures Do(x, y, c).app == x.app && Do(x, y, c).log == x.log
  {
    if c.Out? {
      OutFrame(x, y);
    } else if c.In? {
      InFrame(x, y);
    }
  }

  lemma {:induction false} AloneSystem(s: Sys, l: Label)
    requires Dialogues(s.a, s.b) && CanStep(s, l) && Protocol(l.act)
    ensures Step(s, l).a.app == s.a.app && Step(s, l).a.log == s.a.log
  {
    if l.left {
      AloneStep(s.a, s.b, l.act);
    }
  }

  lemma {:induction false} AloneRun(s: Sys, ls: seq<Label>)
    requires DataInv(s) && CanRun(s, ls) && AllProtocol(ls)
    ensures Run(s, ls).a.app == s.a.app && Run(s, ls).a.log == s.a.log
    decreases |ls|
  {
    if ls != [] {
      AloneSystem(s, ls[0]);
      StepData(s, ls[0]);
      AloneRun(Step(s, ls[0]), ls[1..]);
    }
  }

  /** The first `n` items given to `x` precede its close packet. */
  predicate Precedes(x: End, n: nat) {
    if Queued(x) then n <= x.cut else n <= |x.log|
  }

  lemma {:induction false} PrecedesStep(x: End, y: End, c: Act, n: nat)
    requires Dialogues(x, y) && Can(x, y, c) && Precedes(x, n)
    requires Queued(x) ==> x.cut <= |x.log|
    ensures Precedes(Do(x, y, c), n) && x.log <= Do(x, y, c).log
  {
    if c.Out? {
      OutFrame(x, y);
    } else if c.In? {
      InFrame(x, y);
    } else if c.Eof? {
      NeverEof(x, y);
    }
  }

  lemma {:induction false} PrecedesSystem(s: Sys, l: Label, n: nat)
    requires DataInv(s) && CanStep(s, l) && Precedes(s.a, n)
    ensures Precedes(Step(s, l).a, n) && s.a.log <= Step(s, l).a.log
  {
    if l.left {
      PrecedesStep(s.a, s.b, l.act, n);
    }
  }

  lemma {:induction false} PrecedesRun(s: Sys, ls: seq<Label>, n: nat)
    requires DataInv(s) && CanRun(s, ls) && Precedes(s.a, n)
    ensures Precedes(Run(s, ls).a, n) && s.a.log <= Run(s, ls).a.log
    decreases |ls|
  {
    if ls != [] {
      PrecedesSystem(s, ls[0], n);
      StepData(s, ls[0]);
      PrecedesRun(Step(s, ls[0]), ls[1..], n);
    }
  }

  lemma {:induction false} EarlyWritesArrive(s: Sys, ls: seq<Label>)
    requires DataInv(s) && !Queued(s.a) && CanRun(s, ls) && Run(s, ls).b.fin
    ensures Streamed(s.a.log) <= Streamed(Run(s, ls).b.got)
  {
    var n, t := |s.a.log|, Run(s, ls);
    PrecedesRun(s, ls, n);
    RunData(s, ls);
    InvCausal(t.a, t.b);
    assert Queued(t.a) && s.a.log <= t.b.got;
    StreamedPrefix(s.a.log, t.b.got);
  }

  lemma {:induction false} LateWritesCanBeLost(s: Sys) returns (ls: seq<Label>)
    requires DataInv(s) && Started(s.a) && s.a.app.queue != []
    ensures CanRun(s, ls) && Run(s, ls).a.fin && Run(s, ls).b.fin
    ensures |Streamed(Run(s, ls).b.got)| < |s.a.app.log|
  {
    ls := FinishAlone(s);
    AloneRun(s, ls);
    RunDelivers(s, ls);
    StreamedPrefix(Run(s, ls).b.got, s.a.log);
  }

  /** Which writes survive, at the moment a dialogue is closed and its close packet not yet
      queued: every way to end delivers all that was ever written to the stream if and only
      if the stream's queue is empty at that moment. The drain closes with an empty queue;
      a peer that closes first does not wait for one. */
  lemma {:induction false} SurvivesIffDrained(s: Sys)
    requires DataInv(s) && s.a.once && s.a.pendDismiss > 0
    ensures s.a.app.queue == []
            <==> forall ls :: CanRun(s, ls) && Run(s, ls).b.fin
                              ==> s.a.app.log <= Streamed(Run(s, ls).b.got)
  {
    if s.a.app.queue == [] {
      forall ls | CanRun(s, ls) && Run(s, ls).b.fin
        ensures s.a.app.log <= Streamed(Run(s, ls).b.got)
      {
        EarlyWritesArrive(s, ls);
      }
    } else {
      var ls := LateWritesCanBeLost(s);
      assert CanRun(s, ls) && Run(s, ls).b.fin;
    }
  }

  lemma {:induction false} RunOf3(s: Sys, i: Label, j: Label, k: Label)
    requires CanStep(s, i) && CanStep(Step(s, i), j) && CanStep(Step(Step(s, i), j), k)
    ensures CanRun(s, [i, j, k]) && Run(s, [i, j, k]) == Step(Step(Step(s, i), j), k)
  {
    assert [i, j, k][1..] == [j, k];
    RunOf2(Step(s, i), j, k);
  }

  lemma {:induction false} UserWritesAndCloses(s: Sys, id: nat) returns (ls: seq<Label>)
    requires Initial(s) && s.a.kind == Dialogue
    ensures CanRun(s, ls)
    ensures var t := Run(s, ls);
            && t.a == s.a.(app := Stream([id], [id], true, 1, false, false))
            && t.b == s.b.(once := true, pendDismiss := 1)
  {
    var i, j, k := Label(true, AppWrite(id)), Label(true, AppClose), Label(false, CloseCall);
    RunOf3(s, i, j, k);
    ls := [i, j, k];
  }

  lemma {:induction false} PeerSendsDismiss(s: Sys) returns (ls: seq<Label>)
    requires s.b == NewEnd(Dialogue).(once := true, pendDismiss := 1)
    ensures CanRun(s, ls)
    ensures Run(s, ls).a == s.a && Run(s, ls).b.net == [Dismiss]
  {
    var i, j, k := Label(false, PutDismiss), Label(false, Out), Label(false, Flush);
    assert Step(s, i).b.writeIn == [Dismiss];
    assert Step(Step(s, i), j).b.writeOut == [Dismiss];
    RunOf3(s, i, j, k);
    ls := [i, j, k];
  }

  lemma {:induction false} DismissArrives(s: Sys) returns (ls: seq<Label>)
    requires s.b.net == [Dismiss] && s.a.readIn == [] && s.a.phase == Open && !s.a.fin
    requires !s.a.once && s.a.pendClose == 0
    ensures CanRun(s, ls)
    ensures Run(s, ls).a.app == s.a.app && Run(s, ls).a.once && Run(s, ls).a.pendDismiss > 0
  {
    var i, j, k := Label(true, Arrive), Label(true, In), Label(true, RunClose);
    assert Step(s, i).a.readIn == [Dismiss];
    RunOf3(s, i, j, k);
    ls := [i, j, k];
  }

  /** The user of `a` writes and closes; `b` closes at the same time and its close packet
      reaches `a` first. The dialogue is then closed with the write still in the queue, so
      by SurvivesIffDrained a write that returned before Close can be lost. */
  lemma {:induction false} PeerClosesFirst(s: Sys, id: nat) returns (ls: seq<Label>)
    requires Initial(s) && s.a.kind == Dialogue
    ensures CanRun(s, ls)
    ensures var x := Run(s, ls).a;
            && x.app == Stream([id], [id], true, 1, false, false)
            && x.once && x.pendDismiss > 0
  {
    var ls1 := UserWritesAndCloses(s, id);
    var ls2 := PeerSendsDismiss(Run(s, ls1));
    RunConcat(s, ls1, ls2);
    var ls3 := DismissArrives(Run(s, ls1 + ls2));
    RunConcat(s, ls1 + ls2, ls3);
    ls := ls1 + ls2 + ls3;
  }
}
