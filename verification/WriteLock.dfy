/** The lock discipline around a stream's writeInCh: any number of senders under the read
    lock racing with fini, which closes the channel under the write lock. */
module WriteLock {

  // Write has an arm for teardown and one for its deadline; Publish, Call and the other
  // senders have neither. A Leaky call fails the remote-method check, which returns without
  // unlocking. `fits` is that the packet passes the size check.
  datatype Kind = Writer(fits: bool) | Plain(fits: bool) | Leaky

  datatype Pc = Start | Locked | Sending | Unlocking | Gone | Leaked

  datatype Thread = Thread(kind: Kind, pc: Pc)

  // fini: closes monitorStop, asks for the lock, holds it, is done
  datatype FiniPc = Idle | Stopped | Waiting | Holding | Ended

  // handlePkt: in its select, with a packet it took and has not written yet, gone
  datatype Handler = Selecting | Busy | Away

  // The capacity is 32 or a positive option
  type Size = n: nat | n > 0 witness 1

  datatype World = World(threads: map<nat, Thread>, ok: bool, closed: bool, stopped: bool,
                         fini: FiniPc, len: nat, cap: Size, handler: Handler, panicked: bool)

  function NewWorld(cap: Size): World {
    World(map[], true, false, false, Idle, 0, cap, Selecting, false)
  }

  predicate HoldsPc(p: Pc) { p == Locked || p == Sending || p == Unlocking || p == Leaked }

  function Readers(w: World): set<nat> {
    set t | t in w.threads && HoldsPc(w.threads[t].pc)
  }

  datatype Act =
    | Spawn(t: nat, kind: Kind) | RLock(t: nat) | Check(t: nat) | Send(t: nat)
    | StopArm(t: nat) | DeadlineArm(t: nat) | RUnlock(t: nat)
    | Recv | Wrote | HandlerExit
    | FiniStop | FiniLock | FiniHold | FiniEnd

  predicate At(w: World, t: nat, p: Pc) { t in w.threads && w.threads[t].pc == p }

  predicate Can(w: World, a: Act) {
    match a
    case Spawn(t, _) => t !in w.threads
    // a waiting writer keeps new readers out
    case RLock(t) => At(w, t, Start) && w.fini != Waiting && w.fini != Holding
    case Check(t) => At(w, t, Locked)
    // a send on a closed channel does not block: it panics
    case Send(t) => At(w, t, Sending) && (w.len < w.cap || w.closed)
    case StopArm(t) => At(w, t, Sending) && w.threads[t].kind.Writer? && w.stopped
    case DeadlineArm(t) => At(w, t, Sending) && w.threads[t].kind.Writer?
    case RUnlock(t) => At(w, t, Unlocking)
    case Recv => w.handler == Selecting && w.len > 0 && !w.closed
    case Wrote => w.handler == Busy
    // the packet could not be written, or the channel was closed
    case HandlerExit => w.handler == Busy || (w.handler == Selecting && w.closed)
    case FiniStop => w.fini == Idle
    case FiniLock => w.fini == Stopped
    case FiniHold => w.fini == Waiting && Readers(w) == {}
    case FiniEnd => w.fini == Holding
  }

  function Go(w: World, t: nat, p: Pc): World
    requires t in w.threads
  {
    w.(threads := w.threads[t := w.threads[t].(pc := p)])
  }

  function AfterCheck(w: World, k: Kind): Pc {
    if !w.ok then Unlocking
    else if k.Leaky? then Leaked
    else if k.fits then Sending else Unlocking
  }

  function Do(w: World, a: Act): (w': World)
    requires Can(w, a)
  {
    match a
    case Spawn(t, k) => w.(threads := w.threads[t := Thread(k, Start)])
    case RLock(t) => Go(w, t, Locked)
    case Check(t) => Go(w, t, AfterCheck(w, w.threads[t].kind))
    case Send(t) =>
      if w.closed then Go(w.(panicked := true), t, Unlocking) else Go(w.(len := w.len + 1), t, Unlocking)
    case StopArm(t) => Go(w, t, Unlocking)
    case DeadlineArm(t) => Go(w, t, Unlocking)
    case RUnlock(t) => Go(w, t, Gone)
    case Recv => w.(len := w.len - 1, handler := Busy)
    case Wrote => w.(handler := Selecting)
    case HandlerExit => w.(handler := Away)
    case FiniStop => w.(fini := Stopped, stopped := true)
    case FiniLock => w.(fini := Waiting)
    case FiniHold => w.(fini := Holding, ok := false, closed := true, len := 0)
    case FiniEnd => w.(fini := Ended)
  }

  predicate CanRun(w: World, acts: seq<Act>)
    decreases |acts|
  {
    acts == [] || (Can(w, acts[0]) && CanRun(Do(w, acts[0]), acts[1..]))
  }

  function Run(w: World, acts: seq<Act>): (w': World)
    requires CanRun(w, acts)
    decreases |acts|
  {
    if acts == [] then w else Run(Do(w, acts[0]), acts[1..])
  }

  lemma {:induction false} RunOf1(w: World, a: Act)
    requires Can(w, a)
    ensures CanRun(w, [a]) && Run(w, [a]) == Do(w, a)
  {
    assert [a][1..] == [];
  }

  lemma {:induction false} RunConcat(w: World, acts: seq<Act>, more: seq<Act>)
    requires CanRun(w, acts) && CanRun(Run(w, acts), more)
    ensures CanRun(w, acts + more) && Run(w, acts + more) == Run(Run(w, acts), more)
    decreases |acts|
  {
    if acts == [] {
      assert acts + more == more;
    } else {
      assert (acts + more)[1..] == acts[1..] + more;
      RunConcat(Do(w, acts[0]), acts[1..], more);
    }
  }

  predicate ThreadOk(t: Thread) {
    && (t.pc == Leaked ==> t.kind.Leaky?)
    && (t.pc == Sending ==> !t.kind.Leaky? && t.kind.fits)
  }

  predicate Inv(w: World) {
    && !w.panicked && w.len <= w.cap
    && (forall t :: t in w.threads ==> ThreadOk(w.threads[t]))
    && (w.closed <==> w.fini == Holding || w.fini == Ended)
    && (w.ok <==> !w.closed) && (w.closed ==> w.len == 0)
    && (w.stopped <==> w.fini != Idle)
    && (w.closed ==> forall t :: t in w.threads ==> w.threads[t].pc != Sending)
    && (w.fini == Holding ==> forall t :: t in w.threads ==> !HoldsPc(w.threads[t].pc))
  }

  lemma {:induction false} ActKeeps(w: World, a: Act)
    requires Inv(w) && Can(w, a)
    ensures Inv(Do(w, a))
  {
    if a.FiniHold? {
      forall t | t in w.threads ensures !HoldsPc(w.threads[t].pc) {
        assert t !in Readers(w);
      }
    }
  }

  lemma {:induction false} RunKeeps(w: World, acts: seq<Act>)
    requires Inv(w) && CanRun(w, acts)
    ensures Inv(Run(w, acts))
    decreases |acts|
  {
    if acts != [] {
      ActKeeps(w, acts[0]);
      RunKeeps(Do(w, acts[0]), acts[1..]);
    }
  }

  /** No send on a closed channel: whatever the capacity, the number of senders and the
      interleaving with fini, leaked locks included, no sender ever sends after the close, and
      while fini holds the lock no sender is inside. */
  lemma {:induction false} NeverSendsAfterClose(cap: Size, acts: seq<Act>)
    requires CanRun(NewWorld(cap), acts)
    ensures var w := Run(NewWorld(cap), acts);
            && !w.panicked
            && (w.closed ==> w.len == 0 && forall t :: t in w.threads ==> w.threads[t].pc != Sending)
            && (w.fini == Holding ==> Readers(w) == {})
  {
    RunKeeps(NewWorld(cap), acts);
  }

  /** Once monitorStop is closed, a Write blocked on a full channel can step out and release
      its lock. */
  lemma {:induction false} BlockedWriteEscapes(w: World, t: nat)
    requires w.stopped && At(w, t, Sending) && w.threads[t].kind.Writer?
    ensures CanRun(w, [StopArm(t), RUnlock(t)])
    ensures t !in Readers(Run(w, [StopArm(t), RUnlock(t)]))
  {
    assert [StopArm(t), RUnlock(t)][1..] == [RUnlock(t)];
    RunOf1(Do(w, StopArm(t)), RUnlock(t));
  }

  // When fini gets its lock

  // Senders that will need a slot of the channel before they unlock
  function Needing(w: World): set<nat> {
    set t | t in w.threads && w.threads[t].kind == Plain(true)
            && (w.threads[t].pc == Locked || w.threads[t].pc == Sending)
  }

  // Calls that hold the lock and will never release it
  function Leaking(w: World): set<nat> {
    set t | t in w.threads && w.threads[t].kind.Leaky?
            && (w.threads[t].pc == Locked || w.threads[t].pc == Leaked)
  }

  // Writers that may take a slot of the channel although they need none
  function Rivals(w: World): set<nat> {
    set t | t in w.threads && w.threads[t].kind == Writer(true)
            && (w.threads[t].pc == Locked || w.threads[t].pc == Sending)
  }

  /** fini waits for the lock. The stream's handler may be anywhere: it is in its select when
      the read loop runs fini, and away when it runs fini itself. */
  predicate TearingDown(w: World) {
    Inv(w) && w.fini == Waiting
  }

  lemma {:induction false} TearingDownStays(w: World, a: Act)
    requires TearingDown(w) && Can(w, a) && !a.FiniHold?
    ensures TearingDown(Do(w, a)) && Do(w, a).cap == w.cap
  {
    ActKeeps(w, a);
  }

  /** What a step does to the three sets, the channel and the handler while fini waits. */
  lemma {:induction false} SetsMove(w: World, a: Act)
    requires TearingDown(w) && Can(w, a) && !a.FiniHold?
    ensures Leaking(Do(w, a)) == Leaking(w)
    ensures Needing(Do(w, a)) == if a.Send? && a.t in Needing(w) then Needing(w) - {a.t} else Needing(w)
    ensures Rivals(Do(w, a)) == if (a.Send? || a.StopArm? || a.DeadlineArm?) && a.t in Rivals(w)
                                then Rivals(w) - {a.t} else Rivals(w)
    ensures a.Send? ==> a.t in Rivals(w) || a.t in Needing(w)
    ensures Do(w, a).len == if a.Send? then w.len + 1 else if a.Recv? then w.len - 1 else w.len
    ensures a.HandlerExit? ==> w.handler == Busy
  {
    assert a.Send? ==> ThreadOk(w.threads[a.t]);
  }

  /** Nobody will ever release what fini waits for: a lock was leaked, or the handler is away
      and the senders outnumber the slots it left. */
  predicate Blocked(w: World) {
    Leaking(w) != {} || (w.handler == Away && |Needing(w)| > w.cap - w.len)
  }

  lemma {:induction false} NoHoldWhileBlocked(w: World)
    requires TearingDown(w) && Blocked(w)
    ensures !Can(w, FiniHold)
  {
    assert Leaking(w) <= Readers(w) && Needing(w) <= Readers(w);
    assert Readers(w) == {} ==> Needing(w) == {} && Leaking(w) == {};
  }

  /** A blocked teardown stays blocked, and no step of it gives fini the lock. */
  lemma {:induction false} BlockedStays(w: World, a: Act)
    requires TearingDown(w) && Blocked(w) && Can(w, a)
    ensures !a.FiniHold? && TearingDown(Do(w, a)) && Blocked(Do(w, a))
  {
    NoHoldWhileBlocked(w);
    TearingDownStays(w, a);
    SetsMove(w, a);
  }

  lemma {:induction false} BlockedForever(w: World, acts: seq<Act>)
    requires TearingDown(w) && Blocked(w) && CanRun(w, acts)
    ensures Run(w, acts).fini == Waiting
    decreases |acts|
  {
    if acts != [] {
      BlockedStays(w, acts[0]);
      BlockedForever(Do(w, acts[0]), acts[1..]);
    }
  }

  // How long fini can wait

  function AtPc(w: World, p: Pc): set<nat> {
    set t | t in w.threads && w.threads[t].pc == p
  }

  lemma {:induction false} GoMoves(w: World, t: nat, p: Pc)
    requires t in w.threads && w.threads[t].pc != p
    ensures forall q :: AtPc(Go(w, t, p), q) == if q == p then AtPc(w, q) + {t} else AtPc(w, q) - {t}
  {
  }

  function ReaderSteps(w: World): nat {
    5 * |AtPc(w, Locked)| + 4 * |AtPc(w, Sending)| + |AtPc(w, Unlocking)|
  }

  /** A bound on the steps that readers and handler can still take: a packet sent costs the
      handler two more, to take it and to come back. */
  function StepsLeft(w: World): nat {
    ReaderSteps(w) + 2 * w.len + if w.handler == Busy then 1 else 0
  }

  lemma {:induction false} GoFalls(w: World, t: nat, p: Pc)
    requires t in w.threads
    requires match w.threads[t].pc
             case Locked => p == Sending || p == Unlocking || p == Leaked
             case Sending => p == Unlocking
             case Unlocking => p == Gone
             case _ => false
    ensures ReaderSteps(Go(w, t, p)) < ReaderSteps(w)
    ensures w.threads[t].pc == Sending ==> ReaderSteps(Go(w, t, p)) == ReaderSteps(w) - 3
  {
    var v, q := Go(w, t, p), w.threads[t].pc;
    GoMoves(w, t, p);
    assert |AtPc(v, q)| == |AtPc(w, q)| - 1 by {
      assert t in AtPc(w, q);
    }
    assert |AtPc(v, p)| == |AtPc(w, p)| + 1 by {
      assert t !in AtPc(w, p);
    }
    forall r | r != p && r != q ensures AtPc(v, r) == AtPc(w, r) {
      assert t !in AtPc(w, r);
    }
  }

  lemma {:induction false} StepsFall(w: World, a: Act)
    requires TearingDown(w) && Can(w, a) && !a.Spawn? && !a.FiniHold?
    ensures StepsLeft(Do(w, a)) < StepsLeft(w)
  {
    if a.Recv? || a.Wrote? || a.HandlerExit? {
      assert forall q :: AtPc(Do(w, a), q) == AtPc(w, q);
    } else {
      var v := if a.Send? then w.(len := w.len + 1) else w;
      assert forall q :: AtPc(v, q) == AtPc(w, q);
      GoFalls(v, a.t, Do(w, a).threads[a.t].pc);
    }
  }

  predicate NoSpawn(acts: seq<Act>) {
    forall i :: 0 <= i < |acts| ==> !acts[i].Spawn?
  }

  lemma {:induction false} HeldStays(w: World, acts: seq<Act>)
    requires CanRun(w, acts) && (w.fini == Holding || w.fini == Ended)
    ensures Run(w, acts).fini == Holding || Run(w, acts).fini == Ended
    decreases |acts|
  {
    if acts != [] {
      HeldStays(Do(w, acts[0]), acts[1..]);
    }
  }

  /** No run goes on for ever while fini waits: it is no longer than the steps left. */
  lemma {:induction false} WaitIsBounded(w: World, acts: seq<Act>)
    requires TearingDown(w) && CanRun(w, acts) && NoSpawn(acts) && Run(w, acts).fini == Waiting
    ensures |acts| <= StepsLeft(w)
    decreases |acts|
  {
    if acts != [] {
      var a := acts[0];
      if a.FiniHold? {
        HeldStays(Do(w, a), acts[1..]);
        assert false;
      } else {
        TearingDownStays(w, a);
        StepsFall(w, a);
        WaitIsBounded(Do(w, a), acts[1..]);
      }
    }
  }

  // When some scheduling gives fini its lock

  // A step that helps: no slot is spent on a writer, and the handler goes on working
  predicate Helps(w: World, a: Act) {
    a.Check? || a.StopArm? || a.RUnlock? || a.Recv? || a.Wrote? || (a.Send? && a.t in Needing(w))
  }

  lemma {:induction false} UnblockedStays(w: World, a: Act)
    requires TearingDown(w) && !Blocked(w) && Can(w, a) && Helps(w, a)
    ensures TearingDown(Do(w, a)) && !Blocked(Do(w, a))
  {
    TearingDownStays(w, a);
    SetsMove(w, a);
  }

  /** Such a step, when nothing blocks the teardown and a reader is inside. */
  lemma {:induction false} NextHelp(w: World) returns (a: Act)
    requires TearingDown(w) && !Blocked(w) && Readers(w) != {}
    ensures Can(w, a) && Helps(w, a)
  {
    var t :| t in Readers(w);
    var k, p := w.threads[t].kind, w.threads[t].pc;
    assert p == Leaked ==> t in Leaking(w);
    if p == Locked {
      a := Check(t);
    } else if p == Sending && k.Writer? {
      a := StopArm(t);
    } else if p == Sending {
      assert t in Needing(w);
      a := if w.len < w.cap then Send(t) else if w.handler == Busy then Wrote else Recv;
    } else {
      a := RUnlock(t);
    }
  }

  lemma {:induction false} ReleaseAll(w: World) returns (acts: seq<Act>)
    requires TearingDown(w) && !Blocked(w)
    ensures CanRun(w, acts) && Run(w, acts).fini == Holding
    decreases StepsLeft(w)
  {
    if Readers(w) == {} {
      acts := [FiniHold];
      RunOf1(w, FiniHold);
    } else {
      var a := NextHelp(w);
      UnblockedStays(w, a);
      StepsFall(w, a);
      var rest := ReleaseAll(Do(w, a));
      acts := [a] + rest;
      assert acts[1..] == rest;
    }
  }

  /** fini gets the lock, in some scheduling, if and only if no call has leaked its lock and, with
      the handler away, every sender without a teardown arm still finds a slot. */
  lemma {:induction false} FiniProceedsIff(w: World)
    requires TearingDown(w)
    ensures (exists acts :: CanRun(w, acts) && Run(w, acts).fini == Holding)
            <==> Leaking(w) == {} && (w.handler == Away ==> |Needing(w)| <= w.cap - w.len)
  {
    if Blocked(w) {
      forall acts | CanRun(w, acts) ensures Run(w, acts).fini != Holding {
        BlockedForever(w, acts);
      }
    } else {
      var acts := ReleaseAll(w);
      assert CanRun(w, acts) && Run(w, acts).fini == Holding;
    }
  }

  // When every scheduling gives fini its lock

  /** fini waits and nobody can move. */
  ghost predicate Stuck(w: World) {
    w.fini == Waiting && forall a: Act :: !a.Spawn? ==> !Can(w, a)
  }

  /** A run that leaves fini waiting for ever, with nobody to wait for. */
  ghost predicate EndsStuck(w: World, acts: seq<Act>) {
    CanRun(w, acts) && Stuck(Run(w, acts))
  }

  /** Slots that are sure to be had: the free ones, and one more that a handler in its select
      frees before it can leave. */
  function Slots(w: World): int {
    w.cap - w.len + if w.handler == Selecting then 1 else 0
  }

  /** No lock has leaked, and whoever needs a slot finds one even if the writers are served
      first. */
  predicate Calm(w: World) {
    Leaking(w) == {} && (Needing(w) == {} || |Needing(w)| + |Rivals(w)| <= Slots(w))
  }

  lemma {:induction false} CalmStays(w: World, a: Act)
    requires TearingDown(w) && Calm(w) && Can(w, a) && !a.FiniHold?
    ensures TearingDown(Do(w, a)) && Calm(Do(w, a))
  {
    TearingDownStays(w, a);
    SetsMove(w, a);
  }

  lemma {:induction false} CalmNeverStuck(w: World, acts: seq<Act>)
    requires TearingDown(w) && Calm(w) && CanRun(w, acts)
    ensures !Stuck(Run(w, acts))
    decreases |acts|
  {
    if acts == [] {
      if Readers(w) == {} {
        assert Can(w, FiniHold);
      } else {
        var a := NextHelp(w);
      }
    } else if acts[0].FiniHold? {
      HeldStays(Do(w, acts[0]), acts[1..]);
    } else {
      CalmStays(w, acts[0]);
      CalmNeverStuck(Do(w, acts[0]), acts[1..]);
    }
  }

  lemma {:induction false} Prepend(w: World, a: Act, rest: seq<Act>) returns (acts: seq<Act>)
    requires Can(w, a) && CanRun(Do(w, a), rest)
    ensures CanRun(w, acts) && Run(w, acts) == Run(Do(w, a), rest)
  {
    acts := [a] + rest;
    assert acts[1..] == rest;
  }

  /** A blocked teardown runs until nobody can move. */
  lemma {:induction false} Exhaust(w: World) returns (acts: seq<Act>)
    requires TearingDown(w) && Blocked(w)
    ensures CanRun(w, acts) && Stuck(Run(w, acts))
    decreases StepsLeft(w)
  {
    if Stuck(w) {
      acts := [];
    } else {
      var a: Act :| !a.Spawn? && Can(w, a);
      BlockedStays(w, a);
      StepsFall(w, a);
      var rest := Exhaust(Do(w, a));
      acts := Prepend(w, a, rest);
    }
  }

  /** Too few slots for all who may take one. */
  predicate Tight(w: World) {
    Needing(w) != {} && |Needing(w)| + |Rivals(w)| > Slots(w)
  }

  /** A step towards the end of a tight teardown: the handler takes a packet, or leaves with
      one; otherwise somebody takes a slot, a writer if there is one. */
  lemma {:induction false} NextSqueeze(w: World) returns (a: Act)
    requires TearingDown(w) && Tight(w) && !Blocked(w)
    ensures Can(w, a) && !a.Spawn? && !a.FiniHold? && TearingDown(Do(w, a)) && Tight(Do(w, a))
  {
    if w.handler == Busy {
      a := HandlerExit;
    } else if w.handler == Selecting && w.len > 0 {
      a := Recv;
    } else {
      var t :| t in if Rivals(w) != {} then Rivals(w) else Needing(w);
      a := if w.threads[t].pc == Locked then Check(t) else Send(t);
    }
    TearingDownStays(w, a);
    SetsMove(w, a);
  }

  lemma {:induction false} Squeeze(w: World) returns (acts: seq<Act>)
    requires TearingDown(w) && Tight(w)
    ensures CanRun(w, acts) && Stuck(Run(w, acts))
    decreases StepsLeft(w)
  {
    if Blocked(w) {
      acts := Exhaust(w);
    } else {
      var a := NextSqueeze(w);
      StepsFall(w, a);
      var rest := Squeeze(Do(w, a));
      acts := Prepend(w, a, rest);
    }
  }

  /** No scheduling gets stuck before fini has the lock, if and only if no call has leaked its
      lock and the senders that need a slot are sure of one even after every writer took its
      own. */
  lemma {:induction false} FiniAlwaysProceedsIff(w: World)
    requires TearingDown(w)
    ensures (forall acts :: !EndsStuck(w, acts))
            <==> Leaking(w) == {} && (Needing(w) == {} || |Needing(w)| + |Rivals(w)| <= Slots(w))
  {
    if Calm(w) {
      forall acts ensures !EndsStuck(w, acts) {
        if CanRun(w, acts) {
          CalmNeverStuck(w, acts);
        }
      }
    } else if Leaking(w) != {} {
      var acts := Exhaust(w);
      assert EndsStuck(w, acts);
    } else {
      var acts := Squeeze(w);
      assert EndsStuck(w, acts);
    }
  }

  // Runs that get there

  lemma {:induction false} Then(w: World, acts: seq<Act>, v: World, a: Act) returns (more: seq<Act>)
    requires CanRun(w, acts) && Run(w, acts) == v && Can(v, a)
    ensures CanRun(w, more) && Run(w, more) == Do(v, a)
  {
    RunOf1(v, a);
    RunConcat(w, acts, [a]);
    more := acts + [a];
  }

  /** A new sender takes the lock and passes its checks. */
  lemma {:induction false} SenderEnters(w: World, acts: seq<Act>, v: World, t: nat, k: Kind)
    returns (more: seq<Act>, v': World)
    requires CanRun(w, acts) && Run(w, acts) == v
    requires t !in v.threads && v.fini == Idle && v.ok
    ensures CanRun(w, more) && Run(w, more) == v'
    ensures v' == v.(threads := v.threads[t := Thread(k, AfterCheck(v, k))])
  {
    var v1 := Do(v, Spawn(t, k));
    more := Then(w, acts, v, Spawn(t, k));
    more := Then(w, more, v1, RLock(t));
    var v2 := Do(v1, RLock(t));
    more := Then(w, more, v2, Check(t));
    v' := Do(v2, Check(t));
    assert v'.threads == v.threads[t := Thread(k, AfterCheck(v, k))];
  }

  /** ... and sends its packet. */
  lemma {:induction false} SenderSends(w: World, acts: seq<Act>, v: World, t: nat)
    returns (more: seq<Act>, v': World)
    requires CanRun(w, acts) && Run(w, acts) == v
    requires t !in v.threads && v.fini == Idle && v.ok && !v.closed && v.len < v.cap
    ensures CanRun(w, more) && Run(w, more) == v'
    ensures v' == v.(threads := v.threads[t := Thread(Plain(true), Unlocking)], len := v.len + 1)
  {
    var u;
    more, u := SenderEnters(w, acts, v, t, Plain(true));
    more := Then(w, more, u, Send(t));
    v' := Do(u, Send(t));
    assert v'.threads == v.threads[t := Thread(Plain(true), Unlocking)];
  }

  /** fini asks for the lock. */
  lemma {:induction false} TeardownBegins(w: World, acts: seq<Act>, v: World)
    returns (more: seq<Act>, v': World)
    requires CanRun(w, acts) && Run(w, acts) == v && Inv(v) && v.fini == Idle
    ensures CanRun(w, more) && Run(w, more) == v' && TearingDown(v')
    ensures v' == v.(fini := Waiting, stopped := true)
  {
    var u := Do(v, FiniStop);
    more := Then(w, acts, v, FiniStop);
    more := Then(w, more, u, FiniLock);
    v' := Do(u, FiniLock);
    ActKeeps(v, FiniStop);
    ActKeeps(u, FiniLock);
  }

  /** One call that fails the remote-method check, on a stream of any capacity, and fini waits
      for ever, the handler being where it is in the ordinary teardown. */
  lemma {:induction false} LeakBlocksFini(cap: Size, t: nat) returns (acts: seq<Act>)
    ensures CanRun(NewWorld(cap), acts)
    ensures var w := Run(NewWorld(cap), acts); TearingDown(w) && t in Leaking(w) && w.handler == Selecting
    ensures forall more :: CanRun(Run(NewWorld(cap), acts), more)
                           ==> Run(Run(NewWorld(cap), acts), more).fini == Waiting
  {
    var w := NewWorld(cap);
    var v;
    acts, v := SenderEnters(w, [], w, t, Leaky);
    RunKeeps(w, acts);
    acts, v := TeardownBegins(w, acts, v);
    assert t in Leaking(v);
    forall more | CanRun(v, more) ensures Run(v, more).fini == Waiting {
      BlockedForever(v, more);
    }
  }

  /** Senders 0 to n fill `n` slots, the handler having taken one packet. */
  lemma {:induction false} FillChannel(w: World, n: nat) returns (acts: seq<Act>, v: World)
    requires w == NewWorld(w.cap) && n <= w.cap
    ensures CanRun(w, acts) && Run(w, acts) == v
    ensures v.len == n && v.cap == w.cap && v.fini == Idle && v.ok && !v.closed && v.handler == Busy
    ensures forall t :: t in v.threads ==> t <= n && v.threads[t] == Thread(Plain(true), Unlocking)
  {
    if n == 0 {
      acts, v := SenderSends(w, [], w, 0);
      acts := Then(w, acts, v, Recv);
      v := Do(v, Recv);
    } else {
      acts, v := FillChannel(w, n - 1);
      acts, v := SenderSends(w, acts, v, n);
    }
  }

  lemma {:induction false} FullAndLeft(w: World) returns (acts: seq<Act>, v: World)
    requires w == NewWorld(w.cap)
    ensures CanRun(w, acts) && Run(w, acts) == v && Inv(v)
    ensures v.len == v.cap == w.cap && v.fini == Idle && v.handler == Away
    ensures w.cap + 1 in v.threads && v.threads[w.cap + 1] == Thread(Plain(true), Sending)
    ensures forall t :: t in v.threads ==> v.threads[t].kind == Plain(true)
  {
    acts, v := FillChannel(w, w.cap);
    acts, v := SenderEnters(w, acts, v, w.cap + 1, Plain(true));
    acts := Then(w, acts, v, HandlerExit);
    v := Do(v, HandlerExit);
    RunKeeps(w, acts);
  }

  /** A Publish or Call caught on a full channel when the stream's handler fails to write the
      packet it took and leaves, whatever the capacity, and fini waits for ever. */
  lemma {:induction false} FullChannelBlocksFini(cap: Size) returns (acts: seq<Act>)
    ensures CanRun(NewWorld(cap), acts)
    ensures var w := Run(NewWorld(cap), acts);
            TearingDown(w) && Leaking(w) == {} && w.handler == Away && |Needing(w)| > w.cap - w.len
    ensures forall more :: CanRun(Run(NewWorld(cap), acts), more)
                           ==> Run(Run(NewWorld(cap), acts), more).fini == Waiting
  {
    var w := NewWorld(cap);
    var v;
    acts, v := FullAndLeft(w);
    acts, v := TeardownBegins(w, acts, v);
    assert cap + 1 in Needing(v);
    forall more | CanRun(v, more) ensures Run(v, more).fini == Waiting {
      BlockedForever(v, more);
    }
  }

  /** Once fini holds the lock it can let go of it, and from then on every call gets in, is told that
      the stream is closed, and leaves without having sent. */
  lemma {:induction false} ClosedToSenders(w: World, t: nat, k: Kind) returns (acts: seq<Act>)
    requires Inv(w) && w.fini == Holding && t !in w.threads
    ensures CanRun(w, acts)
    ensures var v := Run(w, acts);
            && v.fini == Ended && At(v, t, Gone) && v.threads[t].kind == k && v.len == w.len && !v.panicked
  {
    var w1 := Do(w, FiniEnd);
    var w2 := Do(w1, Spawn(t, k));
    var w3 := Do(w2, RLock(t));
    var w4 := Do(w3, Check(t));
    assert w4.threads[t] == Thread(k, Unlocking);
    acts := Then(w, [], w, FiniEnd);
    acts := Then(w, acts, w1, Spawn(t, k));
    acts := Then(w, acts, w2, RLock(t));
    acts := Then(w, acts, w3, Check(t));
    acts := Then(w, acts, w4, RUnlock(t));
  }

  /** While the stream is up and the channel has room, every sender that fits gets its packet in and
      leaves, and one that is too large leaves without. */
  lemma {:induction false} OpenToSenders(w: World, t: nat, k: Kind) returns (acts: seq<Act>)
    requires Inv(w) && w.fini == Idle && t !in w.threads && w.len < w.cap && !k.Leaky?
    ensures CanRun(w, acts)
    ensures var v := Run(w, acts);
            At(v, t, Gone) && v.len == (if k.fits then w.len + 1 else w.len) && v.ok && !v.panicked
  {
    var v;
    acts, v := SenderEnters(w, [], w, t, k);
    if k.fits {
      acts := Then(w, acts, v, Send(t));
      v := Do(v, Send(t));
    }
    acts := Then(w, acts, v, RUnlock(t));
  }

  /** A Write can leave by its deadline at any time, and a packet then counts as not sent. */
  lemma {:induction false} DeadlineEscapes(w: World, t: nat)
    requires At(w, t, Sending) && w.threads[t].kind.Writer?
    ensures Can(w, DeadlineArm(t)) && Can(Do(w, DeadlineArm(t)), RUnlock(t))
    ensures var v := Do(Do(w, DeadlineArm(t)), RUnlock(t)); At(v, t, Gone) && v.len == w.len
  {
  }

  /** The handler goes on while packets can be written, and ends once one cannot or the channel is
      closed. */
  lemma {:induction false} HandlerGoesOn(w: World)
    requires w.handler != Away
    ensures w.handler == Busy ==> Can(w, Wrote) && Do(w, Wrote) == w.(handler := Selecting)
    ensures w.handler == Busy || w.closed <==> Can(w, HandlerExit)
    ensures Can(w, HandlerExit) ==> Do(w, HandlerExit) == w.(handler := Away)
    ensures w.handler == Selecting && !w.closed ==> (Can(w, Recv) <==> w.len > 0)
  {
  }

  /** What the lock is for: a sender inside once the channel is closed would panic. */
  lemma {:induction false} SendOnClosedPanics(w: World, t: nat)
    requires At(w, t, Sending) && w.closed
    ensures Can(w, Send(t)) && Do(w, Send(t)).panicked
  {
  }
}
