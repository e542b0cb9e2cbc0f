/** The non-blocking Once: any number of calls of Do, interleaved at each atomic load,
    TryLock, store and unlock. A call made from inside the function is one more call. */
module OnceDo {
  import opened Options

  // How a call came back: it saw the flag set, lost TryLock, found the flag set under the
  // lock, or ran the function
  datatype How = SawDone | LostTry | FoundDone | Ran

  datatype Pc = Start | Try | Inside | InF | Storing | Unlocking(how: How) | Back(how: How)

  /** `starts` counts how often the function was entered; `finished` that it came to an end. */
  datatype World = World(calls: map<nat, Pc>, done: bool, holder: Option<nat>, starts: nat, finished: bool)

  const NEW_WORLD := World(map[], false, None, 0, false)

  datatype Act = Enter(t: nat) | Load(t: nat) | TryLock(t: nat) | Check(t: nat)
               | EndF(t: nat) | Store(t: nat) | Unlock(t: nat)

  predicate At(w: World, t: nat, p: Pc) { t in w.calls && w.calls[t] == p }

  predicate Can(w: World, a: Act) {
    match a
    case Enter(t) => t !in w.calls
    case Load(t) => At(w, t, Start)
    case TryLock(t) => At(w, t, Try)
    case Check(t) => At(w, t, Inside)
    case EndF(t) => At(w, t, InF)          // by returning or by panicking
    case Store(t) => At(w, t, Storing)
    case Unlock(t) => t in w.calls && w.calls[t].Unlocking?
  }

  function Do(w: World, a: Act): (w': World)
    requires Can(w, a)
  {
    match a
    case Enter(t) => w.(calls := w.calls[t := Start])
    case Load(t) => w.(calls := w.calls[t := if w.done then Back(SawDone) else Try])
    case TryLock(t) =>
      if w.holder.Some? then w.(calls := w.calls[t := Back(LostTry)])
      else w.(calls := w.calls[t := Inside], holder := Some(t))
    case Check(t) =>
      if w.done then w.(calls := w.calls[t := Unlocking(FoundDone)])
      else w.(calls := w.calls[t := InF], starts := w.starts + 1)
    case EndF(t) => w.(calls := w.calls[t := Storing], finished := true)
    case Store(t) => w.(calls := w.calls[t := Unlocking(Ran)], done := true)
    case Unlock(t) => w.(calls := w.calls[t := Back(w.calls[t].how)], holder := None)
  }

  predicate CanRun(w: World, acts: seq<Act>)
    decreases |acts|
  {
    acts == [] || (Can(w, acts[0]) && CanRun(Do(w, acts[0]), acts[1..]))
  }

  function Run(w: World, acts: seq<Act>): (w': World)
    requires CanRun(w, acts)
    decreases |acts|
  {
    if acts == [] then w else Run(Do(w, acts[0]), acts[1..])
  }

  lemma {:induction false} RunOf1(w: World, a: Act)
    requires Can(w, a)
    ensures CanRun(w, [a]) && Run(w, [a]) == Do(w, a)
  {
    assert [a][1..] == [];
  }

  predicate Holds(p: Pc) { p == Inside || p == InF || p == Storing || p.Unlocking? }

  predicate CallOk(w: World, t: nat)
    requires t in w.calls
  {
    var p := w.calls[t];
    && (Holds(p) <==> w.holder == Some(t))
    && (p == InF ==> !w.done && !w.finished && w.starts == 1)
    && (p == Storing ==> !w.done && w.finished && w.starts == 1)
    && (p == Inside && !w.done ==> w.starts == 0)
    && (p.Unlocking? ==> w.done)
    && (p.Back? && p.how != LostTry ==> w.done)
    && (p.Back? && p.how == LostTry ==> w.starts == 1 || w.holder.Some?)
  }

  /** Until the flag is set the function has been entered only by a call that still holds the
      lock. */
  predicate Inv(w: World) {
    && (w.holder.Some? ==> w.holder.value in w.calls)
    && w.starts <= 1
    && (w.done ==> w.finished) && (w.finished ==> w.starts == 1)
    && (w.starts == 1 && !w.done ==>
          w.holder.Some? && (At(w, w.holder.value, InF) || At(w, w.holder.value, Storing)))
    && (forall t :: t in w.calls ==> CallOk(w, t))
  }

  lemma {:induction false} HolderKeeps(w: World, a: Act)
    requires Inv(w) && Can(w, a) && (a.Check? || a.EndF? || a.Store? || a.Unlock?)
    ensures Inv(Do(w, a))
  {
    var w' := Do(w, a);
    assert CallOk(w, a.t);
    forall t | t in w'.calls ensures CallOk(w', t) {
      assert CallOk(w, t);
    }
  }

  lemma {:induction false} CallerKeeps(w: World, a: Act)
    requires Inv(w) && Can(w, a) && (a.Enter? || a.Load? || a.TryLock?)
    ensures Inv(Do(w, a))
  {
    var w' := Do(w, a);
    assert a.t in w.calls ==> CallOk(w, a.t);
    forall t | t in w'.calls ensures CallOk(w', t) {
      assert t in w.calls ==> CallOk(w, t);
    }
  }

  lemma {:induction false} RunKeeps(w: World, acts: seq<Act>)
    requires Inv(w) && CanRun(w, acts)
    ensures Inv(Run(w, acts))
    decreases |acts|
  {
    if acts != [] {
      var a := acts[0];
      if a.Enter? || a.Load? || a.TryLock? {
        CallerKeeps(w, a);
      } else {
        HolderKeeps(w, a);
      }
      RunKeeps(Do(w, a), acts[1..]);
    }
  }

  /** The function is entered at most once, and a call that came back did so after the
      function had ended, unless it lost TryLock. */
  lemma {:induction false} RunsAtMostOnce(acts: seq<Act>)
    requires CanRun(NEW_WORLD, acts)
    ensures var w := Run(NEW_WORLD, acts);
            && w.starts <= 1
            && (forall t :: t in w.calls && w.calls[t].Back? && w.calls[t].how != LostTry ==> w.finished)
  {
    RunKeeps(NEW_WORLD, acts);
    var w := Run(NEW_WORLD, acts);
    assert forall t :: t in w.calls ==> CallOk(w, t);
  }

  /** While the function runs, a call that loads the flag comes back in two steps, having run
      nothing: a re-entrant call does not deadlock, and a concurrent one returns before the
      function has ended. */
  lemma {:induction false} ReturnsWhileRunning(w: World, f: nat, t: nat)
    requires Inv(w) && At(w, f, InF) && t !in w.calls
    ensures var acts := [Enter(t), Load(t), TryLock(t)];
            CanRun(w, acts)
            && (var w' := Run(w, acts);
                At(w', t, Back(LostTry)) && At(w', f, InF) && !w'.finished && w'.starts == w.starts)
  {
    assert CallOk(w, f);
    var w1 := Do(w, Enter(t));
    assert [Enter(t), Load(t), TryLock(t)][1..] == [Load(t), TryLock(t)];
    assert [Load(t), TryLock(t)][1..] == [TryLock(t)];
    RunOf1(Do(w1, Load(t)), TryLock(t));
  }

  /** The call that holds the lock has not come to the end of the function yet. */
  predicate Unfinished(w: World) {
    && w.holder.Some? && w.holder.value in w.calls
    && (w.calls[w.holder.value] == InF || (w.calls[w.holder.value] == Inside && !w.done))
  }

  /** Exactly when Do comes back with the function not ended: the call finds the flag unset
      and loses TryLock, at a moment when the holder is in the function or about to enter it. */
  lemma {:induction false} ReturnsEarlyIff(w: World, t: nat)
    requires Inv(w) && At(w, t, Try)
    ensures var w' := Do(w, TryLock(t));
            w'.calls[t].Back? && !w'.finished <==> Unfinished(w)
  {
    assert w.holder.Some? ==> CallOk(w, w.holder.value);
  }

  /** ... and in no other step: whatever brings a call back while the function has not ended
      is a lost TryLock against such a holder. */
  lemma {:induction false} OnlyLostTryReturnsEarly(w: World, a: Act)
    requires Inv(w) && Can(w, a)
    ensures var w' := Do(w, a);
            (w'.calls[a.t].Back? && !w'.finished) <==> (a.TryLock? && Unfinished(w))
  {
    assert a.t in w.calls ==> CallOk(w, a.t);
    assert w.holder.Some? ==> CallOk(w, w.holder.value);
  }

  /** No call waits: each has a step of its own until it comes back. */
  lemma {:induction false} NeverBlocks(w: World, t: nat)
    requires t in w.calls && !w.calls[t].Back?
    ensures exists a :: Can(w, a) && a.t == t
  {
    match w.calls[t]
    case Start => assert Can(w, Load(t));
    case Try => assert Can(w, TryLock(t));
    case Inside => assert Can(w, Check(t));
    case InF => assert Can(w, EndF(t));
    case Storing => assert Can(w, Store(t));
    case Unlocking(_) => assert Can(w, Unlock(t));
  }

  lemma {:induction false} Then(w: World, acts: seq<Act>, v: World, a: Act) returns (more: seq<Act>)
    requires CanRun(w, acts) && Run(w, acts) == v && Can(v, a)
    ensures CanRun(w, more) && Run(w, more) == Do(v, a)
    decreases |acts|
  {
    if acts == [] {
      more := [a];
    } else {
      var rest := Then(Do(w, acts[0]), acts[1..], v, a);
      more := [acts[0]] + rest;
      assert more[1..] == rest;
    }
  }

  /** The first call to hold the lock runs the function: it comes back having run it to its end. */
  lemma {:induction false} FirstCallRunsIt(w: World, t: nat) returns (acts: seq<Act>)
    requires Inv(w) && w.starts == 0 && w.holder == None && t !in w.calls
    ensures CanRun(w, acts)
    ensures var v := Run(w, acts); At(v, t, Back(Ran)) && v.starts == 1 && v.finished && v.done && v.holder == None
  {
    assert !w.done;
    var w1 := Do(w, Enter(t));
    var w2 := Do(w1, Load(t));
    var w3 := Do(w2, TryLock(t));
    var w4 := Do(w3, Check(t));
    var w5 := Do(w4, EndF(t));
    var w6 := Do(w5, Store(t));
    acts := Then(w, [], w, Enter(t));
    acts := Then(w, acts, w1, Load(t));
    acts := Then(w, acts, w2, TryLock(t));
    acts := Then(w, acts, w3, Check(t));
    acts := Then(w, acts, w4, EndF(t));
    acts := Then(w, acts, w5, Store(t));
    acts := Then(w, acts, w6, Unlock(t));
  }

  /** Once it has run, a call is back after one load. */
  lemma {:induction false} LaterCallLoads(w: World, t: nat)
    requires w.done && t !in w.calls
    ensures Can(w, Enter(t)) && Can(Do(w, Enter(t)), Load(t))
    ensures var v := Do(Do(w, Enter(t)), Load(t)); At(v, t, Back(SawDone)) && v.starts == w.starts
  {
  }
}
