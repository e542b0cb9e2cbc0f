/** Completion at the hub: all dialogues of a connection at once, under every scheduling. */
module MuxProgress {
  import opened CloseProtocol
  import opened CloseSafety
  import opened CloseProgress
  import opened Mux

  /** What goroutines do, as opposed to users. */
  predicate HubInternal(c: HubAct) {
    c.Push? || c.Pull? || (c.Local? && Internal(c.l.act))
  }

  /** No goroutine of any dialogue, and neither read loop, can move. */
  ghost predicate HubQuiet(h: Hub) {
    forall c: HubAct :: HubInternal(c) ==> !HubCan(h, c)
  }

  predicate HubSafe(h: Hub) {
    HubInv(h) && forall i :: i in h.dlgs ==> Inv(Alone(h, i))
  }

  lemma {:induction false} AloneStaysSafe(h: Hub, c: HubAct, i: nat)
    requires HubInv(h) && HubCan(h, c) && i in HubDo(h, c).dlgs
    requires i in h.dlgs ==> Inv(Alone(h, i))
    ensures Inv(Alone(HubDo(h, c), i))
  {
    if i in h.dlgs {
      var ls := ActAlone(h, c, i);
      RunKeeps(Alone(h, i), ls);
    } else {
      assert c == Register(i);
      RegisteredAlone(h, i);
      InitialInv(Alone(HubDo(h, c), i));
    }
  }

  lemma {:induction false} HubStaysSafe(h: Hub, c: HubAct)
    requires HubSafe(h) && HubCan(h, c)
    ensures HubSafe(HubDo(h, c))
  {
    HubKeeps(h, c);
    var h' := HubDo(h, c);
    forall i | i in h'.dlgs ensures Inv(Alone(h', i)) {
      AloneStaysSafe(h, c, i);
    }
  }

  /** Every state a hub can reach. */
  lemma {:induction false} HubReached(h: Hub, cs: seq<HubAct>)
    requires HubSafe(h) && HubCanRun(h, cs)
    ensures HubSafe(HubRun(h, cs))
    decreases |cs|
  {
    if cs != [] {
      HubStaysSafe(h, cs[0]);
      HubReached(HubDo(h, cs[0]), cs[1..]);
    }
  }

  // Deadlock

  lemma {:induction false} OffWireCan(x: End, y: End, c: Act, n: seq<Pkt>, m: seq<Pkt>)
    requires OffWire(c)
    ensures Can(x.(net := n), y.(net := m), c) == Can(x, y, c)
  {
  }

  lemma {:induction false} QuietAlone(h: Hub, i: nat)
    requires HubInv(h) && HubQuiet(h) && i in h.dlgs
    ensures Quiet(Alone(h, i))
  {
    var s, t := h.dlgs[i], Alone(h, i);
    assert !HubCan(h, Pull(true)) && !HubCan(h, Pull(false));
    assert !HubCan(h, Push(i, true)) && !HubCan(h, Push(i, false));
    forall c: Act | Internal(c) ensures !Can(t.a, t.b, c) && !Can(t.b, t.a, c) {
      if OffWire(c) {
        OffWireCan(s.a, s.b, c, Of(h.ab, i), Of(h.ba, i));
        OffWireCan(s.b, s.a, c, Of(h.ba, i), Of(h.ab, i));
        assert !HubCan(h, Local(i, Label(true, c))) && !HubCan(h, Local(i, Label(false, c)));
      }
    }
  }

  /** A hub in which nobody can move has ended every dialogue whose closing has begun. */
  lemma {:induction false} QuietMeansFinished(h: Hub, i: nat)
    requires HubSafe(h) && HubQuiet(h) && i in h.dlgs
    requires Closing(h.dlgs[i].a) || Closing(h.dlgs[i].b)
    ensures h.dlgs[i].a.fin && h.dlgs[i].b.fin
  {
    QuietAlone(h, i);
    StuckMeansFinished(Alone(h, i));
  }

  // Livelock

  predicate Distinct(ids: seq<nat>) {
    forall i, j :: 0 <= i < j < |ids| ==> ids[i] != ids[j]
  }

  /** The ids of the dialogues of a hub, in some order. */
  ghost predicate Lists(ids: seq<nat>, h: Hub) {
    Distinct(ids) && forall i :: i in ids <==> i in h.dlgs
  }

  function HubWork(h: Hub, ids: seq<nat>): (n: nat)
    requires forall i :: i in ids ==> i in h.dlgs
  {
    if ids == [] then 0 else TotalWork(Alone(h, ids[0])) + HubWork(h, ids[1..])
  }

  /** One dialogue has less to do and the others as much as before. */
  lemma {:induction false} HubWorkFalls(h: Hub, h': Hub, ids: seq<nat>, j: nat)
    requires Distinct(ids) && forall i :: i in ids ==> i in h.dlgs && i in h'.dlgs
    requires forall i :: i in ids && i != j ==> Alone(h', i) == Alone(h, i)
    requires j in ids ==> TotalWork(Alone(h', j)) < TotalWork(Alone(h, j))
    ensures if j in ids then HubWork(h', ids) < HubWork(h, ids) else HubWork(h', ids) == HubWork(h, ids)
  {
    if ids != [] {
      assert forall i :: 0 < i < |ids| ==> ids[i] != ids[0];
      assert ids[0] !in ids[1..];
      HubWorkFalls(h, h', ids[1..], j);
    }
  }

  /** The dialogue that an act of the hub belongs to. */
  function Owner(h: Hub, c: HubAct): (i: nat)
    requires HubCan(h, c) && !c.Register?
  {
    if c.Pull? then (if c.left then h.ba[0].id else h.ab[0].id) else c.id
  }

  /** The step it is for that dialogue. */
  function OwnStep(c: HubAct): (l: Label)
    requires !c.Register?
  {
    match c
    case Local(_, l) => l
    case Push(_, left) => Label(left, Flush)
    case Pull(left) => Label(left, Arrive)
  }

  /** Every act of the hub is a step of its owner and nothing to the others. */
  lemma {:induction false} OwnerSteps(h: Hub, c: HubAct, i: nat)
    requires HubInv(h) && HubCan(h, c) && !c.Register? && i in h.dlgs
    ensures Owner(h, c) in h.dlgs && i in HubDo(h, c).dlgs
    ensures if i == Owner(h, c) then CanStep(Alone(h, i), OwnStep(c))
                                     && Alone(HubDo(h, c), i) == Step(Alone(h, i), OwnStep(c))
            else Alone(HubDo(h, c), i) == Alone(h, i)
  {
    HubKeeps(h, c);
    match c
    case Local(j, l) => LocalAlone(h, j, l, i);
    case Push(j, left) => PushAlone(h, j, left, i);
    case Pull(left) => PullAlone(h, left, i);
  }

  lemma {:induction false} OwnerKnown(h: Hub, c: HubAct)
    requires HubInv(h) && HubCan(h, c) && !c.Register?
    ensures Owner(h, c) in h.dlgs && HubDo(h, c).dlgs.Keys == h.dlgs.Keys
  {
  }

  lemma {:induction false} OwnerWorks(h: Hub, c: HubAct)
    requires HubSafe(h) && HubCan(h, c) && HubInternal(c)
    ensures var j := Owner(h, c);
            j in h.dlgs && j in HubDo(h, c).dlgs && TotalWork(Alone(HubDo(h, c), j)) < TotalWork(Alone(h, j))
  {
    OwnerKnown(h, c);
    OwnerSteps(h, c, Owner(h, c));
    StepWorks(Alone(h, Owner(h, c)), OwnStep(c));
  }

  lemma {:induction false} HubStepWorks(h: Hub, c: HubAct, ids: seq<nat>)
    requires HubSafe(h) && HubCan(h, c) && HubInternal(c) && Lists(ids, h)
    ensures Lists(ids, HubDo(h, c)) && HubWork(HubDo(h, c), ids) < HubWork(h, ids)
  {
    var h', j := HubDo(h, c), Owner(h, c);
    OwnerKnown(h, c);
    forall i | i in ids && i != j ensures Alone(h', i) == Alone(h, i) {
      OwnerSteps(h, c, i);
    }
    OwnerWorks(h, c);
    HubWorkFalls(h, h', ids, j);
  }

  /** A run in which the users take no part. */
  predicate HubGoes(h: Hub, cs: seq<HubAct>)
    decreases |cs|
  {
    cs == [] || (HubCan(h, cs[0]) && HubInternal(cs[0]) && HubGoes(HubDo(h, cs[0]), cs[1..]))
  }

  lemma {:induction false} GoesIsRun(h: Hub, cs: seq<HubAct>)
    requires HubGoes(h, cs)
    ensures HubCanRun(h, cs)
    decreases |cs|
  {
    if cs != [] {
      GoesIsRun(HubDo(h, cs[0]), cs[1..]);
    }
  }

  /** `w` bounds the work at hand. */
  ghost predicate Within(h: Hub, ids: seq<nat>, w: nat) {
    Lists(ids, h) && HubWork(h, ids) <= w
  }

  lemma {:induction false} HubStepWithin(h: Hub, c: HubAct, ids: seq<nat>, w: nat)
    requires HubSafe(h) && HubCan(h, c) && HubInternal(c) && Within(h, ids, w)
    ensures HubSafe(HubDo(h, c)) && w > 0 && Within(HubDo(h, c), ids, w - 1)
  {
    HubStepWorks(h, c, ids);
    HubStaysSafe(h, c);
  }

  lemma {:induction false} HubRunIsBounded(h: Hub, cs: seq<HubAct>, ids: seq<nat>, w: nat)
    requires HubSafe(h) && HubGoes(h, cs) && Within(h, ids, w)
    ensures |cs| <= w
    decreases |cs|
  {
    if cs != [] {
      HubStepWithin(h, cs[0], ids, w);
      HubRunIsBounded(HubDo(h, cs[0]), cs[1..], ids, w - 1);
    }
  }

  lemma {:induction false} HubStaysClosing(h: Hub, cs: seq<HubAct>, i: nat)
    requires HubInv(h) && HubCanRun(h, cs) && i in h.dlgs
    requires Closing(h.dlgs[i].a) || Closing(h.dlgs[i].b)
    ensures var t := HubRun(h, cs).dlgs; i in t && (Closing(t[i].a) || Closing(t[i].b))
  {
    var ls := RunAlone(h, cs, i);
    RunStaysClosing(Alone(h, i), ls);
  }

  /** Completion for a whole connection. From every reachable state of a hub, let the goroutines
      of all its dialogues run in any order: they stop, within the work of all of them together,
      and when they stop every dialogue whose closing had begun has ended on both sides,
      however busy its neighbours were. */
  lemma {:induction false} HubCloseCompletes(h: Hub, cs: seq<HubAct>, ids: seq<nat>)
    requires HubSafe(h) && HubGoes(h, cs) && Lists(ids, h)
    ensures HubCanRun(h, cs) && |cs| <= HubWork(h, ids)
    ensures HubQuiet(HubRun(h, cs)) ==>
              forall i :: i in h.dlgs && (Closing(h.dlgs[i].a) || Closing(h.dlgs[i].b)) ==>
                var t := HubRun(h, cs).dlgs; i in t && t[i].a.fin && t[i].b.fin
  {
    GoesIsRun(h, cs);
    HubRunIsBounded(h, cs, ids, HubWork(h, ids));
    if HubQuiet(HubRun(h, cs)) {
      forall i | i in h.dlgs && (Closing(h.dlgs[i].a) || Closing(h.dlgs[i].b))
        ensures var t := HubRun(h, cs).dlgs; i in t && t[i].a.fin && t[i].b.fin
      {
        HubStaysClosing(h, cs, i);
        HubReached(h, cs);
        QuietMeansFinished(HubRun(h, cs), i);
      }
    }
  }

  // The hub can do what a dialogue alone can

  /** The act of the hub that is step `l` of dialogue `i`. */
  function Played(i: nat, l: Label): HubAct {
    if l.act.Flush? then Push(i, l.left) else if l.act.Arrive? then Pull(l.left) else Local(i, l)
  }

  lemma {:induction false} OfOnly(w: seq<Tagged>, i: nat)
    requires forall k :: 0 <= k < |w| ==> w[k].id == i
    ensures |Of(w, i)| == |w|
  {
    if w != [] {
      OfOnly(w[1..], i);
    }
  }

  lemma {:induction false} PlayStep(h: Hub, i: nat, l: Label)
    requires HubInv(h) && h.dlgs.Keys == {i} && CanStep(Alone(h, i), l)
    ensures HubCan(h, Played(i, l)) && HubDo(h, Played(i, l)).dlgs.Keys == {i}
    ensures Alone(HubDo(h, Played(i, l)), i) == Step(Alone(h, i), l)
  {
    if l.act.Flush? {
      PushAlone(h, i, l.left, i);
    } else if l.act.Arrive? {
      OfOnly(h.ab, i);
      OfOnly(h.ba, i);
      PullAlone(h, l.left, i);
    } else {
      PlayLocal(h, i, l);
    }
    OwnerKnown(h, Played(i, l));
  }

  lemma {:induction false} PlayLocal(h: Hub, i: nat, l: Label)
    requires HubInv(h) && i in h.dlgs && CanStep(Alone(h, i), l) && !l.act.Flush? && !l.act.Arrive?
    ensures HubCan(h, Local(i, l)) && Alone(HubDo(h, Local(i, l)), i) == Step(Alone(h, i), l)
  {
    var s := h.dlgs[i];
    OffWireCan(s.a, s.b, l.act, Of(h.ab, i), Of(h.ba, i));
    OffWireCan(s.b, s.a, l.act, Of(h.ba, i), Of(h.ab, i));
    LocalAlone(h, i, l, i);
  }

  lemma {:induction false} PlayRun(h: Hub, i: nat, ls: seq<Label>) returns (cs: seq<HubAct>)
    requires HubInv(h) && h.dlgs.Keys == {i} && CanRun(Alone(h, i), ls)
    ensures HubCanRun(h, cs) && i in HubRun(h, cs).dlgs
    ensures Alone(HubRun(h, cs), i) == Run(Alone(h, i), ls)
    decreases |ls|
  {
    if ls == [] {
      cs := [];
    } else {
      var c := Played(i, ls[0]);
      PlayStep(h, i, ls[0]);
      HubKeeps(h, c);
      var rest := PlayRun(HubDo(h, c), i, ls[1..]);
      cs := [c] + rest;
      assert cs[1..] == rest;
    }
  }

  /** Nothing is lost by multiplexing: every run of two dialogues with the wire to themselves is what
      a hub makes of that dialogue in some run, from its registration on. */
  lemma {:induction false} HubPlays(s: Sys, ls: seq<Label>, i: nat) returns (cs: seq<HubAct>)
    requires Initial(s) && s.a.kind == Dialogue && CanRun(s, ls)
    ensures HubCanRun(EMPTY_HUB, cs) && i in HubRun(EMPTY_HUB, cs).dlgs
    ensures Alone(HubRun(EMPTY_HUB, cs), i) == Run(s, ls)
  {
    var h := HubDo(EMPTY_HUB, Register(i));
    HubKeeps(EMPTY_HUB, Register(i));
    RegisteredAlone(EMPTY_HUB, i);
    SameStart(s, Alone(h, i));
    var rest := PlayRun(h, i, ls);
    cs := [Register(i)] + rest;
    assert cs[1..] == rest;
  }

  lemma {:induction false} SameStart(s: Sys, t: Sys)
    requires Initial(s) && Initial(t) && s.a.kind == t.a.kind
    ensures s == t
  {
  }
}
