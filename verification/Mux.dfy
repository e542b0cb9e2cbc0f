/** Many dialogues over one connection: packets of all of them share one wire in each
    direction and are routed by the dialogue id stamped on them. */
module Mux {
  import opened Handshake
  import opened CloseProtocol
  import opened CloseSafety
  import opened CloseData

  datatype Tagged = Tagged(id: nat, pkt: Pkt)

  /** The dialogues registered at both ends, and the two shared wires. The ends' own `net`
      stays empty here: what is in flight is on the shared wires. */
  datatype Hub = Hub(dlgs: map<nat, Sys>, ab: seq<Tagged>, ba: seq<Tagged>)

  const EMPTY_HUB := Hub(map[], [], [])

  datatype HubAct =
    | Register(id: nat)              // both ends have the dialogue in their registries
    | Local(id: nat, l: Label)       // any act of one dialogue that stays off the wire
    | Push(id: nat, left: bool)      // writePkt: stamp the head of writeOut and write it down
    | Pull(left: bool)               // readPkt: route the head of the wire by its stamp

  predicate OffWire(c: Act) {
    !c.Flush? && !c.Arrive? && !c.Eof?
  }

  predicate HubCan(h: Hub, c: HubAct) {
    match c
    case Register(i) => i !in h.dlgs
    case Local(i, l) => i in h.dlgs && OffWire(l.act) && CanStep(h.dlgs[i], l)
    case Push(i, left) =>
      i in h.dlgs && (if left then h.dlgs[i].a.writeOut != [] else h.dlgs[i].b.writeOut != [])
    case Pull(left) => if left then h.ba != [] else h.ab != []
  }

  // handlePkt of the receiving manager: an id it does not have, or a dialogue that has
  // ended, drops the packet
  function Route(dlgs: map<nat, Sys>, p: Tagged, left: bool): (r: map<nat, Sys>) {
    if p.id !in dlgs then dlgs
    else
      var s := dlgs[p.id];
      if left then
        if s.a.fin then dlgs else dlgs[p.id := s.(a := s.a.(readIn := s.a.readIn + [p.pkt]))]
      else
        if s.b.fin then dlgs else dlgs[p.id := s.(b := s.b.(readIn := s.b.readIn + [p.pkt]))]
  }

  function HubDo(h: Hub, c: HubAct): (h': Hub)
    requires HubCan(h, c)
  {
    match c
    case Register(i) => h.(dlgs := h.dlgs[i := Sys(NewEnd(Dialogue), NewEnd(Dialogue))])
    case Local(i, l) => h.(dlgs := h.dlgs[i := Step(h.dlgs[i], l)])
    case Push(i, left) =>
      var s := h.dlgs[i];
      if left then
        h.(dlgs := h.dlgs[i := s.(a := s.a.(writeOut := s.a.writeOut[1..]))],
           ab := h.ab + [Tagged(i, s.a.writeOut[0])])
      else
        h.(dlgs := h.dlgs[i := s.(b := s.b.(writeOut := s.b.writeOut[1..]))],
           ba := h.ba + [Tagged(i, s.b.writeOut[0])])
    case Pull(left) =>
      if left then h.(dlgs := Route(h.dlgs, h.ba[0], true), ba := h.ba[1..])
      else h.(dlgs := Route(h.dlgs, h.ab[0], false), ab := h.ab[1..])
  }

  predicate HubCanRun(h: Hub, cs: seq<HubAct>)
    decreases |cs|
  {
    cs == [] || (HubCan(h, cs[0]) && HubCanRun(HubDo(h, cs[0]), cs[1..]))
  }

  function HubRun(h: Hub, cs: seq<HubAct>): (h': Hub)
    requires HubCanRun(h, cs)
    decreases |cs|
  {
    if cs == [] then h else HubRun(HubDo(h, cs[0]), cs[1..])
  }

  /** The packets of dialogue `i` on a wire, in order. */
  function Of(w: seq<Tagged>, i: nat): (r: seq<Pkt>) {
    if w == [] then [] else (if w[0].id == i then [w[0].pkt] else []) + Of(w[1..], i)
  }

  lemma {:induction false} OfPush(w: seq<Tagged>, p: Tagged, i: nat)
    ensures Of(w + [p], i) == Of(w, i) + (if p.id == i then [p.pkt] else [])
  {
    var last := if p.id == i then [p.pkt] else [];
    if w == [] {
      assert w + [p] == [p] && [p][1..] == [];
      assert Of([p], i) == last + Of([], i) == last;
    } else {
      var head := if w[0].id == i then [w[0].pkt] else [];
      assert (w + [p])[1..] == w[1..] + [p] && (w + [p])[0] == w[0];
      OfPush(w[1..], p, i);
      assert Of(w + [p], i) == head + (Of(w[1..], i) + last);
      assert Of(w, i) == head + Of(w[1..], i);
    }
  }

  lemma {:induction false} OfAbsent(w: seq<Tagged>, i: nat)
    requires forall k :: 0 <= k < |w| ==> w[k].id != i
    ensures Of(w, i) == []
  {
    if w != [] {
      OfAbsent(w[1..], i);
    }
  }

  predicate HubInv(h: Hub) {
    && (forall i :: i in h.dlgs ==> Bare(h.dlgs[i]))
    && (forall k :: 0 <= k < |h.ab| ==> h.ab[k].id in h.dlgs)
    && (forall k :: 0 <= k < |h.ba| ==> h.ba[k].id in h.dlgs)
  }

  /** Dialogue `i` alone: delete everybody else's traffic. */
  function Alone(h: Hub, i: nat): (s: Sys)
    requires i in h.dlgs
  {
    var s := h.dlgs[i];
    Sys(s.a.(net := Of(h.ab, i)), s.b.(net := Of(h.ba, i)))
  }

  lemma {:induction false} OffWireOut(x: End, n: seq<Pkt>)
    requires x.kind == Dialogue
    ensures OutDismiss(x.(net := n)) == OutDismiss(x).(net := n)
    ensures OutAck(x.(net := n)) == OutAck(x).(net := n)
  {
  }

  lemma {:induction false} OffWireIn(x: End, n: seq<Pkt>)
    ensures InDismiss(x.(net := n)) == InDismiss(x).(net := n)
    ensures InAck(x.(net := n)) == InAck(x).(net := n)
  {
  }

  lemma {:induction false} OffWireHandleOut(x: End, n: seq<Pkt>)
    requires x.kind == Dialogue && x.writeIn != []
    ensures HandleOut(x.(net := n)) == HandleOut(x).(net := n)
  {
    OffWireOut(x.(writeIn := x.writeIn[1..]), n);
  }

  lemma {:induction false} OffWireHandleIn(x: End, n: seq<Pkt>)
    requires x.readIn != []
    ensures HandleIn(x.(net := n)) == HandleIn(x).(net := n)
  {
    var r := x.(readIn := x.readIn[1..]);
    assert r.(net := n) == x.(net := n).(readIn := x.readIn[1..]);
    match x.readIn[0]
    case Data(i) => assert InData(r.(net := n), i) == InData(r, i).(net := n);
    case Dismiss => OffWireIn(r, n);
    case Ack => OffWireIn(r, n);
  }

  lemma {:induction false} OffWireRest(x: End, y: End, c: Act, n: seq<Pkt>, m: seq<Pkt>)
    requires OffWire(c) && x.kind == Dialogue && Can(x, y, c) && !c.Out? && !c.In?
    ensures Do(x.(net := n), y.(net := m), c) == Do(x, y, c).(net := n)
  {
  }

  /** Acts off the wire neither look at it nor change it. */
  lemma {:induction false} OffWireAct(x: End, y: End, c: Act, n: seq<Pkt>, m: seq<Pkt>)
    requires OffWire(c) && x.kind == Dialogue && Can(x, y, c)
    ensures Can(x.(net := n), y.(net := m), c)
    ensures Do(x.(net := n), y.(net := m), c) == Do(x, y, c).(net := n)
  {
    match c
    case Out => OffWireHandleOut(x, n);
    case In => OffWireHandleIn(x, n);
    case _ => OffWireRest(x, y, c, n, m);
  }

  lemma {:induction false} OffWireKeepsNet(x: End, y: End, c: Act)
    requires OffWire(c) && x.kind == Dialogue && Can(x, y, c)
    ensures Do(x, y, c).net == x.net && Do(x, y, c).kind == x.kind
  {
  }

  predicate Bare(s: Sys) {
    s.a.kind == Dialogue && s.b.kind == Dialogue && s.a.net == [] && s.b.net == []
  }

  lemma {:induction false} LocalKeeps(s: Sys, l: Label)
    requires Bare(s) && OffWire(l.act) && CanStep(s, l)
    ensures Bare(Step(s, l))
  {
    if l.left {
      OffWireKeepsNet(s.a, s.b, l.act);
    } else {
      OffWireKeepsNet(s.b, s.a, l.act);
    }
  }

  lemma {:induction false} RouteKeeps(dlgs: map<nat, Sys>, p: Tagged, left: bool)
    requires forall i :: i in dlgs ==> Bare(dlgs[i])
    ensures Route(dlgs, p, left).Keys == dlgs.Keys
    ensures forall i :: i in dlgs ==> Bare(Route(dlgs, p, left)[i])
  {
  }

  lemma {:induction false} HubKeeps(h: Hub, c: HubAct)
    requires HubInv(h) && HubCan(h, c)
    ensures HubInv(HubDo(h, c))
    ensures h.dlgs.Keys <= HubDo(h, c).dlgs.Keys
  {
    match c
    case Register(_) =>
    case Local(i, l) => LocalKeeps(h.dlgs[i], l);
    case Push(_, _) =>
    case Pull(left) => RouteKeeps(h.dlgs, if left then h.ba[0] else h.ab[0], left);
  }

  /** What one act of the hub is for dialogue `i` alone: one step, or nothing. */
  lemma {:induction false} LocalAlone(h: Hub, j: nat, l: Label, i: nat)
    requires HubInv(h) && HubCan(h, Local(j, l)) && i in h.dlgs
    ensures var h' := HubDo(h, Local(j, l));
            if i == j then CanStep(Alone(h, i), l) && Alone(h', i) == Step(Alone(h, i), l)
            else Alone(h', i) == Alone(h, i)
  {
    if i == j {
      var s := h.dlgs[i];
      if l.left {
        OffWireAct(s.a, s.b, l.act, Of(h.ab, i), Of(h.ba, i));
      } else {
        OffWireAct(s.b, s.a, l.act, Of(h.ba, i), Of(h.ab, i));
      }
    }
  }

  lemma {:induction false} PushAlone(h: Hub, j: nat, left: bool, i: nat)
    requires HubInv(h) && HubCan(h, Push(j, left)) && i in h.dlgs
    ensures var h', l := HubDo(h, Push(j, left)), Label(left, Flush);
            if i == j then CanStep(Alone(h, i), l) && Alone(h', i) == Step(Alone(h, i), l)
            else Alone(h', i) == Alone(h, i)
  {
    var s := h.dlgs[j];
    if left {
      OfPush(h.ab, Tagged(j, s.a.writeOut[0]), i);
    } else {
      OfPush(h.ba, Tagged(j, s.b.writeOut[0]), i);
    }
  }

  lemma {:induction false} PullLeft(h: Hub, i: nat)
    requires h.ba != [] && i in h.dlgs
    ensures var h', l := HubDo(h, Pull(true)), Label(true, Arrive);
            if h.ba[0].id == i then CanStep(Alone(h, i), l) && Alone(h', i) == Step(Alone(h, i), l)
            else Alone(h', i) == Alone(h, i)
  {
  }

  lemma {:induction false} PullRight(h: Hub, i: nat)
    requires h.ab != [] && i in h.dlgs
    ensures var h', l := HubDo(h, Pull(false)), Label(false, Arrive);
            if h.ab[0].id == i then CanStep(Alone(h, i), l) && Alone(h', i) == Step(Alone(h, i), l)
            else Alone(h', i) == Alone(h, i)
  {
  }

  lemma {:induction false} PullAlone(h: Hub, left: bool, i: nat)
    requires HubInv(h) && HubCan(h, Pull(left)) && i in h.dlgs
    ensures var h', l := HubDo(h, Pull(left)), Label(left, Arrive);
            if (if left then h.ba[0].id == i else h.ab[0].id == i)
            then CanStep(Alone(h, i), l) && Alone(h', i) == Step(Alone(h, i), l)
            else Alone(h', i) == Alone(h, i)
  {
    if left {
      PullLeft(h, i);
    } else {
      PullRight(h, i);
    }
  }

  /** Non-interference, one act at a time. */
  lemma {:induction false} ActAlone(h: Hub, c: HubAct, i: nat) returns (ls: seq<Label>)
    requires HubInv(h) && HubCan(h, c) && i in h.dlgs
    ensures CanRun(Alone(h, i), ls) && Run(Alone(h, i), ls) == Alone(HubDo(h, c), i)
  {
    ls := [];
    match c
    case Register(j) =>
    case Local(j, l) =>
      LocalAlone(h, j, l, i);
      ls := if i == j then [l] else [];
    case Push(j, left) =>
      PushAlone(h, j, left, i);
      ls := if i == j then [Label(left, Flush)] else [];
    case Pull(left) =>
      PullAlone(h, left, i);
      ls := if (if left then h.ba[0].id == i else h.ab[0].id == i) then [Label(left, Arrive)] else [];
  }

  lemma {:induction false} RunAlone(h: Hub, cs: seq<HubAct>, i: nat) returns (ls: seq<Label>)
    requires HubInv(h) && HubCanRun(h, cs) && i in h.dlgs
    ensures i in HubRun(h, cs).dlgs && HubInv(HubRun(h, cs))
    ensures CanRun(Alone(h, i), ls) && Run(Alone(h, i), ls) == Alone(HubRun(h, cs), i)
    decreases |cs|
  {
    if cs == [] {
      ls := [];
    } else {
      HubKeeps(h, cs[0]);
      var first := ActAlone(h, cs[0], i);
      var rest := RunAlone(HubDo(h, cs[0]), cs[1..], i);
      RunConcat(Alone(h, i), first, rest);
      ls := first + rest;
    }
  }

  lemma {:induction false} RegisteredAlone(h: Hub, i: nat)
    requires HubInv(h) && i !in h.dlgs
    ensures Initial(Alone(HubDo(h, Register(i)), i))
    ensures Alone(HubDo(h, Register(i)), i).a.kind == Dialogue
  {
    OfAbsent(h.ab, i);
    OfAbsent(h.ba, i);
  }

  /** Demultiplexing non-interference: whatever all the dialogues of a hub do, delete
      everybody else's traffic from the run and what remains of dialogue `i` is a run of two
      endpoints that have the wire to themselves, from its registration to the end. */
  lemma {:induction false} HubRunAlone(h: Hub, cs: seq<HubAct>, i: nat) returns (s: Sys, ls: seq<Label>)
    requires HubInv(h) && HubCanRun(h, cs) && i !in h.dlgs && i in HubRun(h, cs).dlgs
    ensures Initial(s) && s.a.kind == Dialogue
    ensures CanRun(s, ls) && Run(s, ls) == Alone(HubRun(h, cs), i)
    decreases |cs|
  {
    HubKeeps(h, cs[0]);
    var h' := HubDo(h, cs[0]);
    if cs[0] == Register(i) {
      RegisteredAlone(h, i);
      s := Alone(h', i);
      ls := RunAlone(h', cs[1..], i);
    } else {
      s, ls := HubRunAlone(h', cs[1..], i);
    }
  }

  /** So every dialogue of a hub closes safely and delivers its data, whatever its
      neighbours do. */
  lemma {:induction false} HubDialogueIsSafe(cs: seq<HubAct>, i: nat)
    requires HubCanRun(EMPTY_HUB, cs) && i in HubRun(EMPTY_HUB, cs).dlgs
    ensures var s := HubRun(EMPTY_HUB, cs).dlgs[i];
            && !s.a.bad && !s.b.bad
            && (s.a.fin <==> Done(s.a.facts)) && (s.b.fin <==> Done(s.b.facts))
            && Delivered(s.a, s.b) && Delivered(s.b, s.a)
  {
    var s, ls := HubRunAlone(EMPTY_HUB, cs, i);
    CloseIsSafe(s, ls);
    DataBeforeGoodbye(s, ls);
  }
}
