/** Who is found under an id, from the moment a dialogue is made to the moment it goes: the
    registry seen by the packets that are routed with it. */
module Routing {
  import opened Options
  import opened DialogueFsm
  import opened Opening

  /** Dialogue `n` is found under its own id. */
  predicate Routed(x: Mgr, n: nat) {
    n in x.dlgs && Lookup(x, x.dlgs[n].did) == Some(n)
  }

  // What each act does to the lookup

  /** DialogueOnline makes an accepted dialogue the one that is found under its id, and finds
      nothing else any differently, but that its number no longer leads to it by itself. */
  lemma {:induction false} OnlineRoutes(x: Mgr, client: bool, inn: multiset<Msg>, n: nat)
    requires Registry(x) && Can(x, inn, SendAck(n)) && x.ok
    ensures var x' := Do(x, client, inn, SendAck(n));
            && Routed(x', n) && x'.dlgs[n].did == x.dlgs[n].did && x'.dlgs[n].st == Sessioned
            && (forall d :: d != x.dlgs[n].did && d != n ==> Lookup(x', d) == Lookup(x, d))
            && (n != x.dlgs[n].did && n !in x.ready ==> Lookup(x', n) == None)
  {
  }

  /** So does the end of OpenDialogue for an opened one. */
  lemma {:induction false} OpenDoneRoutes(x: Mgr, client: bool, inn: multiset<Msg>, n: nat)
    requires Registry(x) && Can(x, inn, OpenDone(n)) && x.ok
    ensures var x' := Do(x, client, inn, OpenDone(n));
            && Routed(x', n) && x'.dlgs == x.dlgs
            && (forall d :: d != x.dlgs[n].did && d != n ==> Lookup(x', d) == Lookup(x, d))
            && (n != x.dlgs[n].did && n !in x.ready ==> Lookup(x', n) == None)
  {
  }

  /** A dialogue that is being negotiated, opened or accepted, is found under its number, unless
      another is registered there; nothing else changes. */
  lemma {:induction false} NegotiatingFound(x: Mgr, client: bool, inn: multiset<Msg>, c: Act)
    requires Registry(x) && Can(x, inn, c) && (c.OpenStart? || c.RecvSession?)
    ensures var x' := Do(x, client, inn, c);
            && c.n in x'.dlgs && Lookup(x', c.n) == Some(if c.n in x.ready then x.ready[c.n] else c.n)
            && (forall d :: d != c.n ==> Lookup(x', d) == Lookup(x, d))
  {
  }

  /** After a failed open, or one that came back to a manager that has ended, the number leads to
      nobody. */
  lemma {:induction false} FailedForgotten(x: Mgr, client: bool, inn: multiset<Msg>, c: Act)
    requires Registry(x)
    requires (c.OpenFailed? && c.n in x.dlgs && x.dlgs[c.n].role == Opener)
             || (c.OpenDone? && Can(x, inn, c) && !x.ok)
    ensures Can(x, inn, c)
    ensures var x' := Do(x, client, inn, c);
            && (c.n !in x.ready ==> Lookup(x', c.n) == None)
            && (forall d :: d != c.n ==> Lookup(x', d) == Lookup(x, d))
  {
  }

  /** A dialogue that has ended is no longer found, and all others are found as before. */
  lemma {:induction false} OfflineForgotten(x: Mgr, client: bool, inn: multiset<Msg>, n: nat)
    requires Registry(x) && Can(x, inn, Offline(n))
    ensures var x', d := Do(x, client, inn, Offline(n)), x.dlgs[n].did;
            && Lookup(x', d) == (if d in x.negotiating then Some(d) else None)
            && (forall e :: e != d ==> Lookup(x', e) == Lookup(x, e))
  {
  }

  /** A manager that has ended finds nobody. */
  lemma {:induction false} NobodyAfterShutdown(x: Mgr, client: bool, inn: multiset<Msg>, d: nat)
    ensures Lookup(Do(x, client, inn, Shutdown), d) == None
  {
  }

  // How long a dialogue is found

  /** Step `l` neither ends the manager of `side` nor a dialogue there whose id is `d`. */
  predicate Spares(w: World, l: Label, side: bool, d: nat) {
    l.client == side && CanStep(w, l) ==>
      !l.act.Shutdown? && (l.act.Offline? ==> Me(w, side).dlgs[l.act.n].did != d)
  }

  predicate SparesAll(w: World, ls: seq<Label>, side: bool, d: nat)
    requires CanRun(w, ls)
    decreases |ls|
  {
    ls == [] || (Spares(w, ls[0], side, d) && SparesAll(Step(w, ls[0]), ls[1..], side, d))
  }

  /** `n` is the ready dialogue of id `d` on `side`. */
  predicate Owns(w: World, side: bool, n: nat, d: nat) {
    var x := Me(w, side);
    n in x.dlgs && x.dlgs[n].did == d && d in x.ready && x.ready[d] == n
  }

  lemma {:induction false} OwnsSessioned(w: World, side: bool, n: nat, d: nat)
    requires Inv(w) && Owns(w, side, n, d)
    ensures Me(w, side).dlgs[n].st == Sessioned && n !in Me(w, side).negotiating
  {
  }

  /** The ready map of the acting manager, as long as no other dialogue is registered as `d`. */
  lemma {:induction false} ReadyStays(x: Mgr, client: bool, inn: multiset<Msg>, c: Act, n: nat, d: nat)
    requires Can(x, inn, c) && d in x.ready && x.ready[d] == n
    requires !c.Shutdown? && (c.Offline? ==> x.dlgs[c.n].did != d)
    requires (c.SendAck? || c.OpenDone?) && x.dlgs[c.n].did == d ==> c.n == n
    ensures var x' := Do(x, client, inn, c); d in x'.ready && x'.ready[d] == n
  {
  }

  /** Registering another dialogue does not displace `n`, because no other has its id. */
  lemma {:induction false} OwnsStays(w: World, l: Label, n: nat, d: nat)
    requires Inv(w) && CanStep(w, l) && Owns(w, l.client, n, d) && Spares(w, l, l.client, d)
    ensures var x' := Do(Me(w, l.client), l.client, Inbox(w, l.client), l.act);
            d in x'.ready && x'.ready[d] == n
  {
    var x := Me(w, l.client);
    OwnsSessioned(w, l.client, n, d);
    if (l.act.SendAck? || l.act.OpenDone?) && x.dlgs[l.act.n].did == d {
      IdsDistinct(w, l.client, l.act.n, n);
    }
    ReadyStays(x, l.client, Inbox(w, l.client), l.act, n, d);
  }

  /** An open dialogue keeps its id. */
  lemma {:induction false} DidStays(x: Mgr, client: bool, inn: multiset<Msg>, c: Act, n: nat)
    requires Registry(x) && Can(x, inn, c) && n in x.dlgs && x.dlgs[n].st == Sessioned
    ensures var x' := Do(x, client, inn, c); n in x'.dlgs && x'.dlgs[n].did == x.dlgs[n].did
  {
    assert DlgOk(x.dlgs[n], x.ok);
  }

  lemma {:induction false} NoteDid(y: Mgr, c: Act, n: nat)
    requires n in y.dlgs
    ensures n in Note(y, c).dlgs && Note(y, c).dlgs[n].did == y.dlgs[n].did
    ensures Note(y, c).ready == y.ready
  {
  }

  lemma {:induction false} ObjectStays(w: World, l: Label, side: bool, n: nat, d: nat)
    requires Inv(w) && CanStep(w, l) && Owns(w, side, n, d)
    ensures n in Me(Step(w, l), side).dlgs && Me(Step(w, l), side).dlgs[n].did == d
    ensures side != l.client ==> Me(Step(w, l), side).ready == Me(w, side).ready
  {
    OwnsSessioned(w, side, n, d);
    if side == l.client {
      DidStays(Me(w, side), side, Inbox(w, side), l.act, n);
    } else {
      NoteDid(Me(w, side), l.act, n);
    }
  }

  lemma {:induction false} OwnsStep(w: World, l: Label, side: bool, n: nat, d: nat)
    requires Inv(w) && CanStep(w, l) && Owns(w, side, n, d) && Spares(w, l, side, d)
    ensures Owns(Step(w, l), side, n, d)
  {
    ObjectStays(w, l, side, n, d);
    if side == l.client {
      OwnsStays(w, l, n, d);
    }
  }

  /** A registered dialogue is found under its id in every run, for as long as neither its manager
      ends nor a dialogue of that id goes offline. */
  lemma {:induction false} FoundUntilOffline(w: World, ls: seq<Label>, side: bool, n: nat, d: nat)
    requires Inv(w) && CanRun(w, ls) && Owns(w, side, n, d) && SparesAll(w, ls, side, d)
    ensures Owns(Run(w, ls), side, n, d) && Lookup(Me(Run(w, ls), side), d) == Some(n)
    decreases |ls|
  {
    if ls != [] {
      OwnsStep(w, ls[0], side, n, d);
      StepKeeps(w, ls[0]);
      FoundUntilOffline(Step(w, ls[0]), ls[1..], side, n, d);
    }
  }

  // Opens that go through

  /** An open from `side` with both managers running: `k` waits for the answer of `n`. */
  predicate Awaits(w: World, side: bool, k: nat, n: nat) {
    var x, y := Me(w, side), Me(w, !side);
    && x.ok && y.ok && k in x.dlgs && k in x.negotiating
    && x.dlgs[k].role == Opener && x.dlgs[k].st == SessionSent
    && n in y.dlgs && y.dlgs[n].role == Acceptor && y.dlgs[n].st == SessionRecv && !y.dlgs[n].refused
    && y.dlgs[n].peer == k
  }

  /** Both halves are open under one id and found under it. */
  predicate OpenBoth(w: World, side: bool, k: nat, n: nat) {
    var x, y := Me(w, side), Me(w, !side);
    && k in x.dlgs && x.dlgs[k].st == Sessioned && n in y.dlgs && y.dlgs[n].st == Sessioned
    && x.dlgs[k].did == y.dlgs[n].did && Routed(x, k) && Routed(y, n)
  }

  lemma {:induction false} AnswerSent(w: World, side: bool, k: nat, n: nat) returns (v: World, m: Msg)
    requires Inv(w) && Awaits(w, side, k, n)
    ensures CanStep(w, Label(!side, SendAck(n))) && v == Step(w, Label(!side, SendAck(n))) && Inv(v)
    ensures m == SessionAck(k, Me(w, !side).dlgs[n].did, false, n) && m in Inbox(v, side)
    ensures Me(v, side) == Me(w, side) && Routed(Me(v, !side), n)
    ensures Me(v, !side).dlgs[n].st == Sessioned && Me(v, !side).dlgs[n].did == m.sid
  {
    v := Step(w, Label(!side, SendAck(n)));
    m := SessionAck(k, Me(w, !side).dlgs[n].did, false, n);
    AckStep(w, !side, n);
    OnlineRoutes(Me(w, !side), !side, Inbox(w, !side), n);
  }

  lemma {:induction false} Opened(v: World, side: bool, k: nat, m: Msg) returns (u: World)
    requires Inv(v) && m.SessionAck? && m.neg == k && m in Inbox(v, side)
    requires var x := Me(v, side);
             x.ok && k in x.dlgs && k in x.negotiating && x.dlgs[k].role == Opener && x.dlgs[k].st == SessionSent
    ensures CanStep(v, Label(side, RecvAck(m))) && u == Step(v, Label(side, RecvAck(m))) && Inv(u)
    ensures var x := Me(u, side);
            x.ok && k in x.dlgs && k in x.negotiating && x.dlgs[k].role == Opener && x.dlgs[k].st == Sessioned
            && x.dlgs[k].did == m.sid
    ensures Me(u, !side) == Me(v, !side)
  {
    u := Step(v, Label(side, RecvAck(m)));
    StepKeeps(v, Label(side, RecvAck(m)));
    AckEffect(Me(v, side), side, Inbox(v, side), m);
    RecvAckSides(v, side, m);
  }

  lemma {:induction false} RecvAckSides(v: World, side: bool, m: Msg)
    requires CanStep(v, Label(side, RecvAck(m)))
    ensures var u := Step(v, Label(side, RecvAck(m)));
            Me(u, side) == Do(Me(v, side), side, Inbox(v, side), RecvAck(m)) && Me(u, !side) == Me(v, !side)
  {
  }

  lemma {:induction false} Registered(u: World, side: bool, k: nat) returns (t: World)
    requires Inv(u) && Me(u, side).ok && k in Me(u, side).negotiating
    requires k in Me(u, side).dlgs && Me(u, side).dlgs[k].role == Opener && Me(u, side).dlgs[k].st == Sessioned
    ensures CanStep(u, Label(side, OpenDone(k))) && t == Step(u, Label(side, OpenDone(k)))
    ensures Routed(Me(t, side), k) && Me(t, side).dlgs == Me(u, side).dlgs && Me(t, !side) == Me(u, !side)
  {
    t := Step(u, Label(side, OpenDone(k)));
    OpenDoneRoutes(Me(u, side), side, Inbox(u, side), k);
  }

  /** From every reachable state in which an open waits for its answer and both managers are
      running, answer, receipt and registration open it, and both halves are found. */
  lemma {:induction false} OpenGoesThrough(w: World, side: bool, k: nat, n: nat) returns (ls: seq<Label>)
    requires Inv(w) && Awaits(w, side, k, n)
    ensures CanRun(w, ls) && OpenBoth(Run(w, ls), side, k, n)
  {
    var v, m := AnswerSent(w, side, k, n);
    var u := Opened(v, side, k, m);
    var t := Registered(u, side, k);
    ls := RunSnoc(w, [], w, Label(!side, SendAck(n)));
    ls := RunSnoc(w, ls, v, Label(side, RecvAck(m)));
    ls := RunSnoc(w, ls, u, Label(side, OpenDone(k)));
  }

  /** A new open and the packet it sends, from either side of two new managers. */
  lemma {:induction false} OpenAsked(side: bool, k: nat) returns (ls: seq<Label>, w: World)
    requires k != DEFAULT_ID
    ensures CanRun(NEW_WORLD, ls) && w == Run(NEW_WORLD, ls) && Inv(w)
    ensures Session(k, side) in Inbox(w, !side) && Me(w, !side) == NEW_MGR && Me(w, side).ok
    ensures k in Me(w, side).dlgs && k in Me(w, side).negotiating
    ensures Me(w, side).dlgs[k].role == Opener && Me(w, side).dlgs[k].st == SessionSent
  {
    var l0, l1 := Label(side, OpenStart(k)), Label(side, SendSession(k));
    var v := Step(NEW_WORLD, l0);
    w := Step(v, l1);
    ls := RunSnoc(NEW_WORLD, [], NEW_WORLD, l0);
    ls := RunSnoc(NEW_WORLD, ls, v, l1);
    Reached(ls);
  }

  lemma {:induction false} OpenTaken(v: World, side: bool, k: nat, n: nat) returns (w: World)
    requires Inv(v) && Session(k, side) in Inbox(v, !side) && Me(v, !side) == NEW_MGR && Me(v, side).ok
    requires k in Me(v, side).dlgs && k in Me(v, side).negotiating && n != DEFAULT_ID
    requires Me(v, side).dlgs[k].role == Opener && Me(v, side).dlgs[k].st == SessionSent
    ensures var l := Label(!side, RecvSession(Session(k, side), n)); CanStep(v, l) && w == Step(v, l)
    ensures Inv(w) && Awaits(w, side, k, n)
  {
    var l := Label(!side, RecvSession(Session(k, side), n));
    w := Step(v, l);
    StepKeeps(v, l);
  }

  /** From two new managers, whichever side opens: a run that ends with both halves open under one
      id, each found by the packets the other stamps with it. */
  lemma {:induction false} OpenSucceeds(side: bool, k: nat, n: nat) returns (ls: seq<Label>)
    requires k != DEFAULT_ID && n != DEFAULT_ID
    ensures CanRun(NEW_WORLD, ls) && OpenBoth(Run(NEW_WORLD, ls), side, k, n)
  {
    var v;
    ls, v := OpenAsked(side, k);
    var w := OpenTaken(v, side, k, n);
    ls := RunSnoc(NEW_WORLD, ls, v, Label(!side, RecvSession(Session(k, side), n)));
    var more := OpenGoesThrough(w, side, k, n);
    ls := RunMore(NEW_WORLD, ls, w, more);
  }

  lemma {:induction false} RunMore(w: World, ls: seq<Label>, v: World, ms: seq<Label>) returns (all: seq<Label>)
    requires CanRun(w, ls) && Run(w, ls) == v && CanRun(v, ms)
    ensures CanRun(w, all) && Run(w, all) == Run(v, ms)
    decreases |ls|
  {
    if ls == [] {
      all := ms;
    } else {
      var rest := RunMore(Step(w, ls[0]), ls[1..], v, ms);
      all := [ls[0]] + rest;
      assert all[1..] == rest;
    }
  }

  // The states of opening are the FSM's

  /** The first event of an object that an act makes, and the event an act emits on one. */
  function Emitted(x: Mgr, c: Act): Option<Input> {
    match c
    case SendSession(_) => Some(EvSessionSent)
    case RecvSession(_, _) => Some(EvSessionRecv)
    case SendAck(_) => Some(if x.ok then EvSessionRecv else EvError)
    case RecvAck(_) => Some(EvSessionRecv)
    case _ => None
  }

  /** Every change of an object's state is the row of the transition table for the event its
      handler emits; a new object starts out INIT. */
  lemma {:induction false} StatesFollowTable(x: Mgr, client: bool, inn: multiset<Msg>, c: Act, n: nat)
    requires Registry(x) && Can(x, inn, c) && n in Do(x, client, inn, c).dlgs
    ensures var s, t := if n in x.dlgs then x.dlgs[n].st else Init, Do(x, client, inn, c).dlgs[n].st;
            t == s || (Emitted(x, c).Some? && Next(s, Emitted(x, c).value) == Some(t))
    ensures c.SendAck? ==> Next(x.dlgs[c.n].st, Emitted(x, c).value) == Some(Do(x, client, inn, c).dlgs[c.n].st)
  {
  }

  // Closing

  /** An open dialogue can be closed on either side at any time, which leaves it registered: it is
      found until it has gone offline, and then no longer. */
  lemma {:induction false} ClosingStaysFound(w: World, side: bool, n: nat)
    requires Inv(w) && n in Me(w, side).dlgs && Owns(w, side, n, Me(w, side).dlgs[n].did)
    ensures var l := Label(side, CloseBegins(n));
            && CanStep(w, l) && Owns(Step(w, l), side, n, Me(w, side).dlgs[n].did)
            && Me(Step(w, l), side).dlgs[n].closed
  {
    var d, l := Me(w, side).dlgs[n].did, Label(side, CloseBegins(n));
    OwnsSessioned(w, side, n, d);
    OwnsStep(w, l, side, n, d);
  }

  // The mail between the managers

  lemma {:induction false} MailOf(x: Mgr, client: bool, inn: multiset<Msg>, c: Act)
    requires Can(x, inn, c)
    ensures Taken(c) == (if c.RecvSession? || c.RecvAck? then multiset{c.m} else multiset{}) && Taken(c) <= inn
    ensures |Sent(x, client, inn, c)| == if c.SendSession? || c.SendAck? then 1 else 0
  {
  }

  /** Conservation of session packets and acks: one that is taken is gone, one that is sent is one
      more, and nothing else touches the mail. */
  lemma {:induction false} MailConserved(w: World, l: Label)
    requires CanStep(w, l)
    ensures var c, v := l.act, Step(w, l);
            && Inbox(w, l.client)
               == Inbox(v, l.client) + (if c.RecvSession? || c.RecvAck? then multiset{c.m} else multiset{})
            && |Inbox(v, !l.client)|
               == |Inbox(w, !l.client)| + (if c.SendSession? || c.SendAck? then 1 else 0)
  {
    var x, inn := Me(w, l.client), Inbox(w, l.client);
    MailOf(x, l.client, inn, l.act);
    InboxesMove(w, l);
    assert inn == inn - Taken(l.act) + Taken(l.act);
  }

  lemma {:induction false} InboxesMove(w: World, l: Label)
    requires CanStep(w, l)
    ensures Can(Me(w, l.client), Inbox(w, l.client), l.act)
    ensures Inbox(Step(w, l), l.client) == Inbox(w, l.client) - Taken(l.act)
    ensures Inbox(Step(w, l), !l.client)
            == Inbox(w, !l.client) + Sent(Me(w, l.client), l.client, Inbox(w, l.client), l.act)
  {
  }
}
