/** The close handshake that the dialogue layer and the connection layer share.

    Each side owns four facts: it has sent its own close packet, it has received the
    peer's, it has acknowledged the peer's, and it has been acknowledged. The
    protocol is the guarded way those eight facts come true; nothing here speaks of
    queues, goroutines or FSM states. */
module Handshake {
  import opened Options

  datatype Facts = Facts(sent: bool, recv: bool, ackOut: bool, ackIn: bool)

  datatype Pair = Pair(l: Facts, r: Facts)

  const NO_FACTS := Facts(false, false, false, false)

  predicate Done(x: Facts) {
    x.sent && x.recv && x.ackOut && x.ackIn
  }

  /** One fact of `x` comes true; `y` is the peer. */
  predicate Advance(x: Facts, y: Facts, x': Facts) {
    || (!x.sent && x' == x.(sent := true))
    || (!x.recv && y.sent && x' == x.(recv := true))
    || (!x.ackOut && x.recv && x' == x.(ackOut := true))
    || (!x.ackIn && y.ackOut && x' == x.(ackIn := true))
  }

  predicate FactStep(s: Pair, t: Pair) {
    || (t.r == s.r && Advance(s.l, s.r, t.l))
    || (t.l == s.l && Advance(s.r, s.l, t.r))
  }

  /** A run of the handshake, state by state. */
  ghost predicate Chain(p: seq<Pair>) {
    p != [] && forall i :: 0 < i < |p| ==> FactStep(p[i - 1], p[i])
  }

  /** Every fact about the peer's packets is one the peer has made true. */
  predicate Causal(s: Pair) {
    && (s.l.recv ==> s.r.sent) && (s.r.recv ==> s.l.sent)
    && (s.l.ackOut ==> s.l.recv) && (s.r.ackOut ==> s.r.recv)
    && (s.l.ackIn ==> s.r.ackOut) && (s.r.ackIn ==> s.l.ackOut)
  }

  function Weight(x: Facts): nat {
    (if x.sent then 1 else 0) + (if x.recv then 1 else 0)
    + (if x.ackOut then 1 else 0) + (if x.ackIn then 1 else 0)
  }

  lemma {:induction false} StepCausal(s: Pair, t: Pair)
    requires FactStep(s, t) && Causal(s)
    ensures Causal(t) && Weight(t.l) + Weight(t.r) == Weight(s.l) + Weight(s.r) + 1
  {
  }

  /** Whatever the order, each step makes exactly one fact true and keeps causality, so a
      handshake never takes more than eight steps. */
  lemma {:induction false} ChainCausal(p: seq<Pair>)
    requires Chain(p) && Causal(p[0])
    ensures var t := p[|p| - 1];
            && Causal(t)
            && Weight(t.l) + Weight(t.r) == Weight(p[0].l) + Weight(p[0].r) + |p| - 1
    ensures |p| <= 9
  {
    if |p| > 1 {
      StepCausal(p[0], p[1]);
      ChainCausal(p[1..]);
    }
  }

  /** A side that is done leaves its peer with one thing to wait for at most: the last
      acknowledgement, which has already been sent. */
  lemma {:induction false} DoneLeavesOneAck(s: Pair)
    requires Causal(s) && Done(s.l)
    ensures s.r.sent && s.r.recv && s.r.ackOut
    ensures Done(s.r) || FactStep(s, s.(r := s.r.(ackIn := true)))
  {
  }

  /** The handshake can only stop where both sides are done. */
  lemma {:induction false} StuckOnlyWhenDone(s: Pair)
    requires Causal(s)
    requires forall t :: !FactStep(s, t)
    ensures Done(s.l) && Done(s.r)
  {
    var l, r := s.l, s.r;
    assert !FactStep(s, s.(l := l.(sent := true))) && !FactStep(s, s.(r := r.(sent := true)));
    assert !FactStep(s, s.(l := l.(recv := true))) && !FactStep(s, s.(r := r.(recv := true)));
    assert !FactStep(s, s.(l := l.(ackOut := true))) && !FactStep(s, s.(r := r.(ackOut := true)));
    assert !FactStep(s, s.(l := l.(ackIn := true))) && !FactStep(s, s.(r := r.(ackIn := true)));
  }

  // The part of an endpoint's FSM that closing uses

  datatype Phase = Open | Sent | Recv | Half | Closed

  datatype Event = CloseSent | CloseRecv | CloseAck

  /** The close rows shared by the three transition tables; `None` is the FSM's error. */
  function NextPhase(p: Phase, e: Event): (q: Option<Phase>) {
    match (p, e)
    case (Open, CloseSent) => Some(Sent)
    case (Recv, CloseSent) => Some(Sent)
    case (Half, CloseSent) => Some(Half)
    case (Open, CloseRecv) => Some(Recv)
    case (Sent, CloseRecv) => Some(Recv)
    case (Half, CloseRecv) => Some(Half)
    case (Sent, CloseAck) => Some(Half)
    case (Recv, CloseAck) => Some(Half)
    case (Half, CloseAck) => Some(Closed)
    case _ => None
  }

  /** What the close rows refuse, exactly: everything once closed, an acknowledgement before either
      close packet, and a second close packet the same way before an acknowledgement. */
  lemma {:induction false} RefusesExactly(p: Phase, e: Event)
    ensures NextPhase(p, e) == None
            <==> p == Closed || (p == Open && e == CloseAck) || (p == Sent && e == CloseSent)
                 || (p == Recv && e == CloseRecv)
    ensures p == Closed || NextPhase(p, e) != Some(Open)
    ensures NextPhase(p, e) == Some(Closed) <==> p == Half && e == CloseAck
    ensures NextPhase(p, e) == Some(Half) <==> (p == Half && e != CloseAck) || ((p == Sent || p == Recv) && e == CloseAck)
  {
  }

  /** What a phase says about the facts of a side that has not finished: `Half` means
      that exactly one of the two acknowledgements has happened, whichever it is. */
  predicate PhaseFits(p: Phase, x: Facts) {
    && (p == Open ==> x == NO_FACTS)
    && (p == Sent ==> x.sent && !x.ackOut && !x.ackIn)
    && (p == Recv ==> x.recv && !x.ackOut && !x.ackIn)
    && (p == Half <==> x.ackOut != x.ackIn)
    && p != Closed
  }

  /** The fact a close event makes true: an acknowledgement is one event in the table,
      whether it goes out or comes in. */
  function After(x: Facts, e: Event, out: bool): Facts {
    match e
    case CloseSent => x.(sent := true)
    case CloseRecv => x.(recv := true)
    case CloseAck => if out then x.(ackOut := true) else x.(ackIn := true)
  }

  /** The table never refuses an event that the facts allow, and the phase it moves to
      fits the facts again until both acknowledgements have happened. */
  lemma {:induction false} TableFollowsFacts(p: Phase, x: Facts, e: Event, out: bool)
    requires PhaseFits(p, x) && After(x, e, out) != x
    requires (x.ackOut ==> x.recv) && (x.ackIn ==> x.sent)
    requires e == CloseAck ==> if out then x.recv else x.sent
    ensures var q, y := NextPhase(p, e), After(x, e, out);
            && q.Some?
            && (q.value == Closed <==> y.ackOut && y.ackIn)
            && (q.value != Closed ==> PhaseFits(q.value, y))
            && (e == CloseAck ==> q.value == Half || q.value == Closed)
  {
  }
}
