/** Two endpoints closing a dialogue, or a connection, as a transition system.

    An endpoint is one handler goroutine choosing between `readIn` and `writeIn`, one
    writer goroutine draining `writeOut`, goroutines spawned to enqueue a close packet
    or an acknowledgement, and, above a dialogue, the stream that feeds it. Queues are
    unbounded and the transport loses nothing. */
module CloseProtocol {
  import opened Handshake

  // A packet of the layer above; `direct` ones (responses, register acks) are handed to
  // the dialogue without going through the stream's own queue
  datatype Item = Item(id: nat, direct: bool)

  datatype Pkt = Data(item: Item) | Dismiss | Ack

  datatype Kind = Dialogue | Connection

  /** The stream above a dialogue: its `writeInCh`, everything ever written to it, whether
      Close was called and after how many writes, whether the drain has run, and whether
      the drain was what closed the dialogue. */
  datatype Stream = Stream(queue: seq<nat>, log: seq<nat>, closing: bool, mark: nat,
                           drained: bool, clean: bool)

  /** `pendClose`, `pendDismiss` and `pendAck` count spawned goroutines that have not run:
      calls of Close, sends of a close packet, sends of an acknowledgement. `net` is the
      wire towards the peer, `got` is what reached `readOutCh`, and `log` is every item
      put on `writeIn`, of which the first `cut` precede the close packet. */
  datatype End = End(
    kind: Kind, phase: Phase, fin: bool, bad: bool, once: bool,
    pendClose: nat, pendDismiss: nat, pendAck: nat,
    writeIn: seq<Pkt>, writeOut: seq<Pkt>, net: seq<Pkt>, readIn: seq<Pkt>,
    got: seq<Item>, facts: Facts, log: seq<Item>, cut: nat, app: Stream)

  datatype Sys = Sys(a: End, b: End)

  function NewEnd(kind: Kind): (x: End) {
    End(kind, Open, false, false, false, 0, 0, 0, [], [], [], [], [], NO_FACTS, [], 0,
        Stream([], [], false, 0, false, false))
  }

  // Close: take `closeOnce` and spawn the send of the close packet
  function Close(x: End): (x': End) {
    if x.once then x else x.(once := true, pendDismiss := x.pendDismiss + 1)
  }

  function Put(x: End, i: Item): (x': End) {
    x.(writeIn := x.writeIn + [Data(i)], log := x.log + [i])
  }

  // An FSM error ends the handler
  function Reject(x: End): (x': End) {
    x.(bad := true, fin := true)
  }

  // handleOutDataPacket
  function OutData(x: End, i: Item): (x': End) {
    x.(writeOut := x.writeOut + [Data(i)])
  }

  // handleOutDismissPacket, handleOutDisConnPacket
  function OutDismiss(x: End): (x': End) {
    var q := NextPhase(x.phase, CloseSent);
    if q.None? then Reject(x)
    else x.(phase := q.value, facts := x.facts.(sent := true), writeOut := x.writeOut + [Dismiss])
  }

  // handleOutDismissAckPacket queues the acknowledgement like everything else, while
  // handleOutDisConnAckPacket writes it straight to the wire
  function OutAck(x: End): (x': End) {
    var q := NextPhase(x.phase, CloseAck);
    if q.None? then Reject(x)
    else if x.kind == Dialogue then
      x.(phase := q.value, facts := x.facts.(ackOut := true), fin := q.value != Half,
         writeOut := x.writeOut + [Ack])
    else
      x.(phase := q.value, facts := x.facts.(ackOut := true), fin := q.value != Half,
         net := x.net + [Ack])
  }

  // handleInDataPacket: a connection takes data only while it is open
  function InData(x: End, i: Item): (x': End) {
    if x.phase == Open || (x.kind == Dialogue && x.phase != Closed) then x.(got := x.got + [i]) else x
  }

  // handleInDismissPacket, handleInDisConnPacket: a dialogue that was acknowledged before
  // the peer's close packet arrives puts the last acknowledgement on writeOut and ends
  function InDismiss(x: End): (x': End) {
    var q := NextPhase(x.phase, CloseRecv);
    if q.None? then Reject(x)
    else if x.kind == Dialogue && x.phase == Half then
      x.(facts := x.facts.(recv := true, ackOut := true), writeOut := x.writeOut + [Ack], fin := true)
    else
      x.(phase := q.value, facts := x.facts.(recv := true),
         pendAck := x.pendAck + 1, pendClose := x.pendClose + 1)
  }

  // handleInDimssAckPacket, handleInDisConnAckPacket
  function InAck(x: End): (x': End) {
    var q := NextPhase(x.phase, CloseAck);
    if q.None? then Reject(x)
    else x.(phase := q.value, facts := x.facts.(ackIn := true), fin := q.value != Half)
  }

  function HandleOut(x: End): (x': End)
    requires x.writeIn != []
  {
    var r := x.(writeIn := x.writeIn[1..]);
    match x.writeIn[0]
    case Data(i) => OutData(r, i)
    case Dismiss => OutDismiss(r)
    case Ack => OutAck(r)
  }

  function HandleIn(x: End): (x': End)
    requires x.readIn != []
  {
    var r := x.(readIn := x.readIn[1..]);
    match x.readIn[0]
    case Data(i) => InData(r, i)
    case Dismiss => InDismiss(r)
    case Ack => InAck(r)
  }

  datatype Act =
    // the users of the endpoint
    | AppWrite(id: nat) | AppClose | DirectWrite(id: nat) | CloseCall
    // the stream's handlePkt: forward one packet, or find the queue empty after Close
    | Move | Drain
    // spawned goroutines
    | RunClose | PutDismiss | PutAck
    // the handler, the writer, and the peer's writer delivering here
    | Out | In | Flush | Arrive
    // the transport ends once the peer closed it and all was read
    | Eof

  // The goroutines of the endpoint itself
  predicate Protocol(c: Act) {
    c.RunClose? || c.PutDismiss? || c.PutAck? || c.Out? || c.In? || c.Flush? || c.Arrive?
  }

  // Every goroutine, the stream's handler included: all but the users
  predicate Internal(c: Act) {
    Protocol(c) || c.Move? || c.Drain? || c.Eof?
  }

  /** May `x` do `c`, with `y` its peer? */
  predicate Can(x: End, y: End, c: Act) {
    match c
    case AppWrite(_) => x.kind == Dialogue
    case AppClose => x.kind == Dialogue && !x.app.closing
    case DirectWrite(_) => !x.fin
    case CloseCall => true
    case Move => !x.fin && x.app.queue != []
    case Drain => x.app.closing && !x.app.drained && x.app.queue == []
    case RunClose => x.pendClose > 0
    case PutDismiss => !x.fin && x.pendDismiss > 0
    case PutAck => !x.fin && x.pendAck > 0
    case Out => !x.fin && x.writeIn != []
    case In => !x.fin && x.readIn != []
    case Flush => x.writeOut != [] && (x.kind == Dialogue || !x.fin)
    case Arrive => y.net != []
    case Eof => x.kind == Connection && y.fin && !x.fin && y.net == [] && x.readIn == []
  }

  function Do(x: End, y: End, c: Act): (x': End)
    requires Can(x, y, c)
  {
    match c
    case AppWrite(id) => x.(app := x.app.(queue := x.app.queue + [id], log := x.app.log + [id]))
    case AppClose => x.(app := x.app.(closing := true, mark := |x.app.log|))
    case DirectWrite(id) => Put(x, Item(id, true))
    case CloseCall => Close(x)
    case Move =>
      Put(x.(app := x.app.(queue := x.app.queue[1..])), Item(x.app.queue[0], false))
    case Drain => Close(x.(app := x.app.(drained := true, clean := !x.once)))
    case RunClose => Close(x.(pendClose := x.pendClose - 1))
    case PutDismiss =>
      x.(pendDismiss := x.pendDismiss - 1, writeIn := x.writeIn + [Dismiss], cut := |x.log|)
    case PutAck => x.(pendAck := x.pendAck - 1, writeIn := x.writeIn + [Ack])
    case Out => HandleOut(x)
    case In => HandleIn(x)
    case Flush => x.(writeOut := x.writeOut[1..], net := x.net + [x.writeOut[0]])
    // the peer's manager drops what a finished endpoint would have received
    case Arrive => if x.fin then x else x.(readIn := x.readIn + [y.net[0]])
    case Eof => Reject(x)
  }

  // What `c` does to the peer: only Arrive takes a packet off its wire
  function Peer(y: End, c: Act): (y': End)
    requires c.Arrive? ==> y.net != []
  {
    if c.Arrive? then y.(net := y.net[1..]) else y
  }

  datatype Label = Label(left: bool, act: Act)

  predicate CanStep(s: Sys, l: Label) {
    if l.left then Can(s.a, s.b, l.act) else Can(s.b, s.a, l.act)
  }

  function Step(s: Sys, l: Label): (t: Sys)
    requires CanStep(s, l)
  {
    if l.left then Sys(Do(s.a, s.b, l.act), Peer(s.b, l.act))
    else Sys(Peer(s.a, l.act), Do(s.b, s.a, l.act))
  }

  predicate CanRun(s: Sys, ls: seq<Label>)
    decreases |ls|
  {
    ls == [] || (CanStep(s, ls[0]) && CanRun(Step(s, ls[0]), ls[1..]))
  }

  function Run(s: Sys, ls: seq<Label>): (t: Sys)
    requires CanRun(s, ls)
    decreases |ls|
  {
    if ls == [] then s else Run(Step(s, ls[0]), ls[1..])
  }

  lemma {:induction false} RunConcat(s: Sys, ls: seq<Label>, ms: seq<Label>)
    requires CanRun(s, ls) && CanRun(Run(s, ls), ms)
    ensures CanRun(s, ls + ms) && Run(s, ls + ms) == Run(Run(s, ls), ms)
    decreases |ls|
  {
    if ls == [] {
      assert ls + ms == ms;
    } else {
      assert (ls + ms)[1..] == ls[1..] + ms;
      RunConcat(Step(s, ls[0]), ls[1..], ms);
    }
  }

  lemma {:induction false} RunOf1(s: Sys, l: Label)
    requires CanStep(s, l)
    ensures CanRun(s, [l]) && Run(s, [l]) == Step(s, l)
  {
    assert [l][1..] == [];
  }

  lemma {:induction false} RunOf2(s: Sys, i: Label, j: Label)
    requires CanStep(s, i) && CanStep(Step(s, i), j)
    ensures CanRun(s, [i, j]) && Run(s, [i, j]) == Step(Step(s, i), j)
  {
    assert [i, j][1..] == [j];
    RunOf1(Step(s, i), j);
  }

  predicate Initial(s: Sys) {
    s.a == NewEnd(s.a.kind) && s.b == s.a
  }
}
