/** The connection object, client or server: its close handlers and the goroutines around them.
    Each is proved to be the step, or the two steps, that the close protocol takes, and the
    turns of the handler never to end it with an error. */
module ConnObject {
  import opened Handshake
  import P = CloseProtocol
  import CloseSafety
  import opened ConnFsm

  /** A call of Close that the handler makes itself is no goroutine: it has run by the time the
      handler returns. */
  function Settle(x: P.End): (x': P.End) {
    if x.pendClose > 0 then P.Close(x.(pendClose := 0)) else x
  }

  lemma {:induction false} SettleKeeps(x: P.End, y: P.End)
    requires CloseSafety.Both(x, y) && x.pendClose <= 1
    ensures CloseSafety.Both(Settle(x), y) && Settle(x).pendClose == 0
    ensures x.pendClose > 0 ==> P.Can(x, y, P.RunClose) && Settle(x) == P.Do(x, y, P.RunClose)
  {
    if x.pendClose > 0 {
      CloseSafety.ActKeeps(x, y, P.RunClose);
    }
  }

  /** What a turn on the head of readInCh gives to the reader. */
  lemma {:induction false} InTakes(x: P.End)
    requires x.kind == P.Connection && x.readIn != []
    ensures Settle(P.HandleIn(x)).got
            == if x.readIn[0].Data? && x.phase == Open then x.got + [x.readIn[0].item] else x.got
  {
  }

  lemma {:induction false} InSettles(x: P.End, y: P.End)
    requires CloseSafety.Both(x, y) && P.Can(x, y, P.In) && x.pendClose == 0
    ensures P.HandleIn(x).pendClose <= 1
    ensures CloseSafety.Both(Settle(P.HandleIn(x)), y)
  {
    CloseSafety.ActKeeps(x, y, P.In);
    SettleKeeps(P.HandleIn(x), y);
  }

  class BaseConn {
    const client: bool
    var fsm: State
    var ended: bool
    var failed: bool
    var closeOnce: bool
    var disConnSends: nat
    var ackSends: nat
    var writeIn: seq<P.Pkt>
    var writeOut: seq<P.Pkt>
    var netconn: seq<P.Pkt>   // bytes written down, as packets
    var readIn: seq<P.Pkt>
    var readOut: seq<P.Item>
    ghost var facts: Facts
    ghost var log: seq<P.Item>
    ghost var cut: nat

    ghost predicate Valid()
      reads this
    {
      PhaseOf(fsm).Some?
    }

    // Close is called inside the handler here, so no call of it is ever pending
    ghost function View(): P.End
      requires Valid()
      reads this
    {
      P.End(P.Connection, PhaseOf(fsm).value, ended, failed, closeOnce, 0, disConnSends, ackSends,
            writeIn, writeOut, netconn, readIn, readOut, facts, log, cut,
            P.Stream([], [], false, 0, false, false))
    }

    /** A connection whose handshake is over. */
    constructor (client: bool)
      ensures Valid() && View() == P.NewEnd(View().kind) && View().kind == P.Connection
      ensures this.client == client
    {
      this.client := client;
      fsm, ended, failed, closeOnce := Conned, false, false, false;
      disConnSends, ackSends := 0, 0;
      writeIn, writeOut, netconn, readIn, readOut := [], [], [], [], [];
      facts, log, cut := NO_FACTS, [], 0;
    }

    method Emit(e: Event) returns (ok: bool)
      requires Valid()
      modifies `fsm
      ensures Valid() && ok == NextPhase(old(PhaseOf(fsm).value), e).Some?
      ensures PhaseOf(fsm) == if ok then NextPhase(old(PhaseOf(fsm).value), e) else old(PhaseOf(fsm))
    {
      TablesAreClose(fsm, e);
      var next := if client then ClientNext(fsm, EvClose(e)) else ServerNext(fsm, EvClose(e));
      ok := next.Some?;
      if ok {
        fsm := next.value;
      }
    }

    method Close()
      requires Valid()
      modifies `closeOnce, `disConnSends
      ensures Valid() && View() == P.Close(old(View()))
    {
      if !closeOnce {
        closeOnce := true;
        disConnSends := disConnSends + 1;
      }
    }

    /** Two steps of the protocol: the packet is handled, then Close runs at once. */
    method HandleInDisConnPacket()
      requires Valid() && !ended && !failed
      modifies this
      ensures Valid() && View() == Settle(P.InDismiss(old(View())))
    {
      var ok := Emit(CloseRecv);
      if !ok {
        ended, failed := true, true;
        return;
      }
      facts := facts.(recv := true);
      ackSends := ackSends + 1;
      Close();
    }

    method HandleInDisConnAckPacket()
      requires Valid() && !ended && !failed
      modifies this
      ensures Valid() && View() == P.InAck(old(View()))
    {
      var ok := Emit(CloseAck);
      if !ok {
        ended, failed := true, true;
        return;
      }
      facts := facts.(ackIn := true);
      ended := fsm != CloseHalf;
    }

    method HandleOutDisConnPacket()
      requires Valid() && !ended && !failed
      modifies this
      ensures Valid() && View() == P.OutDismiss(old(View()))
    {
      var ok := Emit(CloseSent);
      if !ok {
        ended, failed := true, true;
        return;
      }
      facts := facts.(sent := true);
      writeOut := writeOut + [P.Dismiss];
    }

    /** The acknowledgement is written down here and now, ahead of what waits in writeOutCh. */
    method HandleOutDisConnAckPacket()
      requires Valid() && !ended && !failed
      modifies this
      ensures Valid() && View() == P.OutAck(old(View()))
    {
      var ok := Emit(CloseAck);
      if !ok {
        ended, failed := true, true;
        return;
      }
      facts := facts.(ackOut := true);
      netconn := netconn + [P.Ack];
      ended := fsm != CloseHalf;
    }

    method HandleInDataPacket(i: P.Item)
      requires Valid()
      modifies `readOut
      ensures Valid() && View() == P.InData(old(View()), i)
      ensures readOut == if old(fsm) == Conned then old(readOut) + [i] else old(readOut)
    {
      if fsm == Conned {
        readOut := readOut + [i];
      }
    }

    method HandleOutDataPacket(i: P.Item)
      requires Valid()
      modifies `writeOut
      ensures Valid() && View() == P.OutData(old(View()), i)
    {
      writeOut := writeOut + [P.Data(i)];
    }

    /** One turn of handlePkt that takes the head of readInCh. Facing a peer `y` in step with it,
        the connection stays in step: no event is refused, and it ends only when all is done. */
    method HandleIn(ghost y: P.End)
      requires Valid() && CloseSafety.Both(View(), y) && P.Can(View(), y, P.In)
      modifies this
      ensures Valid() && View() == Settle(P.HandleIn(old(View())))
      ensures CloseSafety.Both(View(), y) && !failed && (ended <==> Done(facts))
      ensures if old(readIn[0]).Data? && old(fsm) == Conned then readOut == old(readOut) + [old(readIn[0]).item]
              else readOut == old(readOut)
    {
      InSettles(View(), y);
      InTakes(View());
      var pkt := readIn[0];
      readIn := readIn[1..];
      match pkt
      case Data(i) => HandleInDataPacket(i);
      case Dismiss => HandleInDisConnPacket();
      case Ack => HandleInDisConnAckPacket();
    }

    /** One turn of handlePkt that takes the head of writeInCh. */
    method HandleOut(ghost y: P.End)
      requires Valid() && CloseSafety.Both(View(), y) && P.Can(View(), y, P.Out)
      modifies this
      ensures Valid() && View() == P.HandleOut(old(View()))
      ensures CloseSafety.Both(View(), y) && !failed && (ended <==> Done(facts))
    {
      CloseSafety.ActKeeps(View(), y, P.Out);
      var pkt := writeIn[0];
      writeIn := writeIn[1..];
      match pkt
      case Data(i) => HandleOutDataPacket(i);
      case Dismiss => HandleOutDisConnPacket();
      case Ack => HandleOutDisConnAckPacket();
    }

    // The goroutines around the handler

    /** The goroutine that Close spawns. */
    method SendDisConn()
      requires Valid() && !ended && disConnSends > 0
      modifies `disConnSends, `writeIn, `cut
      ensures Valid() && View() == P.Do(old(View()), old(View()), P.PutDismiss)
    {
      disConnSends := disConnSends - 1;
      writeIn := writeIn + [P.Dismiss];
      cut := |log|;
    }

    /** The goroutine that a received disconn spawns for its ack. */
    method SendAck()
      requires Valid() && !ended && ackSends > 0
      modifies `ackSends, `writeIn
      ensures Valid() && View() == P.Do(old(View()), old(View()), P.PutAck)
    {
      ackSends := ackSends - 1;
      writeIn := writeIn + [P.Ack];
    }

    /** Write: one packet of the layer above. */
    method Write(i: P.Item)
      requires Valid()
      modifies `writeIn, `log
      ensures Valid() && View() == P.Put(old(View()), i)
    {
      writeIn := writeIn + [P.Data(i)];
      log := log + [i];
    }

    /** writePkt: fini closes the transport, so nothing is written down once the handler ended. */
    method WritePkt()
      requires Valid() && !ended && writeOut != []
      modifies `writeOut, `netconn
      ensures Valid() && View() == P.Do(old(View()), old(View()), P.Flush)
    {
      netconn := netconn + [writeOut[0]];
      writeOut := writeOut[1..];
    }
  }
}
