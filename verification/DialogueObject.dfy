/** The dialogue object: its handlers as they update the FSM, the queues and the close-once
    flag, and the goroutines around them. Each is proved to be the step the close protocol
    takes, and the turns of the handler never to end it with an error. */
module DialogueObject {
  import opened Handshake
  import P = CloseProtocol
  import CloseSafety
  import opened DialogueFsm

  // The returns of the handlers that matter to the handler loop
  datatype IORet = IOSuccess | IODiscard | IOClosed | IOErr

  class Dialogue {
    var fsm: State
    var ended: bool          // handlePkt left its loop
    var failed: bool         // ... because an event was refused
    var closeOnce: bool
    // spawned goroutines that have not run yet
    var closeCalls: nat
    var dismissSends: nat
    var ackSends: nat
    var writeIn: seq<P.Pkt>
    var writeOut: seq<P.Pkt>
    var readIn: seq<P.Pkt>
    var readOut: seq<P.Item>
    var wire: seq<P.Pkt>     // written down to the connection, not yet read by the peer
    var app: P.Stream        // the stream above
    // what the protocol is specified by
    ghost var facts: Facts
    ghost var log: seq<P.Item>
    ghost var cut: nat

    ghost predicate Valid()
      reads this
    {
      PhaseOf(fsm).Some?
    }

    ghost function View(): P.End
      requires Valid()
      reads this
    {
      P.End(P.Dialogue, PhaseOf(fsm).value, ended, failed, closeOnce,
            closeCalls, dismissSends, ackSends, writeIn, writeOut, wire, readIn,
            readOut, facts, log, cut, app)
    }

    /** The default dialogue, which starts out SESSIONED. */
    constructor ()
      ensures Valid() && View() == P.NewEnd(View().kind) && View().kind == P.Dialogue
    {
      fsm, ended, failed, closeOnce := Sessioned, false, false, false;
      closeCalls, dismissSends, ackSends := 0, 0, 0;
      writeIn, writeOut, readIn, readOut := [], [], [], [];
      facts, wire, log, cut := NO_FACTS, [], [], 0;
      app := P.Stream([], [], false, 0, false, false);
    }

    method Emit(e: Event) returns (ok: bool)
      requires Valid()
      modifies `fsm
      ensures Valid() && ok == NextPhase(old(PhaseOf(fsm).value), e).Some?
      ensures PhaseOf(fsm) == if ok then NextPhase(old(PhaseOf(fsm).value), e) else old(PhaseOf(fsm))
    {
      TableIsClose(fsm, e);
      var next := Next(fsm, InputOf(e));
      ok := next.Some?;
      if ok {
        fsm := next.value;
      }
    }

    method Close()
      requires Valid()
      modifies `closeOnce, `dismissSends
      ensures Valid() && View() == P.Close(old(View()))
    {
      if !closeOnce {
        closeOnce := true;
        dismissSends := dismissSends + 1;
      }
    }

    /** In DISMISS_HALF the last ack is sent from inside the handler, past writeInCh. */
    method HandleInDismissPacket() returns (ret: IORet)
      requires Valid() && !ended && !failed
      modifies `fsm, `ended, `failed, `facts, `writeOut, `ackSends, `closeCalls
      ensures Valid() && ended == (ret != IOSuccess) && failed == (ret == IOErr)
      ensures View() == P.InDismiss(old(View()))
    {
      ghost var x := View();
      var prevState := fsm;
      assert x.phase == Half <==> prevState == DismissHalf;
      ghost var q := NextPhase(x.phase, CloseRecv);
      var ok := Emit(CloseRecv);
      if !ok {
        ended, failed := true, true;
        return IOErr;
      }
      facts := facts.(recv := true);
      if prevState == DismissHalf {
        assert q.value == Half;
        writeOut := writeOut + [P.Ack];
        facts := facts.(ackOut := true);
        ended := true;
        return IOClosed;
      }
      assert PhaseOf(fsm) == q && x.phase != Half;
      ackSends := ackSends + 1;
      closeCalls := closeCalls + 1;
      return IOSuccess;
    }

    method HandleInDismissAckPacket() returns (ret: IORet)
      requires Valid() && !ended && !failed
      modifies this
      ensures Valid() && ended == (ret != IOSuccess) && failed == (ret == IOErr)
      ensures View() == P.InAck(old(View()))
    {
      var ok := Emit(CloseAck);
      if !ok {
        ended, failed := true, true;
        return IOErr;
      }
      facts := facts.(ackIn := true);
      if fsm == DismissHalf {
        return IOSuccess;
      }
      ended := true;
      return IOClosed;
    }

    method HandleInDataPacket(i: P.Item) returns (ret: IORet)
      requires Valid() && !ended
      modifies `readOut
      ensures Valid() && ret == (if old(fsm) == Dismissed then IODiscard else IOSuccess)
      ensures View() == P.InData(old(View()), i)
    {
      if fsm !in {Sessioned, DismissHalf, DismissSent, DismissRecv} {
        return IODiscard;
      }
      readOut := readOut + [i];
      return IOSuccess;
    }

    method HandleOutDismissPacket() returns (ret: IORet)
      requires Valid() && !ended && !failed
      modifies this
      ensures Valid() && ended == (ret != IOSuccess) && failed == (ret == IOErr)
      ensures View() == P.OutDismiss(old(View()))
    {
      var ok := Emit(CloseSent);
      if !ok {
        ended, failed := true, true;
        return IOErr;
      }
      facts := facts.(sent := true);
      writeOut := writeOut + [P.Dismiss];
      return IOSuccess;
    }

    method HandleOutDismissAckPacket() returns (ret: IORet)
      requires Valid() && !ended && !failed
      modifies this
      ensures Valid() && ended == (ret != IOSuccess) && failed == (ret == IOErr)
      ensures View() == P.OutAck(old(View()))
    {
      var ok := Emit(CloseAck);
      if !ok {
        ended, failed := true, true;
        return IOErr;
      }
      facts := facts.(ackOut := true);
      writeOut := writeOut + [P.Ack];
      assert fsm == DismissHalf <==> PhaseOf(fsm).value == Half;
      if fsm == DismissHalf {
        return IOSuccess;
      }
      ended := true;
      return IOClosed;
    }

    method HandleOutDataPacket(i: P.Item)
      requires Valid()
      modifies `writeOut
      ensures Valid() && View() == P.OutData(old(View()), i)
    {
      writeOut := writeOut + [P.Data(i)];
    }

    /** One turn of handlePkt that takes the head of readInCh. Facing a peer `y` in step with it,
        the dialogue stays in step: no event is refused, and it ends only when all is done. */
    method HandleIn(ghost y: P.End)
      requires Valid() && CloseSafety.Both(View(), y) && P.Can(View(), y, P.In)
      modifies this
      ensures Valid() && View() == P.HandleIn(old(View()))
      ensures CloseSafety.Both(View(), y) && !failed && (ended <==> Done(facts))
    {
      CloseSafety.ActKeeps(View(), y, P.In);
      var pkt := readIn[0];
      readIn := readIn[1..];
      match pkt
      case Data(i) => var _ := HandleInDataPacket(i);
      case Dismiss => var _ := HandleInDismissPacket();
      case Ack => var _ := HandleInDismissAckPacket();
    }

    /** One turn of handlePkt that takes the head of writeInCh. */
    method HandleOut(ghost y: P.End)
      requires Valid() && CloseSafety.Both(View(), y) && P.Can(View(), y, P.Out)
      modifies this
      ensures Valid() && View() == P.HandleOut(old(View()))
      ensures CloseSafety.Both(View(), y) && !failed && (ended <==> Done(facts))
    {
      CloseSafety.ActKeeps(View(), y, P.Out);
      var pkt := writeIn[0];
      writeIn := writeIn[1..];
      match pkt
      case Data(i) => HandleOutDataPacket(i);
      case Dismiss => var _ := HandleOutDismissPacket();
      case Ack => var _ := HandleOutDismissAckPacket();
    }

    // The goroutines around the handler

    /** The goroutine that Close spawns. */
    method SendDismiss()
      requires Valid() && !ended && dismissSends > 0
      modifies `dismissSends, `writeIn, `cut
      ensures Valid() && View() == P.Do(old(View()), old(View()), P.PutDismiss)
    {
      dismissSends := dismissSends - 1;
      writeIn := writeIn + [P.Dismiss];
      cut := |log|;
    }

    /** The goroutine that a received dismiss spawns for its ack ... */
    method SendAck()
      requires Valid() && !ended && ackSends > 0
      modifies `ackSends, `writeIn
      ensures Valid() && View() == P.Do(old(View()), old(View()), P.PutAck)
    {
      ackSends := ackSends - 1;
      writeIn := writeIn + [P.Ack];
    }

    /** ... and the one it spawns to close this side too. */
    method CloseAsync()
      requires Valid() && closeCalls > 0
      modifies `closeCalls, `closeOnce, `dismissSends
      ensures Valid() && View() == P.Do(old(View()), old(View()), P.RunClose)
    {
      closeCalls := closeCalls - 1;
      Close();
    }

    /** Write: one packet of the layer above. */
    method Write(i: P.Item)
      requires Valid()
      modifies `writeIn, `log
      ensures Valid() && View() == P.Put(old(View()), i)
    {
      writeIn := writeIn + [P.Data(i)];
      log := log + [i];
    }

    /** writePkt: the writer goroutine, which outlives the handler until writeOutCh is empty. */
    method WritePkt()
      requires Valid() && writeOut != []
      modifies `writeOut, `wire
      ensures Valid() && View() == P.Do(old(View()), old(View()), P.Flush)
    {
      wire := wire + [writeOut[0]];
      writeOut := writeOut[1..];
    }

    // The stream above

    method StreamWrite(id: nat)
      requires Valid()
      modifies `app
      ensures Valid() && View() == P.Do(old(View()), old(View()), P.AppWrite(id))
    {
      app := app.(queue := app.queue + [id], log := app.log + [id]);
    }

    method StreamClose()
      requires Valid() && !app.closing
      modifies `app
      ensures Valid() && View() == P.Do(old(View()), old(View()), P.AppClose)
    {
      app := app.(closing := true, mark := |app.log|);
    }

    /** One turn of the stream's handlePkt: a packet is handed to the dialogue. */
    method StreamForward()
      requires Valid() && !ended && app.queue != []
      modifies `app, `writeIn, `log
      ensures Valid() && View() == P.Do(old(View()), old(View()), P.Move)
    {
      var id := app.queue[0];
      app := app.(queue := app.queue[1..]);
      Write(P.Item(id, false));
    }

    /** The end of the stream's drain. */
    method StreamDrained()
      requires Valid() && app.closing && !app.drained && app.queue == []
      modifies `app, `closeOnce, `dismissSends
      ensures Valid() && View() == P.Do(old(View()), old(View()), P.Drain)
    {
      app := app.(drained := true, clean := !closeOnce);
      Close();
    }
  }
}
