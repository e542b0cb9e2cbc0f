/** The dialogue's transition table, as `initFSM` builds it. */
module DialogueFsm {
  import opened Options
  import opened Handshake

  datatype State = Init | SessionSent | SessionRecv | Sessioned
                 | DismissSent | DismissRecv | DismissHalf | Dismissed | Fini

  // Two names in the source, SESSIONRECV and SESSIONACK, are one event string
  datatype Input = EvSessionSent | EvSessionRecv | EvError
                 | EvDismissSent | EvDismissRecv | EvDismissAck | EvFini

  function Next(s: State, e: Input): (t: Option<State>) {
    match (s, e)
    case (Init, EvSessionSent) => Some(SessionSent)
    case (SessionSent, EvSessionRecv) => Some(Sessioned)
    case (Init, EvSessionRecv) => Some(SessionRecv)
    case (SessionRecv, EvSessionRecv) => Some(Sessioned)
    case (SessionRecv, EvError) => Some(SessionRecv)
    case (SessionRecv, EvDismissSent) => Some(DismissSent)
    case (Sessioned, EvDismissSent) => Some(DismissSent)
    case (DismissRecv, EvDismissSent) => Some(DismissSent)
    case (DismissHalf, EvDismissSent) => Some(DismissHalf)
    case (SessionSent, EvDismissRecv) => Some(DismissRecv)
    case (Sessioned, EvDismissRecv) => Some(DismissRecv)
    case (DismissSent, EvDismissRecv) => Some(DismissRecv)
    case (DismissHalf, EvDismissRecv) => Some(DismissHalf)
    case (DismissSent, EvDismissAck) => Some(DismissHalf)
    case (DismissRecv, EvDismissAck) => Some(DismissHalf)
    case (DismissHalf, EvDismissAck) => Some(Dismissed)
    case (Fini, EvFini) => None
    case (_, EvFini) => Some(Fini)
    case _ => None
  }

  function PhaseOf(s: State): (p: Option<Phase>) {
    match s
    case Sessioned => Some(Open)
    case DismissSent => Some(Sent)
    case DismissRecv => Some(Recv)
    case DismissHalf => Some(Half)
    case Dismissed => Some(Closed)
    case _ => None
  }

  function InputOf(e: Event): (i: Input) {
    match e
    case CloseSent => EvDismissSent
    case CloseRecv => EvDismissRecv
    case CloseAck => EvDismissAck
  }

  /** From SESSIONED on, the table is the shared close table: same moves, same errors. */
  lemma {:induction false} TableIsClose(s: State, e: Event)
    requires PhaseOf(s).Some?
    ensures var t := Next(s, InputOf(e));
            var q := NextPhase(PhaseOf(s).value, e);
            if q.None? then t.None? else t.Some? && PhaseOf(t.value) == q
  {
  }

  /** How a dialogue opens: SESSIONED is entered by one event from exactly two states, one for the
      side that asks and one for the side that answers, and INIT by none. */
  lemma {:induction false} OpeningRows(s: State, e: Input)
    ensures Next(s, e) == Some(Sessioned) <==> e == EvSessionRecv && (s == SessionSent || s == SessionRecv)
    ensures Next(s, e) == Some(SessionSent) <==> e == EvSessionSent && s == Init
    ensures Next(s, e) == Some(SessionRecv) <==> (e == EvSessionRecv && s == Init) || (e == EvError && s == SessionRecv)
    ensures Next(s, e) != Some(Init)
  {
  }

  /** A dialogue that is not open yet can be closed by the side that answers, and be told to close
      on the side that asks; and every state but FINI can be finished. */
  lemma {:induction false} EarlyCloseRows(s: State)
    requires s == Init || s == SessionSent || s == SessionRecv || s == Fini
    ensures Next(s, EvDismissSent) == if s == SessionRecv then Some(DismissSent) else None
    ensures Next(s, EvDismissRecv) == if s == SessionSent then Some(DismissRecv) else None
    ensures Next(s, EvDismissAck) == None
    ensures forall t :: Next(t, EvFini) == if t == Fini then None else Some(Fini)
  {
  }
}

/** The client's and the server's transition tables. */
module ConnFsm {
  import opened Options
  import opened Handshake

  datatype State = Init | ConnSent | ConnRecv | Conned
                 | CloseSentSt | CloseRecvSt | CloseHalf | ClosedSt | Fini

  datatype Input = EvConnSent | EvConnRecv | EvConnAck | EvError | EvClose(e: Event) | EvFini

  function ClientNext(s: State, e: Input): (t: Option<State>) {
    match (s, e)
    case (Init, EvConnSent) => Some(ConnSent)
    case (ConnSent, EvConnAck) => Some(Conned)
    case (ConnSent, EvClose(CloseSent)) => Some(CloseSentSt)
    case (Conned, EvClose(CloseSent)) => Some(CloseSentSt)
    case (CloseRecvSt, EvClose(CloseSent)) => Some(CloseSentSt)
    case (CloseHalf, EvClose(CloseSent)) => Some(CloseHalf)
    case (ConnSent, EvClose(CloseRecv)) => Some(CloseRecvSt)
    case (Conned, EvClose(CloseRecv)) => Some(CloseRecvSt)
    case (CloseSentSt, EvClose(CloseRecv)) => Some(CloseRecvSt)
    case (CloseHalf, EvClose(CloseRecv)) => Some(CloseHalf)
    case (CloseSentSt, EvClose(CloseAck)) => Some(CloseHalf)
    case (CloseRecvSt, EvClose(CloseAck)) => Some(CloseHalf)
    case (CloseHalf, EvClose(CloseAck)) => Some(ClosedSt)
    case (ConnRecv, EvFini) => None
    case (Fini, EvFini) => None
    case (_, EvFini) => Some(Fini)
    case _ => None
  }

  // The server declares its closed state under the name FINI
  function ServerNext(s: State, e: Input): (t: Option<State>) {
    match (s, e)
    case (Init, EvConnRecv) => Some(ConnRecv)
    case (ConnRecv, EvConnAck) => Some(Conned)
    case (ConnRecv, EvError) => Some(ConnRecv)
    case (ConnRecv, EvClose(CloseSent)) => Some(CloseSentSt)
    case (Conned, EvClose(CloseSent)) => Some(CloseSentSt)
    case (CloseRecvSt, EvClose(CloseSent)) => Some(CloseSentSt)
    case (CloseHalf, EvClose(CloseSent)) => Some(CloseHalf)
    case (Conned, EvClose(CloseRecv)) => Some(CloseRecvSt)
    case (CloseSentSt, EvClose(CloseRecv)) => Some(CloseRecvSt)
    case (CloseHalf, EvClose(CloseRecv)) => Some(CloseHalf)
    case (CloseSentSt, EvClose(CloseAck)) => Some(CloseHalf)
    case (CloseRecvSt, EvClose(CloseAck)) => Some(CloseHalf)
    case (CloseHalf, EvClose(CloseAck)) => Some(Fini)
    case (ConnSent, EvFini) => None
    case (ClosedSt, EvFini) => None
    case (_, EvFini) => Some(Fini)
    case _ => None
  }

  function PhaseOf(s: State): (p: Option<Phase>) {
    match s
    case Conned => Some(Open)
    case CloseSentSt => Some(Sent)
    case CloseRecvSt => Some(Recv)
    case CloseHalf => Some(Half)
    case ClosedSt => Some(Closed)
    case Fini => Some(Closed)
    case _ => None
  }

  /** From CONNED on, both tables are the shared close table: same moves, same errors. */
  lemma {:induction false} TablesAreClose(s: State, e: Event)
    requires PhaseOf(s).Some?
    ensures var q := NextPhase(PhaseOf(s).value, e);
            && (var t := ClientNext(s, EvClose(e));
                if q.None? then t.None? else t.Some? && PhaseOf(t.value) == q)
            && (var t := ServerNext(s, EvClose(e));
                if q.None? then t.None? else t.Some? && PhaseOf(t.value) == q)
  {
  }

  /** How a connection opens: CONNED is entered by the conn ack alone, which the client receives
      after its own conn packet and the server sends after it took the client's. */
  lemma {:induction false} OpeningRows(s: State, e: Input)
    ensures ClientNext(s, e) == Some(Conned) <==> s == ConnSent && e == EvConnAck
    ensures ClientNext(s, e) == Some(ConnSent) <==> s == Init && e == EvConnSent
    ensures ServerNext(s, e) == Some(Conned) <==> s == ConnRecv && e == EvConnAck
    ensures ServerNext(s, e) == Some(ConnRecv) <==> (s == Init && e == EvConnRecv) || (s == ConnRecv && e == EvError)
    ensures ClientNext(s, e) != Some(ConnRecv) && ServerNext(s, e) != Some(ConnSent)
    ensures ClientNext(s, e) != Some(Init) && ServerNext(s, e) != Some(Init)
  {
  }

  /** Closing before CONNED: the client can close and be closed once it has asked, the server can
      close once it was asked. */
  lemma {:induction false} EarlyCloseRows(s: State, e: Event)
    requires s == Init || s == ConnSent || s == ConnRecv
    ensures ClientNext(s, EvClose(e))
            == if s != ConnSent || e == CloseAck then None
               else if e == CloseSent then Some(CloseSentSt) else Some(CloseRecvSt)
    ensures ServerNext(s, EvClose(e)) == if s == ConnRecv && e == CloseSent then Some(CloseSentSt) else None
  {
  }
}
