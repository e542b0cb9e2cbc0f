/** Opening dialogues between two multiplexers: negotiation of the dialogue id, and the
    registries it ends up in. Any number of opens run at once, from either side, with
    session packets and their acks delivered in any order. */
module Opening {
  import opened Options
  import opened DialogueFsm

  // The default dialogue is there on both sides from the start, and nobody opens it
  datatype Role = Opener | Acceptor | Default

  /** A dialogue object, kept under the id its own side minted for it. `peer` is the
      negotiating id its session packet carried (acceptor), `did` the agreed id, `refused`
      that the acceptor's manager turned it down. `st` is how far opening has come, and `closed`
      that closing has begun. `taken` is history: the object the peer made for this opener's
      session packet. */
  datatype Dlg = Dlg(role: Role, st: State, peer: nat, did: nat, refused: bool, taken: Option<nat>,
                     closed: bool)

  datatype Mgr = Mgr(ok: bool, minted: set<nat>, dlgs: map<nat, Dlg>,
                     ready: map<nat, nat>, negotiating: set<nat>)

  // `from` is history: the object that sent the ack
  datatype Msg = Session(neg: nat, acquire: bool)
               | SessionAck(neg: nat, sid: nat, err: bool, from: nat)

  /** The recipient side of the connection, the initiator side, and what is in flight. */
  datatype World = World(server: Mgr, client: Mgr, toServer: multiset<Msg>, toClient: multiset<Msg>)

  const DEFAULT_ID := 1
  const DEFAULT_DLG := Dlg(Default, Sessioned, 0, DEFAULT_ID, false, None, false)
  const NEW_MGR := Mgr(true, {DEFAULT_ID}, map[DEFAULT_ID := DEFAULT_DLG], map[DEFAULT_ID := DEFAULT_ID], {})
  const NEW_WORLD := World(NEW_MGR, NEW_MGR, multiset{}, multiset{})

  datatype Act =
    | OpenStart(n: nat)             // OpenDialogue mints n and makes the object
    | SendSession(n: nat)           // its session packet goes out
    | RecvSession(m: Msg, n: nat)   // the peer's manager mints n for an incoming one
    | SendAck(n: nat)               // handleOutSessionAckPacket, with DialogueOnline in it
    | RecvAck(m: Msg)               // routed by negotiating id
    | OpenDone(n: nat)              // open() returned: register
    | OpenFailed(n: nat)            // open() returned an error
    | CloseBegins(n: nat)           // Close was called, or the peer's dismiss came
    | Offline(n: nat)               // the dialogue ended
    | Shutdown                      // the manager ended

  predicate Can(x: Mgr, inbox: multiset<Msg>, c: Act) {
    match c
    case OpenStart(n) => n !in x.minted
    case SendSession(n) => n in x.dlgs && x.dlgs[n].role == Opener && x.dlgs[n].st == Init
    case RecvSession(m, n) => m in inbox && m.Session? && n !in x.minted
    case SendAck(n) =>
      n in x.dlgs && x.dlgs[n].role == Acceptor && x.dlgs[n].st == SessionRecv && !x.dlgs[n].refused
    case RecvAck(m) => m in inbox && m.SessionAck?
    case OpenDone(n) =>
      n in x.negotiating && n in x.dlgs && x.dlgs[n].role == Opener && x.dlgs[n].st == Sessioned
    case OpenFailed(n) => n in x.dlgs && x.dlgs[n].role == Opener
    case CloseBegins(n) => n in x.dlgs && x.dlgs[n].st == Sessioned
    case Offline(n) => n in x.dlgs
    case Shutdown => true
  }

  // DialogueOffline deletes whatever the dialogue's id maps to
  function Forget(x: Mgr, did: nat): Mgr {
    x.(ready := x.ready - {did})
  }

  // handleInSessionAckPacket once the FSM has moved
  function Enter(x: Mgr, n: nat, st: State, sid: nat): Mgr
    requires n in x.dlgs
  {
    x.(dlgs := x.dlgs[n := x.dlgs[n].(st := st, did := sid)])
  }

  /** The acting manager; `client` says which side it is. */
  function Do(x: Mgr, client: bool, inbox: multiset<Msg>, c: Act): (x': Mgr)
    requires Can(x, inbox, c)
  {
    match c
    case OpenStart(n) =>
      x.(minted := x.minted + {n}, negotiating := x.negotiating + {n},
         dlgs := x.dlgs[n := Dlg(Opener, Init, 0, 0, false, None, false)])
    case SendSession(n) => x.(dlgs := x.dlgs[n := x.dlgs[n].(st := SessionSent)])
    case RecvSession(m, n) =>
      x.(minted := x.minted + {n}, negotiating := x.negotiating + {n},
         dlgs := x.dlgs[n := Dlg(Acceptor, SessionRecv, m.neg,
                                 if m.acquire then n else m.neg, false, None, false)])
    case SendAck(n) =>
      var d := x.dlgs[n];
      if x.ok then
        x.(dlgs := x.dlgs[n := d.(st := Sessioned)], negotiating := x.negotiating - {n},
           ready := x.ready[d.did := n])
      // the error event runs Close
      else x.(dlgs := x.dlgs[n := d.(refused := true, closed := true)])
    case RecvAck(m) =>
      if m.neg in x.negotiating && m.neg in x.dlgs then
        var next := Next(x.dlgs[m.neg].st, EvSessionRecv);
        // the error the ack may carry is not looked at
        if next.Some? then Enter(x, m.neg, next.value, m.sid) else x
      else x
    case OpenDone(n) =>
      if x.ok then x.(negotiating := x.negotiating - {n}, ready := x.ready[x.dlgs[n].did := n])
      else x.(negotiating := x.negotiating - {n})
    case OpenFailed(n) => x.(negotiating := x.negotiating - {n})
    case CloseBegins(n) => x.(dlgs := x.dlgs[n := x.dlgs[n].(closed := true)])
    case Offline(n) => Forget(x, x.dlgs[n].did)
    case Shutdown => x.(ok := false, ready := map[], negotiating := {})
  }

  // What the act takes from the inbox
  function Taken(c: Act): multiset<Msg> {
    match c
    case RecvSession(m, _) => multiset{m}
    case RecvAck(m) => multiset{m}
    case _ => multiset{}
  }

  // ... and puts in the peer's
  function Sent(x: Mgr, client: bool, inbox: multiset<Msg>, c: Act): multiset<Msg>
    requires Can(x, inbox, c)
  {
    match c
    case SendSession(n) => multiset{Session(n, client)}
    case SendAck(n) => multiset{SessionAck(x.dlgs[n].peer, x.dlgs[n].did, !x.ok, n)}
    case _ => multiset{}
  }

  // History at the peer: which object its session packet was turned into
  function Note(y: Mgr, c: Act): Mgr {
    if c.RecvSession? && c.m.Session? && c.m.neg in y.dlgs
    then y.(dlgs := y.dlgs[c.m.neg := y.dlgs[c.m.neg].(taken := Some(c.n))]) else y
  }

  datatype Label = Label(client: bool, act: Act)

  predicate CanStep(w: World, l: Label) {
    if l.client then Can(w.client, w.toClient, l.act) else Can(w.server, w.toServer, l.act)
  }

  function Step(w: World, l: Label): (w': World)
    requires CanStep(w, l)
  {
    var c := l.act;
    if l.client then
      World(Note(w.server, c), Do(w.client, true, w.toClient, c),
            w.toServer + Sent(w.client, true, w.toClient, c), w.toClient - Taken(c))
    else
      World(Do(w.server, false, w.toServer, c), Note(w.client, c),
            w.toServer - Taken(c), w.toClient + Sent(w.server, false, w.toServer, c))
  }

  predicate CanRun(w: World, ls: seq<Label>)
    decreases |ls|
  {
    ls == [] || (CanStep(w, ls[0]) && CanRun(Step(w, ls[0]), ls[1..]))
  }

  function Run(w: World, ls: seq<Label>): (w': World)
    requires CanRun(w, ls)
    decreases |ls|
  {
    if ls == [] then w else Run(Step(w, ls[0]), ls[1..])
  }

  // Invariants

  // An acceptor whose ack is on its way, or was delivered
  predicate Answered(d: Dlg) {
    d.role == Acceptor && (d.st == Sessioned || d.refused)
  }

  predicate DlgOk(d: Dlg, ok: bool) {
    if d.role == Opener then
      && !d.refused && (d.st == Init || d.st == SessionSent || d.st == Sessioned)
      && (d.st == Init ==> d.taken == None)
    else if d.role == Default then d == DEFAULT_DLG.(closed := d.closed)
    else
      && (d.st == SessionRecv || d.st == Sessioned)
      && (d.refused ==> !ok && d.st == SessionRecv)
  }

  /** One side's registry: what it minted, what is ready, what is negotiating. */
  predicate Registry(x: Mgr) {
    && x.dlgs.Keys == x.minted
    && x.negotiating <= x.minted
    && (!x.ok ==> x.ready == map[])
    && (forall n :: n in x.dlgs ==> DlgOk(x.dlgs[n], x.ok))
    && DEFAULT_ID in x.dlgs && (forall n :: n in x.dlgs ==> (x.dlgs[n].role == Default <==> n == DEFAULT_ID))
    && (forall d :: d in x.ready ==>
          && x.ready[d] in x.dlgs && x.ready[d] !in x.negotiating
          && x.dlgs[x.ready[d]].did == d && x.dlgs[x.ready[d]].st == Sessioned)
  }

  /** Acceptor `d`, kept under `n`, answers the opener of `y` whose packet made it. */
  predicate Answer(d: Dlg, n: nat, y: Mgr, client: bool) {
    && d.peer in y.dlgs && y.dlgs[d.peer].role == Opener
    && y.dlgs[d.peer].st != Init && y.dlgs[d.peer].taken == Some(n)
    && d.did == (if client then d.peer else n)
  }

  predicate Answers(x: Mgr, y: Mgr, client: bool) {
    forall n :: n in x.dlgs && x.dlgs[n].role == Acceptor ==> Answer(x.dlgs[n], n, y, client)
  }

  /** Opener `d`, kept under `n`, agrees with the object of `y` that answered it. */
  predicate Agree(d: Dlg, n: nat, y: Mgr) {
    && d.taken.Some? && d.taken.value in y.dlgs
    && Answered(y.dlgs[d.taken.value])
    && y.dlgs[d.taken.value].peer == n && y.dlgs[d.taken.value].did == d.did
  }

  predicate Agrees(x: Mgr, y: Mgr) {
    forall n :: n in x.dlgs && x.dlgs[n].role == Opener && x.dlgs[n].st == Sessioned
                ==> Agree(x.dlgs[n], n, y)
  }

  /** A message sent by `x`. */
  predicate MsgOk(x: Mgr, m: Msg, client: bool) {
    match m
    case Session(neg, acquire) =>
      && acquire == client && neg in x.dlgs && x.dlgs[neg].role == Opener
      && x.dlgs[neg].st != Init && x.dlgs[neg].taken == None
    case SessionAck(neg, sid, err, from) =>
      && from in x.dlgs && Answered(x.dlgs[from])
      && x.dlgs[from].peer == neg && x.dlgs[from].did == sid && x.dlgs[from].refused == err
  }

  predicate Mail(x: Mgr, box: multiset<Msg>, client: bool) {
    forall m :: m in box ==> MsgOk(x, m, client) && (m.Session? ==> box[m] == 1)
  }

  predicate Side(x: Mgr, y: Mgr, client: bool, out: multiset<Msg>) {
    Registry(x) && Answers(x, y, client) && Agrees(x, y) && Mail(x, out, client)
  }

  predicate Inv(w: World) {
    Side(w.server, w.client, false, w.toClient) && Side(w.client, w.server, true, w.toServer)
  }

  // How an object can change

  predicate Later(d: Dlg, e: Dlg) {
    && e.role == d.role && e.peer == d.peer
    && (d.st != Init ==> e.st != Init)
    && (d.taken.Some? ==> e.taken == d.taken)
    && (d.role == Acceptor ==> e.did == d.did)
    && (d.closed ==> e.closed)
    && (Answered(d) ==> e == d.(closed := e.closed))
  }

  predicate Grows(x: Mgr, x': Mgr) {
    forall k :: k in x.dlgs ==> k in x'.dlgs && Later(x.dlgs[k], x'.dlgs[k])
  }

  /** What the peer relies on survives any change of this side. */
  lemma {:induction false} PeerRelies(y: Mgr, x: Mgr, x': Mgr, client: bool)
    requires Answers(y, x, client) && Agrees(y, x) && Grows(x, x')
    ensures Answers(y, x', client) && Agrees(y, x')
  {
    forall n | n in y.dlgs && y.dlgs[n].role == Acceptor
      ensures Answer(y.dlgs[n], n, x', client)
    {
      assert Answer(y.dlgs[n], n, x, client);
    }
    forall n | n in y.dlgs && y.dlgs[n].role == Opener && y.dlgs[n].st == Sessioned
      ensures Agree(y.dlgs[n], n, x')
    {
      assert Agree(y.dlgs[n], n, x);
    }
  }

  lemma {:induction false} MailStays(x: Mgr, x': Mgr, box: multiset<Msg>, client: bool)
    requires Mail(x, box, client) && Grows(x, x')
    requires forall k :: k in x.dlgs && x.dlgs[k].taken == None ==> x'.dlgs[k].taken == None
    ensures Mail(x', box, client)
  {
    forall m | m in box ensures MsgOk(x', m, client) {
      assert MsgOk(x, m, client);
    }
  }

  /** The frame of an act that changes at most object `n`, which is not a new acceptor. */
  lemma {:induction false} OwnStays(x: Mgr, x': Mgr, y: Mgr, client: bool, n: nat)
    requires Answers(x, y, client) && Agrees(x, y)
    requires n in x'.dlgs && x'.dlgs.Keys == x.dlgs.Keys + {n}
    requires forall k :: k in x'.dlgs && k != n ==> x'.dlgs[k] == x.dlgs[k]
    requires x'.dlgs[n].role == Acceptor ==> Answer(x'.dlgs[n], n, y, client)
    requires x'.dlgs[n].role == Opener && x'.dlgs[n].st == Sessioned ==> Agree(x'.dlgs[n], n, y)
    ensures Answers(x', y, client) && Agrees(x', y)
  {
    forall k | k in x'.dlgs && x'.dlgs[k].role == Acceptor
      ensures Answer(x'.dlgs[k], k, y, client)
    {
      assert k != n ==> k in x.dlgs && Answer(x.dlgs[k], k, y, client);
    }
    forall k | k in x'.dlgs && x'.dlgs[k].role == Opener && x'.dlgs[k].st == Sessioned
      ensures Agree(x'.dlgs[k], k, y)
    {
      assert k != n ==> k in x.dlgs && Agree(x.dlgs[k], k, y);
    }
  }

  /** One object changed or was made, and the registry is in order again. */
  predicate Moved(x: Mgr, x': Mgr, n: nat) {
    && Registry(x') && Grows(x, x')
    && n in x'.dlgs && x'.dlgs.Keys == x.dlgs.Keys + {n}
    && (forall k :: k in x'.dlgs && k != n ==> x'.dlgs[k] == x.dlgs[k])
    && (n in x.dlgs ==> x'.dlgs[n].taken == x.dlgs[n].taken)
  }

  /** Then everything else is, if that object is in order with the peer. */
  lemma {:induction false} MovedKeeps(x: Mgr, x': Mgr, y: Mgr, client: bool, inn: multiset<Msg>,
                                      out: multiset<Msg>, n: nat)
    requires Side(x, y, client, out) && Side(y, x, !client, inn) && Moved(x, x', n)
    requires x'.dlgs[n].role == Acceptor ==> Answer(x'.dlgs[n], n, y, client)
    requires x'.dlgs[n].role == Opener && x'.dlgs[n].st == Sessioned ==> Agree(x'.dlgs[n], n, y)
    ensures Side(x', y, client, out) && Side(y, x', !client, inn)
  {
    OwnStays(x, x', y, client, n);
    PeerRelies(y, x, x', !client);
    MailStays(x, x', out, client);
  }

  lemma {:induction false} OpenStartMoves(x: Mgr, client: bool, inn: multiset<Msg>, n: nat)
    requires Registry(x) && Can(x, inn, OpenStart(n))
    ensures Moved(x, Do(x, client, inn, OpenStart(n)), n)
  {
  }

  lemma {:induction false} SendSessionMoves(x: Mgr, client: bool, inn: multiset<Msg>, n: nat)
    requires Registry(x) && Can(x, inn, SendSession(n))
    ensures Moved(x, Do(x, client, inn, SendSession(n)), n)
  {
    assert DlgOk(x.dlgs[n], x.ok);
  }

  lemma {:induction false} RecvSessionMoves(x: Mgr, client: bool, inn: multiset<Msg>, m: Msg, n: nat)
    requires Registry(x) && Can(x, inn, RecvSession(m, n))
    ensures Moved(x, Do(x, client, inn, RecvSession(m, n)), n)
  {
  }

  lemma {:induction false} SendAckMoves(x: Mgr, client: bool, inn: multiset<Msg>, n: nat)
    requires Registry(x) && Can(x, inn, SendAck(n))
    ensures var x' := Do(x, client, inn, SendAck(n));
            && Moved(x, x', n)
            && x'.dlgs[n] == (if x.ok then x.dlgs[n].(st := Sessioned) else x.dlgs[n].(refused := true, closed := true))
  {
    assert DlgOk(x.dlgs[n], x.ok);
  }

  lemma {:induction false} EnterMoves(x: Mgr, n: nat, sid: nat)
    requires Registry(x) && n in x.dlgs && x.dlgs[n].role == Opener && x.dlgs[n].st == SessionSent
    ensures Moved(x, Enter(x, n, Sessioned, sid), n)
  {
    assert DlgOk(x.dlgs[n], x.ok);
  }

  lemma {:induction false} OpenStartKeeps(x: Mgr, y: Mgr, client: bool, inn: multiset<Msg>, out: multiset<Msg>, n: nat)
    requires Side(x, y, client, out) && Side(y, x, !client, inn) && Can(x, inn, OpenStart(n))
    ensures var x' := Do(x, client, inn, OpenStart(n));
            Side(x', y, client, out) && Side(y, x', !client, inn)
  {
    OpenStartMoves(x, client, inn, n);
    MovedKeeps(x, Do(x, client, inn, OpenStart(n)), y, client, inn, out, n);
  }

  lemma {:induction false} MailSent(x: Mgr, box: multiset<Msg>, client: bool, m: Msg)
    requires Mail(x, box, client) && MsgOk(x, m, client) && (m.Session? ==> m !in box)
    ensures Mail(x, box + multiset{m}, client)
  {
  }

  lemma {:induction false} SendSessionKeeps(x: Mgr, y: Mgr, client: bool, inn: multiset<Msg>, out: multiset<Msg>, n: nat)
    requires Side(x, y, client, out) && Side(y, x, !client, inn) && Can(x, inn, SendSession(n))
    ensures var x' := Do(x, client, inn, SendSession(n));
            Side(x', y, client, out + multiset{Session(n, client)}) && Side(y, x', !client, inn)
  {
    var x', m := Do(x, client, inn, SendSession(n)), Session(n, client);
    assert m !in out by {
      assert m in out ==> MsgOk(x, m, client);
    }
    assert x.dlgs[n].taken == None by {
      assert DlgOk(x.dlgs[n], x.ok);
    }
    SendSessionMoves(x, client, inn, n);
    MovedKeeps(x, x', y, client, inn, out, n);
    MailSent(x', out, client, m);
  }

  lemma {:induction false} NoteMoves(y: Mgr, m: Msg, n: nat)
    requires Registry(y) && m.Session? && m.neg in y.dlgs && y.dlgs[m.neg].role == Opener
    requires y.dlgs[m.neg].st != Init && y.dlgs[m.neg].taken == None
    ensures var y' := Note(y, RecvSession(m, n)); Registry(y') && Grows(y, y')
  {
    assert DlgOk(y.dlgs[m.neg], y.ok);
  }

  lemma {:induction false} NoteMail(y: Mgr, client: bool, out: multiset<Msg>, m: Msg, n: nat)
    requires Mail(y, out, client) && m in out && m.Session? && m.acquire == client
    ensures Mail(Note(y, RecvSession(m, n)), out - multiset{m}, client)
  {
    var y' := Note(y, RecvSession(m, n));
    assert out[m] == 1;
    forall q | q in out - multiset{m} ensures MsgOk(y', q, client) && (q.Session? ==> (out - multiset{m})[q] == 1) {
      assert q in out && MsgOk(y, q, client);
    }
  }

  /** The history note at the sender of a session packet that was just taken. */
  lemma {:induction false} NoteKeeps(y: Mgr, x: Mgr, client: bool, out: multiset<Msg>, m: Msg, n: nat)
    requires Side(y, x, client, out) && m in out && m.Session?
    ensures var y' := Note(y, RecvSession(m, n));
            && Side(y', x, client, out - multiset{m}) && Grows(y, y')
            && m.neg in y'.dlgs && y'.dlgs[m.neg].role == Opener
            && y'.dlgs[m.neg].st != Init && y'.dlgs[m.neg].taken == Some(n)
  {
    var y' := Note(y, RecvSession(m, n));
    assert MsgOk(y, m, client) && out[m] == 1;
    var k := m.neg;
    assert y.dlgs[k].st != Sessioned by {
      assert y.dlgs[k].st == Sessioned ==> Agree(y.dlgs[k], k, x);
    }
    NoteMoves(y, m, n);
    OwnStays(y, y', x, client, k);
    NoteMail(y, client, out, m, n);
  }

  lemma {:induction false} RecvSessionKeeps(x: Mgr, y: Mgr, client: bool, inn: multiset<Msg>, out: multiset<Msg>, m: Msg, n: nat)
    requires Side(x, y, client, out) && Side(y, x, !client, inn) && Can(x, inn, RecvSession(m, n))
    ensures var x', y' := Do(x, client, inn, RecvSession(m, n)), Note(y, RecvSession(m, n));
            Side(x', y', client, out) && Side(y', x', !client, inn - multiset{m})
  {
    var x', y' := Do(x, client, inn, RecvSession(m, n)), Note(y, RecvSession(m, n));
    assert m.acquire == !client by {
      assert MsgOk(y, m, !client);
    }
    NoteKeeps(y, x, !client, inn, m, n);
    PeerRelies(x, y, y', client);
    RecvSessionMoves(x, client, inn, m, n);
    MovedKeeps(x, x', y', client, inn - multiset{m}, out, n);
  }

  lemma {:induction false} SendAckKeeps(x: Mgr, y: Mgr, client: bool, inn: multiset<Msg>, out: multiset<Msg>, n: nat)
    requires Side(x, y, client, out) && Side(y, x, !client, inn) && Can(x, inn, SendAck(n))
    ensures var x', m := Do(x, client, inn, SendAck(n)), Sent(x, client, inn, SendAck(n));
            Side(x', y, client, out + m) && Side(y, x', !client, inn)
  {
    var x', m := Do(x, client, inn, SendAck(n)), SessionAck(x.dlgs[n].peer, x.dlgs[n].did, !x.ok, n);
    SendAckMoves(x, client, inn, n);
    assert Answer(x.dlgs[n], n, y, client);
    MovedKeeps(x, x', y, client, inn, out, n);
    MailSent(x', out, client, m);
  }

  /** An ack finds the opener it is meant for, if that still negotiates. */
  lemma {:induction false} AckFindsOpener(x: Mgr, y: Mgr, client: bool, inn: multiset<Msg>, out: multiset<Msg>, m: Msg)
    requires Side(x, y, client, out) && Side(y, x, !client, inn) && m in inn && m.SessionAck?
    ensures m.neg in x.dlgs && x.dlgs[m.neg].role == Opener && x.dlgs[m.neg].st != Init
    ensures Agree(x.dlgs[m.neg].(did := m.sid), m.neg, y)
  {
    assert MsgOk(y, m, !client);
    assert Answer(y.dlgs[m.from], m.from, x, !client);
  }

  lemma {:induction false} MailTaken(x: Mgr, box: multiset<Msg>, client: bool, m: Msg)
    requires Mail(x, box, client)
    ensures Mail(x, box - multiset{m}, client)
  {
    forall q | q in box - multiset{m} ensures MsgOk(x, q, client) {
      assert q in box;
    }
  }

  /** What taking an ack comes to. */
  lemma {:induction false} AckEffect(x: Mgr, client: bool, inn: multiset<Msg>, m: Msg)
    requires Registry(x) && Can(x, inn, RecvAck(m))
    requires m.neg in x.dlgs && x.dlgs[m.neg].role == Opener && x.dlgs[m.neg].st != Init
    ensures Do(x, client, inn, RecvAck(m))
            == if x.dlgs[m.neg].st == SessionSent && m.neg in x.negotiating
               then Enter(x, m.neg, Sessioned, m.sid) else x
  {
    assert DlgOk(x.dlgs[m.neg], x.ok);
  }

  lemma {:induction false} EnterKeeps(x: Mgr, y: Mgr, client: bool, inn: multiset<Msg>, out: multiset<Msg>, k: nat, sid: nat)
    requires Side(x, y, client, out) && Side(y, x, !client, inn)
    requires k in x.dlgs && x.dlgs[k].role == Opener && x.dlgs[k].st == SessionSent
    requires Agree(x.dlgs[k].(did := sid), k, y)
    ensures var x' := Enter(x, k, Sessioned, sid); Side(x', y, client, out) && Side(y, x', !client, inn)
  {
    EnterMoves(x, k, sid);
    MovedKeeps(x, Enter(x, k, Sessioned, sid), y, client, inn, out, k);
  }

  lemma {:induction false} RecvAckKeeps(x: Mgr, y: Mgr, client: bool, inn: multiset<Msg>, out: multiset<Msg>, m: Msg)
    requires Side(x, y, client, out) && Side(y, x, !client, inn) && Can(x, inn, RecvAck(m))
    ensures var x' := Do(x, client, inn, RecvAck(m));
            Side(x', y, client, out) && Side(y, x', !client, inn - multiset{m})
  {
    AckFindsOpener(x, y, client, inn, out, m);
    AckEffect(x, client, inn, m);
    MailTaken(y, inn, !client, m);
    if x.dlgs[m.neg].st == SessionSent && m.neg in x.negotiating {
      EnterKeeps(x, y, client, inn, out, m.neg, m.sid);
    }
  }

  lemma {:induction false} CloseMoves(x: Mgr, client: bool, inn: multiset<Msg>, n: nat)
    requires Registry(x) && Can(x, inn, CloseBegins(n))
    ensures Moved(x, Do(x, client, inn, CloseBegins(n)), n)
  {
    assert DlgOk(x.dlgs[n], x.ok);
  }

  lemma {:induction false} CloseBeginsKeeps(x: Mgr, y: Mgr, client: bool, inn: multiset<Msg>, out: multiset<Msg>, n: nat)
    requires Side(x, y, client, out) && Side(y, x, !client, inn) && Can(x, inn, CloseBegins(n))
    ensures var x' := Do(x, client, inn, CloseBegins(n));
            Side(x', y, client, out) && Side(y, x', !client, inn)
  {
    CloseMoves(x, client, inn, n);
    assert x.dlgs[n].role == Acceptor ==> Answer(x.dlgs[n], n, y, client);
    assert x.dlgs[n].role == Opener ==> Agree(x.dlgs[n], n, y);
    MovedKeeps(x, Do(x, client, inn, CloseBegins(n)), y, client, inn, out, n);
  }

  predicate OnRegistry(c: Act) {
    c.OpenDone? || c.OpenFailed? || c.Offline? || c.Shutdown?
  }

  lemma {:induction false} RegistryMoves(x: Mgr, client: bool, inn: multiset<Msg>, c: Act)
    requires Registry(x) && Can(x, inn, c) && OnRegistry(c)
    ensures var x' := Do(x, client, inn, c); Registry(x') && x'.dlgs == x.dlgs
  {
  }

  /** Only the objects matter to the peer and to the packets in flight. */
  lemma {:induction false} SameObjects(x: Mgr, x': Mgr, y: Mgr, client: bool, inn: multiset<Msg>, out: multiset<Msg>)
    requires Side(x, y, client, out) && Side(y, x, !client, inn) && Registry(x') && x'.dlgs == x.dlgs
    ensures Side(x', y, client, out) && Side(y, x', !client, inn)
  {
    PeerRelies(y, x, x', !client);
    MailStays(x, x', out, client);
  }

  lemma {:induction false} RegistryKeeps(x: Mgr, y: Mgr, client: bool, inn: multiset<Msg>, out: multiset<Msg>, c: Act)
    requires Side(x, y, client, out) && Side(y, x, !client, inn) && Can(x, inn, c) && OnRegistry(c)
    ensures var x' := Do(x, client, inn, c);
            Side(x', y, client, out) && Side(y, x', !client, inn)
  {
    RegistryMoves(x, client, inn, c);
    SameObjects(x, Do(x, client, inn, c), y, client, inn, out);
  }

  lemma {:induction false} ActKeeps(x: Mgr, y: Mgr, client: bool, inn: multiset<Msg>, out: multiset<Msg>, c: Act)
    requires Side(x, y, client, out) && Side(y, x, !client, inn) && Can(x, inn, c)
    ensures Side(Do(x, client, inn, c), Note(y, c), client, out + Sent(x, client, inn, c))
    ensures Side(Note(y, c), Do(x, client, inn, c), !client, inn - Taken(c))
  {
    assert out + multiset{} == out && inn - multiset{} == inn;
    match c
    case OpenStart(n) => OpenStartKeeps(x, y, client, inn, out, n);
    case SendSession(n) => SendSessionKeeps(x, y, client, inn, out, n);
    case RecvSession(m, n) => RecvSessionKeeps(x, y, client, inn, out, m, n);
    case SendAck(n) => SendAckKeeps(x, y, client, inn, out, n);
    case RecvAck(m) => RecvAckKeeps(x, y, client, inn, out, m);
    case CloseBegins(n) => CloseBeginsKeeps(x, y, client, inn, out, n);
    case _ => RegistryKeeps(x, y, client, inn, out, c);
  }

  lemma {:induction false} StepKeeps(w: World, l: Label)
    requires Inv(w) && CanStep(w, l)
    ensures Inv(Step(w, l))
  {
    if l.client {
      ActKeeps(w.client, w.server, true, w.toClient, w.toServer, l.act);
    } else {
      ActKeeps(w.server, w.client, false, w.toServer, w.toClient, l.act);
    }
  }

  lemma {:induction false} RunKeeps(w: World, ls: seq<Label>)
    requires Inv(w) && CanRun(w, ls)
    ensures Inv(Run(w, ls))
    decreases |ls|
  {
    if ls != [] {
      StepKeeps(w, ls[0]);
      RunKeeps(Step(w, ls[0]), ls[1..]);
    }
  }

  lemma {:induction false} Reached(ls: seq<Label>)
    requires CanRun(NEW_WORLD, ls)
    ensures Inv(Run(NEW_WORLD, ls))
  {
    RunKeeps(NEW_WORLD, ls);
  }

  // What the two sides hold

  function Me(w: World, client: bool): Mgr {
    if client then w.client else w.server
  }

  /** The object knows its dialogue id. */
  predicate Identified(d: Dlg) {
    d.role != Opener || d.st == Sessioned
  }

  /** On the recipient side a dialogue's id is the id it was kept under; on the initiator
      side it is the id the recipient side keeps the other half under. */
  lemma {:induction false} IdIsServers(w: World, client: bool, n: nat)
    requires Inv(w) && n in Me(w, client).dlgs && Identified(Me(w, client).dlgs[n])
    ensures var d := Me(w, client).dlgs[n];
            && d.did in w.server.dlgs
            && (!client || d.role == Default ==> d.did == n)
            && (d.role == Default ==> w.server.dlgs[d.did].role == Default)
            && (client && d.role == Acceptor ==> d.did == d.peer && w.server.dlgs[d.did].taken == Some(n)
                                                 && w.server.dlgs[d.did].role == Opener)
            && (client && d.role == Opener ==> d.taken == Some(d.did) && w.server.dlgs[d.did].peer == n
                                               && w.server.dlgs[d.did].role == Acceptor)
  {
    var x, y := Me(w, client), Me(w, !client);
    var d := x.dlgs[n];
    if d.role == Acceptor {
      assert Answer(d, n, y, client);
    } else if d.role == Default {
      assert DlgOk(d, x.ok);
    } else {
      assert Agree(d, n, y);
      assert Answer(y.dlgs[d.taken.value], d.taken.value, x, !client);
    }
  }

  /** Ids never collide on a side, whoever opened: all of them come from the recipient
      side's counter, which does not repeat. */
  lemma {:induction false} IdsDistinct(w: World, client: bool, i: nat, j: nat)
    requires Inv(w)
    requires i in Me(w, client).dlgs && Identified(Me(w, client).dlgs[i])
    requires j in Me(w, client).dlgs && Identified(Me(w, client).dlgs[j])
    requires Me(w, client).dlgs[i].did == Me(w, client).dlgs[j].did
    ensures i == j && Me(w, client).dlgs[i].did in w.server.minted
  {
    IdIsServers(w, client, i);
    IdIsServers(w, client, j);
  }

  /** Opener `n` has opened with one object of the peer, and only that, under one id. */
  predicate OpenedWithOne(w: World, client: bool, n: nat)
    requires n in Me(w, client).dlgs
  {
    var d, y := Me(w, client).dlgs[n], Me(w, !client);
    && d.taken.Some? && d.taken.value in y.dlgs
    && (var a := y.dlgs[d.taken.value];
        && a.peer == n && a.did == d.did && d.did in w.server.minted
        && (a.st == Sessioned <==> !a.refused)
        && (a.refused ==> !y.ok))
    && (forall k :: k in y.dlgs && y.dlgs[k].role == Acceptor && y.dlgs[k].peer == n
                    ==> d.taken == Some(k))
  }

  lemma {:induction false} SessionedAgrees(w: World, client: bool, n: nat)
    requires Inv(w)
    requires n in Me(w, client).dlgs && Me(w, client).dlgs[n].role == Opener && Me(w, client).dlgs[n].st == Sessioned
    ensures OpenedWithOne(w, client, n)
  {
    var x, y := Me(w, client), Me(w, !client);
    IdIsServers(w, client, n);
    assert Agree(x.dlgs[n], n, y);
    assert DlgOk(y.dlgs[x.dlgs[n].taken.value], y.ok);
    forall k | k in y.dlgs && y.dlgs[k].role == Acceptor && y.dlgs[k].peer == n
      ensures x.dlgs[n].taken == Some(k)
    {
      assert Answer(y.dlgs[k], k, x, !client);
    }
  }

  /** Id agreement. In every run, an open that succeeded is answered by exactly one object
      of the peer, under the same id, minted by the recipient side. */
  lemma {:induction false} OpenAgrees(ls: seq<Label>, client: bool, n: nat)
    requires CanRun(NEW_WORLD, ls)
    requires var x := Me(Run(NEW_WORLD, ls), client);
             n in x.dlgs && x.dlgs[n].role == Opener && x.dlgs[n].st == Sessioned
    ensures OpenedWithOne(Run(NEW_WORLD, ls), client, n)
  {
    Reached(ls);
    SessionedAgrees(Run(NEW_WORLD, ls), client, n);
  }

  lemma {:induction false} RunSnoc(w: World, ls: seq<Label>, v: World, l: Label) returns (ls': seq<Label>)
    requires CanRun(w, ls) && Run(w, ls) == v && CanStep(v, l)
    ensures CanRun(w, ls') && Run(w, ls') == Step(v, l)
    decreases |ls|
  {
    if ls == [] {
      ls' := [l];
    } else {
      var rest := RunSnoc(Step(w, ls[0]), ls[1..], v, l);
      ls' := [ls[0]] + rest;
      assert ls'[1..] == rest;
    }
  }

  // Whether the acceptor is there

  function Inbox(w: World, client: bool): multiset<Msg> {
    if client then w.toClient else w.toServer
  }

  lemma {:induction false} AckGrows(x: Mgr, y: Mgr, client: bool, inn: multiset<Msg>, out: multiset<Msg>, m: Msg)
    requires Side(x, y, client, out) && Side(y, x, !client, inn) && Can(x, inn, RecvAck(m))
    ensures Grows(x, Do(x, client, inn, RecvAck(m)))
  {
    AckFindsOpener(x, y, client, inn, out, m);
    AckEffect(x, client, inn, m);
    if x.dlgs[m.neg].st == SessionSent && m.neg in x.negotiating {
      EnterMoves(x, m.neg, m.sid);
    }
  }

  lemma {:induction false} DoGrows(x: Mgr, y: Mgr, client: bool, inn: multiset<Msg>, out: multiset<Msg>, c: Act)
    requires Side(x, y, client, out) && Side(y, x, !client, inn) && Can(x, inn, c)
    ensures Grows(x, Do(x, client, inn, c))
  {
    match c
    case OpenStart(n) => OpenStartMoves(x, client, inn, n);
    case SendSession(n) => SendSessionMoves(x, client, inn, n);
    case RecvSession(m, n) => RecvSessionMoves(x, client, inn, m, n);
    case SendAck(n) => SendAckMoves(x, client, inn, n);
    case RecvAck(m) => AckGrows(x, y, client, inn, out, m);
    case CloseBegins(n) => CloseMoves(x, client, inn, n);
    case _ => RegistryMoves(x, client, inn, c);
  }

  lemma {:induction false} StepGrows(w: World, l: Label, side: bool)
    requires Inv(w) && CanStep(w, l)
    ensures Grows(Me(w, side), Me(Step(w, l), side))
  {
    var x, y := Me(w, l.client), Me(w, !l.client);
    if side == l.client {
      DoGrows(x, y, l.client, Inbox(w, l.client), Inbox(w, !l.client), l.act);
    } else if l.act.RecvSession? {
      NoteKeeps(y, x, !l.client, Inbox(w, l.client), l.act.m, l.act.n);
    }
  }

  /** An object that has answered never changes again, except that it is closed. */
  lemma {:induction false} AnsweredForGood(w: World, side: bool, n: nat, ls: seq<Label>)
    requires Inv(w) && CanRun(w, ls) && n in Me(w, side).dlgs && Answered(Me(w, side).dlgs[n])
    ensures n in Me(Run(w, ls), side).dlgs
    ensures var d, e := Me(w, side).dlgs[n], Me(Run(w, ls), side).dlgs[n];
            e == d.(closed := e.closed) && (d.closed ==> e.closed)
    decreases |ls|
  {
    if ls != [] {
      StepGrows(w, ls[0], side);
      StepKeeps(w, ls[0]);
      AnsweredForGood(Step(w, ls[0]), side, n, ls[1..]);
    }
  }

  /** What sending the answer does, on either side. */
  lemma {:induction false} AckStep(w: World, side: bool, n: nat)
    requires Inv(w) && CanStep(w, Label(side, SendAck(n)))
    ensures var x, w' := Me(w, side), Step(w, Label(side, SendAck(n)));
            && Inv(w') && n in Me(w', side).dlgs && Answered(Me(w', side).dlgs[n])
            && (Me(w', side).dlgs[n].st == Sessioned <==> x.ok)
            && Me(w', side).dlgs[n].refused == !x.ok && Me(w', side).dlgs[n].peer == x.dlgs[n].peer
            && (!x.ok ==> Me(w', side).dlgs[n].st == SessionRecv && Me(w', side).dlgs[n].closed)
            && SessionAck(x.dlgs[n].peer, x.dlgs[n].did, !x.ok, n) in Inbox(w', !side)
            && Me(w', !side) == Me(w, !side)
  {
    StepKeeps(w, Label(side, SendAck(n)));
    assert DlgOk(Me(w, side).dlgs[n], Me(w, side).ok);
  }

  /** The acceptor reaches SESSIONED, and is there until it is closed, if and only if its manager
      had not ended when the answer was sent; otherwise it never was and closes at once. */
  lemma {:induction false} AcceptorThereIff(w: World, side: bool, n: nat, ls: seq<Label>)
    requires Inv(w) && CanStep(w, Label(side, SendAck(n)))
    requires CanRun(Step(w, Label(side, SendAck(n))), ls)
    ensures var x := Me(Run(Step(w, Label(side, SendAck(n))), ls), side);
            && n in x.dlgs && (x.dlgs[n].st == Sessioned <==> Me(w, side).ok)
            && (!Me(w, side).ok ==> x.dlgs[n].closed)
  {
    AckStep(w, side, n);
    AnsweredForGood(Step(w, Label(side, SendAck(n))), side, n, ls);
  }

  /** The opener could have known: the ack that opens it comes from its acceptor, which reached
      SESSIONED, and is there until it is closed, if and only if the ack carries no error. */
  lemma {:induction false} AckTellsIff(w: World, side: bool, m: Msg, ls: seq<Label>)
    requires Inv(w) && CanStep(w, Label(side, RecvAck(m))) && CanRun(w, ls)
    ensures var y := Me(Run(w, ls), !side);
            m.from in y.dlgs && (y.dlgs[m.from].st == Sessioned <==> !m.err)
    ensures m.neg in Me(w, side).dlgs && Me(w, side).dlgs[m.neg].taken == Some(m.from)
  {
    var x, y := Me(w, side), Me(w, !side);
    assert MsgOk(y, m, !side);
    assert DlgOk(y.dlgs[m.from], y.ok);
    assert Answer(y.dlgs[m.from], m.from, x, !side);
    AnsweredForGood(w, !side, m.from, ls);
  }

  lemma {:induction false} AnswerMeetsOpener(w: World, side: bool, n: nat)
    requires Inv(w) && n in Me(w, side).dlgs && Me(w, side).dlgs[n].role == Acceptor
    ensures var d, y := Me(w, side).dlgs[n], Me(w, !side);
            && d.peer in y.dlgs && y.dlgs[d.peer].role == Opener && y.dlgs[d.peer].taken == Some(n)
            && (y.dlgs[d.peer].st == Sessioned ==> y.dlgs[d.peer].did == d.did)
  {
    var x, y := Me(w, side), Me(w, !side);
    assert Answer(x.dlgs[n], n, y, side);
    var k := x.dlgs[n].peer;
    assert y.dlgs[k].st == Sessioned ==> Agree(y.dlgs[k], k, x);
  }

  /** `w'` is where a run has come to after object `n` of `side` answered in `w`: `n` reached
      SESSIONED if and only if its manager had not ended in `w`, and closed at once otherwise; and
      its opener, if it got through, did so with `n` and under its id. */
  predicate FoundIff(w: World, side: bool, n: nat, w': World)
    requires n in Me(w, side).dlgs
  {
    var x, y, k := Me(w', side), Me(w', !side), Me(w, side).dlgs[n].peer;
    && n in x.dlgs && (x.dlgs[n].st == Sessioned <==> Me(w, side).ok)
    && (!Me(w, side).ok ==> x.dlgs[n].closed)
    && k in y.dlgs && y.dlgs[k].role == Opener
    && (y.dlgs[k].st == Sessioned ==> y.dlgs[k].taken == Some(n) && y.dlgs[k].did == x.dlgs[n].did)
  }

  lemma {:induction false} AnsweredMeets(w: World, side: bool, n: nat, ls: seq<Label>)
    requires Inv(w) && CanStep(w, Label(side, SendAck(n)))
    requires CanRun(Step(w, Label(side, SendAck(n))), ls)
    ensures FoundIff(w, side, n, Run(Step(w, Label(side, SendAck(n))), ls))
  {
    AckStep(w, side, n);
    AcceptorThereIff(w, side, n, ls);
    var v := Step(w, Label(side, SendAck(n)));
    RunKeeps(v, ls);
    AnsweredForGood(v, side, n, ls);
    AnswerMeetsOpener(Run(v, ls), side, n);
  }

  /** An open from either side, from the start: once the acceptor has answered, whatever
      happens, closing included, it was there if and only if its manager had not ended at that
      moment; and if the open succeeds it is with this acceptor and under its id, there or not. */
  lemma {:induction false} OpenFindsAcceptorIff(before: seq<Label>, side: bool, n: nat, after: seq<Label>)
    requires CanRun(NEW_WORLD, before) && CanStep(Run(NEW_WORLD, before), Label(side, SendAck(n)))
    requires CanRun(Step(Run(NEW_WORLD, before), Label(side, SendAck(n))), after)
    ensures var w := Run(NEW_WORLD, before);
            FoundIff(w, side, n, Run(Step(w, Label(side, SendAck(n))), after))
  {
    Reached(before);
    AnsweredMeets(Run(NEW_WORLD, before), side, n, after);
  }

  /** An ack opens the opener it is meant for, whatever error it carries, and leaves the other
      side alone. */
  lemma {:induction false} AckOpens(w: World, side: bool, m: Msg)
    requires m.SessionAck? && m in Inbox(w, side) && m.neg in Me(w, side).negotiating
    requires m.neg in Me(w, side).dlgs && Me(w, side).dlgs[m.neg].st == SessionSent
    ensures var l := Label(side, RecvAck(m));
            && CanStep(w, l)
            && m.neg in Me(Step(w, l), side).dlgs && Me(Step(w, l), side).dlgs[m.neg].st == Sessioned
            && Me(Step(w, l), !side) == Me(w, !side)
  {
  }

  /** On either side, an acceptor whose manager has ended answers with an error, and the opener,
      which does not look at it, opens all the same, with an acceptor that is closing. */
  lemma {:induction false} OpensThoughRefused(w: World, side: bool, n: nat)
    requires Inv(w) && !Me(w, side).ok && CanStep(w, Label(side, SendAck(n)))
    requires var k, y := Me(w, side).dlgs[n].peer, Me(w, !side);
             k in y.dlgs && y.dlgs[k].st == SessionSent && k in y.negotiating
    ensures var l1 := Label(side, SendAck(n));
            var m := SessionAck(Me(w, side).dlgs[n].peer, Me(w, side).dlgs[n].did, true, n);
            var l2 := Label(!side, RecvAck(m));
            && CanStep(w, l1) && CanStep(Step(w, l1), l2)
            && (var w' := Step(Step(w, l1), l2);
                && m.neg in Me(w', !side).dlgs && Me(w', !side).dlgs[m.neg].st == Sessioned
                && n in Me(w', side).dlgs && Me(w', side).dlgs[n].st == SessionRecv
                && Me(w', side).dlgs[n].refused && Me(w', side).dlgs[n].closed)
  {
    AckStep(w, side, n);
    AckOpens(Step(w, Label(side, SendAck(n))), !side,
             SessionAck(Me(w, side).dlgs[n].peer, Me(w, side).dlgs[n].did, true, n));
  }

  /** A session packet of the initiator ... */
  lemma {:induction false} OpenSent(w0: World, k: nat) returns (ls: seq<Label>, w: World)
    requires w0 == NEW_WORLD && k != DEFAULT_ID
    ensures CanRun(w0, ls) && w == Run(w0, ls)
    ensures w.server == NEW_MGR && w.toServer == multiset{Session(k, true)}
    ensures k in w.client.dlgs && w.client.dlgs[k] == Dlg(Opener, SessionSent, 0, 0, false, None, false)
    ensures k in w.client.negotiating
  {
    var l0, l1 := Label(true, OpenStart(k)), Label(true, SendSession(k));
    var w1 := Step(w0, l0);
    w := Step(w1, l1);
    ls := RunSnoc(w0, [], w0, l0);
    ls := RunSnoc(w0, ls, w1, l1);
  }

  /** ... is taken, and then the recipient's manager ends. */
  lemma {:induction false} TakenThenEnded(v: World, k: nat, n: nat) returns (w: World)
    requires v.server == NEW_MGR && v.toServer == multiset{Session(k, true)} && n != DEFAULT_ID
    requires k in v.client.dlgs && v.client.dlgs[k].st == SessionSent && k in v.client.negotiating
    ensures var l := Label(false, RecvSession(Session(k, true), n));
            CanStep(v, l) && CanStep(Step(v, l), Label(false, Shutdown))
            && w == Step(Step(v, l), Label(false, Shutdown))
    ensures n in w.server.dlgs && w.server.dlgs[n] == Dlg(Acceptor, SessionRecv, k, n, false, None, false)
    ensures k in w.client.dlgs && w.client.dlgs[k].st == SessionSent && k in w.client.negotiating
    ensures !w.server.ok
  {
    w := Step(Step(v, Label(false, RecvSession(Session(k, true), n))), Label(false, Shutdown));
  }

  lemma {:induction false} EndsBeforeAnswer(k: nat, n: nat) returns (ls: seq<Label>, w: World)
    requires k != DEFAULT_ID && n != DEFAULT_ID
    ensures CanRun(NEW_WORLD, ls) && w == Run(NEW_WORLD, ls) && Inv(w) && !w.server.ok
    ensures n in w.server.dlgs && w.server.dlgs[n] == Dlg(Acceptor, SessionRecv, k, n, false, None, false)
    ensures k in w.client.dlgs && w.client.dlgs[k].st == SessionSent && k in w.client.negotiating
  {
    var v;
    ls, v := OpenSent(NEW_WORLD, k);
    w := TakenThenEnded(v, k, n);
    var l := Label(false, RecvSession(Session(k, true), n));
    ls := RunSnoc(NEW_WORLD, ls, v, l);
    ls := RunSnoc(NEW_WORLD, ls, Step(v, l), Label(false, Shutdown));
    Reached(ls);
  }

  /** Such a run: the recipient's manager ends between taking the session packet and
      answering it. The initiator's open succeeds and nobody is there. */
  lemma {:induction false} RefusedOpenSucceeds(k: nat, n: nat) returns (ls: seq<Label>)
    requires k != DEFAULT_ID && n != DEFAULT_ID
    ensures CanRun(NEW_WORLD, ls)
    ensures var w := Run(NEW_WORLD, ls);
            && k in w.client.dlgs && w.client.dlgs[k].st == Sessioned
            && n in w.server.dlgs && w.server.dlgs[n].refused && w.server.dlgs[n].st == SessionRecv
  {
    var w;
    ls, w := EndsBeforeAnswer(k, n);
    OpensThoughRefused(w, false, n);
    var l := Label(false, SendAck(n));
    ls := RunSnoc(NEW_WORLD, ls, w, l);
    ls := RunSnoc(NEW_WORLD, ls, Step(w, l), Label(true, RecvAck(SessionAck(k, n, true, n))));
  }

  // Routing

  /** handlePkt's lookup for a packet stamped `d`: ready first, then negotiating. */
  function Lookup(x: Mgr, d: nat): Option<nat> {
    if d in x.ready then Some(x.ready[d]) else if d in x.negotiating then Some(d) else None
  }

  /** A packet stamped with the id of dialogue `n` reaches `n` or nobody, except on the
      initiator side before `n` is registered, and there only if that side's own counter
      has minted the same number for another dialogue. */
  lemma {:induction false} RoutesToOwner(w: World, client: bool, n: nat)
    requires Inv(w) && n in Me(w, client).dlgs && Identified(Me(w, client).dlgs[n])
    ensures var x := Me(w, client);
            var d, r := x.dlgs[n].did, Lookup(x, x.dlgs[n].did);
            r == None || r == Some(n) || (client && d !in x.ready && d in x.minted && d != n)
  {
    var x := Me(w, client);
    var d := x.dlgs[n].did;
    IdIsServers(w, client, n);
    if d in x.ready {
      IdsDistinct(w, client, n, x.ready[d]);
    }
  }
}
