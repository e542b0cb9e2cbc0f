/** Bytes from the Write of one user to the Read of the other: the stream above `a`, the two
    dialogues, the read loop above `b` and its reader, all at once. */
module EndToEnd {
  import opened Options
  import P = CloseProtocol
  import CloseSafety
  import opened CloseData
  import CloseExact
  import opened RawStream

  /** What packet `id` carries, if it is a stream packet; messages and calls carry nothing to a
      reader. */
  type Payloads = nat -> Option<Bytes>

  /** The stream packets among `ids`, in order. */
  function Raws(p: Payloads, ids: seq<nat>): (r: seq<Bytes>) {
    if ids == [] then [] else (if p(ids[0]).Some? then [p(ids[0]).value] else []) + Raws(p, ids[1..])
  }

  /** The stream packets among the items that reached a dialogue. */
  function Arrived(p: Payloads, items: seq<P.Item>): (r: seq<Bytes>) {
    Raws(p, Streamed(items))
  }

  predicate IsRaw(p: Payloads, i: P.Item) { !i.direct && p(i.id).Some? }

  /** `taken` is how many items the read loop has taken, and `fate` says of each stream packet
      among them whether it went into the channel or was discarded. `reading` and `handler` are
      that the read loop and the stream's handler are running; `early` that fini closed the
      channel before the read loop had taken everything. */
  datatype World = World(s: P.Sys, r: Reader, taken: nat, fate: seq<bool>, reading: bool, handler: bool,
                         early: bool, eof: bool, panicked: bool)

  function NewWorld(s: P.Sys, cap: nat): World {
    World(s, NewReader(cap), 0, [], true, true, false, false, false)
  }

  datatype Act =
    | Dlg(l: P.Label)     // anything the users, streams and dialogues do
    | Take                // the read loop handles the next item
    | TakeFailed          // a request cannot be answered: the dialogue is done
    | LoopEnds            // the dialogue has ended and everything was taken
    | WriteFailed         // the handler cannot write a packet: the dialogue is done
    | ReadSome(n: nat)
    | ReadEof

  predicate Can(p: Payloads, w: World, c: Act) {
    var got, done := w.s.b.got, w.s.b.fin;
    match c
    case Dlg(l) => P.CanStep(w.s, l)
    case Take =>
      && w.reading && w.taken < |got|
      && (!IsRaw(p, got[w.taken]) || w.r.closed || |w.r.chan| < w.r.cap || done)
    case TakeFailed => w.reading && done && w.taken < |got| && !IsRaw(p, got[w.taken])
    case LoopEnds => w.reading && done && w.taken == |got|
    case WriteFailed => w.handler && done && w.s.b.app.queue != []
    case ReadSome(_) => w.r.cache != [] || w.r.chan != []
    case ReadEof => w.r.closed && w.r.cache == [] && w.r.chan == []
  }

  // fini, which runs once
  function Fini(w: World): World {
    w.(r := w.r.(closed := true), early := w.early || (!w.r.closed && w.taken < |w.s.b.got|))
  }

  // handleInStreamPacket
  function TakeRaw(w: World, data: Bytes): World {
    if w.r.closed then w.(panicked := true, reading := false)
    else if |w.r.chan| < w.r.cap then w.(r := Push(w.r, data), taken := w.taken + 1, fate := w.fate + [true])
    else w.(taken := w.taken + 1, fate := w.fate + [false])
  }

  function Do(p: Payloads, w: World, c: Act): (w': World)
    requires Can(p, w, c)
  {
    match c
    case Dlg(l) => w.(s := P.Step(w.s, l))
    case Take =>
      var i := w.s.b.got[w.taken];
      if IsRaw(p, i) then TakeRaw(w, p(i.id).value) else w.(taken := w.taken + 1)
    case TakeFailed => Fini(w).(reading := false)
    case LoopEnds => Fini(w).(reading := false)
    case WriteFailed => Fini(w).(handler := false)
    case ReadSome(n) => w.(r := Serve(w.r, n))
    case ReadEof => w.(eof := true)
  }

  predicate CanRun(p: Payloads, w: World, cs: seq<Act>)
    decreases |cs|
  {
    cs == [] || (Can(p, w, cs[0]) && CanRun(p, Do(p, w, cs[0]), cs[1..]))
  }

  function Run(p: Payloads, w: World, cs: seq<Act>): (w': World)
    requires CanRun(p, w, cs)
    decreases |cs|
  {
    if cs == [] then w else Run(p, Do(p, w, cs[0]), cs[1..])
  }

  // Lists of packets

  lemma {:induction false} RawsAppend(p: Payloads, a: seq<nat>, b: seq<nat>)
    ensures Raws(p, a + b) == Raws(p, a) + Raws(p, b)
  {
    if a == [] {
      assert a + b == b;
    } else {
      var head := if p(a[0]).Some? then [p(a[0]).value] else [];
      assert (a + b)[1..] == a[1..] + b && (a + b)[0] == a[0];
      RawsAppend(p, a[1..], b);
      assert Raws(p, a + b) == head + (Raws(p, a[1..]) + Raws(p, b));
    }
  }

  lemma {:induction false} RawsOne(p: Payloads, id: nat)
    ensures Raws(p, [id]) == if p(id).Some? then [p(id).value] else []
  {
    assert [id][1..] == [] && Raws(p, []) == [];
  }

  lemma {:induction false} ArrivedAppend(p: Payloads, a: seq<P.Item>, b: seq<P.Item>)
    ensures Arrived(p, a + b) == Arrived(p, a) + Arrived(p, b)
  {
    StreamedAppend(a, b);
    RawsAppend(p, Streamed(a), Streamed(b));
  }

  lemma {:induction false} ArrivedNext(p: Payloads, items: seq<P.Item>, k: nat)
    requires k < |items|
    ensures Arrived(p, items[..k + 1])
            == Arrived(p, items[..k]) + if IsRaw(p, items[k]) then [p(items[k].id).value] else []
  {
    var i := items[k];
    assert items[..k + 1] == items[..k] + [i];
    ArrivedAppend(p, items[..k], [i]);
    assert Streamed([i]) == if i.direct then [] else [i.id];
    RawsOne(p, i.id);
  }

  lemma {:induction false} FlatAppend(a: seq<Bytes>, b: seq<Bytes>)
    ensures Flat(a + b) == Flat(a) + Flat(b)
  {
    if a == [] {
      assert a + b == b;
    } else {
      assert (a + b)[1..] == a[1..] + b && (a + b)[0] == a[0];
      FlatAppend(a[1..], b);
      assert Flat(a + b) == a[0] + (Flat(a[1..]) + Flat(b));
    }
  }

  lemma {:induction false} FlatOne(x: Bytes)
    ensures Flat([x]) == x
  {
    assert [x][1..] == [] && x + [] == x;
  }

  /** The packets that went into the channel. */
  function Kept(all: seq<Bytes>, fate: seq<bool>): (r: seq<Bytes>)
    requires |all| == |fate|
  {
    if all == [] then []
    else
      var k := |all| - 1;
      Kept(all[..k], fate[..k]) + if fate[k] then [all[k]] else []
  }

  lemma {:induction false} KeptPush(all: seq<Bytes>, fate: seq<bool>, x: Bytes, kept: bool)
    requires |all| == |fate|
    ensures Kept(all + [x], fate + [kept]) == Kept(all, fate) + if kept then [x] else []
  {
    assert (all + [x])[..|all|] == all && (fate + [kept])[..|fate|] == fate;
  }

  predicate NoneLost(fate: seq<bool>) {
    forall i :: 0 <= i < |fate| ==> fate[i]
  }

  lemma {:induction false} KeptAll(all: seq<Bytes>, fate: seq<bool>)
    requires |all| == |fate| && NoneLost(fate)
    ensures Kept(all, fate) == all
  {
    if all != [] {
      var k := |all| - 1;
      KeptAll(all[..k], fate[..k]);
      assert all == all[..k] + [all[k]];
    }
  }

  // The invariant

  predicate Inv(p: Payloads, w: World) {
    DataInv(w.s) && Loop(p, w)
  }

  predicate Loop(p: Payloads, w: World) {
    && Conserves(w.r) && w.taken <= |w.s.b.got|
    && Taken(p, w)
    && (w.r.closed ==> w.s.b.fin && (w.taken == |w.s.b.got| || w.early))
    && (w.early ==> w.r.closed)
    && (!w.reading || !w.handler ==> w.r.closed)
    && (w.eof ==> w.r.closed && w.r.cache == [] && w.r.chan == [])
    && (w.panicked ==> w.early)
  }

  /** What came into the channel are the stream packets taken, but for those discarded. */
  predicate Taken(p: Payloads, w: World)
    requires w.taken <= |w.s.b.got|
  {
    var all := Arrived(p, w.s.b.got[..w.taken]);
    |w.fate| == |all| && w.r.input == Flat(Kept(all, w.fate))
  }

  lemma {:induction false} GotGrows(x: P.End, y: P.End, c: P.Act)
    requires Dialogues(x, y) && P.Can(x, y, c)
    ensures x.got <= P.Do(x, y, c).got && P.Peer(y, c).got == y.got
    ensures x.fin ==> P.Do(x, y, c).got == x.got && P.Do(x, y, c).fin
    ensures P.Peer(y, c).fin == y.fin
  {
    match c
    case Out => OutFrame(x, y);
    case In => InFrame(x, y);
    case Eof => CloseSafety.NeverEof(x, y);
    case _ =>
  }

  lemma {:induction false} StepGrows(s: P.Sys, l: P.Label)
    requires DataInv(s) && P.CanStep(s, l)
    ensures DataInv(P.Step(s, l)) && s.b.got <= P.Step(s, l).b.got
    ensures s.b.fin ==> P.Step(s, l).b.fin && P.Step(s, l).b.got == s.b.got
  {
    StepData(s, l);
    if l.left {
      GotGrows(s.a, s.b, l.act);
    } else {
      GotGrows(s.b, s.a, l.act);
    }
  }

  lemma {:induction false} DlgKeeps(p: Payloads, w: World, l: P.Label)
    requires Inv(p, w) && P.CanStep(w.s, l)
    ensures Inv(p, w.(s := P.Step(w.s, l)))
  {
    StepGrows(w.s, l);
    LoopStays(p, w, P.Step(w.s, l));
  }

  /** Of the dialogues only what reached `b`, and that it has ended, matter to the read loop. */
  lemma {:induction false} LoopStays(p: Payloads, w: World, t: P.Sys)
    requires Loop(p, w) && w.s.b.got <= t.b.got
    requires w.s.b.fin ==> t.b.fin && t.b.got == w.s.b.got
    ensures Loop(p, w.(s := t))
  {
    assert t.b.got[..w.taken] == w.s.b.got[..w.taken];
  }

  lemma {:induction false} FlatKept(all: seq<Bytes>, fate: seq<bool>, data: Bytes, kept: bool)
    requires |all| == |fate|
    ensures Flat(Kept(all + [data], fate + [kept])) == Flat(Kept(all, fate)) + if kept then data else []
  {
    KeptPush(all, fate, data, kept);
    if kept {
      FlatPush(Kept(all, fate), data);
    } else {
      assert Kept(all, fate) + [] == Kept(all, fate);
    }
  }

  lemma {:induction false} TakeRawKeeps(p: Payloads, w: World, data: Bytes)
    requires Loop(p, w) && w.reading && w.taken < |w.s.b.got|
    requires Arrived(p, w.s.b.got[..w.taken + 1]) == Arrived(p, w.s.b.got[..w.taken]) + [data]
    ensures Loop(p, TakeRaw(w, data))
  {
    if !w.r.closed {
      var room := |w.r.chan| < w.r.cap;
      FlatKept(Arrived(p, w.s.b.got[..w.taken]), w.fate, data, room);
      if room {
        PushConserves(w.r, data);
      }
    }
  }

  lemma {:induction false} TakeOtherKeeps(p: Payloads, w: World)
    requires Loop(p, w) && w.taken < |w.s.b.got|
    requires Arrived(p, w.s.b.got[..w.taken + 1]) == Arrived(p, w.s.b.got[..w.taken])
    ensures Loop(p, w.(taken := w.taken + 1))
  {
  }

  lemma {:induction false} TakeLoop(p: Payloads, w: World)
    requires Loop(p, w) && Can(p, w, Take)
    ensures Loop(p, Do(p, w, Take)) && Do(p, w, Take).s == w.s
  {
    var i := w.s.b.got[w.taken];
    ArrivedNext(p, w.s.b.got, w.taken);
    if IsRaw(p, i) {
      TakeRawKeeps(p, w, p(i.id).value);
    } else {
      assert Arrived(p, w.s.b.got[..w.taken]) + [] == Arrived(p, w.s.b.got[..w.taken]);
      TakeOtherKeeps(p, w);
    }
  }

  lemma {:induction false} ActKeeps(p: Payloads, w: World, c: Act)
    requires Inv(p, w) && Can(p, w, c)
    ensures Inv(p, Do(p, w, c))
  {
    match c
    case Dlg(l) => DlgKeeps(p, w, l);
    case Take => TakeLoop(p, w);
    case ReadSome(n) => ReadLoop(p, w, n);
    case ReadEof =>
    case _ => FiniLoop(p, w);
  }

  lemma {:induction false} ReadLoop(p: Payloads, w: World, n: nat)
    requires Loop(p, w) && Can(p, w, ReadSome(n))
    ensures Loop(p, w.(r := Serve(w.r, n)))
  {
    ServeConserves(w.r, n);
  }

  lemma {:induction false} FiniLoop(p: Payloads, w: World)
    requires Loop(p, w) && w.s.b.fin
    ensures Loop(p, Fini(w)) && Loop(p, Fini(w).(reading := false)) && Loop(p, Fini(w).(handler := false))
  {
  }

  lemma {:induction false} RunKeeps(p: Payloads, w: World, cs: seq<Act>)
    requires Inv(p, w) && CanRun(p, w, cs)
    ensures Inv(p, Run(p, w, cs))
    decreases |cs|
  {
    if cs != [] {
      ActKeeps(p, w, cs[0]);
      RunKeeps(p, Do(p, w, cs[0]), cs[1..]);
    }
  }

  lemma {:induction false} NewWorldOk(p: Payloads, s: P.Sys, cap: nat)
    requires P.Initial(s) && s.a.kind == P.Dialogue
    ensures Inv(p, NewWorld(s, cap))
  {
    InitialData(s.a);
    NewLoop(p, s, cap);
  }

  lemma {:induction false} NewLoop(p: Payloads, s: P.Sys, cap: nat)
    ensures Loop(p, NewWorld(s, cap))
  {
    assert s.b.got[..0] == [];
  }

  // In order

  /** The bytes written to the stream above `x`. */
  function Written(p: Payloads, x: P.End): (r: Bytes) {
    Flat(Raws(p, x.app.log))
  }

  lemma {:induction false} FlatPrefix(a: seq<Bytes>, b: seq<Bytes>)
    requires a <= b
    ensures Flat(a) <= Flat(b)
  {
    assert b == a + b[|a|..];
    FlatAppend(a, b[|a|..]);
  }

  lemma {:induction false} RawsPrefix(p: Payloads, a: seq<nat>, b: seq<nat>)
    requires a <= b
    ensures Flat(Raws(p, a)) <= Flat(Raws(p, b))
  {
    assert b == a + b[|a|..];
    RawsAppend(p, a, b[|a|..]);
    FlatPrefix(Raws(p, a), Raws(p, b));
  }

  lemma {:induction false} ArrivedSplit(p: Payloads, items: seq<P.Item>, k: nat)
    requires k <= |items|
    ensures Flat(Arrived(p, items)) == Flat(Arrived(p, items[..k])) + Flat(Arrived(p, items[k..]))
  {
    assert items == items[..k] + items[k..];
    ArrivedAppend(p, items[..k], items[k..]);
    FlatAppend(Arrived(p, items[..k]), Arrived(p, items[k..]));
  }

  /** With nothing discarded, the channel was given the packets taken. */
  lemma {:induction false} InputIsTaken(p: Payloads, w: World)
    requires Loop(p, w) && NoneLost(w.fate)
    ensures w.r.input == Flat(Arrived(p, w.s.b.got[..w.taken]))
  {
    KeptAll(Arrived(p, w.s.b.got[..w.taken]), w.fate);
  }

  lemma {:induction false} ReadsPrefix(p: Payloads, w: World)
    requires Inv(p, w) && NoneLost(w.fate)
    ensures w.r.output <= Flat(Arrived(p, w.s.b.got)) <= Written(p, w.s.a)
  {
    InputIsTaken(p, w);
    ArrivedSplit(p, w.s.b.got, w.taken);
    DataInvDelivers(w.s.a, w.s.b);
    RawsPrefix(p, Streamed(w.s.b.got), w.s.a.app.log);
  }

  /** A reader at its end holds all that reached the dialogue, unless something was discarded or
      the channel was closed early. */
  lemma {:induction false} EofMeansAll(p: Payloads, w: World)
    requires Inv(p, w) && NoneLost(w.fate) && w.eof && !w.early
    ensures w.r.output == Flat(Arrived(p, w.s.b.got))
    ensures w.s.a.cut <= |w.s.a.log| && Flat(Arrived(p, w.s.a.log[..w.s.a.cut])) <= w.r.output
    ensures w.s.a.app.clean ==> w.s.a.app.mark <= |w.s.a.app.log|
                                && Flat(Raws(p, w.s.a.app.log[..w.s.a.app.mark])) <= w.r.output
  {
    InputIsTaken(p, w);
    assert w.s.b.got[..w.taken] == w.s.b.got;
    DataInvDelivers(w.s.a, w.s.b);
    StreamedPrefix(w.s.a.log[..w.s.a.cut], w.s.b.got);
    RawsPrefix(p, Streamed(w.s.a.log[..w.s.a.cut]), Streamed(w.s.b.got));
    if w.s.a.app.clean {
      RawsPrefix(p, w.s.a.app.log[..w.s.a.app.mark], Streamed(w.s.b.got));
    }
  }

  /** What a reader can rely on as long as no packet was discarded: it has read a prefix of what
      was written at the other end. At the end of the stream it has read all that was handed to
      the peer's dialogue before its close packet and, where the peer's drain closed it, all that
      was written before Close, unless fini closed the channel early. */
  predicate ReadsWell(p: Payloads, w: World) {
    var x, out := w.s.a, w.r.output;
    NoneLost(w.fate) ==>
      && out <= Written(p, x)
      && (w.eof && !w.early ==>
            && x.cut <= |x.log| && Flat(Arrived(p, x.log[..x.cut])) <= out
            && (x.app.clean ==> x.app.mark <= |x.app.log| && Flat(Raws(p, x.app.log[..x.app.mark])) <= out))
  }

  lemma {:induction false} InvReadsWell(p: Payloads, w: World)
    requires Inv(p, w)
    ensures ReadsWell(p, w)
  {
    if NoneLost(w.fate) {
      ReadsPrefix(p, w);
      if w.eof && !w.early {
        EofMeansAll(p, w);
      }
    }
  }

  /** End to end, in every run. */
  lemma {:induction false} ReadsWhatWasWritten(p: Payloads, s: P.Sys, cap: nat, cs: seq<Act>)
    requires P.Initial(s) && s.a.kind == P.Dialogue && CanRun(p, NewWorld(s, cap), cs)
    ensures ReadsWell(p, Run(p, NewWorld(s, cap), cs))
  {
    NewWorldOk(p, s, cap);
    RunReadsWell(p, NewWorld(s, cap), cs);
  }

  lemma {:induction false} RunReadsWell(p: Payloads, w: World, cs: seq<Act>)
    requires Inv(p, w) && CanRun(p, w, cs)
    ensures ReadsWell(p, Run(p, w, cs))
  {
    RunKeeps(p, w, cs);
    InvReadsWell(p, Run(p, w, cs));
  }

  // Runs

  lemma {:induction false} Prepend(p: Payloads, w: World, c: Act, rest: seq<Act>) returns (cs: seq<Act>)
    requires Can(p, w, c) && CanRun(p, Do(p, w, c), rest)
    ensures cs == [c] + rest && CanRun(p, w, cs) && Run(p, w, cs) == Run(p, Do(p, w, c), rest)
  {
    cs := [c] + rest;
    assert cs[1..] == rest;
  }

  /** The read loop ends on its own. */
  predicate ByLoop(cs: seq<Act>) {
    forall i :: 0 <= i < |cs| ==> !cs[i].WriteFailed? && !cs[i].TakeFailed?
  }

  /** A closed stream read to its end. */
  lemma {:induction false} ReadToEof(p: Payloads, w: World) returns (cs: seq<Act>)
    requires Conserves(w.r) && w.r.closed
    ensures CanRun(p, w, cs) && ByLoop(cs)
    ensures var v := Run(p, w, cs); v.eof && v.r.output == w.r.input && v.s == w.s && v.fate == w.fate
    decreases |w.r.chan|, |w.r.cache|
  {
    if w.r.cache == [] && w.r.chan == [] {
      cs := Prepend(p, w, ReadEof, []);
    } else {
      var n := if w.r.cache != [] then |w.r.cache| else |w.r.chan[0]|;
      ServeConserves(w.r, n);
      var rest := ReadToEof(p, Do(p, w, ReadSome(n)));
      cs := Prepend(p, w, ReadSome(n), rest);
    }
  }

  // Exactly when nothing is missing at the end, whatever happens

  /** Nothing is missing that any step could still lose. */
  predicate Settled(p: Payloads, w: World) {
    && w.s.b.fin && w.taken <= |w.s.b.got|
    && w.r.input == Flat(Arrived(p, w.s.b.got)) && Flat(Arrived(p, w.s.b.got[w.taken..])) == []
  }

  lemma {:induction false} TakeSplits(p: Payloads, items: seq<P.Item>, k: nat)
    requires k < |items|
    ensures Arrived(p, items[k..])
            == (if IsRaw(p, items[k]) then [p(items[k].id).value] else []) + Arrived(p, items[k + 1..])
  {
    var i := items[k];
    assert items[k..] == [i] + items[k + 1..];
    ArrivedAppend(p, [i], items[k + 1..]);
    ArrivedNext(p, [i], 0);
    assert [i][..1] == [i] && [i][..0] == [];
  }

  lemma {:induction false} TakeSettled(p: Payloads, w: World)
    requires Settled(p, w) && Can(p, w, Take)
    ensures Settled(p, Do(p, w, Take))
  {
    var i, ys := w.s.b.got[w.taken], Arrived(p, w.s.b.got[w.taken + 1..]);
    TakeIs(p, w);
    if IsRaw(p, i) {
      FlatAppend([p(i.id).value], ys);
      FlatOne(p(i.id).value);
      TakeRawSettled(p, w, p(i.id).value, ys);
    }
  }

  lemma {:induction false} TakeRawSettled(p: Payloads, w: World, data: Bytes, ys: seq<Bytes>)
    requires Settled(p, w) && w.taken < |w.s.b.got| && ys == Arrived(p, w.s.b.got[w.taken + 1..])
    requires data == [] && Flat(ys) == []
    ensures Settled(p, TakeRaw(w, data))
  {
    TakeRawEmpty(w);
    var v := TakeRaw(w, data);
    if v.taken == w.taken {
      assert w.s.b.got[v.taken..] == w.s.b.got[w.taken..];
    } else {
      assert ys == Arrived(p, w.s.b.got[v.taken..]);
    }
  }

  lemma {:induction false} TakeRawEmpty(w: World)
    ensures var v := TakeRaw(w, []);
            v.s == w.s && v.r.input == w.r.input && (v.taken == w.taken || v.taken == w.taken + 1)
  {
    assert w.r.input + [] == w.r.input;
  }

  lemma {:induction false} SettledStays(p: Payloads, w: World, c: Act)
    requires Inv(p, w) && Settled(p, w) && Can(p, w, c)
    ensures Settled(p, Do(p, w, c))
  {
    match c
    case Dlg(l) => StepGrows(w.s, l);
    case Take => TakeSettled(p, w);
    case ReadSome(n) => ServeConserves(w.r, n);
    case _ =>
  }

  lemma {:induction false} GotStays(p: Payloads, w: World, c: Act)
    requires Inv(p, w) && w.s.b.fin && Can(p, w, c)
    ensures Do(p, w, c).s.b.fin && Do(p, w, c).s.b.got == w.s.b.got
  {
    if c.Dlg? {
      StepGrows(w.s, c.l);
    }
  }

  lemma {:induction false} SettledRun(p: Payloads, w: World, cs: seq<Act>)
    requires Inv(p, w) && Settled(p, w) && CanRun(p, w, cs) && Run(p, w, cs).eof
    ensures Run(p, w, cs).r.output == Flat(Arrived(p, w.s.b.got))
    decreases |cs|
  {
    if cs != [] {
      GotStays(p, w, cs[0]);
      SettledStays(p, w, cs[0]);
      ActKeeps(p, w, cs[0]);
      SettledRun(p, Do(p, w, cs[0]), cs[1..]);
    }
  }

  /** The user of `b` writes once more, the handler cannot pass it on, and fini closes the channel
      under the read loop. */
  lemma {:induction false} EarlyEof(p: Payloads, w: World) returns (cs: seq<Act>)
    requires Inv(p, w) && w.s.b.fin && !w.r.closed
    ensures CanRun(p, w, cs)
    ensures var v := Run(p, w, cs);
            && v.eof && v.r.output == w.r.input && v.fate == w.fate
            && v.s.a == w.s.a && v.s.b.got == w.s.b.got
  {
    var l := P.Label(false, P.AppWrite(0));
    assert P.CanStep(w.s, l);
    var w1 := Do(p, w, Dlg(l));
    assert w1.s.b.app.queue != [] && w1.s.b.fin && w1.handler;
    var w2 := Do(p, w1, WriteFailed);
    cs := ReadToEof(p, w2);
    cs := Prepend(p, w1, WriteFailed, cs);
    cs := Prepend(p, w, Dlg(l), cs);
  }

  /** Every way to the end of the stream returns everything. */
  ghost predicate AlwaysAll(p: Payloads, w: World) {
    forall cs :: CanRun(p, w, cs) && Run(p, w, cs).eof ==> Run(p, w, cs).r.output == Flat(Arrived(p, w.s.b.got))
  }

  /** With `b`'s dialogue ended and nothing discarded so far: every way to the end of the stream
      returns all that reached the dialogue, if and only if the read loop has already taken every
      byte of it. */
  lemma {:induction false} EofIsCompleteIff(p: Payloads, w: World)
    requires Inv(p, w) && w.s.b.fin && !w.r.closed && NoneLost(w.fate)
    ensures AlwaysAll(p, w) <==> Flat(Arrived(p, w.s.b.got[w.taken..])) == []
  {
    InputIsTaken(p, w);
    ArrivedSplit(p, w.s.b.got, w.taken);
    if Flat(Arrived(p, w.s.b.got[w.taken..])) == [] {
      forall cs | CanRun(p, w, cs) && Run(p, w, cs).eof
        ensures Run(p, w, cs).r.output == Flat(Arrived(p, w.s.b.got))
      {
        SettledRun(p, w, cs);
      }
    } else {
      var cs := EarlyEof(p, w);
      assert CanRun(p, w, cs) && Run(p, w, cs).eof;
      assert Run(p, w, cs).r.output != Flat(Arrived(p, w.s.b.got));
    }
  }

  // ... and when the read loop ends on its own

  /** The packets beyond the first `n`. */
  function Beyond(xs: seq<Bytes>, n: nat): (r: seq<Bytes>) { if n <= |xs| then xs[n..] else [] }

  function Upto(xs: seq<Bytes>, n: nat): (r: seq<Bytes>) { if n <= |xs| then xs[..n] else xs }

  lemma {:induction false} BeyondMore(xs: seq<Bytes>, n: nat, m: nat)
    requires n <= m && Flat(Beyond(xs, n)) == []
    ensures Flat(Beyond(xs, m)) == []
  {
    if m <= |xs| {
      assert xs[n..] == xs[n..m] + xs[m..];
      FlatAppend(xs[n..m], xs[m..]);
    }
  }

  lemma {:induction false} UptoBeyond(xs: seq<Bytes>, n: nat)
    ensures Flat(xs) == Flat(Upto(xs, n)) + Flat(Beyond(xs, n))
  {
    assert xs == Upto(xs, n) + Beyond(xs, n);
    FlatAppend(Upto(xs, n), Beyond(xs, n));
  }

  function Room(w: World): nat
    requires |w.r.chan| <= w.r.cap
  {
    w.r.cap - |w.r.chan|
  }

  function Untaken(p: Payloads, w: World): (r: seq<Bytes>)
    requires w.taken <= |w.s.b.got|
  {
    Arrived(p, w.s.b.got[w.taken..])
  }

  /** Everything is taken or untaken, and what finds no room carries nothing. */
  predicate Fits(p: Payloads, w: World) {
    && w.s.b.fin && w.taken <= |w.s.b.got| && |w.r.chan| <= w.r.cap
    && w.r.input + Flat(Untaken(p, w)) == Flat(Arrived(p, w.s.b.got))
    && Flat(Beyond(Untaken(p, w), Room(w))) == []
    && (w.r.closed ==> w.taken == |w.s.b.got|)
  }

  /** Taking the first of the packets `xs`, with `room` slots free. */
  lemma {:induction false} FitNext(xs: seq<Bytes>, ys: seq<Bytes>, data: Bytes, room: nat, input: Bytes)
    requires xs == [data] + ys
    ensures room > 0 ==> Beyond(ys, room - 1) == Beyond(xs, room)
    ensures input + Flat(xs) == (input + data) + Flat(ys)
    ensures room == 0 && Flat(Beyond(xs, room)) == [] ==> data == [] && Flat(Beyond(ys, room)) == []
  {
    FlatAppend([data], ys);
    FlatOne(data);
    assert input + (data + Flat(ys)) == (input + data) + Flat(ys);
    assert Beyond(xs, 0) == xs && Beyond(ys, 0) == ys;
  }

  /** What one turn of the read loop comes to. */
  lemma {:induction false} TakeIs(p: Payloads, w: World)
    requires Can(p, w, Take)
    ensures var i, ys := w.s.b.got[w.taken], Arrived(p, w.s.b.got[w.taken + 1..]);
            if IsRaw(p, i) then Do(p, w, Take) == TakeRaw(w, p(i.id).value) && Untaken(p, w) == [p(i.id).value] + ys
            else Do(p, w, Take) == w.(taken := w.taken + 1) && Untaken(p, w) == ys
  {
    TakeSplits(p, w.s.b.got, w.taken);
    var ys := Arrived(p, w.s.b.got[w.taken + 1..]);
    assert [] + ys == ys;
  }

  lemma {:induction false} TakeFits(p: Payloads, w: World)
    requires Fits(p, w) && Can(p, w, Take)
    ensures Fits(p, Do(p, w, Take))
  {
    var i, ys := w.s.b.got[w.taken], Arrived(p, w.s.b.got[w.taken + 1..]);
    TakeIs(p, w);
    if IsRaw(p, i) {
      FitNext(Untaken(p, w), ys, p(i.id).value, Room(w), w.r.input);
      TakeRawFits(p, w, p(i.id).value, ys);
    } else {
      TakeOtherFits(p, w);
    }
  }

  lemma {:induction false} TakeOtherFits(p: Payloads, w: World)
    requires Fits(p, w) && w.taken < |w.s.b.got| && !w.r.closed
    requires Untaken(p, w) == Arrived(p, w.s.b.got[w.taken + 1..])
    ensures Fits(p, w.(taken := w.taken + 1))
  {
  }

  lemma {:induction false} TakeRawFits(p: Payloads, w: World, data: Bytes, ys: seq<Bytes>)
    requires Fits(p, w) && w.taken < |w.s.b.got| && ys == Arrived(p, w.s.b.got[w.taken + 1..])
    requires Room(w) > 0 ==> Beyond(ys, Room(w) - 1) == Beyond(Untaken(p, w), Room(w))
    requires w.r.input + Flat(Untaken(p, w)) == (w.r.input + data) + Flat(ys)
    requires Room(w) == 0 ==> data == [] && Flat(Beyond(ys, Room(w))) == []
    ensures Fits(p, TakeRaw(w, data))
  {
  }

  lemma {:induction false} DlgFits(p: Payloads, w: World, l: P.Label)
    requires DataInv(w.s) && Fits(p, w) && P.CanStep(w.s, l)
    ensures Fits(p, w.(s := P.Step(w.s, l)))
  {
    StepGrows(w.s, l);
    FitsSame(p, w, P.Step(w.s, l));
  }

  lemma {:induction false} FitsSame(p: Payloads, w: World, t: P.Sys)
    requires Fits(p, w) && t.b.fin && t.b.got == w.s.b.got
    ensures Fits(p, w.(s := t))
  {
  }

  lemma {:induction false} ReadFits(p: Payloads, w: World, n: nat)
    requires Conserves(w.r) && Fits(p, w) && Can(p, w, ReadSome(n))
    ensures Fits(p, w.(r := Serve(w.r, n)))
  {
    ServeConserves(w.r, n);
    var v := w.(r := Serve(w.r, n));
    assert Untaken(p, v) == Untaken(p, w) && Room(v) >= Room(w) && v.r.input == w.r.input;
    BeyondMore(Untaken(p, w), Room(w), Room(v));
  }

  lemma {:induction false} FitsStays(p: Payloads, w: World, c: Act)
    requires Inv(p, w) && Fits(p, w) && Can(p, w, c) && !c.WriteFailed? && !c.TakeFailed?
    ensures Fits(p, Do(p, w, c))
  {
    match c
    case Dlg(l) => DlgFits(p, w, l);
    case Take => TakeFits(p, w);
    case ReadSome(n) => ReadFits(p, w, n);
    case _ =>
  }

  lemma {:induction false} FitsEof(p: Payloads, w: World)
    requires Loop(p, w) && Fits(p, w) && w.eof
    ensures w.r.output == Flat(Arrived(p, w.s.b.got))
  {
    assert w.s.b.got[w.taken..] == [];
    assert Untaken(p, w) == [];
    assert w.r.output + [] + [] == w.r.output && w.r.input + [] == w.r.input;
  }

  /** `all` is what reached the dialogue, and it fits. */
  predicate FitsAll(p: Payloads, w: World, all: Bytes) {
    Inv(p, w) && Fits(p, w) && Flat(Arrived(p, w.s.b.got)) == all
  }

  lemma {:induction false} FitsNext(p: Payloads, w: World, c: Act, all: Bytes)
    requires FitsAll(p, w, all) && Can(p, w, c) && !c.WriteFailed? && !c.TakeFailed?
    ensures FitsAll(p, Do(p, w, c), all)
  {
    GotStays(p, w, c);
    FitsStays(p, w, c);
    ActKeeps(p, w, c);
  }

  lemma {:induction false} FitsRun(p: Payloads, w: World, cs: seq<Act>, all: Bytes)
    requires FitsAll(p, w, all) && CanRun(p, w, cs) && ByLoop(cs)
    ensures FitsAll(p, Run(p, w, cs), all)
    decreases |cs|
  {
    if cs != [] {
      ByLoopTail(cs);
      FitsNext(p, w, cs[0], all);
      FitsRun(p, Do(p, w, cs[0]), cs[1..], all);
    }
  }

  lemma {:induction false} ByLoopTail(cs: seq<Act>)
    requires cs != [] && ByLoop(cs)
    ensures !cs[0].WriteFailed? && !cs[0].TakeFailed? && ByLoop(cs[1..])
  {
  }

  lemma {:induction false} UptoNext(xs: seq<Bytes>, ys: seq<Bytes>, data: Bytes, room: nat, input: Bytes)
    requires xs == [data] + ys
    ensures input + Flat(Upto(xs, room))
            == if room > 0 then (input + data) + Flat(Upto(ys, room - 1)) else input + Flat(Upto(ys, room))
  {
    if room > 0 {
      var zs := Upto(ys, room - 1);
      assert Upto(xs, room) == [data] + zs;
      FlatAppend([data], zs);
      FlatOne(data);
      assert input + (data + Flat(zs)) == (input + data) + Flat(zs);
    } else {
      assert Upto(xs, 0) == [] && Upto(ys, 0) == [];
    }
  }

  /** What the reader will get if it stands still while the read loop takes everything and
      discards what finds no room. */
  function StandStill(p: Payloads, w: World): (r: Bytes)
    requires w.taken <= |w.s.b.got| && |w.r.chan| <= w.r.cap
  {
    w.r.input + Flat(Upto(Untaken(p, w), Room(w)))
  }

  lemma {:induction false} StandStillTake(p: Payloads, w: World)
    requires w.taken < |w.s.b.got| && |w.r.chan| <= w.r.cap && !w.r.closed && Can(p, w, Take)
    ensures var v := Do(p, w, Take);
            && v.s == w.s && !v.r.closed && v.reading && v.taken == w.taken + 1 && |v.r.chan| <= v.r.cap
            && StandStill(p, v) == StandStill(p, w)
  {
    var i, ys := w.s.b.got[w.taken], Arrived(p, w.s.b.got[w.taken + 1..]);
    TakeIs(p, w);
    if IsRaw(p, i) {
      StandStillRaw(p, w, p(i.id).value, ys);
    }
  }

  lemma {:induction false} StandStillRaw(p: Payloads, w: World, data: Bytes, ys: seq<Bytes>)
    requires w.taken < |w.s.b.got| && |w.r.chan| <= w.r.cap && !w.r.closed
    requires ys == Arrived(p, w.s.b.got[w.taken + 1..]) && Untaken(p, w) == [data] + ys
    ensures var v := TakeRaw(w, data);
            && v.s == w.s && v.reading == w.reading && !v.r.closed
            && v.taken == w.taken + 1 && |v.r.chan| <= v.r.cap
            && StandStill(p, v) == StandStill(p, w)
  {
    UptoNext(Untaken(p, w), ys, data, Room(w), w.r.input);
    var v := TakeRaw(w, data);
    assert Untaken(p, v) == ys;
    assert Room(v) == if Room(w) > 0 then Room(w) - 1 else 0;
  }

  /** The dialogue has ended, the read loop has not, and nobody else is in its way. */
  predicate Still(p: Payloads, w: World, all: Bytes) {
    Loop(p, w) && w.s.b.fin && !w.r.closed && w.reading && StandStill(p, w) == all
  }

  lemma {:induction false} StillNext(p: Payloads, w: World, all: Bytes)
    requires Still(p, w, all) && w.taken < |w.s.b.got|
    ensures var v := Do(p, w, Take); Still(p, v, all) && v.s == w.s && v.taken == w.taken + 1
  {
    TakeLoop(p, w);
    StandStillTake(p, w);
  }

  lemma {:induction false} FullChannelEof(p: Payloads, w: World, all: Bytes) returns (cs: seq<Act>)
    requires Still(p, w, all)
    ensures CanRun(p, w, cs) && ByLoop(cs)
    ensures var v := Run(p, w, cs); v.eof && v.r.output == all && v.s == w.s
    decreases |w.s.b.got| - w.taken
  {
    if w.taken == |w.s.b.got| {
      cs := LoopEof(p, w);
    } else {
      StillNext(p, w, all);
      var rest := FullChannelEof(p, Do(p, w, Take), all);
      cs := Prepend(p, w, Take, rest);
    }
  }

  lemma {:induction false} LoopEof(p: Payloads, w: World) returns (cs: seq<Act>)
    requires Conserves(w.r) && w.s.b.fin && w.reading && w.taken == |w.s.b.got|
    ensures CanRun(p, w, cs) && ByLoop(cs)
    ensures var v := Run(p, w, cs); v.eof && v.r.output == StandStill(p, w) && v.s == w.s
  {
    assert w.s.b.got[w.taken..] == [] && w.r.input + [] == w.r.input;
    cs := ReadToEof(p, Do(p, w, LoopEnds));
    cs := Prepend(p, w, LoopEnds, cs);
  }

  /** Every way to the end of the stream on which the read loop ends on its own. */
  ghost predicate AlwaysAllByLoop(p: Payloads, w: World) {
    forall cs :: CanRun(p, w, cs) && ByLoop(cs) && Run(p, w, cs).eof
                 ==> Run(p, w, cs).r.output == Flat(Arrived(p, w.s.b.got))
  }

  /** With `b`'s dialogue ended, nothing discarded so far and the read loop ending on its own: every
      way to the end of the stream returns all that reached the dialogue, if and only if the
      channel has room for the packets not taken yet, but for those that carry nothing. */
  lemma {:induction false} NothingDiscardedIff(p: Payloads, w: World)
    requires Inv(p, w) && w.s.b.fin && !w.r.closed && NoneLost(w.fate)
    ensures AlwaysAllByLoop(p, w) <==> Flat(Beyond(Untaken(p, w), Room(w))) == []
  {
    InputIsTaken(p, w);
    ArrivedSplit(p, w.s.b.got, w.taken);
    UptoBeyond(Untaken(p, w), Room(w));
    if Flat(Beyond(Untaken(p, w), Room(w))) == [] {
      forall cs | CanRun(p, w, cs) && ByLoop(cs) && Run(p, w, cs).eof
        ensures Run(p, w, cs).r.output == Flat(Arrived(p, w.s.b.got))
      {
        FitsRun(p, w, cs, Flat(Arrived(p, w.s.b.got)));
        FitsEof(p, Run(p, w, cs));
      }
    } else {
      var cs := FullChannelEof(p, w, StandStill(p, w));
      assert CanRun(p, w, cs) && ByLoop(cs) && Run(p, w, cs).eof;
      assert |StandStill(p, w)| < |Flat(Arrived(p, w.s.b.got))|;
    }
  }

  // A run that loses what was written before a clean close

  /** A run of the dialogues, and then more. */
  lemma {:induction false} Lift(p: Payloads, w: World, ls: seq<P.Label>, t: P.Sys, more: seq<Act>)
    returns (cs: seq<Act>)
    requires P.CanRun(w.s, ls) && P.Run(w.s, ls) == t && CanRun(p, w.(s := t), more)
    ensures CanRun(p, w, cs) && Run(p, w, cs) == Run(p, w.(s := t), more)
    decreases |ls|
  {
    if ls == [] {
      assert w.(s := t) == w;
      cs := more;
    } else {
      var w1 := Do(p, w, Dlg(ls[0]));
      assert w1.(s := t) == w.(s := t);
      cs := Lift(p, w1, ls[1..], t, more);
      cs := Prepend(p, w, Dlg(ls[0]), cs);
    }
  }

  /** The user of `a` writes and closes, and the stream's drain closes the dialogue. */
  lemma {:induction false} WriteAndClose(s: P.Sys, id: nat) returns (ls: seq<P.Label>)
    requires P.Initial(s) && s.a.kind == P.Dialogue
    ensures P.CanRun(s, ls)
    ensures var t := P.Run(s, ls); t.a.app == P.Stream([], [id], true, 1, true, true) && t.a.once
  {
    var i, j, k := P.Label(true, P.AppWrite(id)), P.Label(true, P.AppClose), P.Label(true, P.Move);
    CloseExact.RunOf3(s, i, j, k);
    var t, d := P.Run(s, [i, j, k]), P.Label(true, P.Drain);
    assert t.a.app == P.Stream([], [id], true, 1, false, false) && !t.a.once;
    P.RunOf1(t, d);
    P.RunConcat(s, [i, j, k], [d]);
    ls := [i, j, k] + [d];
  }

  lemma {:induction false} EndBoth(t: P.Sys) returns (ls: seq<P.Label>)
    requires DataInv(t) && t.a.once
    ensures P.CanRun(t, ls) && DataInv(P.Run(t, ls))
    ensures P.Run(t, ls).a.app == t.a.app && P.Run(t, ls).a.fin && P.Run(t, ls).b.fin
  {
    ls := CloseExact.FinishAlone(t);
    CloseExact.AloneRun(t, ls);
    RunData(t, ls);
  }

  lemma {:induction false} RunFromStart(s: P.Sys, ls: seq<P.Label>)
    requires P.Initial(s) && s.a.kind == P.Dialogue && P.CanRun(s, ls)
    ensures DataInv(P.Run(s, ls))
  {
    InitialData(s.a);
    RunData(s, ls);
  }

  /** ... and the dialogues end. */
  lemma {:induction false} CleanEnd(s: P.Sys, id: nat) returns (ls: seq<P.Label>)
    requires P.Initial(s) && s.a.kind == P.Dialogue
    ensures P.CanRun(s, ls) && DataInv(P.Run(s, ls))
    ensures var t := P.Run(s, ls);
            t.a.app == P.Stream([], [id], true, 1, true, true) && t.a.fin && t.b.fin
  {
    var first := WriteAndClose(s, id);
    RunFromStart(s, first);
    var rest := EndBoth(P.Run(s, first));
    P.RunConcat(s, first, rest);
    ls := first + rest;
  }

  /** Whatever the capacity: bytes are written, the stream is closed, its drain closes the
      dialogue, both dialogues end and the packet is there to be read; and the reader is told that
      the stream has ended before it has seen a byte. */
  lemma {:induction false} EofBeforeData(p: Payloads, s: P.Sys, cap: nat, id: nat) returns (cs: seq<Act>)
    requires P.Initial(s) && s.a.kind == P.Dialogue && p(id).Some?
    ensures CanRun(p, NewWorld(s, cap), cs)
    ensures var w := Run(p, NewWorld(s, cap), cs);
            && w.eof && w.r.output == [] && NoneLost(w.fate)
            && w.s.a.app == P.Stream([], [id], true, 1, true, true) && Written(p, w.s.a) == p(id).value
            && Flat(Arrived(p, w.s.b.got)) == p(id).value
  {
    var ls := CleanEnd(s, id);
    var w0 := NewWorld(s, cap);
    var t := P.Run(s, ls);
    var w := w0.(s := t);
    NewLoop(p, t, cap);
    assert w == NewWorld(t, cap);
    var rest := EarlyEof(p, w);
    cs := Lift(p, w0, ls, t, rest);
    CleanContents(p, t, id);
  }

  lemma {:induction false} CleanContents(p: Payloads, t: P.Sys, id: nat)
    requires DataInv(t) && t.b.fin && t.a.app == P.Stream([], [id], true, 1, true, true) && p(id).Some?
    ensures Flat(Arrived(p, t.b.got)) == Written(p, t.a) == p(id).value && Streamed(t.b.got) == [id]
  {
    DataInvDelivers(t.a, t.b);
    assert [id][..1] == [id] && Streamed(t.b.got) == [id];
    RawsOne(p, id);
    FlatOne(p(id).value);
  }

  // ... and one that loses nothing

  /** A channel is closed early only when the handler or a failed answer closes it. */
  lemma {:induction false} EarlyIsNotTheLoop(p: Payloads, w: World, cs: seq<Act>)
    requires CanRun(p, w, cs) && ByLoop(cs) && !w.early
    ensures !Run(p, w, cs).early
    decreases |cs|
  {
    if cs != [] {
      ByLoopTail(cs);
      EarlyIsNotTheLoop(p, Do(p, w, cs[0]), cs[1..]);
    }
  }

  /** With room for one packet: bytes are written, the stream is closed, everything ends by itself,
      and the reader has them all before it is told that the stream has ended. */
  lemma {:induction false} ReadsAllThenEof(p: Payloads, s: P.Sys, cap: nat, id: nat) returns (cs: seq<Act>)
    requires P.Initial(s) && s.a.kind == P.Dialogue && p(id).Some? && cap > 0
    ensures CanRun(p, NewWorld(s, cap), cs)
    ensures var w := Run(p, NewWorld(s, cap), cs);
            w.eof && w.r.output == p(id).value && Written(p, w.s.a) == p(id).value
  {
    var ls := CleanEnd(s, id);
    var w0 := NewWorld(s, cap);
    var t := P.Run(s, ls);
    var w := NewWorld(t, cap);
    NewLoop(p, t, cap);
    CleanContents(p, t, id);
    OneFits(p, t, cap, id);
    var rest := FullChannelEof(p, w, p(id).value);
    assert w == w0.(s := t);
    cs := Lift(p, w0, ls, t, rest);
  }

  lemma {:induction false} OneFits(p: Payloads, t: P.Sys, cap: nat, id: nat)
    requires cap > 0 && p(id).Some? && Streamed(t.b.got) == [id]
    ensures var w := NewWorld(t, cap); StandStill(p, w) == p(id).value
  {
    var w := NewWorld(t, cap);
    assert t.b.got[0..] == t.b.got;
    RawsOne(p, id);
    FlatOne(p(id).value);
    assert Upto([p(id).value], cap) == [p(id).value] && [] + p(id).value == p(id).value;
  }

  /** A call or publish that cannot be answered ends the read loop like a failed write ends the
      handler: the channel is closed, early unless everything was taken. */
  lemma {:induction false} FailedAnswerCloses(p: Payloads, w: World)
    requires Inv(p, w) && w.reading && w.s.b.fin && w.taken < |w.s.b.got| && !IsRaw(p, w.s.b.got[w.taken])
    ensures Can(p, w, TakeFailed)
    ensures var v := Do(p, w, TakeFailed); v.r.closed && v.early && !v.reading && v.r.input == w.r.input
  {
  }

  /** Once fini has closed the channel under a read loop that still has a stream packet to hand over,
      the loop sends on the closed channel. */
  lemma {:induction false} TakeAfterFiniPanics(p: Payloads, w: World)
    requires Inv(p, w) && w.reading && w.r.closed && w.taken < |w.s.b.got| && IsRaw(p, w.s.b.got[w.taken])
    ensures Can(p, w, Take)
    ensures var v := Do(p, w, Take); v.panicked && !v.reading && v.r == w.r && v.taken == w.taken
  {
  }
}
