/** Packets on a byte stream: framing, the two decoders against each other, and the size
    limit seen from both ends. */
module Framing {
  import opened Options
  import opened Wire
  import opened Codec
  import opened Encoders

  /** A packet whose payload length fits the header. */
  predicate Encodable(p: Packet, j: Json) {
    && p.id < U64 && WellFormed(p.body, j)
    && Payload(p.body, j).Some? && |Payload(p.body, j).value| < 0x1_0000_0000
  }

  /** A packet that the receiver's size limit lets through. */
  predicate Sendable(p: Packet, j: Json) {
    Encodable(p, j) && |Payload(p.body, j).value| <= MAX_LEN
  }

  lemma {:induction false} KindOfTypeCode(k: Kind)
    ensures KindOf(TypeCode(k)) == Some(k)
  {
  }

  /** Payload lengths: the bare types have none, the others at least their fixed fields. */
  lemma {:induction false} PayloadLength(b: Body, j: Json)
    requires WellFormed(b, j)
    ensures Payload(b, j).Some?
    ensures var k, n := KindOfBody(b), |Payload(b, j).value|;
            && n >= MinLen(k) && (IsBare(k) ==> n == 0) && (ChecksLength(k) ==> n >= 8)
            && TakenLen(k, n) == n && (IsBare(k) <==> b.Bare?)
  {
  }

  lemma {:induction false} Split(a: Bytes, b: Bytes, c: Bytes)
    ensures a + b + c == a + (b + c)
    ensures (a + b + c)[|a|..|a| + |b|] == b && (a + b + c)[|a| + |b|..] == c
  {
  }

  lemma {:induction false} EncodedBytes(p: Packet, j: Json, rest: Bytes)
    requires Encodable(p, j)
    ensures Encode(p, j).Some?
    ensures var payload := Payload(p.body, j).value;
            var h := Header(p.version, TypeCode(KindOfBody(p.body)), p.id, |payload|);
            Encode(p, j).value + rest == EncodeHeader(h) + payload + rest
  {
    var payload := Payload(p.body, j).value;
    assert |payload| % 0x1_0000_0000 == |payload|;
    assert Encode(p, j) == Some(EncodeHeader(Header(p.version, TypeCode(KindOfBody(p.body)), p.id, |payload|)) + payload);
  }

  lemma {:induction false} EncodedHeader(p: Packet, j: Json, rest: Bytes)
    requires Encodable(p, j)
    ensures Encode(p, j).Some?
    ensures var s, payload := Encode(p, j).value + rest, Payload(p.body, j).value;
            && |s| >= HEADER_LEN + |payload|
            && DecodeHeader(s) == Header(p.version, TypeCode(KindOfBody(p.body)), p.id, |payload|)
            && s[HEADER_LEN..HEADER_LEN + |payload|] == payload
            && s[HEADER_LEN + |payload|..] == rest
  {
    var payload := Payload(p.body, j).value;
    var h := Header(p.version, TypeCode(KindOfBody(p.body)), p.id, |payload|);
    EncodedBytes(p, j, rest);
    HeaderRoundTrip(h, payload + rest);
    Split(EncodeHeader(h), payload, rest);
  }

  /** What the reader makes of an encoded packet, whatever follows it on the stream. */
  lemma {:induction false} DecodeEncode(p: Packet, j: Json, rest: Bytes)
    requires Sendable(p, j) && Representable(p.body)
    ensures Encode(p, j).Some?
    ensures DecodeFromReader(Encode(p, j).value + rest, j) == Ok(Decoded(p, rest))
  {
    EncodedHeader(p, j, rest);
    KindOfTypeCode(KindOfBody(p.body));
    PayloadLength(p.body, j);
    BodyRoundTrip(p.body, j);
  }

  // Framing

  function Frames(ps: seq<Packet>, j: Json): (s: Bytes)
    requires forall i :: 0 <= i < |ps| ==> Encode(ps[i], j).Some?
  {
    if ps == [] then [] else Encode(ps[0], j).value + Frames(ps[1..], j)
  }

  /** What a loop of DecodeFromReader gets off a stream: the packets, and whether it ended at
      the end of the bytes rather than on an error. */
  function ReadAll(s: Bytes, j: Json): (r: (seq<Packet>, bool))
    decreases |s|
  {
    if s == [] then ([], true)
    else
      match DecodeFromReader(s, j)
      case Ok(d) =>
        var more := ReadAll(d.rest, j);
        ([d.p] + more.0, more.1)
      case _ => ([], false)
  }

  lemma {:induction false} ReadOne(s: Bytes, j: Json)
    requires s != []
    ensures var r, all := DecodeFromReader(s, j), ReadAll(s, j);
            if r.Ok? then all.0 == [r.value.p] + ReadAll(r.value.rest, j).0
                          && all.1 == ReadAll(r.value.rest, j).1
            else all == ([], false)
  {
  }

  /** The reader's loop: decode until the stream ends or a packet cannot be read. */
  method ReadPackets(s: Bytes, j: Json) returns (ps: seq<Packet>, clean: bool)
    ensures ps == ReadAll(s, j).0 && clean == ReadAll(s, j).1
  {
    ghost var all := ReadAll(s, j);
    var rest := s;
    ps := [];
    while rest != []
      invariant all.0 == ps + ReadAll(rest, j).0 && all.1 == ReadAll(rest, j).1
      decreases |rest|
    {
      ReadOne(rest, j);
      var r := DecodeFromReader(rest, j);
      if !r.Ok? {
        return ps, false;
      }
      ps, rest := ps + [r.value.p], r.value.rest;
    }
    return ps, true;
  }

  /** The writer takes all of this packet. */
  predicate Completes(p: Packet, j: Json, answers: seq<WriteResult>) {
    Encode(p, j).Some? && Enough(answers, |Encode(p, j).value|)
  }

  /** EncodeToWriter: encode, then write until all is taken or the writer fails. */
  method SendPacket(p: Packet, j: Json, answers: seq<WriteResult>) returns (written: Bytes, ok: bool)
    ensures ok <==> Completes(p, j, answers)
    ensures if Encode(p, j).Some? then written <= Encode(p, j).value && (ok <==> written == Encode(p, j).value)
            else written == []
    ensures Encode(p, j).Some? && !ok ==> |written| == Total(answers[..Leading(answers)])
  {
    var data := EncodePacket(p, j);
    if data.None? {
      return [], false;
    }
    written, ok := WriteAll(data.value, answers);
  }

  // Writes that fail

  lemma {:induction false} HeaderOfPrefix(s: Bytes, n: nat)
    requires HEADER_LEN <= n <= |s|
    ensures DecodeHeader(s[..n]) == DecodeHeader(s)
  {
    var t := s[..n];
    assert t[2..10] == s[2..10] && t[10..14] == s[10..14];
  }

  /** A packet that was cut short is no packet: the reader runs out of bytes. */
  lemma {:induction false} CutShort(p: Packet, j: Json, n: nat)
    requires Sendable(p, j)
    ensures Encode(p, j).Some?
    ensures n < |Encode(p, j).value| ==> DecodeFromReader(Encode(p, j).value[..n], j) == Err(UnexpectedEOF)
  {
    EncodedHeader(p, j, []);
    var s := Encode(p, j).value;
    assert s + [] == s;
    if HEADER_LEN <= n < |s| {
      HeaderOfPrefix(s, n);
      KindOfTypeCode(KindOfBody(p.body));
      PayloadLength(p.body, j);
    }
  }

  predicate AllSendable(ps: seq<Packet>, j: Json) {
    forall i :: 0 <= i < |ps| ==> Sendable(ps[i], j) && Representable(ps[i].body) && Encode(ps[i], j).Some?
  }

  lemma {:induction false} FramesPush(ps: seq<Packet>, p: Packet, j: Json)
    requires AllSendable(ps + [p], j)
    ensures AllSendable(ps, j) && Encode(p, j).Some?
    ensures Frames(ps + [p], j) == Frames(ps, j) + Encode(p, j).value
  {
    assert (ps + [p])[|ps|] == p;
    assert forall i :: 0 <= i < |ps| ==> (ps + [p])[i] == ps[i];
    if ps == [] {
      assert ps + [p] == [p] && [p][1..] == [] && Frames([], j) == [];
      assert Encode(p, j).value + [] == [] + Encode(p, j).value;
    } else {
      assert (ps + [p])[1..] == ps[1..] + [p];
      FramesPush(ps[1..], p, j);
      Split(Encode(ps[0], j).value, Frames(ps[1..], j), Encode(p, j).value);
    }
  }

  lemma {:induction false} ReadFirst(p: Packet, j: Json, more: Bytes, rest: seq<Packet>, clean: bool)
    requires Sendable(p, j) && Representable(p.body) && ReadAll(more, j) == (rest, clean)
    ensures Encode(p, j).Some? && ReadAll(Encode(p, j).value + more, j) == ([p] + rest, clean)
  {
    EncodedHeader(p, j, more);
    DecodeEncode(p, j, more);
    ReadOne(Encode(p, j).value + more, j);
  }

  lemma {:induction false} HeadTail(ps: seq<Packet>, rest: seq<Packet>)
    requires ps != []
    ensures ps + rest == [ps[0]] + (ps[1..] + rest)
  {
  }

  lemma {:induction false} FramesSplit(ps: seq<Packet>, j: Json, more: Bytes)
    requires ps != [] && forall i :: 0 <= i < |ps| ==> Encode(ps[i], j).Some?
    ensures Frames(ps, j) + more == Encode(ps[0], j).value + (Frames(ps[1..], j) + more)
  {
    Split(Encode(ps[0], j).value, Frames(ps[1..], j), more);
  }

  /** Whole packets and then something else: the reader gets the packets and goes on there. */
  lemma {:induction false} FramesThen(ps: seq<Packet>, j: Json, more: Bytes, rest: seq<Packet>, clean: bool)
    requires AllSendable(ps, j) && ReadAll(more, j) == (rest, clean)
    ensures ReadAll(Frames(ps, j) + more, j) == (ps + rest, clean)
  {
    if ps == [] {
      assert Frames(ps, j) + more == more && ps + rest == rest;
    } else {
      var tail := Frames(ps[1..], j) + more;
      FramesThen(ps[1..], j, more, rest, clean);
      ReadFirst(ps[0], j, tail, ps[1..] + rest, clean);
      FramesSplit(ps, j, more);
      HeadTail(ps, rest);
    }
  }

  lemma {:induction false} AllEncode(ps: seq<Packet>, j: Json)
    requires forall i :: 0 <= i < |ps| ==> Sendable(ps[i], j) && Representable(ps[i].body)
    ensures AllSendable(ps, j)
  {
    forall i | 0 <= i < |ps| ensures Encode(ps[i], j).Some? {
      EncodedBytes(ps[i], j, []);
    }
  }

  /** Framing round trip: any list of packets written back to back is read back as the same
      list, and every byte is consumed. */
  lemma {:induction false} FramesRoundTrip(ps: seq<Packet>, j: Json)
    requires forall i :: 0 <= i < |ps| ==> Sendable(ps[i], j) && Representable(ps[i].body)
    ensures forall i :: 0 <= i < |ps| ==> Encode(ps[i], j).Some?
    ensures ReadAll(Frames(ps, j), j) == (ps, true)
  {
    AllEncode(ps, j);
    FramesThen(ps, j, [], [], true);
    assert Frames(ps, j) + [] == Frames(ps, j) && ps + [] == ps;
  }

  lemma {:induction false} PartReads(p: Packet, j: Json, part: Bytes)
    requires Sendable(p, j) && Encode(p, j).Some? && part < Encode(p, j).value
    ensures ReadAll(part, j) == ([], part == [])
  {
    assert part == Encode(p, j).value[..|part|];
    CutShort(p, j, |part|);
  }

  predicate AllComplete(ps: seq<Packet>, j: Json, answers: seq<seq<WriteResult>>, n: nat)
    requires n <= |ps| == |answers|
  {
    forall i :: 0 <= i < n ==> Completes(ps[i], j, answers[i])
  }

  /** How many packets are written before the first write that fails. */
  function Whole(ps: seq<Packet>, j: Json, answers: seq<seq<WriteResult>>): (n: nat)
    requires |answers| == |ps|
    ensures n <= |ps|
    ensures forall i :: 0 <= i < n ==> Completes(ps[i], j, answers[i])
    ensures n < |ps| ==> !Completes(ps[n], j, answers[n])
  {
    if ps == [] || !Completes(ps[0], j, answers[0]) then 0 else 1 + Whole(ps[1..], j, answers[1..])
  }

  lemma {:induction false} WholeIs(ps: seq<Packet>, j: Json, answers: seq<seq<WriteResult>>, n: nat)
    requires |answers| == |ps| && n <= |ps| && AllComplete(ps, j, answers, n)
    requires n < |ps| ==> !Completes(ps[n], j, answers[n])
    ensures Whole(ps, j, answers) == n
  {
  }

  /** The first `k` packets on the wire. */
  function FramesTo(ps: seq<Packet>, k: nat, j: Json): (s: Bytes)
    requires AllSendable(ps, j) && k <= |ps|
  {
    Frames(ps[..k], j)
  }

  lemma {:induction false} FramesToNext(ps: seq<Packet>, k: nat, j: Json)
    requires AllSendable(ps, j) && k < |ps|
    ensures FramesTo(ps, k + 1, j) == FramesTo(ps, k, j) + Encode(ps[k], j).value
  {
    assert ps[..k + 1] == ps[..k] + [ps[k]];
    FramesPush(ps[..k], ps[k], j);
  }

  /** `k` packets and a part of the next, if there is one, are on the wire. */
  predicate OnWire(stream: Bytes, ps: seq<Packet>, k: nat, part: Bytes, j: Json)
    requires AllSendable(ps, j) && k <= |ps|
  {
    stream == FramesTo(ps, k, j) + part && if k < |ps| then part < Encode(ps[k], j).value else part == []
  }

  lemma {:induction false} OnWireReads(stream: Bytes, ps: seq<Packet>, k: nat, part: Bytes, j: Json)
    requires AllSendable(ps, j) && k <= |ps| && OnWire(stream, ps, k, part, j)
    ensures ReadAll(stream, j) == (ps[..k], part == [])
  {
    if k < |ps| {
      PartReads(ps[k], j, part);
    }
    FramesThen(ps[..k], j, part, [], part == []);
    assert ps[..k] + [] == ps[..k];
  }

  method SendNext(ps: seq<Packet>, k: nat, j: Json, answers: seq<WriteResult>)
    returns (written: Bytes, ok: bool)
    requires AllSendable(ps, j) && k < |ps|
    ensures ok <==> Completes(ps[k], j, answers)
    ensures ok ==> FramesTo(ps, k, j) + written == FramesTo(ps, k + 1, j)
    ensures !ok ==> OnWire(FramesTo(ps, k, j) + written, ps, k, written, j)
  {
    written, ok := SendPacket(ps[k], j, answers);
    FramesToNext(ps, k, j);
  }

  /** What the sender puts on the wire, and how many packets it got through. */
  method SendAll(ps: seq<Packet>, j: Json, answers: seq<seq<WriteResult>>)
    returns (stream: Bytes, k: nat, ghost part: Bytes)
    requires AllSendable(ps, j) && |answers| == |ps|
    ensures k == Whole(ps, j, answers) && OnWire(stream, ps, k, part, j)
  {
    stream, k, part := [], 0, [];
    FramesToEnds(ps, j);
    while k < |ps|
      invariant 0 <= k <= |ps| && part == []
      invariant stream == FramesTo(ps, k, j)
      invariant AllComplete(ps, j, answers, k)
    {
      var written, ok := SendNext(ps, k, j, answers[k]);
      stream := stream + written;
      if !ok {
        WholeIs(ps, j, answers, k);
        part := written;
        return;
      }
      OneMore(ps, j, answers, k);
      k := k + 1;
    }
    WholeIs(ps, j, answers, k);
  }

  lemma {:induction false} FramesToEnds(ps: seq<Packet>, j: Json)
    requires AllSendable(ps, j)
    ensures FramesTo(ps, 0, j) == [] && OnWire(FramesTo(ps, |ps|, j), ps, |ps|, [], j)
  {
    var all := FramesTo(ps, |ps|, j);
    assert all + [] == all;
  }

  lemma {:induction false} OneMore(ps: seq<Packet>, j: Json, answers: seq<seq<WriteResult>>, k: nat)
    requires |answers| == |ps| && k < |ps| && AllComplete(ps, j, answers, k) && Completes(ps[k], j, answers[k])
    ensures AllComplete(ps, j, answers, k + 1)
  {
  }

  /** Sender to receiver: the packets go through EncodeToWriter one by one, each with its own
      pattern of short writes, until one fails; the receiver's loop returns exactly the packets
      before that one, and so all of them if and only if every writer took every byte. */
  method SendAndReceive(ps: seq<Packet>, j: Json, answers: seq<seq<WriteResult>>)
    returns (got: seq<Packet>, sent: bool)
    requires forall i :: 0 <= i < |ps| ==> Sendable(ps[i], j) && Representable(ps[i].body)
    requires |answers| == |ps|
    ensures got == ps[..Whole(ps, j, answers)]
    ensures sent <==> forall i :: 0 <= i < |ps| ==> Completes(ps[i], j, answers[i])
    ensures sent <==> got == ps
  {
    AllEncode(ps, j);
    var stream, k, part := SendAll(ps, j, answers);
    OnWireReads(stream, ps, k, part, j);
    var clean;
    got, clean := ReadPackets(stream, j);
    sent := k == |ps|;
  }

  // The two decoders

  lemma {:induction false} CancelPrefix(d: Bytes, n: nat, j: Json)
    requires n <= |d|
    ensures n >= 10 ==> ParseBody(RequestCancelK, d, j) == ParseBody(RequestCancelK, d[..n], j)
  {
    if n >= 10 {
      var e := d[..n];
      assert d[..8] == e[..8] && d[8..10] == e[8..10];
    }
  }

  /** On every byte string the reader can decode, in-memory Decode yields the same packet if
      and only if it is no request or response and the buffer holds the declared length,
      which only a bare packet that declares a payload can miss. */
  lemma {:induction false} DecodersAgree(s: Bytes, j: Json)
    requires DecodeFromReader(s, j).Ok? && |s| < 0x1_0000_0000
    ensures var h := DecodeHeader(s);
            var k := KindOf(h.typ).value;
            && (Decode(s, j) == Ok(DecodeFromReader(s, j).value.p)
                <==> k != RequestK && k != ResponseK && HEADER_LEN + h.len <= |s|)
            && (HEADER_LEN + h.len > |s| ==> IsBare(k))
  {
    var h := DecodeHeader(s);
    var k := KindOf(h.typ).value;
    var d := s[HEADER_LEN..];
    if !IsBare(k) && k != RequestK && k != ResponseK {
      assert h.len >= MinLen(k) && TakenLen(k, h.len) == h.len;
      assert d[..h.len] == s[HEADER_LEN..HEADER_LEN + h.len];
      CancelPrefix(d, h.len, j);
    }
  }

  // The size limit

  /** The receiver's limit, for packets of every type: what is encoded is decoded if and only if
      its payload fits, and refused as too large otherwise. */
  lemma {:induction false} SizeLimit(p: Packet, j: Json, rest: Bytes)
    requires Encodable(p, j) && Representable(p.body)
    ensures Encode(p, j).Some?
    ensures DecodeFromReader(Encode(p, j).value + rest, j)
            == if |Payload(p.body, j).value| <= 10_485_760 then Ok(Decoded(p, rest)) else Err(TooLarge)
  {
    EncodedHeader(p, j, rest);
    if |Payload(p.body, j).value| <= MAX_LEN {
      DecodeEncode(p, j, rest);
    }
  }

  /** Of the stream packets that Write lets through, those and only those with eight bytes to
      spare are decoded: its check leaves out the session id. */
  lemma {:induction false} WriteLimitIsEightTooHigh(p: Packet, j: Json, rest: Bytes)
    requires p.id < U64 && p.body.Blob? && WellFormed(p.body, j) && |p.body.data| <= MAX_LEN
    ensures Encode(p, j).Some?
    ensures var r := DecodeFromReader(Encode(p, j).value + rest, j);
            if |p.body.data| + 8 <= MAX_LEN then r == Ok(Decoded(p, rest)) else r == Err(TooLarge)
  {
    SizeLimit(p, j, rest);
  }

  /** The length that the senders compare with the same limit: Write counts its data, Publish
      and Call the header's length field, which the packet factory leaves at zero until the
      packet is encoded, and nobody checks the other packets. */
  function CheckedLength(b: Body): nat { if b.Blob? && b.k == StreamK then |b.data| else 0 }

  /** The senders' check lets a packet through that the receiver refuses exactly when: a stream
      packet is within eight bytes of the limit, or any other packet, for which the check never
      fires, has a payload above it. */
  lemma {:induction false} AdmittedButRefusedIff(p: Packet, j: Json, rest: Bytes)
    requires Encodable(p, j) && Representable(p.body)
    ensures Encode(p, j).Some?
    ensures CheckedLength(p.body) <= MAX_LEN
            && DecodeFromReader(Encode(p, j).value + rest, j) == Err(TooLarge)
            <==> if KindOfBody(p.body) == StreamK then MAX_LEN - 8 < |p.body.data| <= MAX_LEN
                 else |Payload(p.body, j).value| > MAX_LEN
  {
    SizeLimit(p, j, rest);
  }

  // What the reader refuses

  /** The fewest payload bytes with which each type can be read. */
  function Needs(k: Kind): nat {
    match k
    case ConnK => 10 case ConnAckK => 9 case DisConnAckK => 1
    case SessionK => 10 case SessionAckK => 18 case RequestCancelK => 10
    case DisConnK => 0 case HeartbeatK => 0 case HeartbeatAckK => 0
    case DismissK => 8 case DismissAckK => 8 case MessageK => 8 case MessageAckK => 8
    case StreamK => 8 case RequestK => 8 case ResponseK => 8 case RegisterK => 8 case RegisterAckK => 8
  }

  lemma {:induction false} ParseOutcome(k: Kind, d: Bytes, j: Json)
    ensures ParseBody(k, d, j) == Panic <==> |d| < Needs(k)
    ensures |d| >= Needs(k) ==> ParseBody(k, d, j).Ok? || ParseBody(k, d, j) == Err(BadJson)
  {
  }

  /** A header of a known type within the size limit: it is decoded only with all the payload it
      declares, which has the fixed fields; without all of it the reader runs out of bytes, and
      with all of it only the JSON text can be refused. */
  lemma {:induction false} ReaderRefuses(s: Bytes, j: Json)
    requires 14 <= |s| < 0x1_0000_0000
    requires DecodeHeader(s).len <= 10_485_760 && KindOf(DecodeHeader(s).typ).Some?
    ensures var h := DecodeHeader(s);
            var r, k := DecodeFromReader(s, j), KindOf(h.typ).value;
            && (r.Ok? ==> IsBare(k) || (h.len >= Needs(k) && |s| >= 14 + h.len))
            && (!IsBare(k) && h.len >= Needs(k) && |s| < 14 + h.len ==> r == Err(UnexpectedEOF))
            && (h.len >= Needs(k) && |s| >= 14 + h.len ==> r.Ok? || r == Err(BadJson))
  {
    var h := DecodeHeader(s);
    var k := KindOf(h.typ).value;
    var n := TakenLen(k, h.len);
    if !IsBare(k) && |s| >= 14 + n {
      ParseOutcome(k, s[14..14 + n], j);
    }
  }

  /** Too little for the fixed fields: the types above the session layer are refused as illegal, and
      a conn packet makes the reader ask for more than there is. */
  lemma {:induction false} ReaderRefusesShort(s: Bytes, j: Json)
    requires 14 <= |s| < 0x1_0000_0000
    requires DecodeHeader(s).len <= 10_485_760 && KindOf(DecodeHeader(s).typ).Some?
    ensures var h := DecodeHeader(s);
            var r, k := DecodeFromReader(s, j), KindOf(h.typ).value;
            && ((k == MessageK || k == MessageAckK || k == StreamK || k == RequestK || k == ResponseK
                 || k == RequestCancelK || k == RegisterK || k == RegisterAckK) && h.len < 8
                ==> r == Err(Illegal))
            && (k == ConnK && h.len < 10 ==> r == Err(UnexpectedEOF))
  {
  }

  /** Anything shorter than a header, larger than the limit, or of an unknown type is refused as
      that. */
  lemma {:induction false} ReaderRefusesHeader(s: Bytes, j: Json)
    ensures |s| < 14 ==> DecodeFromReader(s, j) == Err(UnexpectedEOF) && Decode(s, j) == Err(Incomplete)
    ensures |s| >= 14 && DecodeHeader(s).len > 10_485_760 ==> DecodeFromReader(s, j) == Err(TooLarge)
    ensures |s| >= 14 && DecodeHeader(s).len <= 10_485_760 && KindOf(DecodeHeader(s).typ).None?
            ==> DecodeFromReader(s, j) == Err(Unsupported)
    ensures 14 <= |s| < 14 + DecodeHeader(s).len && |s| < 0x1_0000_0000 ==> Decode(s, j) == Err(ExpectingData)
  {
  }

  /** Decode takes a request cancel off the ten bytes behind the header, whatever length the header
      declares, and runs past the end if they are not there. */
  lemma {:induction false} DecodeCancel(s: Bytes, j: Json)
    requires 14 <= |s| < 0x1_0000_0000 && 14 + DecodeHeader(s).len <= |s|
    requires KindOf(DecodeHeader(s).typ) == Some(RequestCancelK)
    ensures var h := DecodeHeader(s);
            Decode(s, j) == if |s| < 24 then Panic
                            else Ok(Packet(h.version, h.id, RequestCancel(Value(s[14..22]), Int16(Value(s[22..24])))))
  {
    var d := s[14..];
    if |s| >= 24 {
      assert d[..8] == s[14..22] && d[8..10] == s[22..24];
    }
  }
}
