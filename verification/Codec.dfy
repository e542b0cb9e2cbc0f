/** The packet codec: eighteen packet types, the two decoders, and framing over a byte
    stream. JSON bodies are an abstract pair of functions. */
module Codec {
  import opened Options
  import opened Wire

  datatype Kind =
    | ConnK | ConnAckK | DisConnK | DisConnAckK | HeartbeatK | HeartbeatAckK
    | SessionK | SessionAckK | DismissK | DismissAckK
    | MessageK | MessageAckK | StreamK | RequestK | ResponseK | RequestCancelK
    | RegisterK | RegisterAckK

  function TypeCode(k: Kind): (c: Byte) {
    match k
    case ConnK => 0x01 case ConnAckK => 0x02
    case DisConnK => 0x11 case DisConnAckK => 0x12
    case HeartbeatK => 0x21 case HeartbeatAckK => 0x22
    case SessionK => 0x31 case SessionAckK => 0x32
    case DismissK => 0x41 case DismissAckK => 0x42
    case MessageK => 0x51 case MessageAckK => 0x52
    case StreamK => 0x61
    case RequestK => 0x71 case ResponseK => 0x72 case RequestCancelK => 0x73
    case RegisterK => 0x81 case RegisterAckK => 0x82
  }

  function KindOf(c: Byte): (k: Option<Kind>)
    ensures k.Some? ==> TypeCode(k.value) == c
  {
    match c
    case 0x01 => Some(ConnK) case 0x02 => Some(ConnAckK)
    case 0x11 => Some(DisConnK) case 0x12 => Some(DisConnAckK)
    case 0x21 => Some(HeartbeatK) case 0x22 => Some(HeartbeatAckK)
    case 0x31 => Some(SessionK) case 0x32 => Some(SessionAckK)
    case 0x41 => Some(DismissK) case 0x42 => Some(DismissAckK)
    case 0x51 => Some(MessageK) case 0x52 => Some(MessageAckK)
    case 0x61 => Some(StreamK)
    case 0x71 => Some(RequestK) case 0x72 => Some(ResponseK) case 0x73 => Some(RequestCancelK)
    case 0x81 => Some(RegisterK) case 0x82 => Some(RegisterAckK)
    case _ => None
  }

  // JSON bodies

  datatype DocKind = ConnDocK | SessionDocK | MessageDocK | RegisterDocK

  datatype Doc =
    | ConnDoc(meta: Bytes, error: string)
    | SessionDoc(smeta: Bytes, serror: string, peer: string)
    | MessageDoc(key: Bytes, val: Bytes, topic: string, custom: Bytes, merror: string,
                 timeout: int, deadline: int, ctxDeadline: int)
    | RegisterDoc(rerror: string)

  function DocKindOf(d: Doc): DocKind {
    match d
    case ConnDoc(_, _) => ConnDocK
    case SessionDoc(_, _, _) => SessionDocK
    case MessageDoc(_, _, _, _, _, _, _, _) => MessageDocK
    case RegisterDoc(_) => RegisterDocK
  }

  /** json.Marshal and json.Unmarshal into a struct of the given kind. */
  datatype Json = Json(marshal: Doc -> Option<Bytes>, unmarshal: (DocKind, Bytes) -> Option<Doc>)

  /** This document survives marshalling. */
  predicate Faithful(j: Json, d: Doc) {
    j.marshal(d).Some? && j.unmarshal(DocKindOf(d), j.marshal(d).value) == Some(d)
  }

  // Packets

  /** The heartbeats the package declares, in seconds. */
  type Heartbeat = h: nat | h == 5 || h == 20 || h == 80 || h == 320 witness 5

  datatype Body =
    | Bare(k: Kind)                                    // disconn, heartbeat, heartbeat ack
    | Conn(heartbeat: Heartbeat, clientIDAcquire: bool, packetIDAcquire: bool, retain: bool,
           clear: bool, clientID: nat, doc: Doc)
    | ConnAck(ret: Byte, clientID: nat, doc: Doc)
    | DisConnAck(ret: Byte, doc: Doc)
    | Session(priority: Byte, qos: int, acquire: bool, negotiateID: nat, doc: Doc)
    | SessionAck(negotiateID: nat, sid: nat, doc: Doc)
    | Talk(k: Kind, sid: nat, doc: Doc)                // a session id and a JSON body
    | Blob(k: Kind, sid: nat, data: Bytes)             // a session id and raw bytes
    | RequestCancel(sid: nat, cancelType: int)

  datatype Packet = Packet(version: Byte, id: nat, body: Body)

  predicate IsBare(k: Kind) { k == DisConnK || k == HeartbeatK || k == HeartbeatAckK }

  predicate IsBlob(k: Kind) { k == StreamK || k == RegisterK }

  predicate IsTalk(k: Kind) {
    k == DismissK || k == DismissAckK || k == MessageK || k == MessageAckK
    || k == RequestK || k == ResponseK || k == RegisterAckK
  }

  function KindOfBody(b: Body): Kind {
    match b
    case Bare(k) => k
    case Conn(_, _, _, _, _, _, _) => ConnK
    case ConnAck(_, _, _) => ConnAckK
    case DisConnAck(_, _) => DisConnAckK
    case Session(_, _, _, _, _) => SessionK
    case SessionAck(_, _, _) => SessionAckK
    case Talk(k, _, _) => k
    case Blob(k, _, _) => k
    case RequestCancel(_, _) => RequestCancelK
  }

  function DocKindFor(k: Kind): DocKind {
    match k
    case ConnK => ConnDocK case ConnAckK => ConnDocK case DisConnAckK => ConnDocK
    case SessionK => SessionDocK case SessionAckK => SessionDocK
    case DismissK => SessionDocK case DismissAckK => SessionDocK
    case RegisterAckK => RegisterDocK
    case _ => MessageDocK
  }

  // Flag bits

  function Flag(b: bool, bit: nat): nat { if b then bit else 0 }

  predicate HasBit(x: Byte, bit: int)
    requires bit > 0
  {
    x / bit % 2 == 1
  }

  // The fourth root of h / 5, cut down to an integer
  function HeartbeatCode(h: Heartbeat): (c: nat)
    ensures c < 4
  {
    if h == 5 then 0 else if h == 20 then 1 else 2
  }

  // 5 * 4^c
  function HeartbeatOf(c: nat): Heartbeat {
    if c == 0 then 5 else if c == 1 then 20 else if c == 2 then 80 else 320
  }

  function ConnFlags(b: Body): (x: Byte)
    requires b.Conn?
  {
    Flag(b.retain, 1) + Flag(b.clear, 2) + Flag(b.packetIDAcquire, 4) + Flag(b.clientIDAcquire, 8)
    + 16 * HeartbeatCode(b.heartbeat)
  }

  // Encode

  /** Payload bytes; `None` when the body cannot be marshalled. */
  function Payload(b: Body, j: Json): (r: Option<Bytes>) {
    match b
    case Bare(_) => Some([])
    case Blob(_, sid, data) => Some(BigEndian(sid, 8) + data)
    case RequestCancel(sid, c) => Some(BigEndian(sid, 8) + BigEndian(c % 0x1_0000, 2))
    case _ =>
      var text := j.marshal(b.doc);
      if text.None? then None else Some(Fixed(b) + text.value)
  }

  // The bytes before the JSON text
  function Fixed(b: Body): (s: Bytes)
    requires !b.Bare? && !b.Blob? && !b.RequestCancel?
    ensures |s| == MinLen(KindOfBody(b)) || (b.Talk? && !IsTalk(b.k))
  {
    match b
    case Conn(_, _, _, _, _, cid, _) => [ConnFlags(b), 0] + BigEndian(cid, 8)
    case ConnAck(ret, cid, _) => [ret] + BigEndian(cid, 8)
    case DisConnAck(ret, _) => [ret]
    case Session(prio, qos, acq, neg, _) => [prio, qos % 16 + Flag(acq, 16)] + BigEndian(neg, 8)
    case SessionAck(neg, sid, _) => [0, 0] + BigEndian(neg, 8) + BigEndian(sid, 8)
    case Talk(_, sid, _) => BigEndian(sid, 8)
  }

  /** Payload bytes a decoder needs before the variable part. */
  function MinLen(k: Kind): nat {
    match k
    case ConnK => 10 case ConnAckK => 9 case DisConnAckK => 1
    case SessionK => 10 case SessionAckK => 18 case RequestCancelK => 10
    case DisConnK => 0 case HeartbeatK => 0 case HeartbeatAckK => 0
    case _ => 8
  }

  function Encode(p: Packet, j: Json): (r: Option<Bytes>) {
    var payload := Payload(p.body, j);
    if payload.None? then None
    else Some(EncodeHeader(Header(p.version, TypeCode(KindOfBody(p.body)), p.id,
                                  |payload.value| % 0x1_0000_0000)) + payload.value)
  }

  // Decode

  datatype Error = UnexpectedEOF | TooLarge | Illegal | Unsupported | BadJson | Incomplete | ExpectingData

  // `Panic`: the code indexes past the payload
  datatype Outcome<+T> = Ok(value: T) | Err(error: Error) | Panic

  const MAX_LEN := 10 * 1024 * 1024

  function WithDoc(j: Json, k: Kind, text: Bytes, make: Doc -> Body): (r: Outcome<Body>) {
    var d := j.unmarshal(DocKindFor(k), text);
    if d.None? then Err(BadJson) else Ok(make(d.value))
  }

  function Int16(n: nat): int { if n >= 0x8000 then n - 0x1_0000 else n }

  /** The fields of a payload `d` of type `k`. */
  function ParseBody(k: Kind, d: Bytes, j: Json): (r: Outcome<Body>) {
    if |d| < MinLen(k) then Panic
    else if IsTalk(k) then WithDoc(j, k, d[8..], doc => Talk(k, Value(d[..8]), doc))
    else if IsBlob(k) then Ok(Blob(k, Value(d[..8]), d[8..]))
    else match k
      case ConnK =>
        WithDoc(j, k, d[10..], doc =>
          Conn(HeartbeatOf(d[0] / 16 % 4), HasBit(d[0], 8), HasBit(d[0], 4), HasBit(d[0], 1),
               HasBit(d[0], 2), Value(d[2..10]), doc))
      case ConnAckK => WithDoc(j, k, d[9..], doc => ConnAck(d[0], Value(d[1..9]), doc))
      case DisConnAckK => WithDoc(j, k, d[1..], doc => DisConnAck(d[0], doc))
      case SessionK =>
        WithDoc(j, k, d[10..], doc =>
          Session(d[0], d[1] % 16, HasBit(d[1], 16), Value(d[2..10]), doc))
      case SessionAckK =>
        WithDoc(j, k, d[18..], doc => SessionAck(Value(d[2..10]), Value(d[10..18]), doc))
      case RequestCancelK => Ok(RequestCancel(Value(d[..8]), Int16(Value(d[8..10]))))
      case _ => Ok(Bare(k))
  }

  function Wrap(h: Header, r: Outcome<Body>): (p: Outcome<Packet>) {
    match r
    case Ok(b) => Ok(Packet(h.version, h.id, b))
    case Err(e) => Err(e)
    case Panic => Panic
  }

  // The types whose reader checks for the session id before it reads
  predicate ChecksLength(k: Kind) {
    k in {MessageK, MessageAckK, StreamK, RequestK, ResponseK, RequestCancelK, RegisterK, RegisterAckK}
  }

  /** How many payload bytes DecodeFromReader takes off the reader: nothing for the bare
      types, and for a conn packet two fields and a uint32 difference that may wrap. */
  function TakenLen(k: Kind, len: nat): nat {
    if IsBare(k) then 0 else if k == ConnK && len < 10 then len + 0x1_0000_0000 else len
  }

  datatype Decoded = Decoded(p: Packet, rest: Bytes)

  /** DecodeFromReader over the bytes `s` that the reader will yield. */
  function DecodeFromReader(s: Bytes, j: Json): (r: Outcome<Decoded>)
    ensures r.Ok? ==> |r.value.rest| + HEADER_LEN <= |s|
  {
    if |s| < HEADER_LEN then Err(UnexpectedEOF)
    else
      var h := DecodeHeader(s);
      var k := KindOf(h.typ);
      if h.len > MAX_LEN then Err(TooLarge)
      else if k.None? then Err(Unsupported)
      else if IsBare(k.value) then Ok(Decoded(Packet(h.version, h.id, Bare(k.value)), s[HEADER_LEN..]))
      else if ChecksLength(k.value) && h.len < 8 then Err(Illegal)
      else
        var n := TakenLen(k.value, h.len);
        if |s| < HEADER_LEN + n then Err(UnexpectedEOF)
        else
          match Wrap(h, ParseBody(k.value, s[HEADER_LEN..HEADER_LEN + n], j))
          case Ok(p) => Ok(Decoded(p, s[HEADER_LEN + n..]))
          case Err(e) => Err(e)
          case Panic => Panic
  }

  /** In-memory Decode of `s`. Request and response packets have no inner packet to decode
      into, and a request-cancel packet is read past its declared length. */
  function Decode(s: Bytes, j: Json): (r: Outcome<Packet>) {
    if |s| < HEADER_LEN then Err(Incomplete)
    else
      var h := DecodeHeader(s);
      var d := s[HEADER_LEN..];
      if |d| % 0x1_0000_0000 < h.len then Err(ExpectingData)
      else
        match KindOf(h.typ)
        case None => Err(Unsupported)
        case Some(k) =>
          if IsBare(k) then Ok(Packet(h.version, h.id, Bare(k)))
          else if k == RequestK || k == ResponseK then Panic
          else if k == RequestCancelK then Wrap(h, ParseBody(k, d, j))
          else Wrap(h, ParseBody(k, d[..h.len], j))
  }

  // Round trips

  const U64 := 0x1_0000_0000_0000_0000

  /** What the packet factory builds: fields in the range of their Go types, a type that goes
      with its shape, and a body that survives JSON. */
  predicate WellFormed(b: Body, j: Json) {
    match b
    case Bare(k) => IsBare(k)
    case Blob(k, sid, _) => IsBlob(k) && sid < U64
    case RequestCancel(sid, c) => sid < U64 && -0x8000 <= c < 0x8000
    case Talk(k, sid, doc) => IsTalk(k) && sid < U64 && DocKindOf(doc) == DocKindFor(k) && Faithful(j, doc)
    case Conn(_, _, _, _, _, cid, doc) => cid < U64 && doc.ConnDoc? && Faithful(j, doc)
    case ConnAck(_, cid, doc) => cid < U64 && doc.ConnDoc? && Faithful(j, doc)
    case DisConnAck(_, doc) => doc.ConnDoc? && Faithful(j, doc)
    case Session(_, _, _, neg, doc) => neg < U64 && doc.SessionDoc? && Faithful(j, doc)
    case SessionAck(neg, sid, doc) => neg < U64 && sid < U64 && doc.SessionDoc? && Faithful(j, doc)
  }

  /** The two fields whose bits do not hold every value. */
  predicate Representable(b: Body) {
    && (b.Conn? ==> b.heartbeat != 320)
    && (b.Session? ==> 0 <= b.qos < 16)
  }

  lemma {:induction false} BlobComesBack(b: Body, j: Json)
    requires WellFormed(b, j) && b.Blob?
    ensures ParseBody(b.k, Payload(b, j).value, j) == Ok(b)
  {
    var d := Payload(b, j).value;
    assert d[..8] == BigEndian(b.sid, 8) && d[8..] == b.data;
    Uint64RoundTrip(b.sid);
  }

  lemma {:induction false} CancelComesBack(b: Body, j: Json)
    requires WellFormed(b, j) && b.RequestCancel?
    ensures ParseBody(RequestCancelK, Payload(b, j).value, j) == Ok(b)
  {
    var d, c := Payload(b, j).value, b.cancelType % 0x1_0000;
    assert d[..8] == BigEndian(b.sid, 8) && d[8..10] == BigEndian(c, 2);
    Uint64RoundTrip(b.sid);
    Uint16RoundTrip(c);
    Int16ComesBack(b.cancelType);
  }

  lemma {:induction false} Int16ComesBack(c: int)
    requires -0x8000 <= c < 0x8000
    ensures Int16(c % 0x1_0000) == c
  {
  }

  lemma {:induction false} QosBits(qos: int, acquire: bool)
    ensures var x := qos % 16 + Flag(acquire, 16);
            0 <= x < 256 && x % 16 == qos % 16 && HasBit(x, 16) == acquire
  {
  }

  lemma {:induction false} FlagBits(b: Body)
    requires b.Conn?
    ensures var x := ConnFlags(b);
            && HasBit(x, 1) == b.retain && HasBit(x, 2) == b.clear
            && HasBit(x, 4) == b.packetIDAcquire && HasBit(x, 8) == b.clientIDAcquire
            && x / 16 % 4 == HeartbeatCode(b.heartbeat)
  {
  }

  lemma {:induction false} ConnComesBack(b: Body, j: Json)
    requires WellFormed(b, j) && b.Conn?
    ensures ParseBody(ConnK, Payload(b, j).value, j)
            == Ok(b.(heartbeat := if b.heartbeat == 320 then 80 else b.heartbeat))
  {
    var d, text := Payload(b, j).value, j.marshal(b.doc).value;
    assert d[0] == ConnFlags(b) && d[2..10] == BigEndian(b.clientID, 8) && d[10..] == text;
    Uint64RoundTrip(b.clientID);
    FlagBits(b);
  }

  lemma {:induction false} SessionComesBack(b: Body, j: Json)
    requires WellFormed(b, j) && b.Session?
    ensures ParseBody(SessionK, Payload(b, j).value, j) == Ok(b.(qos := b.qos % 16))
  {
    var d, text := Payload(b, j).value, j.marshal(b.doc).value;
    QosBits(b.qos, b.acquire);
    assert d[0] == b.priority && d[1] == b.qos % 16 + Flag(b.acquire, 16);
    assert d[2..10] == BigEndian(b.negotiateID, 8) && d[10..] == text;
    Uint64RoundTrip(b.negotiateID);
  }

  lemma {:induction false} AcksComeBack(b: Body, j: Json)
    requires WellFormed(b, j) && (b.ConnAck? || b.DisConnAck? || b.SessionAck?)
    ensures ParseBody(KindOfBody(b), Payload(b, j).value, j) == Ok(b)
  {
    var d, text := Payload(b, j).value, j.marshal(b.doc).value;
    match b
    case ConnAck(ret, cid, _) =>
      assert d[0] == ret && d[1..9] == BigEndian(cid, 8) && d[9..] == text;
      Uint64RoundTrip(cid);
    case DisConnAck(ret, _) =>
      assert d[0] == ret && d[1..] == text;
    case SessionAck(neg, sid, _) =>
      assert d[2..10] == BigEndian(neg, 8) && d[10..18] == BigEndian(sid, 8) && d[18..] == text;
      Uint64RoundTrip(neg);
      Uint64RoundTrip(sid);
  }

  lemma {:induction false} TalkComesBack(b: Body, j: Json)
    requires WellFormed(b, j) && b.Talk?
    ensures ParseBody(b.k, Payload(b, j).value, j) == Ok(b)
  {
    var d, text := Payload(b, j).value, j.marshal(b.doc).value;
    assert d[..8] == BigEndian(b.sid, 8) && d[8..] == text;
    Uint64RoundTrip(b.sid);
  }

  /** A payload parses back to the body it was made from if and only if that is
      representable; otherwise the heartbeat or the quality of service comes back changed. */
  lemma {:induction false} BodyRoundTrip(b: Body, j: Json)
    requires WellFormed(b, j)
    ensures Payload(b, j).Some?
    ensures ParseBody(KindOfBody(b), Payload(b, j).value, j) == Ok(b) <==> Representable(b)
  {
    match b
    case Bare(_) =>
    case Blob(_, _, _) => BlobComesBack(b, j);
    case RequestCancel(_, _) => CancelComesBack(b, j);
    case Conn(_, _, _, _, _, _, _) => ConnComesBack(b, j);
    case Session(_, _, _, _, _) => SessionComesBack(b, j);
    case Talk(_, _, _) => TalkComesBack(b, j);
    case _ => AcksComeBack(b, j);
  }

  // The wire format itself

  /** The numbering of the types: the upper half names the exchange, the lower the packet in it,
      where an acknowledgement or response follows what it answers. */
  lemma {:induction false} TypeNumbers()
    ensures [TypeCode(ConnK), TypeCode(DisConnK), TypeCode(HeartbeatK), TypeCode(SessionK), TypeCode(DismissK),
             TypeCode(MessageK), TypeCode(StreamK), TypeCode(RequestK), TypeCode(RegisterK)]
            == seq(9, i requires 0 <= i < 9 => 16 * i + 1)
    ensures TypeCode(ConnAckK) == TypeCode(ConnK) + 1 && TypeCode(DisConnAckK) == TypeCode(DisConnK) + 1
    ensures TypeCode(HeartbeatAckK) == TypeCode(HeartbeatK) + 1 && TypeCode(SessionAckK) == TypeCode(SessionK) + 1
    ensures TypeCode(DismissAckK) == TypeCode(DismissK) + 1 && TypeCode(MessageAckK) == TypeCode(MessageK) + 1
    ensures TypeCode(ResponseK) == TypeCode(RequestK) + 1 && TypeCode(RequestCancelK) == TypeCode(RequestK) + 2
    ensures TypeCode(RegisterAckK) == TypeCode(RegisterK) + 1
  {
  }

  /** The heartbeat bits: the fourth root of the fivefold multiple, cut down, and back 5 * 4^c. */
  lemma {:induction false} HeartbeatBits(h: Heartbeat)
    ensures var c := HeartbeatCode(h);
            && (h == 5 ==> c == 0)
            && (h != 5 ==> c * c * c * c <= h / 5 < (c + 1) * (c + 1) * (c + 1) * (c + 1))
    ensures HeartbeatOf(0) == 5 && HeartbeatOf(1) == 4 * HeartbeatOf(0)
    ensures HeartbeatOf(2) == 4 * HeartbeatOf(1) && HeartbeatOf(3) == 4 * HeartbeatOf(2)
  {
  }

  /** Where the fields of a payload are, type by type. */
  predicate LaidOut(b: Body, d: Bytes) {
    match b
    case Bare(_) => d == []
    case Conn(h, ca, pa, retain, clear, cid, _) =>
      && |d| >= 10 && d[1] == 0 && Value(d[2..10]) == cid
      && HasBit(d[0], 0x01) == retain && HasBit(d[0], 0x02) == clear
      && HasBit(d[0], 0x04) == pa && HasBit(d[0], 0x08) == ca && d[0] / 16 % 4 == HeartbeatCode(h)
    case ConnAck(ret, cid, _) => |d| >= 9 && d[0] == ret && Value(d[1..9]) == cid
    case DisConnAck(ret, _) => |d| >= 1 && d[0] == ret
    case Session(prio, qos, acq, neg, _) =>
      |d| >= 10 && d[0] == prio && d[1] % 16 == qos % 16 && d[1] / 16 == Flag(acq, 1) && Value(d[2..10]) == neg
    case SessionAck(neg, sid, _) =>
      |d| >= 18 && d[0] == d[1] == 0 && Value(d[2..10]) == neg && Value(d[10..18]) == sid
    case Talk(_, sid, _) => |d| >= 8 && Value(d[..8]) == sid
    case Blob(_, sid, data) => |d| >= 8 && Value(d[..8]) == sid && d[8..] == data
    case RequestCancel(sid, c) => |d| == 10 && Value(d[..8]) == sid && Value(d[8..]) == c % 0x1_0000
  }

  lemma {:induction false} ConnLayout(b: Body, j: Json)
    requires WellFormed(b, j) && b.Conn?
    ensures LaidOut(b, Payload(b, j).value)
  {
    var d := Payload(b, j).value;
    assert d[0] == ConnFlags(b) && d[1] == 0 && d[2..10] == BigEndian(b.clientID, 8);
    Uint64RoundTrip(b.clientID);
    FlagBits(b);
  }

  lemma {:induction false} SessionLayout(b: Body, j: Json)
    requires WellFormed(b, j) && b.Session?
    ensures LaidOut(b, Payload(b, j).value)
  {
    var d := Payload(b, j).value;
    assert d[0] == b.priority && d[1] == b.qos % 16 + Flag(b.acquire, 16);
    assert d[2..10] == BigEndian(b.negotiateID, 8);
    Uint64RoundTrip(b.negotiateID);
    QosBits(b.qos, b.acquire);
  }

  lemma {:induction false} AckLayout(b: Body, j: Json)
    requires WellFormed(b, j) && (b.ConnAck? || b.DisConnAck? || b.SessionAck?)
    ensures LaidOut(b, Payload(b, j).value)
  {
    var d := Payload(b, j).value;
    if b.ConnAck? {
      assert d[0] == b.ret && d[1..9] == BigEndian(b.clientID, 8);
      Uint64RoundTrip(b.clientID);
    } else if b.SessionAck? {
      assert d[0] == d[1] == 0 && d[2..10] == BigEndian(b.negotiateID, 8) && d[10..18] == BigEndian(b.sid, 8);
      Uint64RoundTrip(b.negotiateID);
      Uint64RoundTrip(b.sid);
    }
  }

  lemma {:induction false} DataLayout(b: Body, j: Json)
    requires WellFormed(b, j) && (b.Talk? || b.Blob? || b.RequestCancel?)
    ensures LaidOut(b, Payload(b, j).value)
  {
    var d := Payload(b, j).value;
    assert d[..8] == BigEndian(b.sid, 8);
    Uint64RoundTrip(b.sid);
    if b.RequestCancel? {
      assert d[8..] == BigEndian(b.cancelType % 0x1_0000, 2);
      Uint16RoundTrip(b.cancelType % 0x1_0000);
    }
  }

  lemma {:induction false} PayloadLayout(b: Body, j: Json)
    requires WellFormed(b, j)
    ensures Payload(b, j).Some? && LaidOut(b, Payload(b, j).value)
  {
    match b
    case Bare(_) =>
    case Conn(_, _, _, _, _, _, _) => ConnLayout(b, j);
    case Session(_, _, _, _, _) => SessionLayout(b, j);
    case ConnAck(_, _, _) => AckLayout(b, j);
    case DisConnAck(_, _) => AckLayout(b, j);
    case SessionAck(_, _, _) => AckLayout(b, j);
    case _ => DataLayout(b, j);
  }

  /** Which structure the JSON text behind a session id holds, type by type. */
  lemma {:induction false} TalkDocs(b: Body, j: Json)
    requires WellFormed(b, j) && b.Talk?
    ensures b.doc.SessionDoc? <==> b.k == DismissK || b.k == DismissAckK
    ensures b.doc.RegisterDoc? <==> b.k == RegisterAckK
    ensures b.doc.MessageDoc? <==> b.k == MessageK || b.k == MessageAckK || b.k == RequestK || b.k == ResponseK
  {
  }
}
