/** The encoders as they fill their buffers in place, each proved to produce the bytes that
    the codec specifies and so to be undone by the decoders. */
module Encoders {
  import opened Options
  import opened Wire
  import opened Codec

  /** Copy `data` to the end of `a`, from `off`. */
  method PutData(a: array<Byte>, off: nat, data: Bytes)
    requires off + |data| == a.Length
    modifies a
    ensures a[off..] == data && a[..off] == old(a[..off])
  {
    var n := 0;
    while n < |data|
      invariant 0 <= n <= |data|
      invariant a[off..off + n] == data[..n] && a[..off] == old(a[..off])
    {
      a[off + n] := data[n];
      assert a[off..off + n + 1] == a[off..off + n] + [data[n]];
      n := n + 1;
    }
    assert data[..n] == data && a[off..off + n] == a[off..];
  }

  // The heartbeat bits are or-ed in only when they differ from the default
  method FillConn(b: Body, data: Bytes) returns (pkt: array<Byte>)
    requires b.Conn?
    ensures fresh(pkt) && pkt[..] == Fixed(b) + data
  {
    pkt := new Byte[10 + |data|](i => 0);
    if b.retain { pkt[0] := pkt[0] + 1; }
    if b.clear { pkt[0] := pkt[0] + 2; }
    if b.packetIDAcquire { pkt[0] := pkt[0] + 4; }
    if b.clientIDAcquire { pkt[0] := pkt[0] + 8; }
    if b.heartbeat != 5 { pkt[0] := pkt[0] + 16 * HeartbeatCode(b.heartbeat); }
    Put(pkt, 2, 8, b.clientID);
    assert pkt[..10] == [ConnFlags(b), 0] + pkt[2..10];
    PutData(pkt, 10, data);
  }

  method FillSession(b: Body, data: Bytes) returns (next: array<Byte>)
    requires b.Session?
    ensures fresh(next) && next[..] == Fixed(b) + data
  {
    next := new Byte[10 + |data|](i => 0);
    next[0] := b.priority;
    next[1] := b.qos % 16;
    if b.acquire { next[1] := next[1] + 16; }
    Put(next, 2, 8, b.negotiateID);
    assert next[..10] == [b.priority, b.qos % 16 + Flag(b.acquire, 16)] + next[2..10];
    PutData(next, 10, data);
  }

  method FillSessionAck(b: Body, data: Bytes) returns (next: array<Byte>)
    requires b.SessionAck?
    ensures fresh(next) && next[..] == Fixed(b) + data
  {
    next := new Byte[18 + |data|](i => 0);
    Put(next, 2, 8, b.negotiateID);
    ghost var neg := next[2..10];
    Put(next, 10, 8, b.sid);
    assert next[2..10] == neg;
    assert next[..18] == [0, 0] + next[2..10] + next[10..18];
    PutData(next, 18, data);
  }

  method FillConnAck(b: Body, data: Bytes) returns (pkt: array<Byte>)
    requires b.ConnAck?
    ensures fresh(pkt) && pkt[..] == Fixed(b) + data
  {
    pkt := new Byte[9 + |data|](i => 0);
    pkt[0] := b.ret;
    Put(pkt, 1, 8, b.clientID);
    assert pkt[..9] == [b.ret] + pkt[1..9];
    PutData(pkt, 9, data);
  }

  method FillDisConnAck(b: Body, data: Bytes) returns (pkt: array<Byte>)
    requires b.DisConnAck?
    ensures fresh(pkt) && pkt[..] == Fixed(b) + data
  {
    pkt := new Byte[1 + |data|](i => 0);
    pkt[0] := b.ret;
    assert pkt[..1] == [b.ret];
    PutData(pkt, 1, data);
  }

  /** A session id and the data behind it: the shape of most packets. */
  method FillWithID(sid: nat, data: Bytes) returns (next: array<Byte>)
    ensures fresh(next) && next[..] == BigEndian(sid, 8) + data
  {
    next := new Byte[8 + |data|](i => 0);
    Put(next, 0, 8, sid);
    assert next[..8] == next[0..8];
    PutData(next, 8, data);
  }

  method FillCancel(b: Body) returns (next: array<Byte>)
    requires b.RequestCancel?
    ensures fresh(next) && next[..] == BigEndian(b.sid, 8) + BigEndian(b.cancelType % 0x1_0000, 2)
  {
    next := new Byte[10](i => 0);
    Put(next, 0, 8, b.sid);
    ghost var sid := next[0..8];
    Put(next, 8, 2, b.cancelType % 0x1_0000);
    assert next[0..8] == sid;
    assert next[..] == next[0..8] + next[8..10];
  }

  method FillPayload(b: Body, j: Json) returns (r: Option<array<Byte>>)
    ensures r.Some? <==> Payload(b, j).Some?
    ensures r.Some? ==> fresh(r.value) && r.value[..] == Payload(b, j).value
  {
    var next;
    if b.Bare? {
      next := new Byte[0];
    } else if b.Blob? {
      next := FillWithID(b.sid, b.data);
    } else if b.RequestCancel? {
      next := FillCancel(b);
    } else {
      var text := j.marshal(b.doc);
      if text.None? {
        return None;
      }
      match b {
        case Conn(_, _, _, _, _, _, _) => next := FillConn(b, text.value);
        case Session(_, _, _, _, _) => next := FillSession(b, text.value);
        case SessionAck(_, _, _) => next := FillSessionAck(b, text.value);
        case ConnAck(_, _, _) => next := FillConnAck(b, text.value);
        case DisConnAck(_, _) => next := FillDisConnAck(b, text.value);
        case Talk(_, sid, _) => next := FillWithID(sid, text.value);
      }
    }
    return Some(next);
  }

  /** Encode of any packet: the header is filled with the length it was given, here nothing,
      and patched once the payload is there. */
  method EncodePacket(p: Packet, j: Json) returns (r: Option<Bytes>)
    ensures r == Encode(p, j)
  {
    var hdr := FillHeader(Header(p.version, TypeCode(KindOfBody(p.body)), p.id, 0));
    var next := FillPayload(p.body, j);
    if next.None? {
      return None;
    }
    var front := hdr[..10];
    Put(hdr, 10, 4, next.value.Length % 0x1_0000_0000);
    assert hdr[..] == hdr[..10] + hdr[10..14] && hdr[..10] == front;
    return Some(hdr[..] + next.value[..]);
  }
}
