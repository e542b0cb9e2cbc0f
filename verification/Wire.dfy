/** Bytes on the wire: big-endian integers and the fixed packet header. */
module Wire {

  type Byte = b: int | 0 <= b < 256

  type Bytes = seq<Byte>

  function Pow256(k: nat): (p: nat)
    ensures p > 0
  {
    if k == 0 then 1 else 256 * Pow256(k - 1)
  }

  /** `k` bytes, most significant first; higher bits of `n` are cut off. */
  function BigEndian(n: nat, k: nat): (s: Bytes)
    ensures |s| == k
  {
    if k == 0 then [] else BigEndian(n / 256, k - 1) + [n % 256]
  }

  function Value(s: Bytes): (n: nat) {
    if s == [] then 0 else 256 * Value(s[..|s| - 1]) + s[|s| - 1]
  }

  lemma {:induction false} ValueOfBigEndian(n: nat, k: nat)
    requires n < Pow256(k)
    ensures Value(BigEndian(n, k)) == n
  {
    if k > 0 {
      var s := BigEndian(n, k);
      assert s[..k - 1] == BigEndian(n / 256, k - 1);
      ValueOfBigEndian(n / 256, k - 1);
    }
  }

  /** `n` without its `m` lowest bytes. */
  function Shifted(n: nat, m: nat): nat {
    if m == 0 then n else Shifted(n / 256, m - 1)
  }

  /** Byte by byte: the most significant comes first. */
  lemma {:induction false} BigEndianAt(n: nat, k: nat, i: nat)
    requires i < k
    ensures BigEndian(n, k)[i] == Shifted(n, k - 1 - i) % 256
  {
    if i < k - 1 {
      BigEndianAt(n / 256, k - 1, i);
    }
  }

  lemma {:induction false} Widths()
    ensures Pow256(1) == 0x100
    ensures Pow256(2) == 0x1_0000
    ensures Pow256(4) == 0x1_0000_0000
    ensures Pow256(8) == 0x1_0000_0000_0000_0000
  {
    assert Pow256(3) == 256 * Pow256(2);
    assert Pow256(5) == 256 * Pow256(4);
    assert Pow256(6) == 256 * Pow256(5);
    assert Pow256(7) == 256 * Pow256(6);
  }

  lemma {:induction false} Uint64RoundTrip(n: nat)
    requires n < 0x1_0000_0000_0000_0000
    ensures Value(BigEndian(n, 8)) == n
  {
    Widths();
    ValueOfBigEndian(n, 8);
  }

  lemma {:induction false} Uint32RoundTrip(n: nat)
    requires n < 0x1_0000_0000
    ensures Value(BigEndian(n, 4)) == n
  {
    Widths();
    ValueOfBigEndian(n, 4);
  }

  lemma {:induction false} Uint16RoundTrip(n: nat)
    requires n < 0x1_0000
    ensures Value(BigEndian(n, 2)) == n
  {
    Widths();
    ValueOfBigEndian(n, 2);
  }

  /** The 14 bytes every packet starts with. */
  datatype Header = Header(version: Byte, typ: Byte, id: nat, len: nat)

  const HEADER_LEN := 14

  predicate HeaderFits(h: Header) {
    h.id < 0x1_0000_0000_0000_0000 && h.len < 0x1_0000_0000
  }

  function EncodeHeader(h: Header): (s: Bytes)
    ensures |s| == HEADER_LEN
  {
    [h.version, h.typ] + BigEndian(h.id, 8) + BigEndian(h.len, 4)
  }

  function DecodeHeader(s: Bytes): (h: Header)
    requires |s| >= HEADER_LEN
  {
    Header(s[0], s[1], Value(s[2..10]), Value(s[10..14]))
  }

  lemma {:induction false} HeaderRoundTrip(h: Header, rest: Bytes)
    requires HeaderFits(h)
    ensures DecodeHeader(EncodeHeader(h) + rest) == h
  {
    var s := EncodeHeader(h) + rest;
    assert s[2..10] == BigEndian(h.id, 8);
    assert s[10..14] == BigEndian(h.len, 4);
    Uint64RoundTrip(h.id);
    Uint32RoundTrip(h.len);
  }

  /** Where the fields of a header are: version, type, eight bytes of id and four of length, both
      most significant byte first. */
  lemma {:induction false} HeaderLayout(h: Header, i: nat)
    requires i < 14
    ensures |EncodeHeader(h)| == 14
    ensures EncodeHeader(h)[i] == if i == 0 then h.version
                                  else if i == 1 then h.typ
                                  else if i < 10 then Shifted(h.id, 9 - i) % 256
                                  else Shifted(h.len, 13 - i) % 256
  {
    if 2 <= i < 10 {
      BigEndianAt(h.id, 8, i - 2);
    } else if 10 <= i {
      BigEndianAt(h.len, 4, i - 10);
    }
  }

  // The buffers that Encode fills in place

  /** Store `n` in `k` bytes of `a` from `off`, as binary.BigEndian's Put functions do. */
  method Put(a: array<Byte>, off: nat, k: nat, n: nat)
    requires off + k <= a.Length
    modifies a
    ensures a[off..off + k] == BigEndian(n, k)
    ensures forall i :: 0 <= i < a.Length && !(off <= i < off + k) ==> a[i] == old(a[i])
  {
    var v, i := n, k;
    while i > 0
      invariant 0 <= i <= k
      invariant BigEndian(n, k) == BigEndian(v, i) + a[off + i..off + k]
      invariant forall j :: 0 <= j < a.Length && !(off + i <= j < off + k) ==> a[j] == old(a[j])
    {
      ghost var tail := a[off + i..off + k];
      i := i - 1;
      a[off + i] := v % 256;
      assert a[off + i..off + k] == [v % 256] + tail;
      v := v / 256;
    }
  }

  /** PacketHeader.Encode. */
  method FillHeader(h: Header) returns (hdr: array<Byte>)
    ensures fresh(hdr) && hdr[..] == EncodeHeader(h)
  {
    hdr := new Byte[14](i => 0);
    hdr[0] := h.version;
    hdr[1] := h.typ;
    Put(hdr, 2, 8, h.id);
    Put(hdr, 10, 4, h.len);
    assert hdr[..] == hdr[0..2] + hdr[2..10] + hdr[10..14];
  }

  // Readers and writers

  /** What a writer did with one call of Write: it took `n` bytes, or failed. */
  datatype WriteResult = Wrote(n: nat) | Failed

  /** How many writes there are before the first that fails. */
  function Leading(answers: seq<WriteResult>): (k: nat)
    ensures k <= |answers| && (forall i :: 0 <= i < k ==> answers[i].Wrote?)
    ensures k < |answers| ==> answers[k].Failed?
  {
    if answers == [] || answers[0].Failed? then 0 else 1 + Leading(answers[1..])
  }

  /** How many bytes all the writes together take. */
  function Total(answers: seq<WriteResult>): (n: nat) {
    if answers == [] then 0
    else Total(answers[..|answers| - 1]) + if answers[|answers| - 1].Wrote? then answers[|answers| - 1].n else 0
  }

  lemma {:induction false} TotalAppend(a: seq<WriteResult>, b: seq<WriteResult>)
    ensures Total(a + b) == Total(a) + Total(b)
    ensures forall n: nat :: Total([Wrote(n)]) == n
  {
    if b == [] {
      assert a + b == a;
    } else {
      var k := |b| - 1;
      assert (a + b)[..|a| + k] == a + b[..k] && (a + b)[|a| + k] == b[k];
      TotalAppend(a, b[..k]);
    }
    forall n: nat ensures Total([Wrote(n)]) == n {
      assert [Wrote(n)][..0] == [];
    }
  }

  lemma {:induction false} TotalTo(answers: seq<WriteResult>, k: nat, m: nat)
    requires k <= m <= |answers|
    ensures Total(answers[..k]) <= Total(answers[..m])
  {
    assert answers[..m] == answers[..k] + answers[k..m];
    TotalAppend(answers[..k], answers[k..m]);
  }

  /** The writer takes `len` bytes before it fails: some of its first answers are all writes and
      add up to at least that. */
  predicate Enough(answers: seq<WriteResult>, len: nat) {
    exists k :: 0 <= k <= |answers| && AllWrote(answers, k) && Total(answers[..k]) >= len
  }

  predicate AllWrote(answers: seq<WriteResult>, k: nat)
    requires k <= |answers|
  {
    forall i :: 0 <= i < k ==> answers[i].Wrote?
  }

  lemma {:induction false} EnoughIff(answers: seq<WriteResult>, len: nat)
    ensures Enough(answers, len) <==> Total(answers[..Leading(answers)]) >= len
  {
    var m := Leading(answers);
    if Enough(answers, len) {
      var k :| 0 <= k <= |answers| && AllWrote(answers, k) && Total(answers[..k]) >= len;
      TotalTo(answers, k, m);
    } else {
      assert AllWrote(answers, m);
    }
  }

  /** The loop of EncodeToWriter. `answers` are the writer's answers, call by call, and it never
      takes more than it was given; running out of answers is a failure. A short write is
      continued: all of `data` is written if and only if enough was taken before a write failed,
      and otherwise exactly what the writes before that one took. */
  method WriteAll(data: Bytes, answers: seq<WriteResult>) returns (written: Bytes, ok: bool)
    requires data != []
    ensures ok <==> Enough(answers, |data|)
    ensures ok ==> written == data
    ensures !ok ==> Total(answers[..Leading(answers)]) < |data|
                    && written == data[..Total(answers[..Leading(answers)])]
  {
    EnoughIff(answers, |data|);
    var pos, k := 0, 0;
    while k < |answers|
      invariant 0 <= pos < |data| && 0 <= k <= |answers|
      invariant pos == Total(answers[..k]) && AllWrote(answers, k)
      decreases |answers| - k
    {
      assert answers[..k + 1][..k] == answers[..k];
      match answers[k] {
        case Failed =>
          assert k == Leading(answers);
          return data[..pos], false;
        case Wrote(n) => pos := pos + if n <= |data| - pos then n else |data| - pos;
      }
      if pos == |data| {
        assert AllWrote(answers, k + 1) && Total(answers[..k + 1]) >= |data|;
        return data, true;
      }
      k := k + 1;
    }
    return data[..pos], false;
  }
}
