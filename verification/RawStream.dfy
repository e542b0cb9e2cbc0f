/** The byte stream of one reader: the tail of the last packet in a cache, whole packets in
    a bounded channel behind it. */
module RawStream {

  type Bytes = seq<nat>

  function Flat(ps: seq<Bytes>): (r: Bytes) {
    if ps == [] then [] else ps[0] + Flat(ps[1..])
  }

  lemma {:induction false} FlatPush(ps: seq<Bytes>, p: Bytes)
    ensures Flat(ps + [p]) == Flat(ps) + p
  {
    if ps == [] {
      assert ps + [p] == [p] && Flat([p]) == p;
    } else {
      assert (ps + [p])[1..] == ps[1..] + [p];
      FlatPush(ps[1..], p);
      assert Flat(ps + [p]) == ps[0] + (Flat(ps[1..]) + p);
    }
  }

  /** The reading side of a stream as a value: the cache, the channel, whether fini closed it,
      and the bytes that came in and went out. */
  datatype Reader = Reader(cap: nat, cache: Bytes, chan: seq<Bytes>, closed: bool,
                           input: Bytes, output: Bytes)

  function NewReader(cap: nat): (r: Reader) { Reader(cap, [], [], false, [], []) }

  /** Conservation: what was returned, then the cache, then the channel, is what came in. */
  predicate Conserves(r: Reader) {
    r.output + r.cache + Flat(r.chan) == r.input && |r.chan| <= r.cap
  }

  // The non-blocking send into the channel
  function Push(r: Reader, data: Bytes): (r': Reader) {
    r.(chan := r.chan + [data], input := r.input + data)
  }

  /** One Read with room for `n` bytes, when there is something to read. */
  function Serve(r: Reader, n: nat): (r': Reader)
    requires r.cache != [] || r.chan != []
  {
    var data := if r.cache != [] then r.cache else r.chan[0];
    var m := if n < |data| then n else |data|;
    r.(cache := data[m..], output := r.output + data[..m],
       chan := if r.cache != [] then r.chan else r.chan[1..])
  }

  lemma {:induction false} PushConserves(r: Reader, data: Bytes)
    requires Conserves(r) && |r.chan| < r.cap
    ensures Conserves(Push(r, data))
  {
    FlatPush(r.chan, data);
    assert r.output + r.cache + (Flat(r.chan) + data) == r.input + data;
  }

  lemma {:induction false} ServeConserves(r: Reader, n: nat)
    requires Conserves(r) && (r.cache != [] || r.chan != [])
    ensures Conserves(Serve(r, n)) && Serve(r, n).input == r.input
  {
    var data := if r.cache != [] then r.cache else r.chan[0];
    var m := if n < |data| then n else |data|;
    assert data == data[..m] + data[m..];
    if r.cache == [] {
      assert r.output + [] + (data + Flat(r.chan[1..])) == r.output + data[..m] + data[m..] + Flat(r.chan[1..]);
    } else {
      assert r.output + data + Flat(r.chan) == r.output + data[..m] + data[m..] + Flat(r.chan);
    }
  }

  // How Read came back; `Waits` is that it blocks
  datatype ReadRet = Got(n: nat) | EOF | DeadlineExceeded | Waits

  // What happened to an incoming packet; `Stalls` is that the read loop blocks, `Panics` that
  // it sends on a closed channel
  datatype PushRet = Pushed | Discarded | Stalls | Panics

  class Stream {
    const capacity: nat
    var cache: Bytes
    var streamCh: seq<Bytes>
    var closed: bool           // by fini
    ghost var input: Bytes     // every byte pushed to the channel
    ghost var output: Bytes    // every byte Read has returned

    ghost function View(): Reader
      reads this
    {
      Reader(capacity, cache, streamCh, closed, input, output)
    }

    ghost predicate Valid()
      reads this
    {
      Conserves(View())
    }

    constructor (capacity: nat)
      ensures Valid() && View() == NewReader(capacity)
    {
      this.capacity := capacity;
      cache, streamCh, closed, input, output := [], [], false, [], [];
    }

    /** handleInStreamPacket; `done` is that the dialogue has ended. A packet is discarded only
        when the channel is full and the dialogue is done; after fini it panics. */
    method HandleInStreamPacket(data: Bytes, done: bool) returns (ret: PushRet)
      requires Valid()
      modifies this
      ensures Valid() && View() == if ret == Pushed then Push(old(View()), data) else old(View())
      ensures ret == if closed then Panics else if |old(streamCh)| < capacity then Pushed
                     else if done then Discarded else Stalls
    {
      if closed {
        return Panics;
      }
      if |streamCh| < capacity {
        PushConserves(View(), data);
        streamCh := streamCh + [data];
        input := input + data;
        return Pushed;
      }
      return if done then Discarded else Stalls;
    }

    method Fini()
      requires Valid()
      modifies `closed
      ensures Valid() && closed
    {
      closed := true;
    }

    /** Take the head of the channel into the caller's buffer, the rest into the cache. */
    method TakePacket(b: array<nat>) returns (n: nat)
      requires Valid() && cache == [] && streamCh != []
      modifies this, b
      ensures Valid() && View() == Serve(old(View()), b.Length)
      ensures n == (if b.Length < |old(streamCh[0])| then b.Length else |old(streamCh[0])|)
      ensures b[..n] == old(streamCh[0])[..n] && output == old(output) + b[..n]
    {
      ServeConserves(View(), b.Length);
      var data := streamCh[0];
      streamCh := streamCh[1..];
      n := Copy(b, data);
      cache := data[n..];
      output := output + data[..n];
    }

    /** Read. `expired` is that the read deadline has passed on entry, `fires` that it passes
        while Read waits. Whatever the buffer, Read returns the next bytes of the stream, in
        order; it reports the end only when nothing is left in the cache or the channel. */
    method Read(b: array<nat>, expired: bool, fires: bool) returns (ret: ReadRet)
      requires Valid()
      modifies this, b
      ensures Valid() && closed == old(closed) && input == old(input)
      ensures match ret
              case Got(n) => n <= b.Length && output == old(output) + b[..n]
                             && (old(cache) != [] || old(streamCh) != []) && View() == Serve(old(View()), b.Length)
                             && (var data := if old(cache) != [] then old(cache) else old(streamCh[0]);
                                 n == (if b.Length < |data| then b.Length else |data|) && b[..n] == data[..n])
                             && (|streamCh| < old(|streamCh|)
                                 || (streamCh == old(streamCh) && |cache| == old(|cache|) - n && old(cache) != []))
                             && (n == 0 ==> b.Length == 0 || (old(cache) == [] && old(streamCh) != [] && old(streamCh[0]) == []))
              case EOF => old(cache) == [] && old(streamCh) == [] && closed && output == old(output) == input
              case DeadlineExceeded => (expired || fires) && old(cache) == [] && output == old(output)
                                       && (expired ==> old(streamCh) == [] && !closed)
              case Waits => !expired && old(cache) == [] && old(streamCh) == [] && !closed && output == old(output)
    {
      if |cache| != 0 {
        ServeConserves(View(), b.Length);
        var n := Copy(b, cache);
        output := output + cache[..n];
        cache := cache[n..];
        return Got(n);
      }
      if expired {
        if streamCh != [] {
          var n := TakePacket(b);
          return Got(n);
        }
        if closed {
          return EOF;
        }
        return DeadlineExceeded;
      }
      // the select takes either arm when both are ready
      if fires {
        return DeadlineExceeded;
      }
      if streamCh != [] {
        var n := TakePacket(b);
        return Got(n);
      }
      if closed {
        return EOF;
      }
      return Waits;
    }

    /** Bytes already in flight reach the caller after the stream was closed: reading with a
        buffer of any size until the end returns all that was left, in order. */
    method ReadToEnd(b: array<nat>) returns (all: Bytes)
      requires Valid() && closed && b.Length > 0
      modifies this, b
      ensures Valid() && output == input && all == old(cache + Flat(streamCh))
    {
      ghost var start := output;
      all := [];
      while true
        invariant Valid() && closed && output == start + all && input == old(input)
        decreases |streamCh|, |cache|
      {
        var ret := Read(b, false, false);
        match ret {
          case Got(n) => all := all + b[..n];
          case _ => break;
        }
      }
      assert start + all == start + old(cache + Flat(streamCh));
      assert all == (start + all)[|start|..];
    }
  }

  /** Go's copy: as much as fits. */
  method Copy(b: array<nat>, data: Bytes) returns (n: nat)
    modifies b
    ensures n == if b.Length < |data| then b.Length else |data|
    ensures b[..n] == data[..n]
    ensures forall i :: n <= i < b.Length ==> b[i] == old(b[i])
  {
    n := 0;
    while n < b.Length && n < |data|
      invariant n <= b.Length && n <= |data|
      invariant b[..n] == data[..n]
      invariant forall i :: n <= i < b.Length ==> b[i] == old(b[i])
    {
      b[n] := data[n];
      assert b[..n + 1] == b[..n] + [data[n]] && data[..n + 1] == data[..n] + [data[n]];
      n := n + 1;
    }
  }
}
