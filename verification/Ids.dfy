/** The id counter: clock-seeded 32-bit counters for packets and dialogues, and the table
    that hands out the smallest free id. */
module Ids {

  const U32 := 0x1_0000_0000
  const U64 := 0x1_0000_0000_0000_0000
  const MAX_U64 := 0xFFFF_FFFF_FFFF_FFFF

  datatype Mode = Even | Odd | Inc | Unique

  /** An id: the second in the upper half, a counter in the lower. */
  function Stamp(now: nat, counter: nat): (id: nat) {
    (now * U32 % U64 + counter) % U64
  }

  /** The counter after `n` further calls. */
  function Ticked(counter: nat, stride: nat, n: nat): nat {
    (counter + stride * n) % U32
  }

  lemma {:induction false} StampParts(now: nat, counter: nat)
    requires counter < U32
    ensures Stamp(now, counter) == now % U32 * U32 + counter
  {
    assert now * U32 % U64 == now % U32 * U32;
  }

  lemma {:induction false} StampsEqual(now: nat, c: nat, later: nat, d: nat)
    requires c < U32 && d < U32
    ensures Stamp(now, c) == Stamp(later, d) <==> now % U32 == later % U32 && c == d
  {
    StampParts(now, c);
    StampParts(later, d);
  }

  lemma {:induction false} SameResidue(x: nat, y: nat)
    requires x <= y
    ensures x % U32 == y % U32 <==> (y - x) % U32 == 0
  {
    assert x == U32 * (x / U32) + x % U32 && y == U32 * (y / U32) + y % U32;
  }

  lemma {:induction false} HalfModulus(d: nat)
    ensures (2 * d) % U32 == 0 <==> d % (U32 / 2) == 0
  {
    assert d == 0x8000_0000 * (d / 0x8000_0000) + d % 0x8000_0000;
    assert 2 * d == U32 * (d / 0x8000_0000) + 2 * (d % 0x8000_0000);
    Residue(2 * d, d / 0x8000_0000, 2 * (d % 0x8000_0000));
  }

  lemma {:induction false} Residue(x: nat, q: nat, r: nat)
    requires x == U32 * q + r && r < U32
    ensures x % U32 == r
  {
  }

  lemma {:induction false} SameCounter(c: nat, i: nat, j: nat)
    requires i <= j
    ensures Ticked(c, 1, i) == Ticked(c, 1, j) <==> (j - i) % U32 == 0
    ensures Ticked(c, 2, i) == Ticked(c, 2, j) <==> (j - i) % (U32 / 2) == 0
  {
    SameResidue(c + i, c + j);
    assert (c + j) - (c + i) == j - i;
    SameResidue(c + 2 * i, c + 2 * j);
    assert (c + 2 * j) - (c + 2 * i) == 2 * (j - i);
    HalfModulus(j - i);
  }

  /** Even and Odd counters: call `i` in second `now` and call `j` in second `later` return the
      same id if and only if they fall in the same second, modulo 2^32, and a multiple of 2^31
      calls apart. */
  lemma {:induction false} IdsRepeatIff(base: nat, i: nat, now: nat, j: nat, later: nat)
    requires i <= j
    ensures now % 0x1_0000_0000 * 0x1_0000_0000 + (base + 2 * i) % 0x1_0000_0000
            == later % 0x1_0000_0000 * 0x1_0000_0000 + (base + 2 * j) % 0x1_0000_0000
            <==> now % 0x1_0000_0000 == later % 0x1_0000_0000 && (j - i) % 0x8000_0000 == 0
  {
    SameCounter(base, i, j);
    StampParts(now, Ticked(base, 2, i));
    StampParts(later, Ticked(base, 2, j));
    StampsEqual(now, Ticked(base, 2, i), later, Ticked(base, 2, j));
  }

  /** Inc counters: a multiple of 2^32 calls apart. */
  lemma {:induction false} IncRepeatsIff(base: nat, i: nat, now: nat, j: nat, later: nat)
    requires i <= j
    ensures now % 0x1_0000_0000 * 0x1_0000_0000 + (base + i) % 0x1_0000_0000
            == later % 0x1_0000_0000 * 0x1_0000_0000 + (base + j) % 0x1_0000_0000
            <==> now % 0x1_0000_0000 == later % 0x1_0000_0000 && (j - i) % 0x1_0000_0000 == 0
  {
    SameCounter(base, i, j);
    StampParts(now, Ticked(base, 1, i));
    StampParts(later, Ticked(base, 1, j));
    StampsEqual(now, Ticked(base, 1, i), later, Ticked(base, 1, j));
  }

  /** Calls made in the seconds `times` of a clock that never goes back, with at most 2^31 of
      them in any one second, never repeat an id: of an Even or Odd counter, or of an Inc one. */
  lemma {:induction false} IdsDistinct(base: nat, times: seq<nat>, i: nat, j: nat)
    requires i < j < |times| && times[j] < 0x1_0000_0000
    requires forall m, n :: 0 <= m <= n < |times| ==> times[m] <= times[n]
    requires forall m, n :: 0 <= m && m + 0x8000_0000 <= n < |times| ==> times[m] != times[n]
    ensures times[i] * 0x1_0000_0000 + (base + 2 * i) % 0x1_0000_0000
            != times[j] * 0x1_0000_0000 + (base + 2 * j) % 0x1_0000_0000
    ensures times[i] * 0x1_0000_0000 + (base + i) % 0x1_0000_0000
            != times[j] * 0x1_0000_0000 + (base + j) % 0x1_0000_0000
  {
    assert times[i] <= times[j];
    IdsRepeatIff(base, i, times[i], j, times[j]);
    IncRepeatsIff(base, i, times[i], j, times[j]);
  }

  lemma {:induction false} TickedParity(c: nat, n: nat)
    ensures Ticked(c, 2, n) % 2 == c % 2
  {
    var x := c + 2 * n;
    assert x == U32 * (x / U32) + x % U32;
  }

  /** An Even counter seeded `even` and an Odd one seeded `odd`, which starts one further,
      never share an id if the seeds have the same parity ... */
  lemma {:induction false} ParitiesApart(even: nat, i: nat, now: nat, odd: nat, j: nat, later: nat)
    requires even % 2 == odd % 2
    ensures now % 0x1_0000_0000 * 0x1_0000_0000 + (even + 2 * i) % 0x1_0000_0000
            != later % 0x1_0000_0000 * 0x1_0000_0000 + (odd + 1 + 2 * j) % 0x1_0000_0000
  {
    TickedParity(even, i);
    TickedParity(odd + 1, j);
    StampParts(now, Ticked(even, 2, i));
    StampParts(later, Ticked(odd + 1, 2, j));
    StampsEqual(now, Ticked(even, 2, i), later, Ticked(odd + 1, 2, j));
  }

  /** ... and, the seed being random in its lowest bit too, do share one otherwise: some call
      of each, in the same second, returns the same id. */
  lemma {:induction false} ParitiesMeet(even: nat, odd: nat, now: nat) returns (i: nat, j: nat)
    requires even % 2 != odd % 2
    ensures i > 0 && j > 0
    ensures (even + 2 * i) % 0x1_0000_0000 == (odd + 1 + 2 * j) % 0x1_0000_0000
  {
    if even <= odd + 1 {
      i, j := (odd + 1 - even) / 2 + 1, 1;
    } else {
      i, j := 1, (even - odd - 1) / 2 + 1;
    }
    assert even + 2 * i == odd + 1 + 2 * j;
  }

  /** The numbers 1 to n. */
  function UpTo(n: nat): (s: set<nat>)
    ensures |s| == n
    ensures forall k :: k in s <==> 1 <= k <= n
  {
    if n == 0 then {} else UpTo(n - 1) + {n}
  }

  lemma {:induction false} SubsetSize(s: set<nat>, t: set<nat>)
    requires s <= t
    ensures |s| <= |t|
  {
    assert t == s + (t - s);
  }

  /** All positive numbers below `k` are held. */
  predicate HeldBelow(ids: set<nat>, k: nat) {
    forall j :: 1 <= j < k ==> j in ids
  }

  lemma {:induction false} HeldSize(ids: set<nat>, k: nat)
    requires k >= 1 && HeldBelow(ids, k)
    ensures k <= |ids| + 1
  {
    SubsetSize(UpTo(k - 1), ids);
  }

  /** The smallest positive number from `i` on that is not held. */
  function LeastFrom(ids: set<nat>, i: nat): (k: nat)
    requires i >= 1 && HeldBelow(ids, i)
    ensures k >= 1 && k !in ids && HeldBelow(ids, k)
    decreases |ids| + 1 - i
  {
    if i !in ids then i
    else
      HeldSize(ids, i + 1);
      LeastFrom(ids, i + 1)
  }

  /** The id that Unique mode hands out next. */
  function Least(ids: set<nat>): (k: nat)
    ensures k >= 1 && k !in ids && HeldBelow(ids, k)
  {
    LeastFrom(ids, 1)
  }

  lemma {:induction false} LeastIs(ids: set<nat>, k: nat)
    requires k >= 1 && k !in ids && HeldBelow(ids, k)
    ensures Least(ids) == k
  {
  }

  /** Taking an id moves the next one up if it was the next one, and not otherwise. */
  lemma {:induction false} LeastAfterTake(ids: set<nat>, id: nat)
    ensures var k := Least(ids + {id});
            if id == Least(ids) then k > id else k == Least(ids)
  {
    if id != Least(ids) {
      LeastIs(ids + {id}, Least(ids));
    }
  }

  /** Giving an id back makes it the next one if it lies below, and changes nothing otherwise. */
  lemma {:induction false} LeastAfterReturn(ids: set<nat>, id: nat)
    ensures Least(ids - {id}) == if 0 < id < Least(ids) then id else Least(ids)
  {
    LeastIs(ids - {id}, if 0 < id < Least(ids) then id else Least(ids));
  }

  class IDCounter {
    const mode: Mode
    var counter: nat
    var onceDone: bool
    var ids: set<nat>
    ghost const seed: nat
    ghost var calls: nat     // of GetID, which move the counter

    ghost predicate Valid()
      reads this
    {
      && seed < U32
      && (mode == Even ==> counter == Ticked(seed, 2, calls))
      && (mode == Odd ==> counter == Ticked(if onceDone then seed + 1 else seed, 2, calls))
      && (mode == Inc ==> counter == Ticked(seed, 1, calls))
      && (mode == Odd && !onceDone ==> calls == 0)
    }

    /** `random` is the random seed, which is not forced to be even. */
    constructor (mode: Mode, random: nat)
      requires random < U32
      ensures Valid() && this.mode == mode && ids == {} && calls == 0
      ensures mode != Unique ==> seed == random
    {
      this.mode := mode;
      var start := if mode == Unique then 0 else random;
      counter, seed := start, start;
      onceDone, ids, calls := false, {}, 0;
    }

    /** An id reserved by hand is never the next one, and leaves the next one alone if it was
        another. */
    method ReserveID(id: nat)
      requires Valid()
      modifies `ids
      ensures Valid() && ids == old(ids) + {id}
      ensures Least(ids) != id
      ensures id != Least(old(ids)) ==> Least(ids) == Least(old(ids))
    {
      LeastAfterTake(ids, id);
      ids := ids + {id};
    }

    /** An id given back is the next one to be handed out, unless a smaller one is free. */
    method DelID(id: nat)
      requires Valid()
      modifies `ids
      ensures Valid() && ids == if mode == Unique then old(ids) - {id} else old(ids)
      ensures mode == Unique ==>
                Least(ids) == if 0 < id < Least(old(ids)) then id else Least(old(ids))
    {
      LeastAfterReturn(ids, id);
      if mode == Unique {
        ids := ids - {id};
      }
    }

    /** The clock-stamped modes: the second in the upper half, and in the lower the seed and two
        for every call, or one for every call of an Inc counter. The seed of an Odd counter is
        moved by one, once; an Even and an Odd counter need not differ in parity. */
    method GetStamped(now: nat) returns (id: nat)
      requires Valid() && mode != Unique
      modifies this
      ensures Valid() && ids == old(ids) && calls == old(calls) + 1
      ensures mode == Even ==>
                id == now % 0x1_0000_0000 * 0x1_0000_0000 + (seed + 2 * calls) % 0x1_0000_0000
      ensures mode == Odd ==>
                id == now % 0x1_0000_0000 * 0x1_0000_0000 + (seed + 1 + 2 * calls) % 0x1_0000_0000
      ensures mode == Inc ==>
                id == now % 0x1_0000_0000 * 0x1_0000_0000 + (seed + calls) % 0x1_0000_0000
    {
      match mode {
        case Even =>
          Tick(seed, 2);
        case Odd =>
          if !onceDone {
            onceDone := true;
            OddStart(seed);
            counter := (counter + 1) % U32;
          }
          Tick(seed + 1, 2);
        case Inc =>
          Tick(seed, 1);
      }
      StampParts(now, counter);
      id := (now * U32 % U64 + counter) % U64;
    }

    // atomic.AddUint32 for one call
    method Tick(ghost base: nat, stride: nat)
      requires counter == Ticked(base, stride, calls)
      modifies `counter, `calls
      ensures calls == old(calls) + 1 && counter == Ticked(base, stride, calls)
    {
      TickOnce(base, stride, calls);
      counter := (counter + stride) % U32;
      calls := calls + 1;
    }

    /** Unique mode: the smallest positive id that is neither held nor reserved, which is at
        most one more than the number of ids held; 0 only if all are held. */
    method GetUnique() returns (id: nat)
      requires Valid() && mode == Unique
      modifies `ids
      ensures Valid()
      ensures id == if Least(old(ids)) < MAX_U64 then Least(old(ids)) else 0
      ensures id != 0 ==> ids == old(ids) + {id} && Least(ids) > id && id <= |old(ids)| + 1
      ensures id == 0 ==> ids == old(ids)
    {
      var i := 1;
      while i < MAX_U64
        invariant 1 <= i <= MAX_U64 && ids == old(ids)
        invariant HeldBelow(ids, i)
      {
        if i !in ids {
          HeldSize(ids, i);
          LeastIs(ids, i);
          LeastAfterTake(ids, i);
          ids := ids + {i};
          return i;
        }
        i := i + 1;
      }
      return 0;
    }
  }

  lemma {:induction false} OddStart(seed: nat)
    requires seed < U32
    ensures (Ticked(seed, 2, 0) + 1) % U32 == Ticked(seed + 1, 2, 0)
  {
  }

  lemma {:induction false} TickOnce(base: nat, stride: nat, n: nat)
    ensures (Ticked(base, stride, n) + stride) % U32 == Ticked(base, stride, n + 1)
  {
    assert base + stride * (n + 1) == base + stride * n + stride;
  }
}
