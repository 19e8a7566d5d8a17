/**
 * The two-generation keyed Bloom filter (defense/core/credit-filter.ts). `Filter` is its meaning as two sets of bit
 * indexes on an epoch clock; class `CreditFilter` is the packed byte arrays; `Refines` ties the sets to the history of
 * insertions, from which membership is read off without mentioning bits that were cleared on the way.
 */
module CreditFilters {
  import opened Base

  /**
   * The two words of the keyed digest that select bits, and the rest of it. The digest as a whole is the lookup key.
   */
  datatype Digest = Digest(h1: nat, h2: nat, rest: Bytes)

  predicate PowerOfTwo(n: int) { n == 1 || (n > 1 && n % 2 == 0 && PowerOfTwo(n / 2)) }

  /** `index` selects the i-th bit of a digest; the filter's theorems hold for any selection within range. */
  datatype Geometry = Geometry(bits: int, hashes: int, epochMs: int, t0: real, index: (Digest, nat) -> int) {
    ghost predicate Valid()
    {
      && 64 <= bits <= 0x4000_0000 && PowerOfTwo(bits) && 1 <= hashes <= 16 && SafePositive(epochMs)
      && forall d, i :: 0 <= index(d, i) < bits
    }
  }

  lemma {:induction false} WholeBytes(geo: Geometry)
    requires geo.Valid()
    ensures geo.bits % 8 == 0
  {
    assert PowerOfTwo(geo.bits / 2) && PowerOfTwo(geo.bits / 2 / 2) && PowerOfTwo(geo.bits / 2 / 2 / 2);
  }

  // ------------------------------------------------------------------ epochs

  function EpochAt(geo: Geometry, t: real): nat
    requires geo.epochMs >= 1
  {
    Max(0, Floor((t - geo.t0) / geo.epochMs as real))
  }

  /** The instant epoch `e` begins. */
  function Start(geo: Geometry, e: int): real { geo.t0 + e as real * geo.epochMs as real }

  lemma {:induction false} StartsGrow(geo: Geometry, a: int, b: int)
    requires geo.Valid() && a <= b
    ensures Start(geo, a) <= Start(geo, b)
    ensures Start(geo, a + 1) == Start(geo, a) + geo.epochMs as real
  {
    var m := geo.epochMs as real;
    assert (b - a) as real * m >= 0.0;
    assert b as real * m == a as real * m + (b - a) as real * m;
    assert (a + 1) as real * m == a as real * m + m;
  }

  lemma {:induction false} EpochBounds(geo: Geometry, t: real)
    requires geo.Valid() && geo.t0 <= t
    ensures Start(geo, EpochAt(geo, t)) <= t < Start(geo, EpochAt(geo, t) + 1)
  {
    var m := geo.epochMs as real;
    var q := (t - geo.t0) / m;
    var e := Floor(q);
    assert q >= 0.0;
    assert EpochAt(geo, t) == e;
    assert q * m == t - geo.t0;
    assert e as real <= q < (e + 1) as real;
    Scaled(e as real, q, m);
    Scaled(q, (e + 1) as real, m);
    calc {
      t;
      geo.t0 + q * m;
    <
      geo.t0 + (e + 1) as real * m;
      Start(geo, e + 1);
    }
  }

  lemma {:induction false} Scaled(a: real, b: real, m: real)
    requires m > 0.0
    ensures a <= b ==> a * m <= b * m
    ensures a < b ==> a * m < b * m
  {
    if a < b {
      assert (b - a) * m > 0.0;
      assert b * m == a * m + (b - a) * m;
    }
  }

  lemma {:induction false} EpochsGrow(geo: Geometry, s: real, t: real)
    requires geo.Valid() && geo.t0 <= s <= t
    ensures EpochAt(geo, s) <= EpochAt(geo, t)
  {
    EpochBounds(geo, s);
    EpochBounds(geo, t);
    if EpochAt(geo, s) >= EpochAt(geo, t) + 1 {
      StartsGrow(geo, EpochAt(geo, t) + 1, EpochAt(geo, s));
    }
  }

  /** One epoch length later at most one more epoch has begun; two epoch lengths later at least two have. */
  lemma {:induction false} EpochSpan(geo: Geometry, s: real, t: real)
    requires geo.Valid() && geo.t0 <= s <= t
    ensures t <= s + geo.epochMs as real ==> EpochAt(geo, t) <= EpochAt(geo, s) + 1
    ensures t >= s + 2.0 * geo.epochMs as real ==> EpochAt(geo, t) >= EpochAt(geo, s) + 2
  {
    EpochBounds(geo, s);
    EpochBounds(geo, t);
    var a, b := EpochAt(geo, s), EpochAt(geo, t);
    StartsGrow(geo, a, a);
    StartsGrow(geo, a + 1, a + 1);
    if b >= a + 2 {
      StartsGrow(geo, a + 2, b);
    } else {
      StartsGrow(geo, b + 1, a + 2);
    }
  }

  // ------------------------------------------------------------------ bit indexes

  function OrOne(n: nat): nat { if n % 2 == 0 then n + 1 else n }

  /** The selection the filter uses: enhanced double hashing in 32-bit unsigned arithmetic, masked to a power of two. */
  function DoubleHash(bits: int, d: Digest, i: nat): int
    requires bits > 0
  {
    (d.h1 + i * OrOne(d.h2) + i * i) % 0x1_0000_0000 % bits
  }

  lemma {:induction false} DoubleHashing(bits: int, hashes: int, epochMs: int, t0: real)
    requires 64 <= bits <= 0x4000_0000 && PowerOfTwo(bits) && 1 <= hashes <= 16 && SafePositive(epochMs)
    ensures Geometry(bits, hashes, epochMs, t0, (d: Digest, i: nat) => DoubleHash(bits, d, i)).Valid()
  {
  }

  ghost function BitsUpTo(geo: Geometry, d: Digest, n: nat): (s: set<int>)
    requires geo.Valid()
    ensures forall i :: 0 <= i < n ==> geo.index(d, i) in s
    ensures forall x :: x in s ==> 0 <= x < geo.bits
  {
    if n == 0 then {} else BitsUpTo(geo, d, n - 1) + {geo.index(d, n - 1)}
  }

  ghost function Bits(geo: Geometry, d: Digest): set<int>
    requires geo.Valid()
  {
    BitsUpTo(geo, d, geo.hashes)
  }

  // ------------------------------------------------------------------ the filter as two generations of bits

  datatype Filter = Filter(epoch: nat, even: set<int>, odd: set<int>) {
    /** The bits of the generation that epoch `e` writes to. */
    function Gen(e: int): set<int> { if e % 2 == 0 then even else odd }

    function Cleared(e: int): Filter { if e % 2 == 0 then this.(even := {}) else this.(odd := {}) }
  }

  const EMPTY := Filter(0, {}, {})

  /** Entering epoch `target`: one step clears the generation being entered, two or more clear both. */
  function Moved(f: Filter, target: nat): Filter
  {
    if target <= f.epoch then f
    else if target == f.epoch + 1 then f.Cleared(target).(epoch := target)
    else Filter(target, {}, {})
  }

  /** `n` consecutive generations cleared, from the one of epoch `entering` on. */
  function Swept(f: Filter, entering: int, n: nat): Filter
  {
    if n == 0 then f else Swept(f, entering, n - 1).Cleared(entering + n - 1)
  }

  lemma {:induction false} SweepMeaning(f: Filter, target: nat, steps: int)
    requires target > f.epoch && steps == Min(target - f.epoch, 2)
    ensures Moved(f, target) == Swept(f, target - steps + 1, steps).(epoch := target)
  {
    assert Swept(f, target - steps + 1, 1) == f.Cleared(target - steps + 1);
  }

  function Advance(geo: Geometry, f: Filter, t: real): Filter
    requires geo.epochMs >= 1
  {
    Moved(f, EpochAt(geo, t))
  }

  ghost predicate InActive(geo: Geometry, f: Filter, d: Digest)
    requires geo.Valid()
  {
    Bits(geo, d) <= f.Gen(f.epoch)
  }

  ghost predicate Has(geo: Geometry, f: Filter, d: Digest)
    requires geo.Valid()
  {
    InActive(geo, f, d) || (f.epoch >= 1 && Bits(geo, d) <= f.Gen(f.epoch - 1))
  }

  ghost function Insert(geo: Geometry, f: Filter, d: Digest): Filter
    requires geo.Valid()
  {
    if f.epoch % 2 == 0 then f.(even := f.even + Bits(geo, d)) else f.(odd := f.odd + Bits(geo, d))
  }

  /** Lazy advances compose: an intermediate observation clears nothing that the later one would have kept. */
  lemma {:induction false} AdvancesCompose(geo: Geometry, f: Filter, s: real, t: real)
    requires geo.Valid() && geo.t0 <= s <= t
    ensures Advance(geo, Advance(geo, f, s), t) == Advance(geo, f, t)
  {
    EpochsGrow(geo, s, t);
  }

  /** The one bits of the active and of the previous generation. */
  function Population(f: Filter): (nat, nat)
  {
    (|f.Gen(f.epoch)|, if f.epoch >= 1 then |f.Gen(f.epoch - 1)| else 0)
  }

  // ------------------------------------------------------------------ meaning in terms of insertions

  datatype Insertion = Insertion(digest: Digest, at: real)

  ghost predicate Stamped(geo: Geometry, ins: seq<Insertion>, now: real)
    requires geo.Valid()
  {
    geo.t0 <= now && forall k :: 0 <= k < |ins| ==> geo.t0 <= ins[k].at <= now
  }

  /** The bits set by the insertions of epoch `e`. */
  ghost function Marks(geo: Geometry, ins: seq<Insertion>, e: int): set<int>
    requires geo.Valid()
  {
    if ins == [] then {}
    else
      var last := ins[|ins| - 1];
      Marks(geo, ins[..|ins| - 1], e) + if EpochAt(geo, last.at) == e then Bits(geo, last.digest) else {}
  }

  /** The current and the previous generation hold exactly the bits inserted in their own epochs. */
  ghost predicate Refines(geo: Geometry, f: Filter, ins: seq<Insertion>)
    requires geo.Valid()
  {
    && f.Gen(f.epoch) == Marks(geo, ins, f.epoch)
    && f.Gen(f.epoch - 1) == Marks(geo, ins, f.epoch - 1)
    && forall k :: 0 <= k < |ins| ==> EpochAt(geo, ins[k].at) <= f.epoch
  }

  lemma {:induction false} NoMarksAhead(geo: Geometry, ins: seq<Insertion>, e: int)
    requires geo.Valid()
    requires forall k :: 0 <= k < |ins| ==> EpochAt(geo, ins[k].at) != e
    ensures Marks(geo, ins, e) == {}
  {
    if ins != [] {
      NoMarksAhead(geo, ins[..|ins| - 1], e);
    }
  }

  lemma {:induction false} MarksContain(geo: Geometry, ins: seq<Insertion>, k: nat)
    requires geo.Valid() && k < |ins|
    ensures Bits(geo, ins[k].digest) <= Marks(geo, ins, EpochAt(geo, ins[k].at))
  {
    if k < |ins| - 1 {
      MarksContain(geo, ins[..|ins| - 1], k);
    }
  }

  lemma {:induction false} MarksComeFrom(geo: Geometry, ins: seq<Insertion>, e: int, x: int) returns (k: nat)
    requires geo.Valid() && x in Marks(geo, ins, e)
    ensures k < |ins| && EpochAt(geo, ins[k].at) == e && x in Bits(geo, ins[k].digest)
  {
    var n := |ins| - 1;
    if EpochAt(geo, ins[n].at) == e && x in Bits(geo, ins[n].digest) {
      k := n;
    } else {
      k := MarksComeFrom(geo, ins[..n], e, x);
    }
  }

  lemma {:induction false} AdvanceRefines(geo: Geometry, f: Filter, ins: seq<Insertion>, t: real)
    requires geo.Valid() && Refines(geo, f, ins)
    ensures Refines(geo, Advance(geo, f, t), ins)
  {
    var g := Advance(geo, f, t);
    if g != f {
      NoMarksAhead(geo, ins, g.epoch);
      if g.epoch > f.epoch + 1 {
        NoMarksAhead(geo, ins, g.epoch - 1);
      }
    }
  }

  lemma {:induction false} InsertRefines(geo: Geometry, f: Filter, ins: seq<Insertion>, d: Digest, t: real)
    requires geo.Valid() && Refines(geo, f, ins) && EpochAt(geo, t) == f.epoch
    ensures Refines(geo, Insert(geo, f, d), ins + [Insertion(d, t)])
  {
    assert (ins + [Insertion(d, t)])[..|ins|] == ins;
  }

  /**
   * Membership at time `t`, said without bits that were ever cleared: a digest tests positive exactly when, within the
   * current or within the previous epoch, insertions of that epoch alone set every one of its bits.
   */
  lemma {:induction false} MembershipMeaning(geo: Geometry, f: Filter, ins: seq<Insertion>, d: Digest, t: real)
    requires geo.Valid() && Refines(geo, f, ins) && f.epoch <= EpochAt(geo, t)
    ensures var e := EpochAt(geo, t);
            Has(geo, Advance(geo, f, t), d) <==>
            Bits(geo, d) <= Marks(geo, ins, e) || Bits(geo, d) <= Marks(geo, ins, e - 1)
  {
    AdvanceRefines(geo, f, ins, t);
    var e := EpochAt(geo, t);
    if e == 0 {
      NoMarksAhead(geo, ins, -1);
      assert geo.index(d, 0) in Bits(geo, d);
    }
  }

  /** No false negative before the epoch of the insertion is two behind, hence for at least `epochMs`. */
  lemma {:induction false} NoFalseNegative(geo: Geometry, f: Filter, ins: seq<Insertion>, k: nat, t: real)
    requires geo.Valid() && Refines(geo, f, ins) && Stamped(geo, ins, t) && f.epoch <= EpochAt(geo, t)
    requires k < |ins|
    ensures EpochAt(geo, t) <= EpochAt(geo, ins[k].at) + 1 ==> Has(geo, Advance(geo, f, t), ins[k].digest)
    ensures t <= ins[k].at + geo.epochMs as real ==> Has(geo, Advance(geo, f, t), ins[k].digest)
  {
    MembershipMeaning(geo, f, ins, ins[k].digest, t);
    MarksContain(geo, ins, k);
    EpochsGrow(geo, ins[k].at, t);
    EpochSpan(geo, ins[k].at, t);
  }

  /** Nothing survives 2 * epochMs: every bit that supports a positive answer was set less than that long ago. */
  lemma {:induction false} NothingSurvives(geo: Geometry, f: Filter, ins: seq<Insertion>, d: Digest, t: real)
    requires geo.Valid() && Refines(geo, f, ins) && Stamped(geo, ins, t) && f.epoch <= EpochAt(geo, t)
    requires Has(geo, Advance(geo, f, t), d)
    ensures forall x :: x in Bits(geo, d) ==>
              exists k :: 0 <= k < |ins| && x in Bits(geo, ins[k].digest) && ins[k].at > t - 2.0 * geo.epochMs as real
  {
    MembershipMeaning(geo, f, ins, d, t);
    var e := if Bits(geo, d) <= Marks(geo, ins, EpochAt(geo, t)) then EpochAt(geo, t) else EpochAt(geo, t) - 1;
    forall x | x in Bits(geo, d)
      ensures exists k :: 0 <= k < |ins| && x in Bits(geo, ins[k].digest) && ins[k].at > t - 2.0 * geo.epochMs as real
    {
      var k := MarksComeFrom(geo, ins, e, x);
      EpochSpan(geo, ins[k].at, t);
    }
  }

  // ------------------------------------------------------------------ the packed arrays

  /** 1 << k for a bit position within a byte. */
  function Flag(k: int): bv8
    requires 0 <= k < 8
  {
    match k
    case 0 => 1 case 1 => 2 case 2 => 4 case 3 => 8
    case 4 => 16 case 5 => 32 case 6 => 64 case 7 => 128
  }

  predicate IsSet(byte: bv8, k: int)
    requires 0 <= k < 8
  {
    byte & Flag(k) != 0
  }

  lemma {:induction false} SettingABit(byte: bv8, k: int, j: int)
    requires 0 <= k < 8 && 0 <= j < 8
    ensures IsSet(byte | Flag(k), j) <==> j == k || IsSet(byte, j)
  {
  }

  /** The indexes below `n` of the one bits. */
  ghost function SetBits(bytes: seq<bv8>, n: nat): set<int>
    requires n <= 8 * |bytes|
  {
    if n == 0 then {}
    else SetBits(bytes, n - 1) + if IsSet(bytes[(n - 1) / 8], (n - 1) % 8) then {n - 1} else {}
  }

  lemma {:induction false} SetBitsMember(bytes: seq<bv8>, n: nat, x: int)
    requires n <= 8 * |bytes|
    ensures x in SetBits(bytes, n) <==> 0 <= x < n && IsSet(bytes[x / 8], x % 8)
  {
    if n > 0 {
      SetBitsMember(bytes, n - 1, x);
    }
  }

  /** `after` is `bytes` with one more bit set. */
  ghost predicate WithBit(bytes: seq<bv8>, after: seq<bv8>, bit: nat)
  {
    bit < 8 * |bytes| && after == bytes[bit / 8 := bytes[bit / 8] | Flag(bit % 8)]
  }

  lemma {:induction false} OtherBits(bytes: seq<bv8>, after: seq<bv8>, bit: nat, x: nat)
    requires WithBit(bytes, after, bit) && x < 8 * |bytes|
    ensures IsSet(after[x / 8], x % 8) <==> x == bit || IsSet(bytes[x / 8], x % 8)
  {
    SettingABit(bytes[bit / 8], bit % 8, x % 8);
  }

  lemma {:induction false} SetBitInBytes(bytes: seq<bv8>, after: seq<bv8>, n: nat, bit: nat)
    requires n <= 8 * |bytes| == 8 * |after| && WithBit(bytes, after, bit)
    ensures SetBits(after, n) == SetBits(bytes, n) + if bit < n then {bit} else {}
  {
    if n > 0 {
      SetBitInBytes(bytes, after, n - 1, bit);
      OtherBits(bytes, after, bit, n - 1);
    }
  }

  lemma {:induction false} NoSetBits(bytes: seq<bv8>, n: nat)
    requires n <= 8 * |bytes|
    requires forall i :: 0 <= i < |bytes| ==> bytes[i] == 0
    ensures SetBits(bytes, n) == {}
  {
    if n > 0 {
      NoSetBits(bytes, n - 1);
    }
  }

  /** One generation: a packed byte array with its running count of one bits. */
  class Generation {
    const data: array<bv8>
    var count: nat
    ghost var marks: set<int>

    ghost predicate Valid()
      reads this, data
    {
      marks == SetBits(data[..], 8 * data.Length) && count == |marks|
    }

    constructor (bits: int)
      requires bits >= 8 && bits % 8 == 0
      ensures Valid() && fresh(data) && 8 * data.Length == bits && marks == {}
    {
      data := new bv8[bits / 8](_ => 0);
      count, marks := 0, {};
      new;
      NoSetBits(data[..], 8 * data.Length);
    }

    method Clear()
      requires Valid()
      modifies this, data
      ensures Valid() && marks == {}
    {
      for i := 0 to data.Length
        invariant forall j :: 0 <= j < i ==> data[j] == 0
      {
        data[i] := 0;
      }
      NoSetBits(data[..], 8 * data.Length);
      count, marks := 0, {};
    }

    method Test(bit: int) returns (hit: bool)
      requires Valid() && 0 <= bit < 8 * data.Length
      ensures hit <==> bit in marks
    {
      var byte, k := bit / 8, bit % 8;
      SetBitsMember(data[..], 8 * data.Length, bit);
      hit := data[byte] & Flag(k) != 0;
    }

    /** Sets the bit, counting it only when it was clear. */
    method Mark(bit: int)
      requires Valid() && 0 <= bit < 8 * data.Length
      modifies this, data
      ensures Valid() && marks == old(marks) + {bit}
    {
      var hit := Test(bit);
      if !hit {
        Raise(bit);
        count := count + 1;
      }
      assert hit ==> marks + {bit} == marks;
    }

    method Raise(bit: int)
      requires 0 <= bit < 8 * data.Length && marks == SetBits(data[..], 8 * data.Length)
      modifies this`marks, data
      ensures marks == SetBits(data[..], 8 * data.Length) == old(marks) + {bit}
    {
      ghost var was := data[..];
      data[bit / 8] := data[bit / 8] | Flag(bit % 8);
      SetBitInBytes(was, data[..], 8 * data.Length, bit);
      marks := marks + {bit};
    }
  }

  class CreditFilter {
    const geo: Geometry
    const even: Generation
    const odd: Generation
    var currentEpoch: nat

    ghost const Repr: set<object> := {this, even, odd, even.data, odd.data}

    ghost predicate Valid()
      reads Repr
    {
      && geo.Valid()
      && even != odd && even.data != odd.data
      && even.Valid() && odd.Valid()
      && 8 * even.data.Length == geo.bits && 8 * odd.data.Length == geo.bits
    }

    ghost function State(): Filter
      reads this, even, odd
    {
      Filter(currentEpoch, even.marks, odd.marks)
    }

    constructor (geo: Geometry)
      requires geo.Valid()
      ensures Valid() && this.geo == geo && fresh(Repr)
      ensures State() == EMPTY
    {
      WholeBytes(geo);
      this.geo := geo;
      even := new Generation(geo.bits);
      odd := new Generation(geo.bits);
      currentEpoch := 0;
    }

    method AdvanceTo(t: real) returns (epoch: nat)
      requires Valid()
      modifies Repr
      ensures Valid() && State() == Advance(geo, old(State()), t) && epoch == currentEpoch
    {
      MoveTo(EpochAt(geo, t));
      epoch := currentEpoch;
    }

    method MoveTo(target: nat)
      requires Valid()
      modifies Repr
      ensures Valid() && State() == Moved(old(State()), target)
    {
      if target > currentEpoch {
        var steps := Min(target - currentEpoch, 2);
        SweepMeaning(State(), target, steps);
        Rotate(target - steps + 1, steps);
        currentEpoch := target;
      }
    }

    method Rotate(entering: int, steps: int)
      requires Valid() && 1 <= steps <= 2
      modifies Repr
      ensures Valid() && State() == Swept(old(State()), entering, steps)
    {
      var step := 0;
      while step < steps
        invariant 0 <= step <= steps
        invariant Valid() && State() == Swept(old(State()), entering, step)
      {
        ClearSlot(entering + step);
        step := step + 1;
      }
    }

    method ClearSlot(entering: int)
      requires Valid()
      modifies Repr
      ensures Valid() && State() == old(State()).Cleared(entering)
    {
      if entering % 2 == 0 { even.Clear(); } else { odd.Clear(); }
    }

    method Test(slot: int, d: Digest) returns (hit: bool)
      requires Valid() && 0 <= slot <= 1
      ensures hit <==> Bits(geo, d) <= State().Gen(slot)
    {
      var g := if slot == 0 then even else odd;
      for i := 0 to geo.hashes
        invariant BitsUpTo(geo, d, i) <= g.marks
      {
        var b := g.Test(geo.index(d, i));
        if !b {
          assert geo.index(d, i) in Bits(geo, d);
          return false;
        }
      }
      return true;
    }

    method Member(d: Digest) returns (hit: bool)
      requires Valid()
      ensures hit <==> Has(geo, State(), d)
    {
      hit := Test(currentEpoch % 2, d);
      if !hit && currentEpoch >= 1 {
        hit := Test((currentEpoch - 1) % 2, d);
      }
    }

    method Lookup(d: Digest, t: real) returns (hit: bool)
      requires Valid()
      modifies Repr
      ensures Valid() && State() == Advance(geo, old(State()), t)
      ensures hit <==> Has(geo, State(), d)
    {
      var _ := AdvanceTo(t);
      hit := Member(d);
    }

    method LookupActive(d: Digest, t: real) returns (hit: bool)
      requires Valid()
      modifies Repr
      ensures Valid() && State() == Advance(geo, old(State()), t)
      ensures hit <==> InActive(geo, State(), d)
    {
      var epoch := AdvanceTo(t);
      hit := Test(epoch % 2, d);
    }

    /** Setting the bits one by one adds exactly the digest's bits. */
    method MarkBits(g: Generation, d: Digest)
      requires geo.Valid() && g.Valid() && 8 * g.data.Length == geo.bits
      modifies g, g.data
      ensures g.Valid() && g.marks == old(g.marks) + Bits(geo, d)
    {
      for i := 0 to geo.hashes
        invariant g.Valid() && g.marks == old(g.marks) + BitsUpTo(geo, d, i)
      {
        g.Mark(geo.index(d, i));
      }
    }

    method InsertDigest(d: Digest, t: real)
      requires Valid()
      modifies Repr
      ensures Valid() && State() == Insert(geo, Advance(geo, old(State()), t), d)
    {
      var epoch := AdvanceTo(t);
      if epoch % 2 == 0 { MarkBits(even, d); } else { MarkBits(odd, d); }
    }

    /** The popcounts of the active and the previous generation, from the running counts. */
    method Popcounts() returns (active: nat, previous: nat)
      requires Valid()
      ensures (active, previous) == Population(State())
    {
      active := if currentEpoch % 2 == 0 then even.count else odd.count;
      previous := 0;
      if currentEpoch >= 1 {
        previous := if (currentEpoch - 1) % 2 == 0 then even.count else odd.count;
      }
    }
  }
}
