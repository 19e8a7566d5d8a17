/**
 * The lane token bucket (defense/core/lanes.ts): exact integer micro-tokens refilled on floored milliseconds of the
 * monotonic clock, and the budget that every run of it respects.
 */
module TokenBuckets {
  import opened Base

  /** One token in micro-tokens. */
  const UNIT: nat := 1_000_000

  /** `refillPerMs` is the configured tokens-per-second times 1000, which the constructor checks to be an integer. */
  datatype Rate = Rate(capacity: int, refillPerMs: int) {
    predicate Valid() { SafePositive(capacity) && 1 <= refillPerMs }

    function Units(): int { capacity * UNIT }

    /** The most that may be granted, in micro-tokens, over `ms` milliseconds. */
    function Allowance(ms: int): int { Units() + ms * refillPerMs }
  }

  datatype Bucket = Bucket(level: int, lastMs: int, takes: nat, admitted: nat, shed: nat)
  datatype Taken = Taken(ok: bool, dt: int, lvl: int, lseq: nat)

  function Full(rate: Rate, t: real): Bucket { Bucket(rate.Units(), Floor(t), 0, 0, 0) }

  function Refilled(rate: Rate, b: Bucket, t: real): Bucket
  {
    var now := Floor(t);
    if now > b.lastMs then
      b.(level := Min(rate.Units(), b.level + (now - b.lastMs) * rate.refillPerMs), lastMs := now)
    else b
  }

  function Take(rate: Rate, b: Bucket, t: real): (Bucket, Taken)
  {
    var r := Refilled(rate, b, t);
    var ok := r.level >= UNIT;
    var c := if ok then r.(level := r.level - UNIT, takes := r.takes + 1, admitted := r.admitted + 1)
             else r.(takes := r.takes + 1, shed := r.shed + 1);
    (c, Taken(ok, c.lastMs, c.level, c.takes))
  }

  predicate Sane(rate: Rate, b: Bucket)
  {
    rate.Valid() && 0 <= b.level <= rate.Units() && b.takes == b.admitted + b.shed
  }

  // ------------------------------------------------------------------ the budget

  predicate Sorted(g: seq<int>) { forall i, j :: 0 <= i <= j < |g| ==> g[i] <= g[j] }

  /** No stretch of grants exceeds the allowance of the time it spans. */
  predicate Spaced(rate: Rate, g: seq<int>)
  {
    forall i, j :: 0 <= i <= j < |g| ==> (j - i + 1) * UNIT <= rate.Allowance(g[j] - g[i])
  }

  /** `g` holds the millisecond of every grant this bucket made, oldest first. */
  predicate Budgeted(rate: Rate, b: Bucket, g: seq<int>)
  {
    && Sane(rate, b)
    && Sorted(g)
    && Spaced(rate, g)
    && |g| == b.admitted
    && (forall i :: 0 <= i < |g| ==> g[i] <= b.lastMs)
    && (forall i :: 0 <= i < |g| ==> (|g| - i) * UNIT + b.level <= rate.Allowance(b.lastMs - g[i]))
  }

  lemma {:induction false} RefillIsBudgeted(rate: Rate, b: Bucket, g: seq<int>, t: real)
    requires Budgeted(rate, b, g)
    ensures Budgeted(rate, Refilled(rate, b, t), g)
  {
    var r := Refilled(rate, b, t);
    assert r.level <= b.level + (r.lastMs - b.lastMs) * rate.refillPerMs by {
      assert r.lastMs == b.lastMs ==> (r.lastMs - b.lastMs) * rate.refillPerMs == 0;
    }
    assert 0 <= r.level by {
      assert r.lastMs >= b.lastMs;
      assert (r.lastMs - b.lastMs) * rate.refillPerMs >= 0;
    }
    forall i | 0 <= i < |g| ensures (|g| - i) * UNIT + r.level <= rate.Allowance(r.lastMs - g[i]) {
      assert (r.lastMs - g[i]) * rate.refillPerMs
          == (b.lastMs - g[i]) * rate.refillPerMs + (r.lastMs - b.lastMs) * rate.refillPerMs;
    }
  }

  /** A take keeps the budget: the record of grants grows by exactly the millisecond of a successful take. */
  lemma {:induction false} TakeIsBudgeted(rate: Rate, b: Bucket, g: seq<int>, t: real)
    requires Budgeted(rate, b, g)
    ensures var (c, k) := Take(rate, b, t);
            Budgeted(rate, c, if k.ok then g + [k.dt] else g)
  {
    RefillIsBudgeted(rate, b, g, t);
    var r := Refilled(rate, b, t);
    if r.level >= UNIT {
      GrantIsBudgeted(rate, r, g);
    }
  }

  lemma {:induction false} GrantIsBudgeted(rate: Rate, r: Bucket, g: seq<int>)
    requires Budgeted(rate, r, g) && r.level >= UNIT
    ensures Budgeted(rate, r.(level := r.level - UNIT, takes := r.takes + 1, admitted := r.admitted + 1),
            g + [r.lastMs])
  {
    var h := g + [r.lastMs];
    forall i | 0 <= i < |h| ensures (|h| - i) * UNIT + r.level - UNIT <= rate.Allowance(r.lastMs - h[i]) {
      if i == |g| {
        assert rate.Allowance(0) == rate.Units();
      }
    }
    GrantIsSpaced(rate, r, g);
  }

  lemma {:induction false} GrantIsSpaced(rate: Rate, r: Bucket, g: seq<int>)
    requires Budgeted(rate, r, g) && r.level >= UNIT
    ensures Spaced(rate, g + [r.lastMs])
  {
    var h := g + [r.lastMs];
    forall i, j | 0 <= i <= j < |h| ensures (j - i + 1) * UNIT <= rate.Allowance(h[j] - h[i]) {
      if i == |g| {
        assert rate.Allowance(0) == rate.Units();
      }
    }
  }

  /** How many grants fall into the closed window [from, to]. */
  function InWindow(g: seq<int>, from: int, to: int): nat
  {
    if g == [] then 0
    else InWindow(g[..|g| - 1], from, to) + if from <= g[|g| - 1] <= to then 1 else 0
  }

  function FirstAtLeast(g: seq<int>, from: int): (i: nat)
    ensures i <= |g|
    ensures forall k :: 0 <= k < i ==> g[k] < from
    ensures i < |g| ==> g[i] >= from
  {
    if g == [] then 0
    else
      var i := FirstAtLeast(g[..|g| - 1], from);
      if i < |g| - 1 then i else if g[|g| - 1] >= from then |g| - 1 else |g|
  }

  lemma {:induction false} InWindowAfter(g: seq<int>, from: int, to: int, i: nat)
    requires i <= |g| && forall k :: 0 <= k < i ==> g[k] < from
    ensures InWindow(g, from, to) <= |g| - i
    decreases |g|
  {
    if g != [] {
      InWindowAfter(g[..|g| - 1], from, to, if i == |g| then i - 1 else i);
    }
  }

  /** A sorted and spaced log of grants has at most capacity plus refill of them in any window of time. */
  lemma {:induction false} WindowBound(rate: Rate, g: seq<int>, from: int, to: int)
    requires rate.Valid() && Sorted(g) && Spaced(rate, g) && from <= to
    ensures InWindow(g, from, to) * UNIT <= rate.Allowance(to - from)
    decreases |g|
  {
    var n := |g|;
    if n == 0 {
      assert rate.Allowance(to - from) >= 0 by { assert (to - from) * rate.refillPerMs >= 0; }
    } else if !(from <= g[n - 1] <= to) {
      WindowBound(rate, g[..n - 1], from, to);
    } else {
      LastInWindow(rate, g, from, to);
    }
  }

  lemma {:induction false} LastInWindow(rate: Rate, g: seq<int>, from: int, to: int)
    requires rate.Valid() && Spaced(rate, g) && g != [] && from <= g[|g| - 1] <= to
    ensures InWindow(g, from, to) * UNIT <= rate.Allowance(to - from)
  {
    var i, n := FirstAtLeast(g, from), |g| - 1;
    InWindowAfter(g, from, to, i);
    assert (n - i + 1) * UNIT <= rate.Allowance(g[n] - g[i]);
    AllowanceGrows(rate, g[n] - g[i], to - from);
  }

  lemma {:induction false} AllowanceGrows(rate: Rate, a: int, b: int)
    requires rate.Valid() && a <= b
    ensures rate.Allowance(a) <= rate.Allowance(b)
  {
    assert b * rate.refillPerMs == a * rate.refillPerMs + (b - a) * rate.refillPerMs;
  }

  /** What a bucket is asked, and when: a token, or its level. */
  datatype Ask = Token(t: real) | Level(t: real)

  function Asked(rate: Rate, b: Bucket, ask: Ask): Bucket
  {
    match ask
    case Token(t) => Take(rate, b, t).0
    case Level(t) => Refilled(rate, b, t)
  }

  function Granted(rate: Rate, b: Bucket, ask: Ask): seq<int>
  {
    if ask.Token? && Take(rate, b, ask.t).1.ok then [Take(rate, b, ask.t).1.dt] else []
  }

  function BucketAfter(rate: Rate, start: real, asks: seq<Ask>): Bucket
  {
    if asks == [] then Full(rate, start)
    else Asked(rate, BucketAfter(rate, start, asks[..|asks| - 1]), asks[|asks| - 1])
  }

  /** The millisecond of every token granted, in order. */
  function Grants(rate: Rate, start: real, asks: seq<Ask>): seq<int>
  {
    if asks == [] then []
    else
      var before := asks[..|asks| - 1];
      Grants(rate, start, before) + Granted(rate, BucketAfter(rate, start, before), asks[|asks| - 1])
  }

  lemma {:induction false} RunIsBudgeted(rate: Rate, start: real, asks: seq<Ask>)
    requires rate.Valid()
    ensures Budgeted(rate, BucketAfter(rate, start, asks), Grants(rate, start, asks))
  {
    if asks != [] {
      var before, last := asks[..|asks| - 1], asks[|asks| - 1];
      var b, g := BucketAfter(rate, start, before), Grants(rate, start, before);
      RunIsBudgeted(rate, start, before);
      if last.Token? { TakeIsBudgeted(rate, b, g, last.t); } else { RefillIsBudgeted(rate, b, g, last.t); }
      assert g + [] == g;
    }
  }

  /**
   * Whatever a bucket is asked, and whenever, even by a clock that runs back: the tokens granted in any window stay
   * within its bound.
   */
  lemma {:induction false} ThroughputBound(rate: Rate, start: real, asks: seq<Ask>, from: int, to: int)
    requires rate.Valid() && from <= to
    ensures InWindow(Grants(rate, start, asks), from, to) * UNIT <= rate.Allowance(to - from)
  {
    RunIsBudgeted(rate, start, asks);
    WindowBound(rate, Grants(rate, start, asks), from, to);
  }

  // ------------------------------------------------------------------ composition of refills

  /** Refilling in between changes nothing that a later refill would show. */
  lemma {:induction false} RefillsCompose(rate: Rate, b: Bucket, s: real, t: real)
    requires rate.Valid() && s <= t && b.level <= rate.Units()
    ensures Refilled(rate, Refilled(rate, b, s), t) == Refilled(rate, b, t)
  {
    var m, n := Floor(s), Floor(t);
    if b.lastMs < m < n {
      assert (n - b.lastMs) * rate.refillPerMs == (m - b.lastMs) * rate.refillPerMs + (n - m) * rate.refillPerMs;
      assert (n - m) * rate.refillPerMs >= 0;
    }
  }

  /** The milliseconds an empty bucket needs to be full again. */
  function RefillMs(rate: Rate): nat
    requires rate.Valid()
  {
    (rate.Units() + rate.refillPerMs - 1) / rate.refillPerMs
  }

  lemma {:induction false} RefillsToFull(rate: Rate, b: Bucket, t: real)
    requires Sane(rate, b) && Floor(t) - b.lastMs >= RefillMs(rate)
    ensures Refilled(rate, b, t).level == rate.Units()
  {
    var r, ms := rate.refillPerMs, RefillMs(rate);
    assert ms * r >= rate.Units() by { CeilDiv(rate.Units(), r); }
    assert (Floor(t) - b.lastMs) * r >= ms * r;
    assert ms >= 1;
  }

  lemma {:induction false} CeilDiv(a: int, d: int)
    requires a >= 0 && d >= 1
    ensures (a + d - 1) / d * d >= a
    ensures (a + d - 1) / d * d < a + d
  {
    var q := (a + d - 1) / d;
    assert a + d - 1 == q * d + (a + d - 1) % d;
  }

  // ------------------------------------------------------------------ the object

  class TokenBucket {
    const rate: Rate
    var level: int
    var lastMs: int
    var takes: nat
    var admittedCount: nat
    var shedCount: nat

    ghost function State(): Bucket
      reads this
    {
      Bucket(level, lastMs, takes, admittedCount, shedCount)
    }

    constructor (rate: Rate, t: real)
      requires rate.Valid()
      ensures this.rate == rate && State() == Full(rate, t)
    {
      this.rate := rate;
      level, lastMs := rate.capacity * UNIT, Floor(t);
      takes, admittedCount, shedCount := 0, 0, 0;
    }

    method Refill(t: real) returns (dt: int)
      modifies this
      ensures State() == Refilled(rate, old(State()), t) && dt == lastMs
    {
      var now := Floor(t);
      if now > lastMs {
        level := Min(rate.Units(), level + (now - lastMs) * rate.refillPerMs);
        lastMs := now;
      }
      dt := lastMs;
    }

    method TakeOne(t: real) returns (taken: Taken)
      modifies this
      ensures (State(), taken) == Take(rate, old(State()), t)
    {
      var dt := Refill(t);
      takes := takes + 1;
      var ok := level >= UNIT;
      if ok {
        level := level - UNIT;
        admittedCount := admittedCount + 1;
      } else {
        shedCount := shedCount + 1;
      }
      taken := Taken(ok, dt, level, takes);
    }

    method LevelUnits(t: real) returns (units: int)
      modifies this
      ensures State() == Refilled(rate, old(State()), t) && units == level
    {
      var _ := Refill(t);
      units := level;
    }
  }
}
