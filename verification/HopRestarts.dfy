/**
 * A verifier that restarts with an empty replay set (defense/core/replay-guard.ts, ClockFence): the start fence stands
 * in for what was forgotten, exactly for proofs that were not presented ahead of their issue time.
 */
module HopRestarts {
  import opened Base
  import opened HopProofs
  import opened HopAdmissions
  import opened HopRuns
  import ReplayGuards

  /** The same keys and signatures, an empty guard, a new fence; work in flight is lost. */
  function Restarted(w: World, capacity: int, mono: real): World
  {
    w.(guard := ReplayGuards.Empty(capacity), waiting := map[], receipts := [], admitted := [], mono := mono)
  }

  lemma {:induction false} RestartIsTraced(cfg: Config, fence: real, digest: Bytes -> Text, w: World, capacity: int,
      mono: real)
    requires Traced(cfg, digest, w)
    ensures Traced(cfg.(fence := fence), digest, Restarted(w, capacity, mono))
  {
  }

  /** First presented no earlier than its issue time, and strictly before the new fence. */
  predicate Settled(r: Receipt, fence: real)
  {
    r.cleared.pb.iat as real <= r.wall < fence && r.cleared.own.iat as real <= r.wall
  }

  lemma {:induction false} FenceRefuses(c: Claims, verifier: Verifier, first: real, now: real)
    requires c.iat as real <= first < verifier.fence
    ensures CheckWindow(c, verifier, now) != None
  {
  }

  /**
   * Across a restart with an empty guard, no proof reserved before is reserved again, when every proof was first
   * presented no earlier than its issue time and strictly before the new fence.
   */
  lemma {:induction false} RestartKeepsSingleUse(cfg: Config, fence: real, digest: Bytes -> Text, w: World,
      capacity: int, mono: real, events: seq<Event>, i: nat, j: nat)
    requires Digests(digest) && Traced(cfg, digest, w)
    requires Possible(cfg.(fence := fence), digest, Restarted(w, capacity, mono), events)
    requires forall k :: 0 <= k < |w.receipts| ==> Settled(w.receipts[k], fence)
    requires i < |w.receipts| && j < |After(cfg.(fence := fence), digest, Restarted(w, capacity, mono),
             events).receipts|
    ensures var later := After(cfg.(fence := fence), digest, Restarted(w, capacity, mono), events).receipts[j].cleared;
            w.receipts[i].cleared.pb != later.pb && w.receipts[i].cleared.own != later.own
  {
    var cfg2 := cfg.(fence := fence);
    RestartIsTraced(cfg, fence, digest, w, capacity, mono);
    RunIsTraced(cfg2, digest, Restarted(w, capacity, mono), events);
    var n := After(cfg2, digest, Restarted(w, capacity, mono), events);
    var before, later := w.receipts[i], n.receipts[j];
    assert Settled(before, fence) && Backed(cfg2, n.issued, later);
    FenceRefuses(before.cleared.pb, cfg2.Upstream(), before.wall, later.wall);
    FenceRefuses(before.cleared.own, cfg2.Own(), before.wall, later.wall);
  }

  // ------------------------------------------------------------------ any number of restarts

  /** One life of a verifier between two restarts. */
  datatype Life = Life(fence: real, capacity: int, mono: real, events: seq<Event>)

  function Configured(cfg: Config, life: Life): Config { cfg.(fence := life.fence) }

  function Reborn(w: World, life: Life): World { Restarted(w, life.capacity, life.mono) }

  predicate Livable(cfg: Config, digest: Bytes -> Text, w: World, life: Life)
  {
    Possible(Configured(cfg, life), digest, Reborn(w, life), life.events)
  }

  function Lived(cfg: Config, digest: Bytes -> Text, w: World, life: Life): World
    requires Livable(cfg, digest, w, life)
  {
    After(Configured(cfg, life), digest, Reborn(w, life), life.events)
  }

  predicate PossibleLives(cfg: Config, digest: Bytes -> Text, w: World, lives: seq<Life>)
    decreases |lives|
  {
    lives == [] || (Livable(cfg, digest, w, lives[0])
      && PossibleLives(cfg, digest, Lived(cfg, digest, w, lives[0]), lives[1..]))
  }

  /** Every reservation of every life, in order. */
  function ReceiptsOf(cfg: Config, digest: Bytes -> Text, w: World, lives: seq<Life>): seq<Receipt>
    requires PossibleLives(cfg, digest, w, lives)
    decreases |lives|
  {
    if lives == [] then []
    else
      var n := Lived(cfg, digest, w, lives[0]);
      n.receipts + ReceiptsOf(cfg, digest, n, lives[1..])
  }

  function AdmittedOf(cfg: Config, digest: Bytes -> Text, w: World, lives: seq<Life>): seq<Admission>
    requires PossibleLives(cfg, digest, w, lives)
    decreases |lives|
  {
    if lives == [] then []
    else
      var n := Lived(cfg, digest, w, lives[0]);
      n.admitted + AdmittedOf(cfg, digest, n, lives[1..])
  }

  predicate AllSettled(receipts: seq<Receipt>, fence: real)
  {
    forall k :: 0 <= k < |receipts| ==> Settled(receipts[k], fence)
  }

  /** At every restart, whatever was reserved in any earlier life is settled with respect to the new fence. */
  predicate Fenced(cfg: Config, digest: Bytes -> Text, w: World, past: seq<Receipt>, lives: seq<Life>)
    requires PossibleLives(cfg, digest, w, lives)
    decreases |lives|
  {
    lives == [] ||
    (AllSettled(past, lives[0].fence)
     && var n := Lived(cfg, digest, w, lives[0]);
        Fenced(cfg, digest, n, past + n.receipts, lives[1..]))
  }

  ghost predicate AllDrift(lives: seq<Life>) { forall k :: 0 <= k < |lives| ==> Drifts(lives[k].events) }

  /** What was issued was approved, and every Plane signature is of something issued. */
  ghost predicate Provenance(digest: Bytes -> Text, w: World)
  {
    && (forall i :: 0 <= i < |w.issued| ==> IssuedWell(digest, w.issued[i]))
    && (forall s :: s in w.signed ==> SignedWell(w.issued, s))
  }

  /** Admissions of reservations in the list, for pairwise different Plane proofs. */
  ghost predicate OneEach(receipts: seq<Receipt>, admitted: seq<Admission>)
  {
    && (forall k :: 0 <= k < |admitted| ==> admitted[k].receipt in receipts)
    && (forall i, j :: 0 <= i < j < |admitted| ==> admitted[i].receipt.cleared.pb != admitted[j].receipt.cleared.pb)
  }

  lemma {:induction false} LifeIsSound(cfg: Config, digest: Bytes -> Text, w: World, life: Life)
    requires Digests(digest) && Provenance(digest, w) && Livable(cfg, digest, w, life) && Drifts(life.events)
    ensures var n := Lived(cfg, digest, w, life);
            && Provenance(digest, n) && Single(n.receipts) && OneEach(n.receipts, n.admitted)
            && forall k :: 0 <= k < |n.receipts| ==> Backed(Configured(cfg, life), n.issued, n.receipts[k])
  {
    var c, s := Configured(cfg, life), Reborn(w, life);
    assert Traced(c, digest, s);
    assert Traced(c, digest, Lived(cfg, digest, w, life)) by { RunIsTraced(c, digest, s, life.events); }
    var lo := DriftIsSteady(life.events);
    RunRetains(c, digest, s, lo, life.events);
  }

  lemma {:induction false} SettledStaysOut(cfg: Config, life: Life, issued: seq<Issue>, before: Receipt, later: Receipt)
    requires Settled(before, life.fence) && Backed(Configured(cfg, life), issued, later)
    ensures before.cleared.pb != later.cleared.pb && before.cleared.own != later.cleared.own
  {
    var c := Configured(cfg, life);
    FenceRefuses(before.cleared.pb, c.Upstream(), before.wall, later.wall);
    FenceRefuses(before.cleared.own, c.Own(), before.wall, later.wall);
  }

  lemma {:induction false} SingleJoins(a: seq<Receipt>, b: seq<Receipt>)
    requires Single(a) && Single(b)
    requires forall i, j :: 0 <= i < |a| && 0 <= j < |b| ==>
             a[i].cleared.pb != b[j].cleared.pb && a[i].cleared.own != b[j].cleared.own
    ensures Single(a + b)
  {
  }

  lemma {:induction false} OneEachJoins(a: seq<Receipt>, x: seq<Admission>, b: seq<Receipt>, y: seq<Admission>)
    requires OneEach(a, x) && OneEach(b, y)
    requires forall i, j :: 0 <= i < |a| && 0 <= j < |b| ==> a[i].cleared.pb != b[j].cleared.pb
    ensures OneEach(a + b, x + y)
  {
    forall i, j | 0 <= i < |x| && 0 <= j < |y| ensures x[i].receipt.cleared.pb != y[j].receipt.cleared.pb {
      var k :| 0 <= k < |a| && a[k] == x[i].receipt;
      var l :| 0 <= l < |b| && b[l] == y[j].receipt;
    }
    forall k | 0 <= k < |x + y| ensures (x + y)[k].receipt in a + b {
      assert k < |x| ==> (x + y)[k] == x[k];
      assert k >= |x| ==> (x + y)[k] == y[k - |x|];
    }
  }

  lemma {:induction false} LivesAreSingle(cfg: Config, digest: Bytes -> Text, w: World, past: seq<Receipt>,
      done: seq<Admission>, lives: seq<Life>)
    requires Digests(digest) && Provenance(digest, w) && PossibleLives(cfg, digest, w, lives) && AllDrift(lives)
    requires Single(past) && OneEach(past, done) && Fenced(cfg, digest, w, past, lives)
    ensures Single(past + ReceiptsOf(cfg, digest, w, lives))
    ensures OneEach(past + ReceiptsOf(cfg, digest, w, lives), done + AdmittedOf(cfg, digest, w, lives))
    decreases |lives|
  {
    if lives == [] {
      assert past + [] == past && done + [] == done;
    } else {
      var life, n := lives[0], Lived(cfg, digest, w, lives[0]);
      LifeIsSound(cfg, digest, w, life);
      forall i, j | 0 <= i < |past| && 0 <= j < |n.receipts|
        ensures past[i].cleared.pb != n.receipts[j].cleared.pb && past[i].cleared.own != n.receipts[j].cleared.own
      {
        SettledStaysOut(cfg, life, n.issued, past[i], n.receipts[j]);
      }
      SingleJoins(past, n.receipts);
      OneEachJoins(past, done, n.receipts, n.admitted);
      LivesAreSingle(cfg, digest, n, past + n.receipts, done + n.admitted, lives[1..]);
      Associates(past, n.receipts, ReceiptsOf(cfg, digest, n, lives[1..]));
      Associates(done, n.admitted, AdmittedOf(cfg, digest, n, lives[1..]));
    }
  }

  lemma {:induction false} Associates<X>(a: seq<X>, b: seq<X>, c: seq<X>)
    ensures a + b + c == a + (b + c)
  {
  }

  /**
   * Over any number of restarts, each with an empty guard: no proof is reserved twice, in one life or in two, and one
   * Plane proof yields at most one admission, when within each life the clocks drift apart by less than 1000 ms and at
   * each restart every reservation so far was first presented no earlier than its issue time and strictly before the
   * new fence.
   */
  lemma {:induction false} OncePerProofAcrossRestarts(cfg: Config, digest: Bytes -> Text, lives: seq<Life>)
    requires Digests(digest) && PossibleLives(cfg, digest, Start(1, 0.0), lives) && AllDrift(lives)
    requires Fenced(cfg, digest, Start(1, 0.0), [], lives)
    ensures Single(ReceiptsOf(cfg, digest, Start(1, 0.0), lives))
    ensures OneEach(ReceiptsOf(cfg, digest, Start(1, 0.0), lives), AdmittedOf(cfg, digest, Start(1, 0.0), lives))
  {
    LivesAreSingle(cfg, digest, Start(1, 0.0), [], [], lives);
    assert [] + ReceiptsOf(cfg, digest, Start(1, 0.0), lives) == ReceiptsOf(cfg, digest, Start(1, 0.0), lives);
    assert [] + AdmittedOf(cfg, digest, Start(1, 0.0), lives) == AdmittedOf(cfg, digest, Start(1, 0.0), lives);
  }
}
