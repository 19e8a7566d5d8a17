/**
 * Observing the lanes changes nothing a later decision or enrollment reports, and a rested mechanism is a fresh one.
 */
module LaneObservation {
  import opened Base
  import opened Requests
  import opened TokenBuckets
  import opened CreditFilters
  import opened UseLedgers
  import opened JourneyLanes
  import opened LaneRuns

  // ------------------------------------------------------------------ states that behave alike from `t` on

  predicate LedgersAlike(a: Ledger, b: Ledger, epoch: nat)
  {
    && LiveEntries(a.entries, epoch) == LiveEntries(b.entries, epoch)
    && a.fullRefusals == b.fullRefusals && a.violations == b.violations
  }

  predicate BucketsAlike(rate: Rate, a: Bucket, b: Bucket, t: real)
  {
    a.level <= rate.Units() && b.level <= rate.Units() && Refilled(rate, a, t) == Refilled(rate, b, t)
  }

  ghost predicate FiltersAlike(geo: Geometry, a: Filter, b: Filter, t: real)
    requires geo.Valid()
  {
    a.epoch <= EpochAt(geo, t) && b.epoch <= EpochAt(geo, t) && Advance(geo, a, t) == Advance(geo, b, t)
  }

  /** The two states may differ in what was refilled, rotated or purged early, and in nothing that shows from `t` on. */
  ghost predicate Alike(cfg: Config, a: Lanes, b: Lanes, t: real)
    requires cfg.Valid()
  {
    && cfg.geo.t0 <= t
    && FiltersAlike(cfg.geo, a.filter, b.filter, t)
    && BucketsAlike(cfg.credited, a.credited, b.credited, t)
    && BucketsAlike(cfg.unverified, a.unverified, b.unverified, t)
    && LedgersAlike(a.ledger, b.ledger, EpochAt(cfg.geo, t))
  }

  lemma {:induction false} LiveLater(a: map<Digest, Use>, b: map<Digest, Use>, e: nat, later: nat)
    requires LiveEntries(a, e) == LiveEntries(b, e) && e <= later
    ensures LiveEntries(a, later) == LiveEntries(b, later)
  {
    var x, y := LiveEntries(a, later), LiveEntries(b, later);
    forall k ensures (k in x <==> k in y) && (k in x ==> x[k] == y[k]) {
      assert k in x ==> k in LiveEntries(a, e);
      assert k in y ==> k in LiveEntries(b, e);
      assert k in LiveEntries(a, e) ==> LiveEntries(a, e)[k] == LiveEntries(b, e)[k];
    }
  }

  lemma {:induction false} BucketsAlikeLater(rate: Rate, a: Bucket, b: Bucket, s: real, t: real)
    requires rate.Valid() && BucketsAlike(rate, a, b, s) && s <= t
    ensures BucketsAlike(rate, a, b, t) && Take(rate, a, t) == Take(rate, b, t)
  {
    RefillsCompose(rate, a, s, t);
    RefillsCompose(rate, b, s, t);
  }

  lemma {:induction false} FiltersAlikeLater(geo: Geometry, a: Filter, b: Filter, s: real, t: real)
    requires geo.Valid() && geo.t0 <= s <= t && FiltersAlike(geo, a, b, s)
    ensures FiltersAlike(geo, a, b, t)
  {
    EpochsGrow(geo, s, t);
    AdvancesCompose(geo, a, s, t);
    AdvancesCompose(geo, b, s, t);
  }

  lemma {:induction false} AlikeLater(cfg: Config, a: Lanes, b: Lanes, s: real, t: real)
    requires cfg.Valid() && Alike(cfg, a, b, s) && s <= t
    ensures Alike(cfg, a, b, t)
  {
    EpochsGrow(cfg.geo, s, t);
    FiltersAlikeLater(cfg.geo, a.filter, b.filter, s, t);
    BucketsAlikeLater(cfg.credited, a.credited, b.credited, s, t);
    BucketsAlikeLater(cfg.unverified, a.unverified, b.unverified, s, t);
    LiveLater(a.ledger.entries, b.ledger.entries, EpochAt(cfg.geo, s), EpochAt(cfg.geo, t));
  }

  // ------------------------------------------------------------------ the ledger sees live records only

  lemma {:induction false} PurgesAlike(a: Ledger, b: Ledger, epoch: nat)
    requires LedgersAlike(a, b, epoch)
    ensures LedgersAlike(MaybePurge(a, epoch), MaybePurge(b, epoch), epoch)
    ensures LedgersAlike(MaybePurge(a, epoch), a, epoch)
    ensures LedgersAlike(Purge(a, epoch), a, epoch)
  {
    assert LiveEntries(LiveEntries(a.entries, epoch), epoch) == LiveEntries(a.entries, epoch);
    assert LiveEntries(LiveEntries(b.entries, epoch), epoch) == LiveEntries(b.entries, epoch);
  }

  lemma {:induction false} CommittedAlike(a: Ledger, b: Ledger, key: Digest, epoch: nat)
    requires LedgersAlike(a, b, epoch)
    ensures Committed(a, key, epoch) == Committed(b, key, epoch)
  {
    assert key in LiveEntries(a.entries, epoch) <==> key in LiveEntries(b.entries, epoch);
    assert key in LiveEntries(a.entries, epoch) ==>
           LiveEntries(a.entries, epoch)[key] == LiveEntries(b.entries, epoch)[key];
  }

  lemma {:induction false} AllocationsAlike(capacity: int, a: Ledger, b: Ledger, epoch: nat)
    requires LedgersAlike(a, b, epoch)
    ensures CanAllocate(capacity, a, epoch).1 == CanAllocate(capacity, b, epoch).1
    ensures LedgersAlike(CanAllocate(capacity, a, epoch).0, CanAllocate(capacity, b, epoch).0, epoch)
  {
    AllocationNeedsLiveRoom(capacity, a, epoch);
    AllocationNeedsLiveRoom(capacity, b, epoch);
    PurgesAlike(a, a, epoch);
    PurgesAlike(b, b, epoch);
  }

  lemma {:induction false} LiveUpdate(entries: map<Digest, Use>, key: Digest, u: Use, epoch: nat)
    requires Live(u, epoch)
    ensures LiveEntries(entries[key := u], epoch) == LiveEntries(entries, epoch)[key := u]
  {
  }

  lemma {:induction false} CommitsAlike(maxUses: int, a: Ledger, b: Ledger, key: Digest, epoch: nat)
    requires LedgersAlike(a, b, epoch)
    ensures LedgersAlike(Commit(maxUses, a, key, epoch), Commit(maxUses, b, key, epoch), epoch)
  {
    var x, y := LiveEntries(a.entries, epoch), LiveEntries(b.entries, epoch);
    assert key in x <==> key in a.entries && Live(a.entries[key], epoch);
    assert key in y <==> key in b.entries && Live(b.entries[key], epoch);
    if key in x {
      var u := x[key];
      assert a.entries[key] == u && b.entries[key] == u;
      LiveUpdate(a.entries, key, u.(committed := u.committed + 1), epoch);
      LiveUpdate(b.entries, key, u.(committed := u.committed + 1), epoch);
    } else {
      LiveUpdate(a.entries, key, Use(1, epoch), epoch);
      LiveUpdate(b.entries, key, Use(1, epoch), epoch);
    }
  }

  // ------------------------------------------------------------------ operations on alike states

  lemma {:induction false} ClassifyAlike(cfg: Config, a: Lanes, b: Lanes, token: Option<Text>, at: Reads)
    requires cfg.Valid() && at.Ordered() && Alike(cfg, a, b, at.first)
    ensures var x := Classify(cfg, a, token, at);
            var y := Classify(cfg, b, token, at);
            && x.filter == y.filter && x.epoch == y.epoch == EpochAt(cfg.geo, at.first)
            && x.credit == y.credit && x.isNew == y.isNew && LedgersAlike(x.ledger, y.ledger, x.epoch)
            && x.filter.epoch <= EpochAt(cfg.geo, at.third)
  {
    var epoch := EpochAt(cfg.geo, at.first);
    EpochsGrow(cfg.geo, at.first, at.second);
    EpochsGrow(cfg.geo, at.second, at.third);
    PurgesAlike(a.ledger, b.ledger, epoch);
    if token.Some? {
      CommittedAlike(MaybePurge(a.ledger, epoch), MaybePurge(b.ledger, epoch), cfg.digest(token.value), epoch);
    }
  }

  lemma {:induction false} CreditedAlike(cfg: Config, a: CreditState, b: CreditState, cls: OperationClass, d: Digest,
      epoch: nat, isNew: bool, s: real, t: real)
    requires cfg.Valid() && s <= t && BucketsAlike(cfg.credited, a.bucket, b.bucket, s)
             && LedgersAlike(a.ledger, b.ledger, epoch)
    ensures var x := OnCredited(cfg.credited, cfg.ledgerCapacity, cfg.maxUses, a, cls, d, epoch, isNew, t);
            var y := OnCredited(cfg.credited, cfg.ledgerCapacity, cfg.maxUses, b, cls, d, epoch, isNew, t);
            x.1 == y.1 && LedgersAlike(x.0.ledger, y.0.ledger, epoch)
              && BucketsAlike(cfg.credited, x.0.bucket, y.0.bucket, t)
  {
    BucketsAlikeLater(cfg.credited, a.bucket, b.bucket, s, t);
    AllocationsAlike(cfg.ledgerCapacity, a.ledger, b.ledger, epoch);
    var k := if isNew then CanAllocate(cfg.ledgerCapacity, a.ledger, epoch).0 else a.ledger;
    var l := if isNew then CanAllocate(cfg.ledgerCapacity, b.ledger, epoch).0 else b.ledger;
    CommitsAlike(cfg.maxUses, k, l, d, epoch);
  }

  lemma {:induction false} DecisionsAlike(cfg: Config, a: Lanes, b: Lanes, cls: OperationClass, token: Option<Text>,
      at: Reads)
    requires cfg.Valid() && at.Ordered() && Alike(cfg, a, b, at.first)
    ensures DecideAs(cfg, a, cls, token, at).1 == DecideAs(cfg, b, cls, token, at).1
    ensures Alike(cfg, DecideAs(cfg, a, cls, token, at).0, DecideAs(cfg, b, cls, token, at).0, at.third)
  {
    AlikeLater(cfg, a, b, at.first, at.third);
    if cls != Open {
      var x, y := Classify(cfg, a, token, at), Classify(cfg, b, token, at);
      ClassifyAlike(cfg, a, b, token, at);
      EpochsGrow(cfg.geo, at.first, at.third);
      var e := EpochAt(cfg.geo, at.third);
      if x.credit.Some? {
        var p, q := CreditState(a.credited, x.ledger), CreditState(b.credited, y.ledger);
        CreditedAlike(cfg, p, q, cls, x.credit.value, x.epoch, x.isNew, at.first, at.third);
        LiveLater(DecideAs(cfg, a, cls, token, at).0.ledger.entries, DecideAs(cfg, b, cls, token, at).0.ledger.entries,
          x.epoch, e);
      } else {
        BucketsAlikeLater(cfg.unverified, a.unverified, b.unverified, at.first, at.third);
        LiveLater(x.ledger.entries, y.ledger.entries, x.epoch, e);
      }
    }
  }

  lemma {:induction false} EnrollmentsAlike(cfg: Config, a: Lanes, b: Lanes, token: Text, at: Reads)
    requires cfg.Valid() && at.Ordered() && Alike(cfg, a, b, at.first)
    ensures Enroll(cfg, a, token, at).1 == Enroll(cfg, b, token, at).1
    ensures Alike(cfg, Enroll(cfg, a, token, at).0, Enroll(cfg, b, token, at).0, at.third)
  {
    AlikeLater(cfg, a, b, at.first, at.third);
    EpochsGrow(cfg.geo, at.first, at.second);
    EpochsGrow(cfg.geo, at.second, at.third);
    CommittedAlike(a.ledger, b.ledger, cfg.digest(token), EpochAt(cfg.geo, at.first));
  }

  /** A snapshot leaves a state alike to the one it observed. */
  lemma {:induction false} SnapshotIsAlike(cfg: Config, a: Lanes, b: Lanes, at: Reads)
    requires cfg.Valid() && at.Ordered() && Alike(cfg, a, b, at.first)
    ensures Alike(cfg, Snapshot(cfg, a, at).0, b, at.third)
  {
    var e1, e3 := EpochAt(cfg.geo, at.first), EpochAt(cfg.geo, at.third);
    AlikeLater(cfg, a, b, at.first, at.third);
    EpochsGrow(cfg.geo, at.first, at.third);
    AdvancesCompose(cfg.geo, a.filter, at.first, at.third);
    RefillsCompose(cfg.credited, a.credited, at.second, at.third);
    PurgesAlike(a.ledger, b.ledger, e1);
    LiveLater(MaybePurge(a.ledger, e1).entries, a.ledger.entries, e1, e3);
    assert Refilled(cfg.unverified, Refilled(cfg.unverified, a.unverified, at.third), at.third)
        == Refilled(cfg.unverified, a.unverified, at.third);
  }

  /** So does a reading of the fill. */
  lemma {:induction false} FillIsAlike(cfg: Config, a: Lanes, b: Lanes, at: Reads)
    requires cfg.Valid() && at.Ordered() && Alike(cfg, a, b, at.first)
    ensures Alike(cfg, Fill(cfg, a, at.first).0, b, at.third)
  {
    AlikeLater(cfg, a, b, at.first, at.third);
    EpochsGrow(cfg.geo, at.first, at.third);
    AdvancesCompose(cfg.geo, a.filter, at.first, at.third);
  }

  // ------------------------------------------------------------------ observation neutrality

  /** A snapshot, or a reading of the filter's fill. */
  predicate Observes(op: Op) { op.ObserveOp? || op.FillOp? }

  /** What the decisions and enrollments of a run report; observations report nothing here. */
  ghost function Reports(cfg: Config, s: Lanes, ops: seq<Op>): seq<Result>
    requires cfg.geo.Valid()
    decreases |ops|
  {
    if ops == [] then []
    else
      var (n, r) := Apply(cfg, s, ops[0]);
      (if Observes(ops[0]) then [] else [r]) + Reports(cfg, n, ops[1..])
  }

  function Unobserved(ops: seq<Op>): seq<Op>
  {
    if ops == [] then []
    else (if Observes(ops[0]) then [] else [ops[0]]) + Unobserved(ops[1..])
  }

  lemma {:induction false} ActsAlike(cfg: Config, a: Lanes, b: Lanes, op: Op)
    requires cfg.Valid() && op.at.Ordered() && Alike(cfg, a, b, op.at.first) && !Observes(op)
    ensures Apply(cfg, a, op).1 == Apply(cfg, b, op).1
    ensures Alike(cfg, Apply(cfg, a, op).0, Apply(cfg, b, op).0, op.at.third)
  {
    match op
    case DecideOp(request, at) =>
      var cls := ClassOf(request.verb, request.target);
      DecisionsAlike(cfg, a, b, cls, if cls == Mutation then TokenOf(request) else None, at);
    case EnrollOp(token, at) =>
      EnrollmentsAlike(cfg, a, b, token, at);
  }

  lemma {:induction false} ReportsAlike(cfg: Config, a: Lanes, b: Lanes, ops: seq<Op>, now: real)
    requires cfg.Valid() && Chronological(ops, now) && Alike(cfg, a, b, now)
    ensures Reports(cfg, a, ops) == Reports(cfg, b, Unobserved(ops))
    decreases |ops|
  {
    if ops != [] {
      var op := ops[0];
      AlikeLater(cfg, a, b, now, op.at.first);
      if Observes(op) {
        if op.ObserveOp? { SnapshotIsAlike(cfg, a, b, op.at); } else { FillIsAlike(cfg, a, b, op.at); }
        ReportsAlike(cfg, Apply(cfg, a, op).0, b, ops[1..], op.at.third);
        assert Unobserved(ops) == Unobserved(ops[1..]);
      } else {
        ActsAlike(cfg, a, b, op);
        ReportsAlike(cfg, Apply(cfg, a, op).0, Apply(cfg, b, op).0, ops[1..], op.at.third);
        assert Unobserved(ops)[0] == op && Unobserved(ops)[1..] == Unobserved(ops[1..]);
      }
    }
  }

  /**
   * Inserting any number of snapshots and fill readings anywhere in a run changes no decision and no enrollment result.
   */
  lemma {:induction false} ObservationIsNeutral(cfg: Config, r: Run, ops: seq<Op>)
    requires Inv(cfg, r) && Chronological(ops, r.now)
    ensures Reports(cfg, r.lanes, ops) == Reports(cfg, r.lanes, Unobserved(ops))
  {
    ReportsAlike(cfg, r.lanes, r.lanes, ops, r.now);
  }

  // ------------------------------------------------------------------ quiescence

  lemma {:induction false} FloorStep(s: real, t: real, n: int)
    requires t >= s + n as real
    ensures Floor(t) >= Floor(s) + n
  {
  }

  lemma {:induction false} NothingLives(cfg: Config, r: Run, epoch: nat)
    requires Inv(cfg, r) && epoch >= r.lanes.filter.epoch + 2
    ensures MaybePurge(r.lanes.ledger, epoch).entries == map[]
  {
    forall k | k in r.lanes.ledger.entries ensures !Live(r.lanes.ledger.entries[k], epoch) {
      assert Witnessed(r.admissions, k, r.lanes.ledger.entries[k]);
    }
  }

  /** After any run, two idle epochs and the refill time of both buckets bring back the initial quiescence state. */
  lemma {:induction false} Recovery(cfg: Config, r: Run, at: Reads, start: Reads, soon: Reads)
    requires Inv(cfg, r) && at.Ordered() && soon.Ordered() && start.Ordered() && start.third <= soon.first
    requires at.first >= r.now + 2.0 * cfg.geo.epochMs as real
    requires at.second >= r.now + RefillMs(cfg.credited) as real
    requires at.third >= r.now + RefillMs(cfg.unverified) as real
    ensures Snapshot(cfg, r.lanes, at).1
         == Quiescence(cfg.credited.Units(), cfg.unverified.Units(), (0, 0), 0)
         == Snapshot(cfg, Initial(cfg, start), soon).1
  {
    EpochSpan(cfg.geo, r.now, at.first);
    NothingLives(cfg, r, EpochAt(cfg.geo, at.first));
    FloorStep(r.now, at.second, RefillMs(cfg.credited));
    FloorStep(r.now, at.third, RefillMs(cfg.unverified));
    RefillsToFull(cfg.credited, r.lanes.credited, at.second);
    RefillsToFull(cfg.unverified, r.lanes.unverified, at.third);
    FreshSnapshot(cfg, start, soon);
  }

  lemma {:induction false} FreshSnapshot(cfg: Config, start: Reads, soon: Reads)
    requires cfg.Valid()
    ensures Snapshot(cfg, Initial(cfg, start), soon).1
         == Quiescence(cfg.credited.Units(), cfg.unverified.Units(), (0, 0), 0)
  {
    StaysFull(cfg.credited, Full(cfg.credited, start.second), soon.second);
    StaysFull(cfg.unverified, Full(cfg.unverified, start.third), soon.third);
  }

  lemma {:induction false} StaysFull(rate: Rate, b: Bucket, t: real)
    requires rate.Valid() && b.level == rate.Units()
    ensures Refilled(rate, b, t).level == rate.Units()
  {
    if Floor(t) > b.lastMs {
      assert (Floor(t) - b.lastMs) * rate.refillPerMs >= 0;
    }
  }
}
