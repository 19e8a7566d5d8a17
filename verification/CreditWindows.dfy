/**
 * What one enrollment is worth: from the insertion in epoch L until the epoch reaches L+2, at most `maxUses` credited
 * admissions, and with uses left never the unverified lane.
 */
module CreditWindows {
  import opened Base
  import opened Requests
  import opened TokenBuckets
  import opened CreditFilters
  import opened UseLedgers
  import opened JourneyLanes
  import opened LaneRuns

  /** The credited admissions of `key` from index `from` on that were filed before epoch L+2. */
  function Uses(a: seq<Admission>, from: nat, key: Digest, start: nat): nat
  {
    if |a| <= from then 0
    else
      var x := a[|a| - 1];
      Uses(a[..|a| - 1], from, key, start) + if x.key == key && x.epoch < start + 2 then 1 else 0
  }

  lemma {:induction false} UsesGrow(a: seq<Admission>, from: nat, key: Digest, start: nat, x: Admission)
    requires from <= |a|
    ensures Uses(a + [x], from, key, start) == Uses(a, from, key, start) + if x.key == key && x.epoch < start + 2 then
            1 else 0
  {
    assert (a + [x])[..|a|] == a;
  }

  /** The record of `key` is either exactly the tally since the enrollment, or from before it and already expired. */
  predicate Tallied(entries: map<Digest, Use>, key: Digest, start: nat, n: nat)
  {
    if key in entries && entries[key].firstEpoch >= start then n == entries[key].committed
    else n == 0 && (key in entries ==> entries[key].firstEpoch + 2 <= start)
  }

  ghost predicate InWindow(cfg: Config, r: Run, from: nat, key: Digest, start: nat)
  {
    var n := Uses(r.admissions, from, key, start);
    && from <= |r.admissions| && start <= r.lanes.filter.epoch && n <= cfg.maxUses
    && (r.lanes.filter.epoch <= start + 1 ==> Tallied(r.lanes.ledger.entries, key, start, n))
  }

  lemma {:induction false} PurgeTallies(l: Ledger, epoch: nat, key: Digest, start: nat, n: nat)
    requires Tallied(l.entries, key, start, n) && start <= epoch <= start + 1
    ensures Tallied(MaybePurge(l, epoch).entries, key, start, n)
    ensures Tallied(Purge(l, epoch).entries, key, start, n)
  {
  }

  lemma {:induction false} CommitTallies(cfg: Config, l: Ledger, other: Digest, epoch: nat, key: Digest, start: nat,
      n: nat)
    requires cfg.Valid() && Tallied(l.entries, key, start, n) && start <= epoch <= start + 1 && n <= cfg.maxUses
    requires Committed(l, other, epoch).Some? ==> Committed(l, other, epoch).value < cfg.maxUses
    ensures var m := n + if other == key then 1 else 0;
            Tallied(Commit(cfg.maxUses, l, other, epoch).entries, key, start, m) && m <= cfg.maxUses
  {
  }

  lemma {:induction false} CreditedTallies(cfg: Config, s: CreditState, cls: OperationClass, d: Digest, epoch: nat,
      isNew: bool, t: real, key: Digest, start: nat, n: nat)
    requires cfg.Valid() && start <= epoch <= start + 1 && n <= cfg.maxUses
    requires Tallied(s.ledger.entries, key, start, n)
    requires isNew == Committed(s.ledger, d, epoch).None?
    requires !isNew ==> Committed(s.ledger, d, epoch).value < cfg.maxUses
    ensures var (c, decision) := OnCredited(cfg.credited, cfg.ledgerCapacity, cfg.maxUses, s, cls, d, epoch, isNew, t);
            var m := n + if decision.outcome == Admitted && d == key then 1 else 0;
            Tallied(c.ledger.entries, key, start, m) && m <= cfg.maxUses
  {
    PurgeTallies(s.ledger, epoch, key, start, n);
    var l := if isNew then CanAllocate(cfg.ledgerCapacity, s.ledger, epoch).0 else s.ledger;
    CommitTallies(cfg, l, d, epoch, key, start, n);
  }

  lemma {:induction false} CreditedUses(cfg: Config, s: CreditState, cls: OperationClass, d: Digest, epoch: nat,
      isNew: bool, t: real, a: seq<Admission>, from: nat, key: Digest, start: nat)
    requires from <= |a|
    ensures var decision := OnCredited(cfg.credited, cfg.ledgerCapacity, cfg.maxUses, s, cls, d, epoch, isNew, t).1;
            && Uses(a + NewAdmissions(Decided(decision), epoch), from, key, start)
               == Uses(a, from, key, start) + (if decision.outcome == Admitted && d == key && epoch < start + 2 then 1
                 else 0)
            && from <= |a + NewAdmissions(Decided(decision), epoch)|
  {
    var k := Take(cfg.credited, s.bucket, t).1;
    UsesGrow(a, from, key, start, Admission(d, epoch, k.dt));
    assert a + [] == a;
  }

  /** The window after a decision on the credited lane, from what its classification found. */
  lemma {:induction false} ClassifiedStaysInWindow(cfg: Config, r: Run, cls: OperationClass, c: Classified, at: Reads,
                                                   from: nat, key: Digest, start: nat)
    requires cfg.Valid() && InWindow(cfg, r, from, key, start) && c.credit.Some?
    requires r.lanes.filter.epoch <= c.epoch <= c.filter.epoch && c.ledger == MaybePurge(r.lanes.ledger, c.epoch)
    requires c.isNew == Committed(c.ledger, c.credit.value, c.epoch).None?
    requires !c.isNew ==> Committed(c.ledger, c.credit.value, c.epoch).value < cfg.maxUses
    ensures var (n, decision) := DecideClassified(cfg, r.lanes, cls, c, at);
            InWindow(cfg, Run(n, at.third, r.admissions + NewAdmissions(Decided(decision), c.epoch), r.insertions,
              r.results + [Decided(decision)]),
                     from, key, start)
  {
    var n, d, s := Uses(r.admissions, from, key, start), c.credit.value, CreditState(r.lanes.credited, c.ledger);
    if c.epoch <= start + 1 {
      PurgeTallies(r.lanes.ledger, c.epoch, key, start, n);
      CreditedTallies(cfg, s, cls, d, c.epoch, c.isNew, at.third, key, start, n);
    }
    CreditedUses(cfg, s, cls, d, c.epoch, c.isNew, at.third, r.admissions, from, key, start);
  }

  lemma {:induction false} CreditedStaysInWindow(cfg: Config, r: Run, cls: OperationClass, token: Option<Text>,
      at: Reads, from: nat, key: Digest, start: nat)
    requires Inv(cfg, r) && at.Ordered() && r.now <= at.first && InWindow(cfg, r, from, key, start) && cls != Open
    requires Classify(cfg, r.lanes, token, at).credit.Some?
    ensures InWindow(cfg, AfterDecision(cfg, r, cls, token, at), from, key, start)
  {
    ClassifyKeepsFilter(cfg, r, token, at);
    ClassifyKeepsLedger(cfg, r, token, at);
    ClassifiedStaysInWindow(cfg, r, cls, Classify(cfg, r.lanes, token, at), at, from, key, start);
  }

  lemma {:induction false} DecisionStaysInWindow(cfg: Config, r: Run, cls: OperationClass, token: Option<Text>,
      at: Reads, from: nat, key: Digest, start: nat)
    requires Inv(cfg, r) && at.Ordered() && r.now <= at.first && InWindow(cfg, r, from, key, start)
    ensures InWindow(cfg, AfterDecision(cfg, r, cls, token, at), from, key, start)
  {
    assert r.admissions + [] == r.admissions;
    var c := Classify(cfg, r.lanes, token, at);
    if cls != Open && c.credit.Some? {
      CreditedStaysInWindow(cfg, r, cls, token, at, from, key, start);
    } else if cls != Open {
      ClassifyKeepsFilter(cfg, r, token, at);
      ClassifyKeepsLedger(cfg, r, token, at);
      if c.epoch <= start + 1 {
        PurgeTallies(r.lanes.ledger, c.epoch, key, start, Uses(r.admissions, from, key, start));
      }
    }
  }

  lemma {:induction false} StepStaysInWindow(cfg: Config, r: Run, op: Op, from: nat, key: Digest, start: nat)
    requires Inv(cfg, r) && op.at.Ordered() && r.now <= op.at.first && InWindow(cfg, r, from, key, start)
    ensures InWindow(cfg, Step(cfg, r, op), from, key, start)
  {
    assert r.admissions + [] == r.admissions;
    match op
    case DecideOp(request, at) =>
      var cls := ClassOf(request.verb, request.target);
      DecisionStaysInWindow(cfg, r, cls, if cls == Mutation then TokenOf(request) else None, at, from, key, start);
    case EnrollOp(token, at) =>
    case FillOp(at) =>
    case ObserveOp(at) =>
      var e := Advance(cfg.geo, r.lanes.filter, at.first).epoch;
      if e <= start + 1 {
        PurgeTallies(r.lanes.ledger, e, key, start, Uses(r.admissions, from, key, start));
      }
  }

  lemma {:induction false} RunStaysInWindow(cfg: Config, r: Run, ops: seq<Op>, from: nat, key: Digest, start: nat)
    requires Inv(cfg, r) && Chronological(ops, r.now) && InWindow(cfg, r, from, key, start)
    ensures InWindow(cfg, RunOps(cfg, r, ops), from, key, start)
    decreases |ops|
  {
    if ops != [] {
      StepStaysInWindow(cfg, r, ops[0], from, key, start);
      StepKeeps(cfg, r, ops[0]);
      RunStaysInWindow(cfg, Step(cfg, r, ops[0]), ops[1..], from, key, start);
    }
  }

  lemma {:induction false} EnrollmentOpensWindow(cfg: Config, r: Run, token: Text, at: Reads)
    requires Inv(cfg, r) && at.Ordered() && r.now <= at.first
    requires Apply(cfg, r.lanes, EnrollOp(token, at)).1 == Enrolled(true)
    ensures InWindow(cfg, Step(cfg, r, EnrollOp(token, at)), |r.admissions|, cfg.digest(token),
            EpochAt(cfg.geo, at.third))
  {
    EpochsGrow(cfg.geo, r.now, at.first);
    EpochsGrow(cfg.geo, at.first, at.second);
    EpochsGrow(cfg.geo, at.second, at.third);
    assert r.admissions + [] == r.admissions;
  }

  /**
   * After a successful enrollment inserted in epoch L, whatever follows (false positives, replays and re-enrollments of
   * the same token included), the credited admissions of that digest filed before epoch L+2 number at most `maxUses`.
   */
  lemma {:induction false} UsesAreBounded(cfg: Config, r: Run, token: Text, at: Reads, ops: seq<Op>)
    requires Inv(cfg, r) && at.Ordered() && r.now <= at.first && Chronological(ops, at.third)
    requires Apply(cfg, r.lanes, EnrollOp(token, at)).1 == Enrolled(true)
    ensures var end := RunOps(cfg, Step(cfg, r, EnrollOp(token, at)), ops);
            Uses(end.admissions, |r.admissions|, cfg.digest(token), EpochAt(cfg.geo, at.third)) <= cfg.maxUses
  {
    EnrollmentOpensWindow(cfg, r, token, at);
    StepKeeps(cfg, r, EnrollOp(token, at));
    RunStaysInWindow(cfg, Step(cfg, r, EnrollOp(token, at)), ops, |r.admissions|, cfg.digest(token),
      EpochAt(cfg.geo, at.third));
  }

  // ------------------------------------------------------------------ no loss of genuine credit

  predicate Recorded(ins: seq<Insertion>, x: Insertion) { exists k :: 0 <= k < |ins| && ins[k] == x }

  lemma {:induction false} InsertionsStay(cfg: Config, r: Run, ops: seq<Op>, x: Insertion)
    requires cfg.geo.Valid() && Recorded(r.insertions, x)
    ensures Recorded(RunOps(cfg, r, ops).insertions, x)
    decreases |ops|
  {
    if ops != [] {
      var n := Step(cfg, r, ops[0]);
      var k :| 0 <= k < |r.insertions| && r.insertions[k] == x;
      assert n.insertions[k] == x;
      InsertionsStay(cfg, n, ops[1..], x);
    }
  }

  /** Classification of an enrolled token with uses left. */
  lemma {:induction false} EnrolledIsCredited(cfg: Config, r: Run, token: Text, at: Reads, inserted: real, from: nat)
    requires Inv(cfg, r) && at.Ordered() && r.now <= at.first
    requires Recorded(r.insertions, Insertion(cfg.digest(token), inserted))
    requires InWindow(cfg, r, from, cfg.digest(token), EpochAt(cfg.geo, inserted))
    requires Uses(r.admissions, from, cfg.digest(token), EpochAt(cfg.geo, inserted)) < cfg.maxUses
    requires EpochAt(cfg.geo, at.second) <= EpochAt(cfg.geo, inserted) + 1
    ensures Classify(cfg, r.lanes, Some(token), at).credit == Some(cfg.digest(token))
  {
    var d, start := cfg.digest(token), EpochAt(cfg.geo, inserted);
    var k :| 0 <= k < |r.insertions| && r.insertions[k] == Insertion(d, inserted);
    EpochsGrow(cfg.geo, r.now, at.first);
    EpochsGrow(cfg.geo, at.first, at.second);
    AdvancesCompose(cfg.geo, r.lanes.filter, at.first, at.second);
    assert Stamped(cfg.geo, r.insertions, at.second);
    NoFalseNegative(cfg.geo, r.lanes.filter, r.insertions, k, at.second);
    var epoch := Advance(cfg.geo, r.lanes.filter, at.first).epoch;
    PurgeTallies(r.lanes.ledger, epoch, d, start, Uses(r.admissions, from, d, start));
  }

  /**
   * An enrolled token with uses left is never classified into the unverified lane inside its window: the decision is on
   * the credited lane, admitted or shed by that lane's own bucket.
   */
  lemma {:induction false} GenuineCreditHolds(cfg: Config, r: Run, token: Text, at: Reads, ops: seq<Op>,
      request: LayerRequest, later: Reads)
    requires Inv(cfg, r) && at.Ordered() && r.now <= at.first && Chronological(ops, at.third)
    requires Apply(cfg, r.lanes, EnrollOp(token, at)).1 == Enrolled(true)
    requires var now := RunOps(cfg, Step(cfg, r, EnrollOp(token, at)), ops);
             && later.Ordered() && now.now <= later.first
             && ClassOf(request.verb, request.target) == Mutation && TokenOf(request) == Some(token)
             && EpochAt(cfg.geo, later.second) <= EpochAt(cfg.geo, at.third) + 1
             && Uses(now.admissions, |r.admissions|, cfg.digest(token), EpochAt(cfg.geo, at.third)) < cfg.maxUses
    ensures var now := RunOps(cfg, Step(cfg, r, EnrollOp(token, at)), ops);
            Decide(cfg, now.lanes, request, later).1.lane == Some(Credited)
  {
    var begun, d := Step(cfg, r, EnrollOp(token, at)), cfg.digest(token);
    var now := RunOps(cfg, begun, ops);
    EnrollmentOpensWindow(cfg, r, token, at);
    StepKeeps(cfg, r, EnrollOp(token, at));
    RunKeeps(cfg, begun, ops);
    RunStaysInWindow(cfg, begun, ops, |r.admissions|, d, EpochAt(cfg.geo, at.third));
    assert begun.insertions[|r.insertions|] == Insertion(d, at.third);
    InsertionsStay(cfg, begun, ops, Insertion(d, at.third));
    EnrolledIsCredited(cfg, now, token, later, at.third, |r.admissions|);
    CreditedDecisionKeeps(cfg, now, Mutation, Some(token), later);
  }
}
