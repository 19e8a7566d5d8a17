/**
 * Runs of the lane mechanism: any sequence of decisions, enrollments and snapshots under a non-decreasing clock that
 * may move between the reads of a single call. `Run` carries, beside the state, the history the theorems speak about.
 */
module LaneRuns {
  import opened Base
  import opened Requests
  import opened TokenBuckets
  import opened CreditFilters
  import opened UseLedgers
  import opened JourneyLanes
  import Tallies

  datatype Op =
    | DecideOp(request: LayerRequest, at: Reads)
    | EnrollOp(token: Text, at: Reads)
    | FillOp(at: Reads)
    | ObserveOp(at: Reads)

  datatype Result = Decided(decision: Decision) | Enrolled(ok: bool) | Filled(popcounts: (nat, nat))
    | Seen(q: Quiescence)

  ghost function Apply(cfg: Config, s: Lanes, op: Op): (Lanes, Result)
    requires cfg.geo.Valid()
  {
    match op
    case DecideOp(request, at) => var (n, d) := Decide(cfg, s, request, at); (n, Decided(d))
    case EnrollOp(token, at) => var (n, ok) := Enroll(cfg, s, token, at); (n, Enrolled(ok))
    case FillOp(at) => var (n, fill) := Fill(cfg, s, at.first); (n, Filled(fill))
    case ObserveOp(at) => var (n, q) := Snapshot(cfg, s, at); (n, Seen(q))
  }

  predicate Chronological(ops: seq<Op>, now: real)
  {
    ops == [] ||
    (ops[0].at.Ordered() && now <= ops[0].at.first && Chronological(ops[1..], ops[0].at.third))
  }

  /** A credited admission: the digest, the epoch its use was filed under and the bucket's millisecond. */
  datatype Admission = Admission(key: Digest, epoch: nat, ms: int)

  datatype Run = Run(lanes: Lanes, now: real, admissions: seq<Admission>, insertions: seq<Insertion>,
    results: seq<Result>)

  function NewAdmissions(r: Result, epoch: nat): seq<Admission>
  {
    if r.Decided? && r.decision.lane == Some(Credited) && r.decision.outcome == Admitted
       && r.decision.credit.Some? && r.decision.taken.Some?
    then [Admission(r.decision.credit.value, epoch, r.decision.taken.value.dt)] else []
  }

  ghost function Step(cfg: Config, r: Run, op: Op): Run
    requires cfg.geo.Valid()
  {
    var (n, result) := Apply(cfg, r.lanes, op);
    Run(n, op.at.third,
        r.admissions + NewAdmissions(result, Advance(cfg.geo, r.lanes.filter, op.at.first).epoch),
        if result == Enrolled(true) then r.insertions + [Insertion(cfg.digest(op.token), op.at.third)]
          else r.insertions,
        r.results + [result])
  }

  ghost function RunOps(cfg: Config, r: Run, ops: seq<Op>): Run
    requires cfg.geo.Valid()
    decreases |ops|
  {
    if ops == [] then r else RunOps(cfg, Step(cfg, r, ops[0]), ops[1..])
  }

  /** A fresh mechanism whose construction took the three reads `at`, the first of them being the filter's t0. */
  ghost function Begin(cfg: Config, at: Reads): Run { Run(Initial(cfg, at), at.third, [], [], []) }

  // ------------------------------------------------------------------ the invariant

  function Millis(a: seq<Admission>): seq<int> { seq(|a|, i requires 0 <= i < |a| => a[i].ms) }

  ghost predicate ClockOk(cfg: Config, r: Run)
    requires cfg.Valid()
  {
    && cfg.geo.t0 <= r.now
    && r.lanes.filter.epoch <= EpochAt(cfg.geo, r.now)
    && r.lanes.credited.lastMs <= Floor(r.now) && r.lanes.unverified.lastMs <= Floor(r.now)
    && Sane(cfg.unverified, r.lanes.unverified)
    && r.lanes.ledger.lastPurge <= r.lanes.filter.epoch
  }

  ghost predicate FilterOk(cfg: Config, r: Run)
    requires cfg.Valid()
  {
    Refines(cfg.geo, r.lanes.filter, r.insertions) && Stamped(cfg.geo, r.insertions, r.now)
  }

  /** Admissions are in epoch order, none is filed ahead of the filter, and none was granted before its epoch began. */
  ghost predicate Filed(cfg: Config, a: seq<Admission>, epoch: nat)
    requires cfg.Valid()
  {
    && (forall i, j :: 0 <= i <= j < |a| ==> a[i].epoch <= a[j].epoch)
    && (forall i :: 0 <= i < |a| ==> a[i].epoch <= epoch && Floor(Start(cfg.geo, a[i].epoch)) <= a[i].ms)
  }

  ghost predicate CreditOk(cfg: Config, r: Run)
    requires cfg.Valid()
  {
    Budgeted(cfg.credited, r.lanes.credited, Millis(r.admissions)) && Filed(cfg, r.admissions, r.lanes.filter.epoch)
  }

  predicate Witnessed(a: seq<Admission>, key: Digest, u: Use)
  {
    exists j :: 0 <= j < |a| && a[j].key == key && a[j].epoch == u.firstEpoch
  }

  ghost predicate RecordsOk(cfg: Config, entries: map<Digest, Use>, a: seq<Admission>)
  {
    forall k :: k in entries ==> 1 <= entries[k].committed <= cfg.maxUses && Witnessed(a, k, entries[k])
  }

  ghost predicate LedgerOk(cfg: Config, r: Run)
  {
    && RecordsOk(cfg, r.lanes.ledger.entries, r.admissions)
    && r.lanes.ledger.fullRefusals == 0 && r.lanes.ledger.violations == 0
  }

  ghost predicate Inv(cfg: Config, r: Run)
  {
    cfg.Valid() && ClockOk(cfg, r) && FilterOk(cfg, r) && CreditOk(cfg, r) && LedgerOk(cfg, r)
  }

  lemma {:induction false} BeginsWell(cfg: Config, at: Reads)
    requires cfg.Valid() && at.Ordered() && cfg.geo.t0 == at.first
    ensures Inv(cfg, Begin(cfg, at))
  {
    assert Millis([]) == [];
  }

  // ------------------------------------------------------------------ the ledger is large enough

  function KeysFrom(a: seq<Admission>, i: nat): (keys: set<Digest>)
    requires i <= |a|
    ensures |keys| <= |a| - i
    ensures forall j :: i <= j < |a| ==> a[j].key in keys
    decreases |a| - i
  {
    if i == |a| then {} else {a[i].key} + KeysFrom(a, i + 1)
  }

  function FirstSince(a: seq<Admission>, epoch: int, i: nat): (j: nat)
    requires i <= |a|
    ensures i <= j <= |a|
    ensures forall k :: i <= k < j ==> a[k].epoch < epoch
    ensures j < |a| ==> a[j].epoch >= epoch
    decreases |a| - i
  {
    if i == |a| || a[i].epoch >= epoch then i else FirstSince(a, epoch, i + 1)
  }

  /** Two epochs of credited admissions fit the required capacity with a slot to spare. */
  lemma {:induction false} AllowanceFits(cfg: Config, n: int, ms: int)
    requires cfg.Valid() && ms <= 2 * cfg.geo.epochMs && n * UNIT <= cfg.credited.Allowance(ms)
    ensures n < cfg.ledgerCapacity
  {
    var c, m, r := cfg.credited.capacity, cfg.geo.epochMs, cfg.credited.refillPerMs;
    AllowanceGrows(cfg.credited, ms, 2 * m);
    var q := (2 * m * r + UNIT - 1) / UNIT;
    assert q * UNIT >= 2 * m * r;
    assert n * UNIT <= (c + q) * UNIT;
  }

  lemma {:induction false} MillisSpan(geo: Geometry, e: int, t: real)
    requires geo.Valid() && t < Start(geo, e + 1)
    ensures Floor(t) - Floor(Start(geo, e - 1)) <= 2 * geo.epochMs
  {
    StartsGrow(geo, e - 1, e - 1);
    StartsGrow(geo, e, e);
    var s, m := Start(geo, e - 1), geo.epochMs;
    assert Start(geo, e + 1) == s + (2 * m) as real;
    assert t < (Floor(s) + 1) as real + (2 * m) as real;
  }

  /** A live record's key is among the admissions filed in the current or the previous epoch. */
  lemma {:induction false} LiveAreRecent(cfg: Config, entries: map<Digest, Use>, a: seq<Admission>, e: int)
    requires cfg.Valid() && e >= 0 && RecordsOk(cfg, entries, a)
    ensures |LiveEntries(entries, e)| <= |a| - FirstSince(a, e - 1, 0)
  {
    var live, i := LiveEntries(entries, e), FirstSince(a, e - 1, 0);
    forall k | k in live.Keys ensures k in KeysFrom(a, i) {
      assert Witnessed(a, k, entries[k]);
    }
    Tallies.Smaller(live.Keys, KeysFrom(a, i));
  }

  lemma {:induction false} RecentFit(cfg: Config, b: Bucket, a: seq<Admission>, epoch: nat, t: real, i: nat)
    requires cfg.Valid() && Budgeted(cfg.credited, b, Millis(a)) && Filed(cfg, a, epoch)
    requires cfg.geo.t0 <= t && b.lastMs <= Floor(t) && i < |a| && a[i].epoch >= EpochAt(cfg.geo, t) as int - 1
    ensures |a| - i < cfg.ledgerCapacity
  {
    var ms: seq<int>, e: int := Millis(a), EpochAt(cfg.geo, t);
    assert (|ms| - i) * UNIT + b.level <= cfg.credited.Allowance(b.lastMs - ms[i]);
    EpochBounds(cfg.geo, t);
    MillisSpan(cfg.geo, e, t);
    StartsGrow(cfg.geo, e - 1, a[i].epoch);
    FloorGrows(Start(cfg.geo, e - 1), Start(cfg.geo, a[i].epoch));
    AllowanceFits(cfg, |a| - i, b.lastMs - ms[i]);
  }

  lemma {:induction false} FloorGrows(s: real, t: real)
    requires s <= t
    ensures Floor(s) <= Floor(t)
  {
  }

  /** At every decision the live records number less than the ledger's capacity. */
  lemma {:induction false} LiveRecordsFit(cfg: Config, r: Run, t: real)
    requires Inv(cfg, r) && r.now <= t
    ensures |LiveEntries(r.lanes.ledger.entries, EpochAt(cfg.geo, t))| < cfg.ledgerCapacity
  {
    var e: int := EpochAt(cfg.geo, t);
    var i := FirstSince(r.admissions, e - 1, 0);
    LiveAreRecent(cfg, r.lanes.ledger.entries, r.admissions, e);
    FloorGrows(r.now, t);
    if i < |r.admissions| {
      RecentFit(cfg, r.lanes.credited, r.admissions, r.lanes.filter.epoch, t, i);
    }
  }

  // ------------------------------------------------------------------ every operation keeps the invariant

  lemma {:induction false} PurgeKeepsRecords(cfg: Config, l: Ledger, a: seq<Admission>, epoch: nat)
    requires RecordsOk(cfg, l.entries, a)
    ensures RecordsOk(cfg, MaybePurge(l, epoch).entries, a) && MaybePurge(l, epoch).lastPurge == epoch
    ensures LiveEntries(MaybePurge(l, epoch).entries, epoch) == LiveEntries(l.entries, epoch)
    ensures MaybePurge(l, epoch).fullRefusals == l.fullRefusals && MaybePurge(l, epoch).violations == l.violations
  {
  }

  lemma {:induction false} ClassifyKeepsFilter(cfg: Config, r: Run, token: Option<Text>, at: Reads)
    requires Inv(cfg, r) && at.Ordered() && r.now <= at.first
    ensures var c := Classify(cfg, r.lanes, token, at);
            && c.epoch == EpochAt(cfg.geo, at.first) && r.lanes.filter.epoch <= c.epoch
            && c.epoch <= c.filter.epoch <= EpochAt(cfg.geo, at.third)
            && Refines(cfg.geo, c.filter, r.insertions)
  {
    var f1 := Advance(cfg.geo, r.lanes.filter, at.first);
    EpochsGrow(cfg.geo, r.now, at.first);
    EpochsGrow(cfg.geo, at.first, at.second);
    EpochsGrow(cfg.geo, at.second, at.third);
    AdvanceRefines(cfg.geo, r.lanes.filter, r.insertions, at.first);
    AdvanceRefines(cfg.geo, f1, r.insertions, at.second);
  }

  lemma {:induction false} ClassifyKeepsLedger(cfg: Config, r: Run, token: Option<Text>, at: Reads)
    requires Inv(cfg, r)
    ensures var c := Classify(cfg, r.lanes, token, at);
            && c.ledger == MaybePurge(r.lanes.ledger, c.epoch)
            && (c.credit.Some? ==>
                  var used := Committed(c.ledger, c.credit.value, c.epoch);
                  c.isNew == used.None? && (used.Some? ==> used.value < cfg.maxUses))
  {
  }

  lemma {:induction false} TakeTime(rate: Rate, b: Bucket, t: real)
    requires b.lastMs <= Floor(t)
    ensures Take(rate, b, t).1.dt == Floor(t) == Take(rate, b, t).0.lastMs
  {
  }

  lemma {:induction false} TakeIsSane(rate: Rate, b: Bucket, t: real)
    requires Sane(rate, b)
    ensures Sane(rate, Take(rate, b, t).0)
  {
    if Floor(t) > b.lastMs {
      assert (Floor(t) - b.lastMs) * rate.refillPerMs >= 0;
    }
  }

  /** A credited take, filed under the epoch of its classification. */
  lemma {:induction false} GrantKeepsCredit(cfg: Config, b: Bucket, a: seq<Admission>, last: nat, key: Digest,
      epoch: nat, filterEpoch: nat, t: real)
    requires cfg.Valid() && Budgeted(cfg.credited, b, Millis(a)) && Filed(cfg, a, last)
    requires b.lastMs <= Floor(t) && last <= epoch <= filterEpoch && Start(cfg.geo, epoch) <= t
    ensures var (c, k) := Take(cfg.credited, b, t);
            var n := if k.ok then a + [Admission(key, epoch, k.dt)] else a;
            Budgeted(cfg.credited, c, Millis(n)) && Filed(cfg, n, filterEpoch)
  {
    TakeTime(cfg.credited, b, t);
    TakeIsBudgeted(cfg.credited, b, Millis(a), t);
    FloorGrows(Start(cfg.geo, epoch), t);
    var k := Take(cfg.credited, b, t).1;
    assert Millis(a + [Admission(key, epoch, k.dt)]) == Millis(a) + [k.dt];
  }

  lemma {:induction false} MoreAdmissions(cfg: Config, entries: map<Digest, Use>, a: seq<Admission>, x: Admission)
    requires RecordsOk(cfg, entries, a)
    ensures RecordsOk(cfg, entries, a + [x])
  {
    forall k | k in entries ensures Witnessed(a + [x], k, entries[k]) {
      var j :| 0 <= j < |a| && a[j].key == k && a[j].epoch == entries[k].firstEpoch;
      assert (a + [x])[j] == a[j];
    }
  }

  /** A commit that follows its classification never meets an exhausted record. */
  lemma {:induction false} CommitKeepsRecords(cfg: Config, l: Ledger, a: seq<Admission>, key: Digest, epoch: nat,
      ms: int)
    requires cfg.Valid() && RecordsOk(cfg, l.entries, a)
    requires Committed(l, key, epoch).Some? ==> Committed(l, key, epoch).value < cfg.maxUses
    ensures var n := Commit(cfg.maxUses, l, key, epoch);
            && RecordsOk(cfg, n.entries, a + [Admission(key, epoch, ms)])
            && n.violations == l.violations && n.fullRefusals == l.fullRefusals && n.lastPurge == l.lastPurge
  {
    var x := Admission(key, epoch, ms);
    MoreAdmissions(cfg, l.entries, a, x);
    assert (a + [x])[|a|] == x;
    assert Witnessed(a + [x], key, Use(1, epoch));
  }

  lemma {:induction false} AllocateKeepsRecords(cfg: Config, l: Ledger, a: seq<Admission>, epoch: nat)
    requires RecordsOk(cfg, l.entries, a) && |LiveEntries(l.entries, epoch)| < cfg.ledgerCapacity
             && l.lastPurge == epoch
    ensures var (n, room) := CanAllocate(cfg.ledgerCapacity, l, epoch);
            && room && RecordsOk(cfg, n.entries, a) && n.lastPurge == epoch
            && n.fullRefusals == l.fullRefusals && n.violations == l.violations
            && forall k :: Committed(n, k, epoch) == Committed(l, k, epoch)
  {
    AllocationNeedsLiveRoom(cfg.ledgerCapacity, l, epoch);
  }

  lemma {:induction false} CreditedKeeps(cfg: Config, s: CreditState, cls: OperationClass, a: seq<Admission>, last: nat,
                      d: Digest, epoch: nat, isNew: bool, filterEpoch: nat, t: real)
    requires cfg.Valid() && Budgeted(cfg.credited, s.bucket, Millis(a)) && Filed(cfg, a, last)
    requires s.bucket.lastMs <= Floor(t) && last <= epoch <= filterEpoch && Start(cfg.geo, epoch) <= t
    requires RecordsOk(cfg, s.ledger.entries, a) && s.ledger.lastPurge == epoch
    requires |LiveEntries(s.ledger.entries, epoch)| < cfg.ledgerCapacity
    requires isNew == Committed(s.ledger, d, epoch).None?
    requires !isNew ==> Committed(s.ledger, d, epoch).value < cfg.maxUses
    ensures var (n, decision) := OnCredited(cfg.credited, cfg.ledgerCapacity, cfg.maxUses, s, cls, d, epoch, isNew, t);
            var m := a + NewAdmissions(Decided(decision), epoch);
            && Budgeted(cfg.credited, n.bucket, Millis(m)) && Filed(cfg, m, filterEpoch) && n.bucket.lastMs == Floor(t)
            && RecordsOk(cfg, n.ledger.entries, m) && n.ledger.lastPurge == epoch
            && n.ledger.fullRefusals == s.ledger.fullRefusals && n.ledger.violations == s.ledger.violations
            && decision.lane == Some(Credited)
  {
    TakeTime(cfg.credited, s.bucket, t);
    GrantKeepsCredit(cfg, s.bucket, a, last, d, epoch, filterEpoch, t);
    AllocateKeepsRecords(cfg, s.ledger, a, epoch);
    var l := if isNew then CanAllocate(cfg.ledgerCapacity, s.ledger, epoch).0 else s.ledger;
    var k := Take(cfg.credited, s.bucket, t).1;
    CommitKeepsRecords(cfg, l, a, d, epoch, k.dt);
    assert !k.ok ==> a + [] == a;
  }

  /** What a decision leaves behind, given the class and token it read. */
  ghost function AfterDecision(cfg: Config, r: Run, cls: OperationClass, token: Option<Text>, at: Reads): Run
    requires cfg.geo.Valid()
  {
    var (n, decision) := DecideAs(cfg, r.lanes, cls, token, at);
    Run(n, at.third,
        r.admissions + NewAdmissions(Decided(decision), Advance(cfg.geo, r.lanes.filter, at.first).epoch),
        r.insertions, r.results + [Decided(decision)])
  }

  predicate Untroubled(result: Result) { result.Decided? ==> result.decision.errorKind != Some(LedgerFull) }

  lemma {:induction false} CreditedDecisionKeeps(cfg: Config, r: Run, cls: OperationClass, token: Option<Text>,
      at: Reads)
    requires Inv(cfg, r) && at.Ordered() && r.now <= at.first && cls != Open
    requires Classify(cfg, r.lanes, token, at).credit.Some?
    ensures Inv(cfg, AfterDecision(cfg, r, cls, token, at))
    ensures DecideAs(cfg, r.lanes, cls, token, at).1.lane == Some(Credited)
  {
    var c := Classify(cfg, r.lanes, token, at);
    ClassifyKeepsFilter(cfg, r, token, at);
    ClassifyKeepsLedger(cfg, r, token, at);
    PurgeKeepsRecords(cfg, r.lanes.ledger, r.admissions, c.epoch);
    LiveRecordsFit(cfg, r, at.first);
    FloorGrows(r.now, at.third);
    EpochBounds(cfg.geo, at.first);
    CreditedKeeps(cfg, CreditState(r.lanes.credited, c.ledger), cls, r.admissions, r.lanes.filter.epoch,
                  c.credit.value, c.epoch, c.isNew, c.filter.epoch, at.third);
  }

  lemma {:induction false} UnverifiedDecisionKeeps(cfg: Config, r: Run, cls: OperationClass, token: Option<Text>,
      at: Reads)
    requires Inv(cfg, r) && at.Ordered() && r.now <= at.first && cls != Open
    requires Classify(cfg, r.lanes, token, at).credit.None?
    ensures Inv(cfg, AfterDecision(cfg, r, cls, token, at))
    ensures DecideAs(cfg, r.lanes, cls, token, at).1.lane == Some(Unverified)
  {
    var c := Classify(cfg, r.lanes, token, at);
    ClassifyKeepsFilter(cfg, r, token, at);
    ClassifyKeepsLedger(cfg, r, token, at);
    PurgeKeepsRecords(cfg, r.lanes.ledger, r.admissions, c.epoch);
    FloorGrows(r.now, at.third);
    TakeTime(cfg.unverified, r.lanes.unverified, at.third);
    TakeIsSane(cfg.unverified, r.lanes.unverified, at.third);
    assert r.admissions + [] == r.admissions;
  }

  lemma {:induction false} DecisionKeeps(cfg: Config, r: Run, cls: OperationClass, token: Option<Text>, at: Reads)
    requires Inv(cfg, r) && at.Ordered() && r.now <= at.first
    ensures Inv(cfg, AfterDecision(cfg, r, cls, token, at))
    ensures Untroubled(Decided(DecideAs(cfg, r.lanes, cls, token, at).1))
  {
    if cls == Open {
      LaterKeeps(cfg, r, at.third, r.results + [Decided(Plain(Open, Some(OpenLane), Admitted))]);
      assert r.admissions + [] == r.admissions;
    } else if Classify(cfg, r.lanes, token, at).credit.Some? {
      CreditedDecisionKeeps(cfg, r, cls, token, at);
      CreditedIsNoError(cfg, r.lanes, cls, token, at);
    } else {
      UnverifiedDecisionKeeps(cfg, r, cls, token, at);
    }
  }

  lemma {:induction false} CreditedIsNoError(cfg: Config, s: Lanes, cls: OperationClass, token: Option<Text>, at: Reads)
    requires cfg.geo.Valid() && DecideAs(cfg, s, cls, token, at).1.lane.Some?
    ensures DecideAs(cfg, s, cls, token, at).1.errorKind == None
  {
  }

  lemma {:induction false} LaterKeeps(cfg: Config, r: Run, t: real, results: seq<Result>)
    requires Inv(cfg, r) && r.now <= t
    ensures Inv(cfg, r.(now := t, results := results))
  {
    EpochsGrow(cfg.geo, r.now, t);
    FloorGrows(r.now, t);
  }

  lemma {:induction false} FilterMoves(cfg: Config, r: Run, f: Filter, t: real, results: seq<Result>)
    requires Inv(cfg, r) && r.now <= t && r.lanes.filter.epoch <= f.epoch <= EpochAt(cfg.geo, t)
    requires Refines(cfg.geo, f, r.insertions)
    ensures Inv(cfg, r.(lanes := r.lanes.(filter := f), now := t, results := results))
  {
    FloorGrows(r.now, t);
  }

  lemma {:induction false} EnrollKeeps(cfg: Config, r: Run, token: Text, at: Reads)
    requires Inv(cfg, r) && at.Ordered() && r.now <= at.first
    ensures Inv(cfg, Step(cfg, r, EnrollOp(token, at)))
  {
    var d := cfg.digest(token);
    var f1 := Advance(cfg.geo, r.lanes.filter, at.first);
    var f2 := Advance(cfg.geo, f1, at.second);
    var f3 := Advance(cfg.geo, f2, at.third);
    EpochsGrow(cfg.geo, r.now, at.first);
    EpochsGrow(cfg.geo, at.first, at.second);
    EpochsGrow(cfg.geo, at.second, at.third);
    AdvanceRefines(cfg.geo, r.lanes.filter, r.insertions, at.first);
    AdvanceRefines(cfg.geo, f1, r.insertions, at.second);
    AdvanceRefines(cfg.geo, f2, r.insertions, at.third);
    assert r.admissions + [] == r.admissions;
    var n := Step(cfg, r, EnrollOp(token, at));
    if Committed(r.lanes.ledger, d, f1.epoch).Some? {
      FilterMoves(cfg, r, f1, at.third, n.results);
    } else if InActive(cfg.geo, f2, d) {
      FilterMoves(cfg, r, f2, at.third, n.results);
    } else {
      FilterMoves(cfg, r, f3, at.third, n.results);
      InsertRefines(cfg.geo, f3, r.insertions, d, at.third);
    }
  }

  lemma {:induction false} ObserveKeeps(cfg: Config, r: Run, at: Reads)
    requires Inv(cfg, r) && at.Ordered() && r.now <= at.first
    ensures Inv(cfg, Step(cfg, r, ObserveOp(at)))
  {
    var f := Advance(cfg.geo, r.lanes.filter, at.first);
    EpochsGrow(cfg.geo, r.now, at.first);
    EpochsGrow(cfg.geo, at.first, at.third);
    AdvanceRefines(cfg.geo, r.lanes.filter, r.insertions, at.first);
    PurgeKeepsRecords(cfg, r.lanes.ledger, r.admissions, f.epoch);
    RefillIsBudgeted(cfg.credited, r.lanes.credited, Millis(r.admissions), at.second);
    RefillIsSane(cfg.unverified, r.lanes.unverified, at.third);
    FloorGrows(at.second, at.third);
    FloorGrows(r.now, at.third);
    assert r.admissions + [] == r.admissions;
  }

  lemma {:induction false} FillKeeps(cfg: Config, r: Run, at: Reads)
    requires Inv(cfg, r) && at.Ordered() && r.now <= at.first
    ensures Inv(cfg, Step(cfg, r, FillOp(at)))
  {
    var f := Advance(cfg.geo, r.lanes.filter, at.first);
    EpochsGrow(cfg.geo, r.now, at.first);
    EpochsGrow(cfg.geo, at.first, at.third);
    AdvanceRefines(cfg.geo, r.lanes.filter, r.insertions, at.first);
    FilterMoves(cfg, r, f, at.third, r.results + [Apply(cfg, r.lanes, FillOp(at)).1]);
    assert r.admissions + [] == r.admissions;
  }

  lemma {:induction false} RefillIsSane(rate: Rate, b: Bucket, t: real)
    requires Sane(rate, b)
    ensures Sane(rate, Refilled(rate, b, t))
  {
    if Floor(t) > b.lastMs {
      assert (Floor(t) - b.lastMs) * rate.refillPerMs >= 0;
    }
  }

  lemma {:induction false} StepKeeps(cfg: Config, r: Run, op: Op)
    requires Inv(cfg, r) && op.at.Ordered() && r.now <= op.at.first
    ensures Inv(cfg, Step(cfg, r, op))
    ensures Untroubled(Apply(cfg, r.lanes, op).1)
  {
    match op
    case DecideOp(request, at) =>
      var cls := ClassOf(request.verb, request.target);
      DecisionKeeps(cfg, r, cls, if cls == Mutation then TokenOf(request) else None, at);
    case EnrollOp(token, at) =>
      EnrollKeeps(cfg, r, token, at);
    case FillOp(at) =>
      FillKeeps(cfg, r, at);
    case ObserveOp(at) =>
      ObserveKeeps(cfg, r, at);
  }

  lemma {:induction false} RunKeeps(cfg: Config, r: Run, ops: seq<Op>)
    requires Inv(cfg, r) && Chronological(ops, r.now)
    ensures Inv(cfg, RunOps(cfg, r, ops))
    decreases |ops|
  {
    if ops != [] {
      StepKeeps(cfg, r, ops[0]);
      RunKeeps(cfg, Step(cfg, r, ops[0]), ops[1..]);
    }
  }

  predicate AllUntroubled(results: seq<Result>) { forall i :: 0 <= i < |results| ==> Untroubled(results[i]) }

  lemma {:induction false} RunIsUntroubled(cfg: Config, r: Run, ops: seq<Op>)
    requires Inv(cfg, r) && Chronological(ops, r.now) && AllUntroubled(r.results)
    ensures AllUntroubled(RunOps(cfg, r, ops).results)
    decreases |ops|
  {
    if ops != [] {
      StepKeeps(cfg, r, ops[0]);
      RunIsUntroubled(cfg, Step(cfg, r, ops[0]), ops[1..]);
    }
  }

  /**
   * The constructor's sizing check makes a full ledger unreachable: in every run no decision is `ledger_full`, no
   * allocation is refused and no commit meets an exhausted record.
   */
  lemma {:induction false} LedgerNeverFull(cfg: Config, at: Reads, ops: seq<Op>)
    requires cfg.Valid() && at.Ordered() && cfg.geo.t0 == at.first && Chronological(ops, at.third)
    ensures var end := RunOps(cfg, Begin(cfg, at), ops);
            && AllUntroubled(end.results)
            && end.lanes.ledger.fullRefusals == 0 && end.lanes.ledger.violations == 0
  {
    BeginsWell(cfg, at);
    RunKeeps(cfg, Begin(cfg, at), ops);
    RunIsUntroubled(cfg, Begin(cfg, at), ops);
  }
}
