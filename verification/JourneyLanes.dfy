/**
 * The lane mechanism (defense/core/lanes.ts). `Decide`, `Enroll` and `Snapshot` are its meaning on values; class
 * `JourneyLanes` is the object that updates its filter, buckets and ledger in place. Every operation is given the clock
 * readings it takes, in order: the clock may move between two reads of one call.
 */
module JourneyLanes {
  import opened Base
  import opened Requests
  import opened TokenBuckets
  import opened CreditFilters
  import opened UseLedgers

  datatype Lane = OpenLane | Credited | Unverified
  datatype Outcome = Admitted | Shed | Error | Degraded
  datatype ShedReason = LaneBudget | EvaluatorSaturation
  datatype ErrorKind = Throw | Timeout | InvalidVerdict | LedgerFull

  datatype Decision = Decision(
    cls: OperationClass, lane: Option<Lane>, outcome: Outcome,
    shedReason: Option<ShedReason>, errorKind: Option<ErrorKind>,
    credit: Option<Digest>, spent: Option<Lane>, touched: Option<Lane>, taken: Option<Taken>)

  function Plain(cls: OperationClass, lane: Option<Lane>, outcome: Outcome): Decision
  {
    Decision(cls, lane, outcome, None, None, None, None, None, None)
  }

  function LaneShed(cls: OperationClass, lane: Lane, taken: Taken): Decision
  {
    Plain(cls, Some(lane), Shed).(shedReason := Some(LaneBudget), taken := Some(taken))
  }

  datatype Config = Config(
    geo: Geometry, credited: Rate, unverified: Rate, maxUses: int, ledgerCapacity: int, digest: Text -> Digest)
  {
    /** Every check the constructors make, the ledger's sizing among them. */
    ghost predicate Valid()
    {
      && geo.Valid() && credited.Valid() && unverified.Valid()
      && SafePositive(maxUses) && SafePositive(ledgerCapacity)
      && ledgerCapacity >= RequiredLedgerCapacity(credited, geo.epochMs)
    }
  }

  /** capacity + ceil(refillPerSecond * 2 * epochMs / 1000) + 1, in micro-tokens. */
  function RequiredLedgerCapacity(rate: Rate, epochMs: int): int
  {
    rate.capacity + (2 * epochMs * rate.refillPerMs + UNIT - 1) / UNIT + 1
  }

  /** Up to three reads of the monotonic clock within one call. */
  datatype Reads = Reads(first: real, second: real, third: real) {
    predicate Ordered() { first <= second <= third }
  }

  datatype Lanes = Lanes(filter: Filter, credited: Bucket, unverified: Bucket, ledger: Ledger)

  ghost function Initial(cfg: Config, at: Reads): Lanes
  {
    Lanes(EMPTY, Full(cfg.credited, at.second), Full(cfg.unverified, at.third), NO_USES)
  }

  /** The state after classification, and the digest when the request is on the credited lane. */
  datatype Classified = Classified(filter: Filter, ledger: Ledger, epoch: nat, credit: Option<Digest>, isNew: bool)

  ghost function Classify(cfg: Config, s: Lanes, token: Option<Text>, at: Reads): Classified
    requires cfg.geo.Valid()
  {
    var f1 := Advance(cfg.geo, s.filter, at.first);
    var epoch := f1.epoch;
    var l := MaybePurge(s.ledger, epoch);
    if token.None? then Classified(f1, l, epoch, None, false)
    else
      var d := cfg.digest(token.value);
      var f2 := Advance(cfg.geo, f1, at.second);
      var used := Committed(l, d, epoch);
      if Has(cfg.geo, f2, d) && (used.None? || used.value < cfg.maxUses) then
        Classified(f2, l, epoch, Some(d), used.None?)
      else Classified(f2, l, epoch, None, false)
  }

  /** A decision on the unverified lane reads and writes the unverified bucket only. */
  function OnUnverified(rate: Rate, b: Bucket, cls: OperationClass, t: real): (Bucket, Decision)
  {
    var (c, k) := Take(rate, b, t);
    (c, if k.ok then Plain(cls, Some(Unverified), Admitted).(taken := Some(k)) else LaneShed(cls, Unverified, k))
  }

  datatype CreditState = CreditState(bucket: Bucket, ledger: Ledger)

  /** A decision on the credited lane: a new record needs a free slot before anything is consumed. */
  function OnCredited(rate: Rate, capacity: int, maxUses: int, s: CreditState, cls: OperationClass,
                      d: Digest, epoch: nat, isNew: bool, t: real): (CreditState, Decision)
  {
    var (l, room) := if isNew then CanAllocate(capacity, s.ledger, epoch) else (s.ledger, true);
    if !room then (CreditState(s.bucket, l), Plain(cls, None, Error).(errorKind := Some(LedgerFull)))
    else
      var (b, k) := Take(rate, s.bucket, t);
      if !k.ok then (CreditState(b, l), LaneShed(cls, Credited, k))
      else
        (CreditState(b, Commit(maxUses, l, d, epoch)),
         Plain(cls, Some(Credited), Admitted).(credit := Some(d), taken := Some(k)))
  }

  ghost function Decide(cfg: Config, s: Lanes, request: LayerRequest, at: Reads): (Lanes, Decision)
    requires cfg.geo.Valid()
  {
    var cls := ClassOf(request.verb, request.target);
    DecideAs(cfg, s, cls, if cls == Mutation then TokenOf(request) else None, at)
  }

  ghost function DecideAs(cfg: Config, s: Lanes, cls: OperationClass, token: Option<Text>, at: Reads): (Lanes, Decision)
    requires cfg.geo.Valid()
  {
    if cls == Open then (s, Plain(Open, Some(OpenLane), Admitted))
    else DecideClassified(cfg, s, cls, Classify(cfg, s, token, at), at)
  }

  function DecideClassified(cfg: Config, s: Lanes, cls: OperationClass, c: Classified, at: Reads): (Lanes, Decision)
  {
    if c.credit.None? then
      var (b, decision) := OnUnverified(cfg.unverified, s.unverified, cls, at.third);
      (Lanes(c.filter, s.credited, b, c.ledger), decision)
    else
      var (n, decision) := OnCredited(cfg.credited, cfg.ledgerCapacity, cfg.maxUses, CreditState(s.credited, c.ledger),
        cls,
                                      c.credit.value, c.epoch, c.isNew, at.third);
      (Lanes(c.filter, n.bucket, s.unverified, n.ledger), decision)
  }

  ghost function Enroll(cfg: Config, s: Lanes, token: Text, at: Reads): (Lanes, bool)
    requires cfg.geo.Valid()
  {
    var d := cfg.digest(token);
    var f1 := Advance(cfg.geo, s.filter, at.first);
    if Committed(s.ledger, d, f1.epoch).Some? then (s.(filter := f1), false)
    else
      var f2 := Advance(cfg.geo, f1, at.second);
      if InActive(cfg.geo, f2, d) then (s.(filter := f2), false)
      else (s.(filter := Insert(cfg.geo, Advance(cfg.geo, f2, at.third), d)), true)
  }

  /** The quiescence-relevant part of a snapshot: levels, popcounts and ledger size. */
  datatype Quiescence = Quiescence(credited: int, unverified: int, population: (nat, nat), records: nat)

  ghost function Snapshot(cfg: Config, s: Lanes, at: Reads): (Lanes, Quiescence)
    requires cfg.geo.Valid()
  {
    var f := Advance(cfg.geo, s.filter, at.first);
    var l := MaybePurge(s.ledger, f.epoch);
    var c := Refilled(cfg.credited, s.credited, at.second);
    var u := Refilled(cfg.unverified, s.unverified, at.third);
    (Lanes(f, c, u, l),
     Quiescence(c.level, u.level, Population(f), |l.entries|))
  }

  /** filter.stats(), which the stage reads right after an enrollment: one more lazy advance, and the two popcounts. */
  ghost function Fill(cfg: Config, s: Lanes, t: real): (Lanes, (nat, nat))
    requires cfg.geo.Valid()
  {
    var f := Advance(cfg.geo, s.filter, t);
    (s.(filter := f), Population(f))
  }

  // ------------------------------------------------------------------ the object

  class JourneyLanes {
    const digest: Text -> Digest
    const filter: CreditFilter
    const credited: TokenBucket
    const unverified: TokenBucket
    const ledger: UseLedger

    ghost const Repr: set<object> := filter.Repr + {credited, unverified, ledger}

    ghost function Cfg(): Config
      reads this
    {
      Config(filter.geo, credited.rate, unverified.rate, ledger.maxUses, ledger.capacity, digest)
    }

    ghost predicate Valid()
      reads this, Repr
    {
      && filter.Valid()
      && credited != unverified
      && {credited as object, unverified, ledger} !! filter.Repr
    }

    ghost function State(): Lanes
      reads filter, filter.even, filter.odd, credited, unverified, ledger
    {
      Lanes(filter.State(), credited.State(), unverified.State(), ledger.State())
    }

    constructor (cfg: Config, at: Reads)
      requires cfg.Valid()
      ensures Valid() && fresh(Repr) && Cfg() == cfg && State() == Initial(cfg, at)
    {
      digest := cfg.digest;
      filter := new CreditFilter(cfg.geo);
      credited := new TokenBucket(cfg.credited, at.second);
      unverified := new TokenBucket(cfg.unverified, at.third);
      ledger := new UseLedger(cfg.ledgerCapacity, cfg.maxUses);
    }

    /** Construction refuses a ledger below the credited-admission bound, and every other bad size. */
    static method Build(bits: int, hashes: int, epochMs: int, credited: Rate, unverified: Rate, maxUses: int,
                        ledgerCapacity: int, digest: Text -> Digest, at: Reads) returns (r: Option<JourneyLanes>)
      ensures r.Some? <==>
        && 64 <= bits <= 0x4000_0000 && PowerOfTwo(bits) && 1 <= hashes <= 16 && SafePositive(epochMs)
        && credited.Valid() && unverified.Valid() && SafePositive(maxUses) && SafePositive(ledgerCapacity)
        && ledgerCapacity >= RequiredLedgerCapacity(credited, epochMs)
      ensures r.Some? ==>
              fresh(r.value) && r.value.Valid() && r.value.Cfg().Valid()
              && r.value.State() == Initial(r.value.Cfg(), at)
    {
      if ledgerCapacity < RequiredLedgerCapacity(credited, epochMs) { return None; }
      if !(64 <= bits <= 0x4000_0000 && PowerOfTwo(bits) && 1 <= hashes <= 16 && SafePositive(epochMs)) { return None; }
      if !(credited.Valid() && unverified.Valid() && SafePositive(maxUses) && SafePositive(ledgerCapacity)) {
        return None;
      }
      DoubleHashing(bits, hashes, epochMs, at.first);
      var geo := Geometry(bits, hashes, epochMs, at.first, (d: Digest, i: nat) => DoubleHash(bits, d, i));
      var lanes := new JourneyLanes(Config(geo, credited, unverified, maxUses, ledgerCapacity, digest), at);
      return Some(lanes);
    }

    method ClassifyToken(token: Option<Text>, at: Reads) returns (epoch: nat, credit: Option<Digest>, isNew: bool)
      requires Valid()
      modifies filter.Repr, ledger
      ensures Valid()
      ensures Classified(filter.State(), ledger.State(), epoch, credit, isNew)
              == Classify(Cfg(), old(State()), token, at)
    {
      epoch := filter.AdvanceTo(at.first);
      ledger.MaybePurgeAt(epoch);
      credit, isNew := None, false;
      if token.Some? {
        var d := digest(token.value);
        var member := filter.Lookup(d, at.second);
        var used := ledger.CommittedUses(d, epoch);
        if member && (used.None? || used.value < ledger.maxUses) {
          credit, isNew := Some(d), used.None?;
        }
      }
    }

    method DecideUnverified(cls: OperationClass, t: real) returns (decision: Decision)
      modifies unverified
      ensures (unverified.State(), decision) == OnUnverified(unverified.rate, old(unverified.State()), cls, t)
    {
      var k := unverified.TakeOne(t);
      if !k.ok { return LaneShed(cls, Unverified, k); }
      return Plain(cls, Some(Unverified), Admitted).(taken := Some(k));
    }

    method DecideCredited(cls: OperationClass, d: Digest, epoch: nat, isNew: bool, t: real) returns (decision: Decision)
      modifies credited, ledger
      ensures (CreditState(credited.State(), ledger.State()), decision)
           == OnCredited(credited.rate, ledger.capacity, ledger.maxUses,
                         old(CreditState(credited.State(), ledger.State())), cls, d, epoch, isNew, t)
    {
      if isNew {
        var room := ledger.Allocatable(epoch);
        if !room { return Plain(cls, None, Error).(errorKind := Some(LedgerFull)); }
      }
      var k := credited.TakeOne(t);
      if !k.ok { return LaneShed(cls, Credited, k); }
      ledger.CommitUse(d, epoch);
      return Plain(cls, Some(Credited), Admitted).(credit := Some(d), taken := Some(k));
    }

    /** One synchronous decision: classification first, then exactly one lane's bucket. */
    method DecideOn(request: LayerRequest, at: Reads) returns (decision: Decision)
      requires Valid()
      modifies Repr
      ensures Valid() && (State(), decision) == Decide(Cfg(), old(State()), request, at)
    {
      var cls := ClassOf(request.verb, request.target);
      var token: Option<Text> := None;
      if cls == Mutation { token := ExtractSubmissionToken(request); }
      decision := DecideFor(cls, token, at);
    }

    method DecideFor(cls: OperationClass, token: Option<Text>, at: Reads) returns (decision: Decision)
      requires Valid()
      modifies Repr
      ensures Valid() && (State(), decision) == DecideAs(Cfg(), old(State()), cls, token, at)
    {
      if cls == Open { return Plain(Open, Some(OpenLane), Admitted); }
      var epoch, credit, isNew := ClassifyToken(token, at);
      decision := DecideLane(cls, epoch, credit, isNew, at);
    }

    method DecideLane(cls: OperationClass, epoch: nat, credit: Option<Digest>, isNew: bool, at: Reads)
      returns (decision: Decision)
      requires credited != unverified
      modifies credited, unverified, ledger
      ensures var n := DecideClassified(Cfg(), old(Lanes(EMPTY, credited.State(), unverified.State(), ledger.State())),
              cls,
                                        Classified(EMPTY, old(ledger.State()), epoch, credit, isNew), at);
              (Lanes(EMPTY, credited.State(), unverified.State(), ledger.State()), decision) == n
    {
      if credit.None? {
        decision := DecideUnverified(cls, at.third);
      } else {
        decision := DecideCredited(cls, credit.value, epoch, isNew, at.third);
      }
    }

    method EnrollToken(token: Text, at: Reads) returns (ok: bool)
      requires Valid()
      modifies Repr
      ensures Valid() && (State(), ok) == Enroll(Cfg(), old(State()), token, at)
    {
      var d := digest(token);
      var epoch := filter.AdvanceTo(at.first);
      var used := ledger.CommittedUses(d, epoch);
      if used.Some? { return false; }
      var active := filter.LookupActive(d, at.second);
      if active { return false; }
      filter.InsertDigest(d, at.third);
      return true;
    }

    method TakeSnapshot(at: Reads) returns (q: Quiescence)
      requires Valid()
      modifies Repr
      ensures Valid() && State() == Snapshot(Cfg(), old(State()), at).0
      ensures q == Snapshot(Cfg(), old(State()), at).1
    {
      Settle(at.first);
      var active, previous := filter.Popcounts();
      var c, u := Levels(at);
      q := Quiescence(c, u, (active, previous), |ledger.entries|);
    }

    method ReadFill(t: real) returns (active: nat, previous: nat)
      requires Valid()
      modifies filter.Repr
      ensures Valid() && (State(), (active, previous)) == Fill(Cfg(), old(State()), t)
    {
      var epoch := filter.AdvanceTo(t);
      active, previous := filter.Popcounts();
    }

    method Levels(at: Reads) returns (c: int, u: int)
      requires credited != unverified
      modifies credited, unverified
      ensures credited.State() == Refilled(credited.rate, old(credited.State()), at.second) && c == credited.level
      ensures unverified.State() == Refilled(unverified.rate, old(unverified.State()), at.third)
              && u == unverified.level
    {
      c := credited.LevelUnits(at.second);
      u := unverified.LevelUnits(at.third);
    }

    /** Observation first applies the aged-out purge a decision would. */
    method Settle(t: real)
      requires Valid()
      modifies filter.Repr, ledger
      ensures Valid()
      ensures filter.State() == Advance(filter.geo, old(filter.State()), t)
      ensures ledger.State() == MaybePurge(old(ledger.State()), filter.currentEpoch)
    {
      var epoch := filter.AdvanceTo(t);
      ledger.MaybePurgeAt(epoch);
    }
  }
}
