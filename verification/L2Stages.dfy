/**
 * The L2 stage (defense/plane/l2-stage.ts) around the lane layer (defense/layers/a7-journey-lanes.ts): requests arrive,
 * are evaluated synchronously inside the composer, and are concluded later, possibly after their verdict was discarded.
 * What a discarded decision consumed is reported, never returned.
 */
module L2Stages {
  import opened Base
  import opened Requests
  import opened TokenBuckets
  import CreditFilters
  import opened JourneyLanes
  import opened Tallies
  import C = Composers

  datatype Failure = Saturation | Failed(kind: C.ErrorKind)

  function KindOf(kind: C.ErrorKind): ErrorKind
  {
    match kind case Throw => Throw case Timeout => Timeout case InvalidVerdict => InvalidVerdict
  }

  /** Only a class whose healthy decision is an unconditional admit may degrade. */
  function FailureDecision(cls: OperationClass, failure: Failure): Decision
  {
    if cls == Open then Plain(Open, Some(OpenLane), Degraded)
    else match failure
      case Saturation => Plain(cls, None, Shed).(shedReason := Some(EvaluatorSaturation))
      case Failed(kind) => Plain(cls, None, Error).(errorKind := Some(KindOf(kind)))
  }

  predicate Proceeds(d: Decision) { d.outcome == Admitted || d.outcome == Degraded }

  /** The closed validity matrix of class, lane and outcome. */
  predicate ValidDecision(d: Decision)
  {
    if d.cls == Open then d.lane == Some(OpenLane) && (d.outcome == Admitted || d.outcome == Degraded)
    else if d.lane == Some(Credited) || d.lane == Some(Unverified) then
      d.outcome == Admitted || (d.outcome == Shed && d.shedReason == Some(LaneBudget))
    else
      d.lane == None
      && ((d.outcome == Shed && d.shedReason == Some(EvaluatorSaturation))
          || (d.outcome == Error && d.errorKind.Some?))
  }

  /** The final decision from the composer's outcome and the decision the evaluation made, if it got that far. */
  function Conclusion(cls: OperationClass, outcome: C.Outcome, made: Option<Decision>): Decision
  {
    match outcome
    case Passed => if made.Some? then made.value else FailureDecision(cls, Failed(C.InvalidVerdict))
    case Rejected => if made.Some? then made.value else FailureDecision(cls, Failed(C.InvalidVerdict))
    case Shed => FailureDecision(cls, Saturation)
    case Errored(kind) =>
      if made.Some? && made.value.outcome == Error then made.value
      else
        var d := FailureDecision(cls, Failed(kind));
        if made.Some? && made.value.lane.Some? && made.value.outcome == Admitted then
          d.(spent := made.value.lane, taken := made.value.taken)
        else if made.Some? && made.value.lane.Some? && made.value.outcome == Shed then
          d.(touched := made.value.lane, taken := made.value.taken)
        else d
  }

  /** A successful bucket take, with the request it was made for. */
  datatype Grant = Grant(id: nat, taken: Taken)

  datatype Stage = Stage(
    lanes: Lanes, composer: C.Composer, made: map<nat, Decision>, waiting: map<nat, OperationClass>,
    finals: map<nat, Decision>, spentCredited: nat, spentUnverified: nat,
    credited: seq<Grant>, unverified: seq<Grant>)

  /** Read off the bucket itself, not off any decision: a take that succeeded between the two states. */
  function NewGrant(before: Bucket, after: Bucket, id: nat): seq<Grant>
  {
    if after.admitted > before.admitted then [Grant(id, Taken(true, after.lastMs, after.level, after.takes))] else []
  }

  datatype Act =
    | Arrive(id: nat, request: LayerRequest, at: Reads)
    | Finish(id: nat, winner: C.Winner)
    | Background(event: C.Event)
    | Enrollment(token: Text, at: Reads)
    | FillReading(now: real)
    | Observation(at: Reads)

  /**
   * What the layer answers for the decision it made: a pass, a reject that names the lane's budget, or an error thrown.
   */
  datatype LayerVerdict = Passes | Rejects(credited: bool) | Throws

  function VerdictOf(made: Decision): LayerVerdict
  {
    match made.outcome
    case Admitted => Passes
    case Error => Throws
    case _ => Rejects(made.lane == Some(Credited))
  }

  /** The composer sees that verdict, unless the deadline comes first. */
  predicate Plausible(made: Decision, winner: C.Winner)
  {
    match winner
    case Deadline => true
    case Threw => VerdictOf(made) == Throws
    case Answered(valid, late, pass) => valid && VerdictOf(made) != Throws && pass == (VerdictOf(made) == Passes)
  }

  predicate Enabled(s: Stage, act: Act)
  {
    match act
    case Arrive(id, _, _) => id !in s.composer.runs
    case Finish(id, winner) => id in s.waiting && (id in s.made ==> Plausible(s.made[id], winner))
    case Background(event) => (event.Settle? || event.Reclaim?) && C.Enabled(s.composer, event)
    case Enrollment(_, _) => true
    case FillReading(_) => true
    case Observation(_) => true
  }

  ghost function Arrived(cfg: Config, s: Stage, id: nat, request: LayerRequest, at: Reads): Stage
    requires cfg.geo.Valid() && id !in s.composer.runs
  {
    var cls := ClassOf(request.verb, request.target);
    ArrivedAs(cfg, s, id, cls, if cls == Mutation then TokenOf(request) else None, at)
  }

  ghost function ArrivedAs(cfg: Config, s: Stage, id: nat, cls: OperationClass, token: Option<Text>, at: Reads): Stage
    requires cfg.geo.Valid() && id !in s.composer.runs
  {
    var c := C.Next(s.composer, C.Start(id));
    var w := s.waiting[id := cls];
    if c.runs[id].outcome.Some? then s.(composer := c, waiting := w)
    else
      var (n, d) := DecideAs(cfg, s.lanes, cls, token, at);
      s.(lanes := n, composer := c, waiting := w, made := s.made[id := d],
         credited := s.credited + NewGrant(s.lanes.credited, n.credited, id),
         unverified := s.unverified + NewGrant(s.lanes.unverified, n.unverified, id))
  }

  function Recorded(s: Stage, id: nat, d: Decision): Stage
  {
    s.(made := s.made - {id}, waiting := s.waiting - {id}, finals := s.finals[id := d],
       spentCredited := s.spentCredited + ToNat(d.spent == Some(Credited)),
       spentUnverified := s.spentUnverified + ToNat(d.spent.Some? && d.spent != Some(Credited)))
  }

  function Finished(s: Stage, id: nat, winner: C.Winner): Stage
    requires id in s.waiting && id in s.composer.runs
    requires id in s.made ==> C.Enabled(s.composer, C.Resume(id, winner))
  {
    if id in s.made then
      Recorded(s.(composer := C.Next(s.composer, C.Resume(id, winner))), id,
               Conclusion(s.waiting[id], C.OutcomeOf(winner), Some(s.made[id])))
    else Recorded(s, id, Conclusion(s.waiting[id], C.Shed, None))
  }

  // ------------------------------------------------------------------ claims

  /** The take a decision answers for on a lane: it was admitted there, or it reports what it spent there. */
  function Claim(d: Decision, lane: Lane): Option<Taken>
  {
    if d.spent == Some(lane) || (d.spent == None && d.lane == Some(lane) && d.outcome == Admitted) then d.taken
      else None
  }

  function Owner(made: map<nat, Decision>, finals: map<nat, Decision>, id: nat, lane: Lane): Option<Taken>
  {
    if id in finals then Claim(finals[id], lane) else if id in made then Claim(made[id], lane) else None
  }

  predicate Distinct(log: seq<Grant>) { forall i, j :: 0 <= i < j < |log| ==> log[i].id != log[j].id }

  predicate Logged(log: seq<Grant>, id: nat) { exists k :: 0 <= k < |log| && log[k].id == id }

  /** Every take is owned by exactly one decision, final or in flight, and every claim is a take. */
  ghost predicate Claimed(made: map<nat, Decision>, finals: map<nat, Decision>, lane: Lane, log: seq<Grant>)
  {
    && Distinct(log)
    && (forall k :: 0 <= k < |log| ==> Owner(made, finals, log[k].id, lane) == Some(log[k].taken))
    && (forall id :: Owner(made, finals, id, lane).Some? ==> Logged(log, id))
  }

  function Millis(log: seq<Grant>): seq<int> { seq(|log|, i requires 0 <= i < |log| => log[i].taken.dt) }

  /** What the evaluation of a request may have made. */
  predicate MadeWell(d: Decision, cls: OperationClass)
  {
    && d.cls == cls && d.spent == None && d.touched == None && ValidDecision(d) && d.outcome != Degraded
    && ((d.lane == Some(Credited) || d.lane == Some(Unverified)) ==> d.taken.Some?)
    && (d.outcome == Admitted ==> d.lane.Some?)
    && (d.lane == Some(OpenLane) ==> d.taken == None)
  }

  /** Which runs are waiting, which of them made a decision, and which are concluded. */
  ghost predicate Books(runs: map<nat, C.Evaluation>, made: map<nat, Decision>, waiting: map<nat, OperationClass>,
                        finals: map<nat, Decision>)
  {
    && made.Keys <= waiting.Keys <= runs.Keys && finals.Keys <= runs.Keys && finals.Keys !! waiting.Keys
    && (forall id :: id in waiting ==> (id in made <==> runs[id].outcome == None))
    && (forall id :: id in made ==> MadeWell(made[id], waiting[id]))
    && (forall id :: id in finals ==> Concluded(finals[id]))
  }

  /** A final decision is in the matrix, and one that admits discarded nothing and names its take. */
  predicate Concluded(d: Decision)
  {
    ValidDecision(d) && (d.outcome == Admitted ==> d.spent == None && (d.cls == Open || d.taken.Some?))
  }

  ghost predicate Budgets(cfg: Config, s: Stage)
  {
    && Budgeted(cfg.credited, s.lanes.credited, Millis(s.credited))
    && Budgeted(cfg.unverified, s.lanes.unverified, Millis(s.unverified))
  }

  const SPENT_CREDITED: Decision -> bool := (d: Decision) => d.spent == Some(Credited)
  const SPENT_UNVERIFIED: Decision -> bool := (d: Decision) => d.spent == Some(Unverified)
  const SPENT_OPEN: Decision -> bool := (d: Decision) => d.spent == Some(OpenLane)

  ghost predicate SpentCounters(credited: nat, unverified: nat, finals: map<nat, Decision>)
  {
    credited == Tally(finals, SPENT_CREDITED)
      && unverified == Tally(finals, SPENT_UNVERIFIED) + Tally(finals, SPENT_OPEN)
  }

  /** The stage's invariant, and with it the composer's own. */
  ghost predicate Inv(cfg: Config, s: Stage) { C.Inv(s.composer) && Sound(cfg, s) }

  ghost predicate Sound(cfg: Config, s: Stage)
  {
    && cfg.Valid() && Books(s.composer.runs, s.made, s.waiting, s.finals) && Budgets(cfg, s)
    && Claimed(s.made, s.finals, Credited, s.credited) && Claimed(s.made, s.finals, Unverified, s.unverified)
      && SpentCounters(s.spentCredited, s.spentUnverified, s.finals)
  }

  // ------------------------------------------------------------------ what one decision takes

  lemma {:induction false} UnverifiedTakes(cfg: Config, b: Bucket, cls: OperationClass, t: real)
    requires cls != Open
    ensures var (c, d) := OnUnverified(cfg.unverified, b, cls, t);
            && MadeWell(d, cls) && Claim(d, Credited) == None
              && c.admitted == b.admitted + ToNat(Claim(d, Unverified).Some?)
            && (Claim(d, Unverified).Some? ==> Claim(d, Unverified).value == Taken(true, c.lastMs, c.level, c.takes))
  {
  }

  lemma {:induction false} CreditedTakes(cfg: Config, s: CreditState, cls: OperationClass, key: CreditFilters.Digest,
      epoch: nat, isNew: bool, t: real)
    requires cls != Open
    ensures var (n, d) := OnCredited(cfg.credited, cfg.ledgerCapacity, cfg.maxUses, s, cls, key, epoch, isNew, t);
            && MadeWell(d, cls) && Claim(d, Unverified) == None
            && n.bucket.admitted == s.bucket.admitted + ToNat(Claim(d, Credited).Some?)
            && (Claim(d, Credited).Some? ==>
                  Claim(d, Credited).value == Taken(true, n.bucket.lastMs, n.bucket.level, n.bucket.takes))
  {
  }

  lemma {:induction false} DecideTakes(cfg: Config, s: Lanes, cls: OperationClass, token: Option<Text>, at: Reads)
    requires cfg.geo.Valid()
    ensures var (n, d) := DecideAs(cfg, s, cls, token, at);
            && MadeWell(d, cls)
            && n.credited.admitted == s.credited.admitted + ToNat(Claim(d, Credited).Some?)
            && n.unverified.admitted == s.unverified.admitted + ToNat(Claim(d, Unverified).Some?)
            && (Claim(d, Credited).Some? ==>
                  Claim(d, Credited).value == Taken(true, n.credited.lastMs, n.credited.level, n.credited.takes))
            && (Claim(d, Unverified).Some? ==>
                  Claim(d, Unverified).value
                    == Taken(true, n.unverified.lastMs, n.unverified.level, n.unverified.takes))
  {
    if cls != Open {
      var c := Classify(cfg, s, token, at);
      if c.credit.Some? {
        CreditedTakes(cfg, CreditState(s.credited, c.ledger), cls, c.credit.value, c.epoch, c.isNew, at.third);
      } else {
        UnverifiedTakes(cfg, s.unverified, cls, at.third);
      }
    }
  }

  /** A bucket that a decision may have taken from stays within its budget, with the grant added to the log. */
  lemma {:induction false} LaneStaysBudgeted(rate: Rate, b: Bucket, t: real, id: nat, log: seq<Grant>)
    requires Budgeted(rate, b, Millis(log))
    ensures var c := Take(rate, b, t).0; Budgeted(rate, c, Millis(log + NewGrant(b, c, id)))
  {
    TakeIsBudgeted(rate, b, Millis(log), t);
    var (c, k) := Take(rate, b, t);
    assert Millis(log + [Grant(id, Taken(true, c.lastMs, c.level, c.takes))]) == Millis(log) + [c.lastMs];
    assert log + [] == log;
  }

  lemma {:induction false} DecideKeepsBudgets(cfg: Config, s: Stage, cls: OperationClass, token: Option<Text>,
      at: Reads, id: nat)
    requires cfg.Valid() && Budgets(cfg, s)
    ensures var n := DecideAs(cfg, s.lanes, cls, token, at).0;
            && Budgeted(cfg.credited, n.credited, Millis(s.credited + NewGrant(s.lanes.credited, n.credited, id)))
            && Budgeted(cfg.unverified, n.unverified,
              Millis(s.unverified + NewGrant(s.lanes.unverified, n.unverified, id)))
  {
    assert s.credited + [] == s.credited && s.unverified + [] == s.unverified;
    LaneStaysBudgeted(cfg.credited, s.lanes.credited, at.third, id, s.credited);
    LaneStaysBudgeted(cfg.unverified, s.lanes.unverified, at.third, id, s.unverified);
  }

  // ------------------------------------------------------------------ every step keeps the claims

  lemma {:induction false} ClaimArrives(made: map<nat, Decision>, finals: map<nat, Decision>, id: nat, d: Decision,
      lane: Lane, log: seq<Grant>)
    requires Claimed(made, finals, lane, log) && id !in finals && id !in made
    ensures Claim(d, lane) == None ==> Claimed(made[id := d], finals, lane, log)
    ensures Claim(d, lane).Some? ==> Claimed(made[id := d], finals, lane, log + [Grant(id, Claim(d, lane).value)])
  {
    var n := made[id := d];
    forall k | 0 <= k < |log| ensures log[k].id != id {
      assert Owner(made, finals, log[k].id, lane).Some?;
    }
    forall i ensures Owner(n, finals, i, lane) == if i == id then Claim(d, lane) else Owner(made, finals, i, lane) {
    }
    if Claim(d, lane).Some? {
      var more := log + [Grant(id, Claim(d, lane).value)];
      forall i | Owner(n, finals, i, lane).Some? ensures Logged(more, i) {
        if i == id {
          assert more[|log|].id == id;
        } else {
          var k :| 0 <= k < |log| && log[k].id == i;
          assert more[k].id == i;
        }
      }
    }
  }

  lemma {:induction false} ClaimMoves(made: map<nat, Decision>, finals: map<nat, Decision>, id: nat, d: Decision,
      lane: Lane, log: seq<Grant>)
    requires Claimed(made, finals, lane, log) && id !in finals
    requires Claim(d, lane) == if id in made then Claim(made[id], lane) else None
    ensures Claimed(made - {id}, finals[id := d], lane, log)
  {
    forall i ensures Owner(made - {id}, finals[id := d], i, lane) == Owner(made, finals, i, lane) {
    }
  }

  /** Whatever the composer reports, the final decision is valid and answers for exactly what was taken. */
  lemma {:induction false} ConclusionClaims(cls: OperationClass, made: Decision, winner: C.Winner, lane: Lane)
    requires MadeWell(made, cls) && Plausible(made, winner) && lane != OpenLane
    ensures Claim(Conclusion(cls, C.OutcomeOf(winner), Some(made)), lane) == Claim(made, lane)
    ensures Concluded(Conclusion(cls, C.OutcomeOf(winner), Some(made)))
  {
  }

  lemma {:induction false} ArriveBooks(runs: map<nat, C.Evaluation>, made: map<nat, Decision>, waiting: map<nat,
      OperationClass>, finals: map<nat, Decision>, id: nat, r: C.Evaluation, cls: OperationClass, d: Decision)
    requires Books(runs, made, waiting, finals) && id !in runs && MadeWell(d, cls)
    ensures r.outcome == None ==> Books(runs[id := r], made[id := d], waiting[id := cls], finals)
    ensures r.outcome != None ==> Books(runs[id := r], made, waiting[id := cls], finals)
  {
  }

  lemma {:induction false} FinishBooks(runs: map<nat, C.Evaluation>, made: map<nat, Decision>, waiting: map<nat,
      OperationClass>, finals: map<nat, Decision>, id: nat, r: C.Evaluation, d: Decision)
    requires Books(runs, made, waiting, finals) && id in waiting && Concluded(d)
    ensures Books(runs[id := r], made - {id}, waiting - {id}, finals[id := d])
  {
  }

  lemma {:induction false} BackgroundBooks(runs: map<nat, C.Evaluation>, made: map<nat, Decision>, waiting: map<nat,
      OperationClass>, finals: map<nat, Decision>, id: nat, r: C.Evaluation)
    requires Books(runs, made, waiting, finals) && id in runs && r.outcome == runs[id].outcome
    ensures Books(runs[id := r], made, waiting, finals)
  {
  }

  lemma {:induction false} ArriveKeeps(cfg: Config, s: Stage, id: nat, request: LayerRequest, at: Reads)
    requires Sound(cfg, s) && id !in s.composer.runs
    ensures Sound(cfg, Arrived(cfg, s, id, request, at))
  {
    var cls := ClassOf(request.verb, request.target);
    ArriveKeepsAs(cfg, s, id, cls, if cls == Mutation then TokenOf(request) else None, at,
      Arrived(cfg, s, id, request, at));
  }

  lemma {:induction false} ArriveKeepsAs(cfg: Config, s: Stage, id: nat, cls: OperationClass, token: Option<Text>,
      at: Reads, n: Stage)
    requires Sound(cfg, s) && id !in s.composer.runs
    requires n == ArrivedAs(cfg, s, id, cls, token, at)
    ensures Sound(cfg, n)
  {
    var (l, d) := DecideAs(cfg, s.lanes, cls, token, at);
    DecideTakes(cfg, s.lanes, cls, token, at);
    ArriveBooks(s.composer.runs, s.made, s.waiting, s.finals, id, n.composer.runs[id], cls, d);
    if n.composer.runs[id].outcome.None? {
      ArriveKeepsClaims(cfg, s, n, id, cls, token, at);
    }
  }

  lemma {:induction false} ArriveKeepsClaims(cfg: Config, s: Stage, n: Stage, id: nat, cls: OperationClass,
      token: Option<Text>, at: Reads)
    requires Sound(cfg, s) && id !in s.composer.runs
    requires var (l, d) := DecideAs(cfg, s.lanes, cls, token, at);
             && n.lanes == l && n.made == s.made[id := d] && n.finals == s.finals
             && n.credited == s.credited + NewGrant(s.lanes.credited, l.credited, id)
             && n.unverified == s.unverified + NewGrant(s.lanes.unverified, l.unverified, id)
    ensures Budgets(cfg, n) && Claimed(n.made, n.finals, Credited, n.credited)
            && Claimed(n.made, n.finals, Unverified, n.unverified)
  {
    var d := DecideAs(cfg, s.lanes, cls, token, at).1;
    DecideTakes(cfg, s.lanes, cls, token, at);
    DecideKeepsBudgets(cfg, s, cls, token, at, id);
    ClaimArrives(s.made, s.finals, id, d, Credited, s.credited);
    ClaimArrives(s.made, s.finals, id, d, Unverified, s.unverified);
    assert s.credited + [] == s.credited && s.unverified + [] == s.unverified;
  }

  lemma {:induction false} RecordCountsSpent(credited: nat, unverified: nat, finals: map<nat, Decision>, id: nat,
      d: Decision)
    requires SpentCounters(credited, unverified, finals) && id !in finals
    ensures SpentCounters(credited + ToNat(d.spent == Some(Credited)),
                          unverified + ToNat(d.spent.Some? && d.spent != Some(Credited)), finals[id := d])
  {
    TallyUpdate(finals, id, d, SPENT_CREDITED);
    TallyUpdate(finals, id, d, SPENT_UNVERIFIED);
    TallyUpdate(finals, id, d, SPENT_OPEN);
    if d.spent.Some? {
      match d.spent.value
      case OpenLane =>
      case Credited =>
      case Unverified =>
    }
  }

  lemma {:induction false} RecordKeeps(cfg: Config, s: Stage, id: nat, d: Decision, c: C.Composer, r: C.Evaluation)
    requires Sound(cfg, s) && id in s.waiting && Concluded(d)
    requires c.runs == s.composer.runs[id := r]
    requires forall lane :: lane != OpenLane ==> Claim(d, lane) == if id in s.made then Claim(s.made[id], lane)
             else None
    ensures Sound(cfg, Recorded(s.(composer := c), id, d))
  {
    FinishBooks(s.composer.runs, s.made, s.waiting, s.finals, id, r, d);
    ClaimMoves(s.made, s.finals, id, d, Credited, s.credited);
    ClaimMoves(s.made, s.finals, id, d, Unverified, s.unverified);
    RecordCountsSpent(s.spentCredited, s.spentUnverified, s.finals, id, d);
  }

  lemma {:induction false} FinishKeeps(cfg: Config, s: Stage, id: nat, winner: C.Winner)
    requires Sound(cfg, s) && Enabled(s, Finish(id, winner))
    ensures id in s.composer.runs && (id in s.made ==> C.Enabled(s.composer, C.Resume(id, winner)))
    ensures Sound(cfg, Finished(s, id, winner))
  {
    if id in s.made {
      var c := C.Next(s.composer, C.Resume(id, winner));
      ConclusionClaims(s.waiting[id], s.made[id], winner, Credited);
      ConclusionClaims(s.waiting[id], s.made[id], winner, Unverified);
      RecordKeeps(cfg, s, id, Conclusion(s.waiting[id], C.OutcomeOf(winner), Some(s.made[id])), c, c.runs[id]);
    } else {
      assert s.composer.runs[id := s.composer.runs[id]] == s.composer.runs;
      RecordKeeps(cfg, s, id, Conclusion(s.waiting[id], C.Shed, None), s.composer, s.composer.runs[id]);
      assert s.(composer := s.composer) == s;
    }
  }

  lemma {:induction false} BackgroundKeeps(cfg: Config, s: Stage, event: C.Event)
    requires Sound(cfg, s) && (event.Settle? || event.Reclaim?) && C.Enabled(s.composer, event)
    ensures Sound(cfg, s.(composer := C.Next(s.composer, event)))
  {
    var c := C.Next(s.composer, event);
    BackgroundBooks(s.composer.runs, s.made, s.waiting, s.finals, event.id, c.runs[event.id]);
    assert s.composer.runs[event.id := s.composer.runs[event.id]] == s.composer.runs;
  }

  lemma {:induction false} LanesKeep(cfg: Config, s: Stage, l: Lanes)
    requires Sound(cfg, s)
    requires Budgeted(cfg.credited, l.credited, Millis(s.credited))
             && Budgeted(cfg.unverified, l.unverified, Millis(s.unverified))
    ensures Sound(cfg, s.(lanes := l))
  {
  }

  // ------------------------------------------------------------------ whole runs

  ghost function Next(cfg: Config, s: Stage, act: Act): Stage
    requires Inv(cfg, s) && Enabled(s, act)
  {
    match act
    case Arrive(id, request, at) => Arrived(cfg, s, id, request, at)
    case Finish(id, winner) => (FinishKeeps(cfg, s, id, winner); Finished(s, id, winner))
    case Background(event) => s.(composer := C.Next(s.composer, event))
    case Enrollment(token, at) => s.(lanes := Enroll(cfg, s.lanes, token, at).0)
    case FillReading(t) => s.(lanes := Fill(cfg, s.lanes, t).0)
    case Observation(at) => s.(lanes := Snapshot(cfg, s.lanes, at).0)
  }

  lemma {:induction false} NextKeeps(cfg: Config, s: Stage, act: Act)
    requires Inv(cfg, s) && Enabled(s, act)
    ensures Inv(cfg, Next(cfg, s, act))
  {
    match act
    case Arrive(id, request, at) =>
      C.NextKeeps(s.composer, C.Start(id));
      ArriveKeeps(cfg, s, id, request, at);
    case Finish(id, winner) =>
      FinishKeeps(cfg, s, id, winner);
      if id in s.made {
        C.NextKeeps(s.composer, C.Resume(id, winner));
      }
    case Background(event) =>
      C.NextKeeps(s.composer, event);
      BackgroundKeeps(cfg, s, event);
    case Enrollment(token, at) => LanesKeep(cfg, s, Enroll(cfg, s.lanes, token, at).0);
    case FillReading(t) => LanesKeep(cfg, s, Fill(cfg, s.lanes, t).0);
    case Observation(at) =>
      RefillIsBudgeted(cfg.credited, s.lanes.credited, Millis(s.credited), at.second);
      RefillIsBudgeted(cfg.unverified, s.lanes.unverified, Millis(s.unverified), at.third);
      LanesKeep(cfg, s, Snapshot(cfg, s.lanes, at).0);
  }

  ghost function Fresh(cfg: Config, at: Reads, maxConcurrent: int): Stage
  {
    Stage(Initial(cfg, at), C.Idle(maxConcurrent), map[], map[], map[], 0, 0, [], [])
  }

  lemma {:induction false} FreshIsWell(cfg: Config, at: Reads, maxConcurrent: int)
    requires cfg.Valid() && 1 <= maxConcurrent
    ensures Inv(cfg, Fresh(cfg, at, maxConcurrent))
  {
    C.IdleIsBalanced(maxConcurrent);
    var none := Fresh(cfg, at, maxConcurrent).finals;
    assert Matching(none, SPENT_CREDITED) == {} && Matching(none, SPENT_UNVERIFIED) == {}
           && Matching(none, SPENT_OPEN) == {};
    FreshLanes(cfg, Fresh(cfg, at, maxConcurrent));
  }

  lemma {:induction false} FreshLanes(cfg: Config, s: Stage)
    requires cfg.Valid() && s.made == map[] && s.finals == map[] && s.credited == [] && s.unverified == []
    requires s.lanes.credited.level == cfg.credited.Units() && s.lanes.unverified.level == cfg.unverified.Units()
    requires s.lanes.credited.takes == s.lanes.credited.admitted == s.lanes.credited.shed == 0
    requires s.lanes.unverified.takes == s.lanes.unverified.admitted == s.lanes.unverified.shed == 0
    ensures Budgets(cfg, s) && Claimed(s.made, s.finals, Credited, []) && Claimed(s.made, s.finals, Unverified, [])
  {
    assert Millis([]) == [];
  }

  ghost predicate Possible(cfg: Config, s: Stage, acts: seq<Act>)
    requires Inv(cfg, s)
    decreases |acts|
  {
    acts == [] || (Enabled(s, acts[0]) && (NextKeeps(cfg, s, acts[0]); Possible(cfg, Next(cfg, s, acts[0]), acts[1..])))
  }

  ghost function After(cfg: Config, s: Stage, acts: seq<Act>): (n: Stage)
    requires Inv(cfg, s) && Possible(cfg, s, acts)
    ensures Inv(cfg, n)
    decreases |acts|
  {
    if acts == [] then s else (NextKeeps(cfg, s, acts[0]); After(cfg, Next(cfg, s, acts[0]), acts[1..]))
  }

  /** A run of a newly built stage. */
  ghost predicate Runs(cfg: Config, at: Reads, maxConcurrent: int, acts: seq<Act>)
  {
    cfg.Valid() && 1 <= maxConcurrent
    && (FreshIsWell(cfg, at, maxConcurrent); Possible(cfg, Fresh(cfg, at, maxConcurrent), acts))
  }

  ghost function Reached(cfg: Config, at: Reads, maxConcurrent: int, acts: seq<Act>): (s: Stage)
    requires Runs(cfg, at, maxConcurrent, acts)
    ensures Inv(cfg, s)
  {
    FreshIsWell(cfg, at, maxConcurrent);
    After(cfg, Fresh(cfg, at, maxConcurrent), acts)
  }

  /**
   * Through every run of arrivals, conclusions, timeouts, saturation, enrollments and snapshots: each successful take
   * of each lane's bucket is owned by exactly one request, whose decision (final, or still in flight) reports that very
   * take; no decision reports a take that was not made; and every final decision is in the validity matrix.
   */
  lemma {:induction false} TakesAreClaimedOnce(cfg: Config, at: Reads, maxConcurrent: int, acts: seq<Act>)
    requires Runs(cfg, at, maxConcurrent, acts)
    ensures var s := Reached(cfg, at, maxConcurrent, acts);
            && |s.credited| == s.lanes.credited.admitted && Claimed(s.made, s.finals, Credited, s.credited)
            && |s.unverified| == s.lanes.unverified.admitted && Claimed(s.made, s.finals, Unverified, s.unverified)
            && forall id :: id in s.finals ==> id !in s.made && Concluded(s.finals[id])
  {
    var s := Reached(cfg, at, maxConcurrent, acts);
    assert |Millis(s.credited)| == |s.credited| && |Millis(s.unverified)| == |s.unverified|;
  }

  // ------------------------------------------------------------------ throughput

  /** The concluded non-open requests that proceed on a lane and were granted within the window. */
  ghost function Proceeding(finals: map<nat, Decision>, lane: Lane, from: int, to: int): set<nat>
  {
    set id | id in finals && Proceeds(finals[id]) && finals[id].cls != Open && finals[id].lane == Some(lane)
             && finals[id].taken.Some? && from <= finals[id].taken.value.dt <= to
  }

  ghost predicate Within(log: seq<Grant>, ids: set<nat>, from: int, to: int)
  {
    forall id :: id in ids ==> exists k :: 0 <= k < |log| && log[k].id == id && from <= log[k].taken.dt <= to
  }

  lemma {:induction false} IdsInject(log: seq<Grant>, ids: set<nat>, from: int, to: int)
    requires Within(log, ids, from, to)
    ensures |ids| <= InWindow(Millis(log), from, to)
    decreases |log|
  {
    if log == [] {
      assert ids == {};
    } else {
      var n := |log| - 1;
      var x := log[n];
      var rest := if from <= x.taken.dt <= to then ids - {x.id} else ids;
      forall id | id in rest ensures exists k ::
        0 <= k < n && log[..n][k].id == id && from <= log[..n][k].taken.dt <= to {
        var k :| 0 <= k < |log| && log[k].id == id && from <= log[k].taken.dt <= to;
        assert k != n && log[..n][k] == log[k];
      }
      IdsInject(log[..n], rest, from, to);
      assert Millis(log)[..n] == Millis(log[..n]);
      assert |ids| <= |rest| + 1 by { Without(ids, x.id); }
    }
  }

  lemma {:induction false} LaneThroughput(cfg: Config, s: Stage, lane: Lane, rate: Rate, b: Bucket, log: seq<Grant>,
      from: int, to: int)
    requires Claimed(s.made, s.finals, lane, log) && Budgeted(rate, b, Millis(log)) && from <= to
    requires forall id :: id in s.finals ==> Concluded(s.finals[id])
    requires lane != OpenLane
    ensures |Proceeding(s.finals, lane, from, to)| * UNIT <= rate.Allowance(to - from)
  {
    var ids := Proceeding(s.finals, lane, from, to);
    forall id | id in ids ensures exists k :: 0 <= k < |log| && log[k].id == id && from <= log[k].taken.dt <= to {
      assert Concluded(s.finals[id]) && Owner(s.made, s.finals, id, lane) == s.finals[id].taken;
      var k :| 0 <= k < |log| && log[k].id == id;
      assert Owner(s.made, s.finals, log[k].id, lane) == Some(log[k].taken);
    }
    IdsInject(log, ids, from, to);
    WindowBound(rate, Millis(log), from, to);
  }

  /** Every request that proceeds without being open stands on one of the two lanes, with the take that admitted it. */
  lemma {:induction false} ProceedingIsOnALane(d: Decision)
    requires Concluded(d) && Proceeds(d) && d.cls != Open
    ensures (d.lane == Some(Credited) || d.lane == Some(Unverified)) && d.taken.Some?
  {
  }

  /**
   * In every run, whatever tokens, timeouts or saturation occur, the non-open requests that proceed on grants of any
   * window of time number, over both lanes together, at most the two capacities plus the two refills of that window.
   */
  lemma {:induction false} ThroughputIsBounded(cfg: Config, at: Reads, maxConcurrent: int, acts: seq<Act>, from: int,
      to: int)
    requires Runs(cfg, at, maxConcurrent, acts) && from <= to
    ensures var s := Reached(cfg, at, maxConcurrent, acts);
            && |Proceeding(s.finals, Credited, from, to)| * UNIT <= cfg.credited.Allowance(to - from)
            && |Proceeding(s.finals, Unverified, from, to)| * UNIT <= cfg.unverified.Allowance(to - from)
            && (|Proceeding(s.finals, Credited, from, to)| + |Proceeding(s.finals, Unverified, from, to)|) * UNIT
               <= cfg.credited.Allowance(to - from) + cfg.unverified.Allowance(to - from)
  {
    StageThroughput(cfg, Reached(cfg, at, maxConcurrent, acts), from, to);
  }

  lemma {:induction false} StageThroughput(cfg: Config, s: Stage, from: int, to: int)
    requires Sound(cfg, s) && from <= to
    ensures (|Proceeding(s.finals, Credited, from, to)| + |Proceeding(s.finals, Unverified, from, to)|) * UNIT
            <= cfg.credited.Allowance(to - from) + cfg.unverified.Allowance(to - from)
    ensures |Proceeding(s.finals, Credited, from, to)| * UNIT <= cfg.credited.Allowance(to - from)
    ensures |Proceeding(s.finals, Unverified, from, to)| * UNIT <= cfg.unverified.Allowance(to - from)
  {
    LaneThroughput(cfg, s, Credited, cfg.credited, s.lanes.credited, s.credited, from, to);
    LaneThroughput(cfg, s, Unverified, cfg.unverified, s.lanes.unverified, s.unverified, from, to);
  }

  // ------------------------------------------------------------------ what the aggregate counters say of discards

  /** Concluding an open request whose evaluation errored: its decision is discarded, and degraded instead. */
  predicate DiscardsOpen(s: Stage, act: Act)
  {
    act.Finish? && act.id in s.waiting && s.waiting[act.id] == Open && act.id in s.made
      && C.OutcomeOf(act.winner).Errored?
  }

  /** How often that happens in a run. */
  ghost function OpenDiscards(cfg: Config, s: Stage, acts: seq<Act>): nat
    requires Inv(cfg, s) && Possible(cfg, s, acts)
    decreases |acts|
  {
    if acts == [] then 0
    else
      NextKeeps(cfg, s, acts[0]);
      ToNat(DiscardsOpen(s, acts[0])) + OpenDiscards(cfg, Next(cfg, s, acts[0]), acts[1..])
  }

  lemma {:induction false} OpenIsSpent(cls: OperationClass, made: Decision, outcome: C.Outcome)
    requires MadeWell(made, cls)
    ensures Conclusion(cls, outcome, Some(made)).spent == Some(OpenLane) <==> cls == Open && outcome.Errored?
  {
  }

  lemma {:induction false} FinishSpends(cfg: Config, s: Stage, id: nat, winner: C.Winner)
    requires Inv(cfg, s) && Enabled(s, Finish(id, winner))
    ensures Tally(Next(cfg, s, Finish(id, winner)).finals, SPENT_OPEN)
            == Tally(s.finals, SPENT_OPEN) + ToNat(DiscardsOpen(s, Finish(id, winner)))
  {
    assert id !in s.finals;
    if id in s.made {
      var d := Conclusion(s.waiting[id], C.OutcomeOf(winner), Some(s.made[id]));
      OpenIsSpent(s.waiting[id], s.made[id], C.OutcomeOf(winner));
      TallyUpdate(s.finals, id, d, SPENT_OPEN);
    } else {
      TallyUpdate(s.finals, id, Conclusion(s.waiting[id], C.Shed, None), SPENT_OPEN);
    }
  }

  lemma {:induction false} ActSpends(cfg: Config, s: Stage, act: Act)
    requires Inv(cfg, s) && Enabled(s, act)
    ensures Tally(Next(cfg, s, act).finals, SPENT_OPEN) == Tally(s.finals, SPENT_OPEN) + ToNat(DiscardsOpen(s, act))
  {
    if act.Finish? {
      FinishSpends(cfg, s, act.id, act.winner);
    } else {
      OthersKeepFinals(cfg, s, act);
    }
  }

  lemma {:induction false} OthersKeepFinals(cfg: Config, s: Stage, act: Act)
    requires Inv(cfg, s) && Enabled(s, act) && !act.Finish?
    ensures Next(cfg, s, act).finals == s.finals && !DiscardsOpen(s, act)
  {
  }

  lemma {:induction false} RunSpends(cfg: Config, s: Stage, acts: seq<Act>)
    requires Inv(cfg, s) && Possible(cfg, s, acts)
    ensures Tally(After(cfg, s, acts).finals, SPENT_OPEN) == Tally(s.finals, SPENT_OPEN) + OpenDiscards(cfg, s, acts)
    decreases |acts|
  {
    if acts != [] {
      NextKeeps(cfg, s, acts[0]);
      ActSpends(cfg, s, acts[0]);
      RunSpends(cfg, Next(cfg, s, acts[0]), acts[1..]);
    }
  }

  ghost function OpenDiscardsOf(cfg: Config, at: Reads, maxConcurrent: int, acts: seq<Act>): nat
    requires Runs(cfg, at, maxConcurrent, acts)
  {
    FreshIsWell(cfg, at, maxConcurrent);
    OpenDiscards(cfg, Fresh(cfg, at, maxConcurrent), acts)
  }

  /**
   * After any run the unverified discard counter is the number of discarded unverified decisions plus the number of
   * open requests whose evaluation errored; so it means what its name says exactly when no open request's evaluation
   * did.
   */
  lemma {:induction false} UnverifiedDiscardsAreExactIff(cfg: Config, at: Reads, maxConcurrent: int, acts: seq<Act>)
    requires Runs(cfg, at, maxConcurrent, acts)
    ensures var s, discards := Reached(cfg, at, maxConcurrent, acts), OpenDiscardsOf(cfg, at, maxConcurrent, acts);
            && s.spentUnverified == Tally(s.finals, SPENT_UNVERIFIED) + discards
            && (s.spentUnverified == Tally(s.finals, SPENT_UNVERIFIED) <==> discards == 0)
  {
    FreshIsWell(cfg, at, maxConcurrent);
    var start := Fresh(cfg, at, maxConcurrent);
    RunSpends(cfg, start, acts);
    assert Matching(start.finals, SPENT_OPEN) == {};
  }

  lemma {:induction false} OpenArrives(cfg: Config, s: Stage, id: nat, at: Reads)
    requires cfg.geo.Valid() && id !in s.composer.runs && s.composer.Occupancy() < s.composer.maxConcurrent
    ensures ArrivedAs(cfg, s, id, Open, None, at)
            == s.(composer := C.Started(s.composer, id), waiting := s.waiting[id := Open],
                  made := s.made[id := Plain(Open, Some(OpenLane), Admitted)])
  {
    assert s.credited + [] == s.credited && s.unverified + [] == s.unverified;
  }

  /** A first open request, in flight. */
  ghost predicate OpenInFlight(s: Stage, id: nat)
  {
    && s.made == map[id := Plain(Open, Some(OpenLane), Admitted)] && s.waiting == map[id := Open] && s.finals == map[]
    && s.spentUnverified == 0 && id in s.composer.runs && s.composer.runs[id].outcome == None
  }

  lemma {:induction false} VisitArrives(cfg: Config, at: Reads, maxConcurrent: int, request: LayerRequest, id: nat,
      when: Reads)
    requires cfg.Valid() && 1 <= maxConcurrent && ClassOf(request.verb, request.target) == Open
    ensures id !in Fresh(cfg, at, maxConcurrent).composer.runs
    ensures OpenInFlight(Arrived(cfg, Fresh(cfg, at, maxConcurrent), id, request, when), id)
  {
    OpenArrives(cfg, Fresh(cfg, at, maxConcurrent), id, when);
  }

  lemma {:induction false} VisitIsDiscarded(s: Stage, id: nat)
    requires OpenInFlight(s, id)
    ensures var n := Finished(s, id, C.Answered(true, true, true));
            n.spentUnverified == 1 && n.finals.Keys == {id} && n.finals[id].spent == Some(OpenLane)
              && n.finals[id].outcome == Degraded
  {
  }

  lemma {:induction false} OneAct(cfg: Config, s: Stage, acts: seq<Act>)
    requires Inv(cfg, s) && |acts| == 1 && Enabled(s, acts[0])
    ensures Possible(cfg, s, acts) && After(cfg, s, acts) == Next(cfg, s, acts[0])
  {
    NextKeeps(cfg, s, acts[0]);
    var n, rest := Next(cfg, s, acts[0]), acts[1..];
    assert rest == [];
    assert Possible(cfg, n, rest) && After(cfg, n, rest) == n;
  }

  lemma {:induction false} TwoActs(cfg: Config, s: Stage, acts: seq<Act>, m: Stage)
    requires Inv(cfg, s) && |acts| == 2 && Enabled(s, acts[0]) && m == Next(cfg, s, acts[0])
    requires Inv(cfg, m) && Enabled(m, acts[1])
    ensures Possible(cfg, s, acts) && After(cfg, s, acts) == Next(cfg, m, acts[1])
  {
    var rest := acts[1..];
    assert |rest| == 1 && rest[0] == acts[1];
    OneAct(cfg, m, rest);
  }

  /**
   * A run in which the counter is wrong: whatever open request arrives first, if its verdict comes late it is degraded
   * and admitted, no bucket was touched, no unverified decision was discarded, and the counter says one.
   */
  lemma {:induction false} OpenDiscardIsMisfiled(cfg: Config, at: Reads, maxConcurrent: int, request: LayerRequest,
      id: nat, when: Reads)
    returns (acts: seq<Act>)
    requires cfg.Valid() && 1 <= maxConcurrent && ClassOf(request.verb, request.target) == Open
    ensures |acts| == 2 && acts[0] == Arrive(id, request, when) && acts[1] == Finish(id, C.Answered(true, true, true))
    ensures Runs(cfg, at, maxConcurrent, acts)
    ensures var s := Reached(cfg, at, maxConcurrent, acts);
            s.spentUnverified == 1 && Tally(s.finals, SPENT_UNVERIFIED) == 0 && id in s.finals
              && s.finals[id].outcome == Degraded
  {
    FreshIsWell(cfg, at, maxConcurrent);
    var start := Fresh(cfg, at, maxConcurrent);
    VisitArrives(cfg, at, maxConcurrent, request, id, when);
    NextKeeps(cfg, start, Arrive(id, request, when));
    var s := Next(cfg, start, Arrive(id, request, when));
    acts := [Arrive(id, request, when), Finish(id, C.Answered(true, true, true))];
    TwoActs(cfg, start, acts, s);
    VisitIsDiscarded(s, id);
    NoneUnverified(Finished(s, id, C.Answered(true, true, true)).finals, id);
  }

  lemma {:induction false} NoneUnverified(finals: map<nat, Decision>, id: nat)
    requires finals.Keys == {id} && finals[id].spent == Some(OpenLane)
    ensures Tally(finals, SPENT_UNVERIFIED) == 0
  {
    assert Matching(finals, SPENT_UNVERIFIED) == {};
  }

  // ------------------------------------------------------------------ the object

  class L2Stage {
    const lanes: JourneyLanes
    const composer: C.LayerComposer
    /** The layer's hand-over of a decision, keyed by the request. */
    var made: map<nat, Decision>
    var waiting: map<nat, OperationClass>
    var spentCredited: nat
    var spentUnverified: nat
    /** Every decision returned so far, and every successful take. */
    ghost var finals: map<nat, Decision>
    ghost var credited: seq<Grant>
    ghost var unverified: seq<Grant>

    ghost predicate Valid()
      reads this, lanes, lanes.Repr
    {
      lanes.Valid() && this !in lanes.Repr && composer !in lanes.Repr
    }

    ghost function State(): Stage
      reads this, composer, lanes.filter, lanes.filter.even, lanes.filter.odd, lanes.credited, lanes.unverified,
        lanes.ledger
    {
      Stage(lanes.State(), composer.State(), made, waiting, finals, spentCredited, spentUnverified, credited,
        unverified)
    }

    constructor (lanes: JourneyLanes, maxConcurrent: int)
      requires SafePositive(maxConcurrent) && lanes.Valid()
      ensures Valid() && this.lanes == lanes
      ensures State() == Stage(lanes.State(), C.Idle(maxConcurrent), map[], map[], map[], 0, 0, [], [])
    {
      this.lanes := lanes;
      composer := new C.LayerComposer(maxConcurrent);
      made, waiting, finals := map[], map[], map[];
      spentCredited, spentUnverified := 0, 0;
      credited, unverified := [], [];
    }

    /** The synchronous half of `decide`: into the composer and, unless shed, through the layer. */
    method Begin(id: nat, request: LayerRequest, at: Reads)
      requires Valid() && id !in composer.runs
      modifies this, composer, lanes.Repr
      ensures Valid() && State() == Arrived(lanes.Cfg(), old(State()), id, request, at)
    {
      var cls := ClassOf(request.verb, request.target);
      var token: Option<Text> := None;
      if cls == Mutation { token := ExtractSubmissionToken(request); }
      BeginAs(id, cls, token, at);
    }

    method BeginAs(id: nat, cls: OperationClass, token: Option<Text>, at: Reads)
      requires Valid() && id !in composer.runs
      modifies this, composer, lanes.Repr
      ensures Valid() && State() == ArrivedAs(lanes.Cfg(), old(State()), id, cls, token, at)
    {
      var shed := Enter(id, cls);
      if !shed {
        var _ := Evaluate(id, cls, token, at);
      }
    }

    /** Into the composer, which sheds at full occupancy. */
    method Enter(id: nat, cls: OperationClass) returns (shed: bool)
      requires Valid() && id !in composer.runs
      modifies this`waiting, composer
      ensures Valid()
      ensures State() == old(State()).(composer := C.Next(old(composer.State()), C.Start(id)),
              waiting := old(waiting)[id := cls])
      ensures shed == (composer.runs[id].outcome == Some(C.Shed)) && (!shed ==> composer.runs[id].outcome == None)
    {
      shed := composer.StartRun(id);
      waiting := waiting[id := cls];
    }

    /** The layer's evaluation: decide, and keep the decision for the stage to take. */
    method Evaluate(id: nat, cls: OperationClass, token: Option<Text>, at: Reads) returns (verdict: LayerVerdict)
      requires Valid()
      modifies this`made, this`credited, this`unverified, lanes.Repr
      ensures Valid()
      ensures var (l, d) := DecideAs(lanes.Cfg(), old(lanes.State()), cls, token, at);
              && lanes.State() == l && made == old(made)[id := d]
              && verdict == VerdictOf(d)
              && credited == old(credited) + NewGrant(old(lanes.credited.State()), l.credited, id)
              && unverified == old(unverified) + NewGrant(old(lanes.unverified.State()), l.unverified, id)
    {
      ghost var c, u := lanes.credited.State(), lanes.unverified.State();
      var decision := lanes.DecideFor(cls, token, at);
      made := made[id := decision];
      credited := credited + NewGrant(c, lanes.credited.State(), id);
      unverified := unverified + NewGrant(u, lanes.unverified.State(), id);
      if decision.outcome == Admitted { return Passes; }
      if decision.outcome == Error { return Throws; }
      return Rejects(decision.lane == Some(Credited));
    }

    /** The half after the await: take the decision back from the layer, conclude, record. */
    method Conclude(id: nat, winner: C.Winner) returns (decision: Decision)
      requires Valid() && id in waiting && id in composer.runs
      requires id in made ==> C.Enabled(composer.State(), C.Resume(id, winner))
      modifies this, composer
      ensures Valid() && State() == Finished(old(State()), id, winner) && id in finals && finals[id] == decision
    {
      decision := Conclusion(waiting[id], C.Shed, None);
      if id in made {
        var outcome := composer.ResumeRun(id, winner);
        decision := Conclusion(waiting[id], outcome, Some(made[id]));
      }
      Record(id, decision);
    }

    method Record(id: nat, d: Decision)
      modifies this
      ensures State() == Recorded(old(State()), id, d)
    {
      made, waiting, finals := made - {id}, waiting - {id}, finals[id := d];
      if d.spent == Some(Credited) {
        spentCredited := spentCredited + 1;
      } else if d.spent.Some? {
        spentUnverified := spentUnverified + 1;
      }
    }
  }
}
