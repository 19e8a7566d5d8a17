/**
 * The layer composer (defense/core/composer.ts): a bulkhead with a verdict deadline. One evaluation is four
 * asynchronous steps: Start, the promise's Settle, the awaiting run's Resume, and the Reclaim timer of an abandoned
 * evaluation. They interleave arbitrarily over any number of runs.
 */
module Composers {
  import opened Base
  import opened Tallies

  datatype ErrorKind = Throw | Timeout | InvalidVerdict
  datatype Outcome = Passed | Rejected | Shed | Errored(kind: ErrorKind)

  /** What the race between the evaluation and its deadline delivers to the awaiting run. */
  datatype Winner = Deadline | Threw | Answered(valid: bool, late: bool, pass: bool)

  /** The bulkhead slot an abandoned evaluation holds, and what gave it back. */
  datatype Slot = NeverHeld | Held | FreedBySettle | FreedByReclaim

  datatype Evaluation = Evaluation(settled: bool, outcome: Option<Outcome>, slot: Slot)

  datatype Counters = Counters(pass: nat, reject: nat, shed: nat, throws: nat, timeouts: nat, invalid: nat) {
    function Of(o: Outcome): nat
    {
      match o
      case Passed => pass
      case Rejected => reject
      case Shed => shed
      case Errored(Throw) => throws
      case Errored(Timeout) => timeouts
      case Errored(InvalidVerdict) => invalid
    }

    function Plus(o: Outcome): Counters
    {
      match o
      case Passed => this.(pass := pass + 1)
      case Rejected => this.(reject := reject + 1)
      case Shed => this.(shed := shed + 1)
      case Errored(Throw) => this.(throws := throws + 1)
      case Errored(Timeout) => this.(timeouts := timeouts + 1)
      case Errored(InvalidVerdict) => this.(invalid := invalid + 1)
    }

    function Total(): nat { pass + reject + shed + throws + timeouts + invalid }
  }

  const ZERO := Counters(0, 0, 0, 0, 0, 0)

  datatype Composer = Composer(
    maxConcurrent: int, inFlight: int, abandonedLive: int, evaluated: nat, counts: Counters,
    abandoned: nat, reclaimed: nat, lateDiscarded: nat, runs: map<nat, Evaluation>)
  {
    function Occupancy(): int { inFlight + abandonedLive }
  }

  function Idle(maxConcurrent: int): Composer { Composer(maxConcurrent, 0, 0, 0, ZERO, 0, 0, 0, map[]) }

  datatype Event = Start(id: nat) | Settle(id: nat) | Resume(id: nat, winner: Winner) | Reclaim(id: nat)

  function OutcomeOf(winner: Winner): Outcome
  {
    match winner
    case Deadline => Errored(Timeout)
    case Threw => Errored(Throw)
    case Answered(valid, late, pass) =>
      if !valid then Errored(InvalidVerdict) else if late then Errored(Timeout) else if pass then Passed else Rejected
  }

  /** A run starts once; only a run that was not shed has an evaluation; a reclaim timer exists once a slot was held. */
  predicate Enabled(c: Composer, e: Event)
  {
    match e
    case Start(id) => id !in c.runs
    case Settle(id) => id in c.runs && c.runs[id].outcome != Some(Shed)
    case Resume(id, _) => id in c.runs && c.runs[id].outcome == None
    case Reclaim(id) => id in c.runs && c.runs[id].slot != NeverHeld
  }

  function Started(c: Composer, id: nat): Composer
  {
    var n := c.(evaluated := c.evaluated + 1);
    if c.Occupancy() >= c.maxConcurrent then
      n.(counts := c.counts.Plus(Shed), runs := c.runs[id := Evaluation(true, Some(Shed), NeverHeld)])
    else n.(inFlight := c.inFlight + 1, runs := c.runs[id := Evaluation(false, None, NeverHeld)])
  }

  function Settled(c: Composer, id: nat): Composer
    requires id in c.runs
  {
    var r := c.runs[id].(settled := true);
    if r.slot == Held then c.(abandonedLive := c.abandonedLive - 1, runs := c.runs[id := r.(slot := FreedBySettle)])
    else c.(runs := c.runs[id := r])
  }

  function Resumed(c: Composer, id: nat, winner: Winner): Composer
    requires id in c.runs
  {
    var o := OutcomeOf(winner);
    var r := c.runs[id].(outcome := Some(o));
    var n := c.(inFlight := c.inFlight - 1, counts := c.counts.Plus(o),
                lateDiscarded := c.lateDiscarded + ToNat(winner.Answered? && winner.valid && winner.late));
    if winner == Deadline && !r.settled then
      n.(abandonedLive := c.abandonedLive + 1, abandoned := c.abandoned + 1, runs := c.runs[id := r.(slot := Held)])
    else n.(runs := c.runs[id := r])
  }

  function Reclaimed(c: Composer, id: nat): Composer
    requires id in c.runs
  {
    if c.runs[id].slot == Held then
      c.(abandonedLive := c.abandonedLive - 1, reclaimed := c.reclaimed + 1,
         runs := c.runs[id := c.runs[id].(slot := FreedByReclaim)])
    else c
  }

  function Next(c: Composer, e: Event): Composer
    requires Enabled(c, e)
  {
    match e
    case Start(id) => Started(c, id)
    case Settle(id) => Settled(c, id)
    case Resume(id, winner) => Resumed(c, id, winner)
    case Reclaim(id) => Reclaimed(c, id)
  }

  // ------------------------------------------------------------------ the books balance

  const RUNNING: Evaluation -> bool := (r: Evaluation) => r.outcome == None
  const HOLDING: Evaluation -> bool := (r: Evaluation) => r.slot == Held
  const RECLAIM_FREED: Evaluation -> bool := (r: Evaluation) => r.slot == FreedByReclaim
  const SETTLE_FREED: Evaluation -> bool := (r: Evaluation) => r.slot == FreedBySettle
  function Ended(o: Outcome): Evaluation -> bool { (r: Evaluation) => r.outcome == Some(o) }

  predicate Coherent(r: Evaluation)
  {
    && (r.outcome == None ==> r.slot == NeverHeld)
    && (r.outcome == Some(Shed) ==> r.settled && r.slot == NeverHeld)
    && (r.slot != NeverHeld ==> r.outcome == Some(Errored(Timeout)))
    && (r.slot == Held ==> !r.settled)
  }

  ghost predicate Outcomes(counts: Counters, runs: map<nat, Evaluation>)
  {
    forall o :: counts.Of(o) == Tally(runs, Ended(o))
  }

  ghost predicate Slots(c: Composer)
  {
    && c.inFlight == Tally(c.runs, RUNNING)
    && c.abandonedLive == Tally(c.runs, HOLDING)
    && c.reclaimed == Tally(c.runs, RECLAIM_FREED)
    && c.abandoned == c.abandonedLive + c.reclaimed + Tally(c.runs, SETTLE_FREED)
  }

  ghost predicate Inv(c: Composer)
  {
    && 1 <= c.maxConcurrent && c.Occupancy() <= c.maxConcurrent
    && (forall i :: i in c.runs ==> Coherent(c.runs[i]))
    && Slots(c) && Outcomes(c.counts, c.runs)
    && c.evaluated == |c.runs| == c.counts.Total() + c.inFlight
  }

  lemma {:induction false} SlotTallies(m: map<nat, Evaluation>, id: nat, r: Evaluation)
    ensures Tally(m[id := r], RUNNING) + ToNat(id in m && m[id].outcome == None)
            == Tally(m, RUNNING) + ToNat(r.outcome == None)
    ensures Tally(m[id := r], HOLDING) + ToNat(id in m && m[id].slot == Held)
            == Tally(m, HOLDING) + ToNat(r.slot == Held)
    ensures Tally(m[id := r], RECLAIM_FREED) + ToNat(id in m && m[id].slot == FreedByReclaim)
         == Tally(m, RECLAIM_FREED) + ToNat(r.slot == FreedByReclaim)
    ensures Tally(m[id := r], SETTLE_FREED) + ToNat(id in m && m[id].slot == FreedBySettle)
         == Tally(m, SETTLE_FREED) + ToNat(r.slot == FreedBySettle)
  {
    TallyUpdate(m, id, r, RUNNING);
    TallyUpdate(m, id, r, HOLDING);
    TallyUpdate(m, id, r, RECLAIM_FREED);
    TallyUpdate(m, id, r, SETTLE_FREED);
  }

  lemma {:induction false} OutcomeTally(m: map<nat, Evaluation>, id: nat, r: Evaluation, o: Outcome)
    ensures Tally(m[id := r], Ended(o)) + ToNat(id in m && m[id].outcome == Some(o))
         == Tally(m, Ended(o)) + ToNat(r.outcome == Some(o))
  {
    TallyUpdate(m, id, r, Ended(o));
  }

  /** Recording the outcome of a run that had none adds one to that outcome's counter and to no other. */
  lemma {:induction false} NewOutcome(counts: Counters, m: map<nat, Evaluation>, id: nat, r: Evaluation)
    requires Outcomes(counts, m) && (id in m ==> m[id].outcome == None) && r.outcome.Some?
    ensures Outcomes(counts.Plus(r.outcome.value), m[id := r])
  {
    forall o ensures counts.Plus(r.outcome.value).Of(o) == Tally(m[id := r], Ended(o)) {
      PlusCountsOne(counts, r.outcome.value, o);
      OutcomeTally(m, id, r, o);
    }
  }

  lemma {:induction false} PlusCountsOne(counts: Counters, o: Outcome, x: Outcome)
    ensures counts.Plus(o).Of(x) == counts.Of(x) + ToNat(x == o)
  {
  }

  lemma {:induction false} SameOutcomes(counts: Counters, m: map<nat, Evaluation>, id: nat, r: Evaluation)
    requires Outcomes(counts, m) && r.outcome == (if id in m then m[id].outcome else None)
    ensures Outcomes(counts, m[id := r])
  {
    forall o ensures counts.Of(o) == Tally(m[id := r], Ended(o)) {
      OutcomeTally(m, id, r, o);
    }
  }

  lemma {:induction false} StartKeeps(c: Composer, id: nat)
    requires Inv(c) && id !in c.runs
    ensures Inv(Started(c, id))
  {
    var n := Started(c, id);
    SlotTallies(c.runs, id, n.runs[id]);
    if c.Occupancy() >= c.maxConcurrent {
      NewOutcome(c.counts, c.runs, id, n.runs[id]);
    } else {
      SameOutcomes(c.counts, c.runs, id, n.runs[id]);
    }
  }

  lemma {:induction false} SettleKeeps(c: Composer, id: nat)
    requires Inv(c) && Enabled(c, Settle(id))
    ensures Inv(Settled(c, id))
  {
    var r := Settled(c, id).runs[id];
    SlotTallies(c.runs, id, r);
    SameOutcomes(c.counts, c.runs, id, r);
    assert Settled(c, id).runs.Keys == c.runs.Keys;
  }

  lemma {:induction false} ResumeKeepsSlots(c: Composer, id: nat, winner: Winner)
    requires Slots(c) && id in c.runs && c.runs[id].outcome == None && Coherent(c.runs[id])
    ensures Slots(Resumed(c, id, winner)) && Coherent(Resumed(c, id, winner).runs[id])
    ensures Resumed(c, id, winner).Occupancy() <= c.Occupancy()
  {
    SlotTallies(c.runs, id, Resumed(c, id, winner).runs[id]);
  }

  lemma {:induction false} ResumeKeeps(c: Composer, id: nat, winner: Winner)
    requires Inv(c) && Enabled(c, Resume(id, winner))
    ensures Inv(Resumed(c, id, winner))
  {
    assert Coherent(c.runs[id]);
    ResumeKeepsSlots(c, id, winner);
    NewOutcome(c.counts, c.runs, id, Resumed(c, id, winner).runs[id]);
    assert Resumed(c, id, winner).runs.Keys == c.runs.Keys;
  }

  lemma {:induction false} ReclaimKeeps(c: Composer, id: nat)
    requires Inv(c) && Enabled(c, Reclaim(id))
    ensures Inv(Reclaimed(c, id))
  {
    if c.runs[id].slot == Held {
      var r := c.runs[id].(slot := FreedByReclaim);
      SlotTallies(c.runs, id, r);
      SameOutcomes(c.counts, c.runs, id, r);
      assert Reclaimed(c, id).runs.Keys == c.runs.Keys;
    }
  }

  lemma {:induction false} NextKeeps(c: Composer, e: Event)
    requires Inv(c) && Enabled(c, e)
    ensures Inv(Next(c, e))
  {
    match e
    case Start(id) => StartKeeps(c, id);
    case Settle(id) => SettleKeeps(c, id);
    case Resume(id, winner) => ResumeKeeps(c, id, winner);
    case Reclaim(id) => ReclaimKeeps(c, id);
  }

  // ------------------------------------------------------------------ whole runs

  predicate Possible(c: Composer, events: seq<Event>)
    decreases |events|
  {
    events == [] || (Enabled(c, events[0]) && Possible(Next(c, events[0]), events[1..]))
  }

  function After(c: Composer, events: seq<Event>): Composer
    requires Possible(c, events)
    decreases |events|
  {
    if events == [] then c else After(Next(c, events[0]), events[1..])
  }

  /** A run's outcome, once there, is final; a slot given back is never given back again, nor held again. */
  predicate Final(before: Evaluation, after: Evaluation)
  {
    && (before.outcome.Some? ==> after.outcome == before.outcome)
    && (before.slot == FreedBySettle ==> after.slot == FreedBySettle)
    && (before.slot == FreedByReclaim ==> after.slot == FreedByReclaim)
    && (before.outcome.Some? && before.slot == NeverHeld ==> after.slot == NeverHeld)
  }

  lemma {:induction false} NextIsFinal(c: Composer, e: Event, i: nat)
    requires Enabled(c, e) && i in c.runs && Coherent(c.runs[i])
    ensures i in Next(c, e).runs && Final(c.runs[i], Next(c, e).runs[i])
  {
    match e
    case Start(id) =>
    case Settle(id) =>
    case Resume(id, winner) =>
    case Reclaim(id) =>
  }

  lemma {:induction false} RunKeeps(c: Composer, events: seq<Event>)
    requires Inv(c) && Possible(c, events)
    ensures Inv(After(c, events))
    ensures forall i :: i in c.runs ==> i in After(c, events).runs && Final(c.runs[i], After(c, events).runs[i])
    decreases |events|
  {
    if events != [] {
      var n := Next(c, events[0]);
      NextKeeps(c, events[0]);
      RunKeeps(n, events[1..]);
      forall i | i in c.runs ensures i in After(c, events).runs && Final(c.runs[i], After(c, events).runs[i]) {
        NextIsFinal(c, events[0], i);
      }
    }
  }

  /** What the invariant says of the counters, in terms of the runs alone. */
  ghost predicate Balanced(c: Composer, maxConcurrent: int)
  {
    && 0 <= c.Occupancy() <= maxConcurrent
    && c.Occupancy() == Tally(c.runs, RUNNING) + Tally(c.runs, HOLDING)
    && c.evaluated == |c.runs| == c.counts.Total() + c.inFlight
    && c.abandoned == Tally(c.runs, HOLDING) + Tally(c.runs, SETTLE_FREED) + Tally(c.runs, RECLAIM_FREED)
    && Outcomes(c.counts, c.runs)
  }

  lemma {:induction false} InvIsBalanced(c: Composer)
    requires Inv(c)
    ensures Balanced(c, c.maxConcurrent)
  {
  }

  /**
   * Over every interleaving from an idle composer: occupancy stays within the bulkhead, every evaluation started is
   * accounted once under its one outcome or is in flight, and every abandoned slot is held, or was freed by exactly one
   * of its settlement and its reclaim timer.
   */
  lemma {:induction false} BulkheadAccounting(maxConcurrent: int, events: seq<Event>)
    requires 1 <= maxConcurrent && Possible(Idle(maxConcurrent), events)
    ensures Balanced(After(Idle(maxConcurrent), events), maxConcurrent)
  {
    IdleIsBalanced(maxConcurrent);
    RunKeeps(Idle(maxConcurrent), events);
    MaxConcurrentStays(Idle(maxConcurrent), events);
    InvIsBalanced(After(Idle(maxConcurrent), events));
  }

  lemma {:induction false} IdleIsBalanced(maxConcurrent: int)
    requires 1 <= maxConcurrent
    ensures Inv(Idle(maxConcurrent))
  {
    var none := Idle(maxConcurrent).runs;
    forall o ensures Tally(none, Ended(o)) == 0 {
      assert Matching(none, Ended(o)) == {};
    }
    assert Matching(none, RUNNING) == {} && Matching(none, HOLDING) == {};
    assert Matching(none, RECLAIM_FREED) == {} && Matching(none, SETTLE_FREED) == {};
  }

  lemma {:induction false} MaxConcurrentStays(c: Composer, events: seq<Event>)
    requires Possible(c, events)
    ensures After(c, events).maxConcurrent == c.maxConcurrent
    decreases |events|
  {
    if events != [] {
      MaxConcurrentStays(Next(c, events[0]), events[1..]);
    }
  }

  // ------------------------------------------------------------------ the object

  class LayerComposer {
    const maxConcurrent: int
    var inFlight: int
    var abandonedLive: int
    var evaluated: nat
    var counts: Counters
    var abandoned: nat
    var reclaimed: nat
    var lateDiscarded: nat
    /** The per-run flags `settled`, `timedOut` and `abandonedCounted`, kept as one record per run. */
    var runs: map<nat, Evaluation>

    ghost function State(): Composer
      reads this
    {
      Composer(maxConcurrent, inFlight, abandonedLive, evaluated, counts, abandoned, reclaimed, lateDiscarded, runs)
    }

    constructor (maxConcurrent: int)
      requires SafePositive(maxConcurrent)
      ensures State() == Idle(maxConcurrent)
    {
      this.maxConcurrent := maxConcurrent;
      inFlight, abandonedLive, evaluated, counts := 0, 0, 0, ZERO;
      abandoned, reclaimed, lateDiscarded, runs := 0, 0, 0, map[];
    }

    method StartRun(id: nat) returns (shed: bool)
      requires Enabled(State(), Start(id))
      modifies this
      ensures State() == Next(old(State()), Start(id)) && shed == (runs[id].outcome == Some(Shed))
    {
      evaluated := evaluated + 1;
      shed := inFlight + abandonedLive >= maxConcurrent;
      if shed {
        counts := counts.Plus(Shed);
        runs := runs[id := Evaluation(true, Some(Shed), NeverHeld)];
      } else {
        inFlight := inFlight + 1;
        runs := runs[id := Evaluation(false, None, NeverHeld)];
      }
    }

    method SettleRun(id: nat)
      requires Enabled(State(), Settle(id))
      modifies this
      ensures State() == Next(old(State()), Settle(id))
    {
      var r := runs[id].(settled := true);
      if r.slot == Held {
        r := r.(slot := FreedBySettle);
        abandonedLive := abandonedLive - 1;
      }
      runs := runs[id := r];
    }

    method ResumeRun(id: nat, winner: Winner) returns (outcome: Outcome)
      requires Enabled(State(), Resume(id, winner))
      modifies this
      ensures State() == Next(old(State()), Resume(id, winner)) && runs[id].outcome == Some(outcome)
    {
      outcome := OutcomeOf(winner);
      if winner.Answered? && winner.valid && winner.late { lateDiscarded := lateDiscarded + 1; }
      inFlight := inFlight - 1;
      var r := runs[id].(outcome := Some(outcome));
      if winner == Deadline && !r.settled {
        abandonedLive := abandonedLive + 1;
        abandoned := abandoned + 1;
        r := r.(slot := Held);
      }
      runs := runs[id := r];
      counts := counts.Plus(outcome);
    }

    method ReclaimRun(id: nat)
      requires Enabled(State(), Reclaim(id))
      modifies this
      ensures State() == Next(old(State()), Reclaim(id))
    {
      if runs[id].slot == Held {
        runs := runs[id := runs[id].(slot := FreedByReclaim)];
        abandonedLive := abandonedLive - 1;
        reclaimed := reclaimed + 1;
      }
    }
  }
}
