/** Lineage of one request over its plane, boundary and application streams (defense/core/lineage.ts). */
module Lineages {
  import opened Base
  import opened LifecycleEvents
  import opened Automata

  // ------------------------------------------------------------------ the two hop-gate automata

  function NextBoundary(previous: Option<BoundaryKind>): set<BoundaryKind>
  {
    match previous
    case None => {BoundaryArrived}
    case Some(BoundaryArrived) => {BoundaryRejected, BoundaryAdmitted}
    case Some(BoundaryRejected) => {BoundaryResponded, BoundaryAborted}
    case Some(BoundaryAdmitted) => {AppProofIssued, BoundaryResponded, BoundaryAborted}
    case Some(AppProofIssued) => {BoundaryForwarded}
    case Some(BoundaryForwarded) => {BoundaryForwardResponded, BoundaryForwardFailed}
    case Some(BoundaryForwardResponded) => {BoundaryResponded, BoundaryAborted}
    case Some(BoundaryForwardFailed) => {BoundaryResponded, BoundaryAborted}
    case Some(_) => {}
  }

  function NextApp(previous: Option<AppKind>): set<AppKind>
  {
    match previous
    case None => {AppAdmitted, AppRefused}
    case Some(AppAdmitted) => {AppExecuted, AppCompleted, AppAborted}
    case Some(AppExecuted) => {AppMutated, AppCompleted, AppAborted}
    case Some(AppMutated) => {AppCompleted, AppAborted}
    case Some(_) => {}
  }

  function BoundaryRank(kind: BoundaryKind): int
  {
    match kind
    case BoundaryArrived => 1
    case BoundaryRejected | BoundaryAdmitted => 2
    case AppProofIssued => 3
    case BoundaryForwarded => 4
    case BoundaryForwardResponded | BoundaryForwardFailed => 5
    case BoundaryResponded | BoundaryAborted => 6
    case BoundaryParserRejected | BoundaryProtocolRefused => 0
  }

  function AppRank(kind: AppKind): int
  {
    match kind
    case AppAdmitted | AppRefused => 1
    case AppExecuted => 2
    case AppMutated => 3
    case AppCompleted | AppAborted => 4
  }

  /** How a step that the table does not list is classified. */
  function StepBlame<K(==)>(next: Successors<K>, rank: K -> int, previous: Option<K>, kind: K, seen: set<K>): Anomaly
  {
    if previous.Some? && next(previous) == {} then DuplicateTerminal
    else if kind in seen then DuplicateEvent
    else if rank(kind) <= (if previous.None? then 0 else rank(previous.value)) then ImpossibleOrder
    else MissingTransition
  }

  function BoundaryBlame(previous: Option<BoundaryKind>, kind: BoundaryKind, seen: set<BoundaryKind>): Anomaly
  {
    StepBlame(NextBoundary, BoundaryRank, previous, kind, seen)
  }

  function AppBlame(previous: Option<AppKind>, kind: AppKind, seen: set<AppKind>): Anomaly
  {
    StepBlame(NextApp, AppRank, previous, kind, seen)
  }

  function BoundaryMarks(events: seq<BoundaryEvent>): (marks: seq<Mark<BoundaryKind>>)
    ensures |marks| == |events|
    ensures forall i :: 0 <= i < |events| ==> marks[i] == Mark(events[i].kind, events[i].seqNo)
  {
    seq(|events|, i requires 0 <= i < |events| => Mark(events[i].kind, events[i].seqNo))
  }

  function AppMarks(events: seq<AppEvent>): (marks: seq<Mark<AppKind>>)
    ensures |marks| == |events|
    ensures forall i :: 0 <= i < |events| ==> marks[i] == Mark(events[i].kind, events[i].seqNo)
  {
    seq(|events|, i requires 0 <= i < |events| => Mark(events[i].kind, events[i].seqNo))
  }

  predicate LegalBoundary(events: seq<BoundaryEvent>)
  {
    Word(NextBoundary, BoundaryMarks(events)) && Ascending(BoundaryMarks(events))
  }

  predicate LegalApp(events: seq<AppEvent>)
  {
    Word(NextApp, AppMarks(events)) && Ascending(AppMarks(events))
  }

  lemma {:induction false} BoundaryClimbs()
    ensures Climbing(NextBoundary, BoundaryRank)
  {
  }

  lemma {:induction false} AppClimbs()
    ensures Climbing(NextApp, AppRank)
  {
  }

  /** A legal boundary stream has at most six events and each kind at most once. */
  lemma {:induction false} BoundaryIsShort(events: seq<BoundaryEvent>)
    requires LegalBoundary(events)
    ensures |events| <= 6
    ensures forall i, j :: 0 <= i < j < |events| ==> events[i].kind != events[j].kind
  {
    BoundaryClimbs();
    WordIsShort(NextBoundary, BoundaryRank, BoundaryMarks(events), 6);
    forall i, j | 0 <= i < j < |events| ensures events[i].kind != events[j].kind {
      assert BoundaryMarks(events)[i].kind != BoundaryMarks(events)[j].kind;
    }
  }

  /** A legal application stream has at most four events and each kind at most once. */
  lemma {:induction false} AppIsShort(events: seq<AppEvent>)
    requires LegalApp(events)
    ensures |events| <= 4
    ensures forall i, j :: 0 <= i < j < |events| ==> events[i].kind != events[j].kind
  {
    AppClimbs();
    WordIsShort(NextApp, AppRank, AppMarks(events), 4);
    forall i, j | 0 <= i < j < |events| ensures events[i].kind != events[j].kind {
      assert AppMarks(events)[i].kind != AppMarks(events)[j].kind;
    }
  }

  // ------------------------------------------------------------------ the rules

  /** Oracle-minted hop ids start here (2 ** 40). */
  const ORACLE_HOP_BASE: int := 1_099_511_627_776

  function BoundaryOf(view: View): seq<BoundaryEvent> { if view.boundary.Some? then view.boundary.value else [] }
  function AppOf(view: View): seq<AppEvent> { if view.app.Some? then view.app.value else [] }

  function Mutations(app: seq<AppEvent>): nat
  {
    if app == [] then 0 else (if app[0].kind == AppMutated then 1 else 0) + Mutations(app[1..])
  }

  predicate OracleHop(view: View)
  {
    || (exists i ::
         0 <= i < |BoundaryOf(view)|
         && BoundaryOf(view)[i].hop.Some? && BoundaryOf(view)[i].hop.value >= ORACLE_HOP_BASE)
    || (exists i :: 0 <= i < |AppOf(view)| && AppOf(view)[i].hop.Some? && AppOf(view)[i].hop.value >= ORACLE_HOP_BASE)
  }

  predicate PlaneHop(view: View)
  {
    || (exists i ::
         0 <= i < |BoundaryOf(view)|
         && BoundaryOf(view)[i].hop.Some? && BoundaryOf(view)[i].hop.value < ORACLE_HOP_BASE)
    || (exists i :: 0 <= i < |AppOf(view)| && AppOf(view)[i].hop.Some? && AppOf(view)[i].hop.value < ORACLE_HOP_BASE)
  }

  /** The whole authenticated chain is present and every identifier agrees across the three processes. */
  predicate ProtectedLineageComplete(view: View)
  {
    var attempted := FirstPlane(view.plane, EgressAttempted);
    var issuedPb := FirstPlane(view.plane, ProofIssued);
    var admitted := FirstBoundary(BoundaryOf(view), BoundaryAdmitted);
    var issuedBa := FirstBoundary(BoundaryOf(view), AppProofIssued);
    var appAdmitted := FirstApp(AppOf(view), AppAdmitted);
    && attempted.Some? && issuedPb.Some? && admitted.Some? && issuedBa.Some? && appAdmitted.Some?
    && issuedPb.value.pbTag.Some? && issuedBa.value.baTag.Some?
    && admitted.value.hop == Some(attempted.value.seqNo) && admitted.value.pbTag == issuedPb.value.pbTag
    && issuedBa.value.hop == Some(attempted.value.seqNo) && issuedBa.value.pbTag == issuedPb.value.pbTag
    && appAdmitted.value.hop == Some(attempted.value.seqNo) && appAdmitted.value.pbTag == issuedPb.value.pbTag
    && appAdmitted.value.baTag == issuedBa.value.baTag
  }

  /** The chain behind an application admission, whose start depends on the lane. */
  predicate LineageOf(view: View)
  {
    var admitted := FirstBoundary(BoundaryOf(view), BoundaryAdmitted);
    var issuedBa := FirstBoundary(BoundaryOf(view), AppProofIssued);
    var appAdmitted := FirstApp(AppOf(view), AppAdmitted);
    && appAdmitted.Some?
    && if view.expected == PositiveControlApp then
         BoundaryOf(view) == [] && appAdmitted.value.baTag.Some? && appAdmitted.value.pbTag.Some?
       else
         var root := RootTag(view);
         var hop := RootHop(view);
         && root.Some? && hop.Some? && admitted.Some? && issuedBa.Some?
         && admitted.value.hop == hop && admitted.value.pbTag == root
         && issuedBa.value.hop == hop && issuedBa.value.pbTag == root
         && appAdmitted.value.hop == hop && appAdmitted.value.pbTag == root
         && issuedBa.value.baTag.Some? && appAdmitted.value.baTag == issuedBa.value.baTag
  }

  function RootTag(view: View): Option<Text>
  {
    if view.expected == Protected then
      var issuedPb := FirstPlane(view.plane, ProofIssued);
      if issuedPb.Some? then issuedPb.value.pbTag else None
    else
      var admitted := FirstBoundary(BoundaryOf(view), BoundaryAdmitted);
      if admitted.Some? then admitted.value.pbTag else None
  }

  function RootHop(view: View): Option<int>
  {
    if view.expected == Protected then
      var attempted := FirstPlane(view.plane, EgressAttempted);
      if attempted.Some? then Some(attempted.value.seqNo) else None
    else
      var admitted := FirstBoundary(BoundaryOf(view), BoundaryAdmitted);
      if admitted.Some? then admitted.value.hop else None
  }

  function StreamRules(view: View): seq<Anomaly>
  {
    Add(Run(NextBoundary, BoundaryBlame, BoundaryMarks(BoundaryOf(view)))
      + Run(NextApp, AppBlame, AppMarks(AppOf(view))),
        Mutations(AppOf(view)) > 1, DuplicateEvent)
  }

  function DirectRules(view: View, f0: seq<Anomaly>): seq<Anomaly>
  {
    var boundary, app := BoundaryOf(view), AppOf(view);
    var f1 := Add(f0, view.expected == DirectAppRejected && |boundary| > 0, BoundaryLaneMismatch);
    var f2 := Add(f1, FirstBoundary(boundary, BoundaryAdmitted).Some? || FirstBoundary(boundary, AppProofIssued).Some?,
      DirectNotRejected);
    var f3 := Add(f2, FirstApp(app, AppAdmitted).Some? || FirstApp(app, AppExecuted).Some?
      || FirstApp(app, AppCompleted).Some?, DirectAppExecution);
    Add(f3, Mutations(app) > 0, DirectAppMutation)
  }

  /** Whether the boundary's admission names the plane's own hop and proof. */
  predicate AdmissionMatchesPlane(view: View, admitted: BoundaryEvent)
  {
    var attempted := FirstPlane(view.plane, EgressAttempted);
    var issuedPb := FirstPlane(view.plane, ProofIssued);
    attempted.Some? && issuedPb.Some? && admitted.hop == Some(attempted.value.seqNo)
      && admitted.pbTag == issuedPb.value.pbTag
  }

  function PlaneRules(view: View, final: bool, f0: seq<Anomaly>): seq<Anomaly>
  {
    var attempted := FirstPlane(view.plane, EgressAttempted);
    var issuedPb := FirstPlane(view.plane, ProofIssued);
    var admitted := FirstBoundary(BoundaryOf(view), BoundaryAdmitted);
    if view.expected == Protected then
      var f1 := Add(f0, OracleHop(view), HopRangeViolation);
      var f2 := Add(f1, final && attempted.Some? && issuedPb.None? && FirstPlane(view.plane, EgressFailed).None?,
        MissingTransition);
      var f3 := Add(f2, FirstBoundary(BoundaryOf(view), BoundaryRejected).Some?, BoundaryRejectedPlaneEgress);
      var f4 := Add(f3, admitted.Some? && !AdmissionMatchesPlane(view, admitted.value), BoundaryHopMismatch);
      Add(f4, final && FirstPlane(view.plane, EgressResponded).Some? && admitted.None?, PlaneEgressNotAdmitted)
    else
      Add(f0, PlaneHop(view), HopRangeViolation)
  }

  function ChainRules(view: View, f0: seq<Anomaly>): seq<Anomaly>
  {
    var app := AppOf(view);
    var admitted, executed := FirstApp(app, AppAdmitted).Some?, FirstApp(app, AppExecuted).Some?;
    var f1 := Add(f0, admitted && !LineageOf(view), AppAdmitWithoutLineage);
    var f2 := Add(f1, executed && !(admitted && LineageOf(view)), AppExecutionWithoutLineage);
    var f3 := Add(f2, Mutations(app) > 0 && !(executed && LineageOf(view)), AppMutationWithoutLineage);
    Add(f3, view.expected == PositiveControlApp && |BoundaryOf(view)| > 0, BoundaryLaneMismatch)
  }

  function FinalRules(view: View, f0: seq<Anomaly>): seq<Anomaly>
  {
    var boundary, app := BoundaryOf(view), AppOf(view);
    var arrived := FirstBoundary(boundary, BoundaryArrived).Some?;
    var admitted := FirstBoundary(boundary, BoundaryAdmitted).Some?;
    var forwardResponded := FirstBoundary(boundary, BoundaryForwardResponded);
    var appAdmitted := FirstApp(app, AppAdmitted).Some?;
    var completed := FirstApp(app, AppCompleted);
    var positive := view.expected == PositiveControlBoundary || view.expected == PositiveControlApp;
    var f1 := Add(f0, arrived && FirstBoundary(boundary, BoundaryRejected).None? && !admitted, BoundaryDecisionMissing);
    var f2 := Add(f1, arrived && FirstBoundary(boundary, BoundaryResponded).None?
      && FirstBoundary(boundary, BoundaryAborted).None?,
                  UnresolvedAtFinalization);
    var f3 := Add(f2, FirstBoundary(boundary, AppProofIssued).Some? && !appAdmitted && FirstApp(app, AppRefused).Some?,
                  AppRefusedBoundaryAdmitted);
    var f4 := Add(f3, forwardResponded.Some? && !appAdmitted, MissingTransition);
    var f5 := Add(f4, appAdmitted && completed.None? && FirstApp(app, AppAborted).None?, UnresolvedAtFinalization);
    var f6 := Add(f5, forwardResponded.Some? && completed.Some?
      && forwardResponded.value.status != completed.value.status,
                  OriginStatusMismatch);
    Add(f6, positive && !(appAdmitted && LineageOf(view)), PositiveControlFailed)
  }

  /** Everything the validator reports, in order. */
  function OriginAnomalies(view: View, final: bool): seq<Anomaly>
  {
    if view.boundary.None? && view.app.None? then []
    else if view.expected == Control || view.expected == PreIngress then
      Add(StreamRules(view), |BoundaryOf(view)| > 0 || |AppOf(view)| > 0, BoundaryLaneMismatch)
    else if view.expected == DirectBoundaryRejected || view.expected == DirectAppRejected then
      DirectRules(view, StreamRules(view))
    else
      var chain := ChainRules(view, PlaneRules(view, final, StreamRules(view)));
      if final then FinalRules(view, chain) else chain
  }

  // ------------------------------------------------------------------ the validator itself

  method CountMutations(app: seq<AppEvent>) returns (count: nat)
    ensures count == Mutations(app)
  {
    count := 0;
    for i := |app| downto 0
      invariant count == Mutations(app[i..])
    {
      assert app[i..][1..] == app[i + 1..];
      if app[i].kind == AppMutated { count := count + 1; }
    }
    assert app[0..] == app;
  }

  method ValidateOriginLineage(view: View, final: bool) returns (found: seq<Anomaly>)
    ensures found == OriginAnomalies(view, final)
  {
    found := [];
    if view.boundary.None? && view.app.None? { return; }
    var boundary, app := BoundaryOf(view), AppOf(view);
    found := RunAutomaton(NextBoundary, BoundaryBlame, BoundaryMarks(boundary));
    var more := RunAutomaton(NextApp, AppBlame, AppMarks(app));
    found := found + more;
    var mutations := CountMutations(app);
    if mutations > 1 { found := found + [DuplicateEvent]; }
    assert found == StreamRules(view);
    if view.expected == Control || view.expected == PreIngress {
      if |boundary| > 0 || |app| > 0 { found := found + [BoundaryLaneMismatch]; }
      return;
    }
    if view.expected == DirectBoundaryRejected || view.expected == DirectAppRejected {
      found := ValidateDirect(view, found, mutations);
      return;
    }
    found := ValidateAgainstPlane(view, final, found);
    found := ValidateChain(view, found, mutations);
    if final { found := ValidateFinal(view, found); }
  }

  method ValidateDirect(view: View, before: seq<Anomaly>, mutations: nat) returns (found: seq<Anomaly>)
    requires mutations == Mutations(AppOf(view))
    ensures found == DirectRules(view, before)
  {
    found := before;
    var boundary, app := BoundaryOf(view), AppOf(view);
    var admitted, issuedBa := FirstBoundary(boundary, BoundaryAdmitted), FirstBoundary(boundary, AppProofIssued);
    var appAdmitted, executed, completed := FirstApp(app, AppAdmitted), FirstApp(app, AppExecuted),
      FirstApp(app, AppCompleted);
    if view.expected == DirectAppRejected && |boundary| > 0 { found := found + [BoundaryLaneMismatch]; }
    if admitted.Some? || issuedBa.Some? { found := found + [DirectNotRejected]; }
    if appAdmitted.Some? || executed.Some? || completed.Some? { found := found + [DirectAppExecution]; }
    if mutations > 0 { found := found + [DirectAppMutation]; }
  }

  method ValidateAgainstPlane(view: View, final: bool, before: seq<Anomaly>) returns (found: seq<Anomaly>)
    ensures found == PlaneRules(view, final, before)
  {
    found := before;
    var attempted, issuedPb := FirstPlane(view.plane, EgressAttempted), FirstPlane(view.plane, ProofIssued);
    var planeFailed, planeResponded := FirstPlane(view.plane, EgressFailed), FirstPlane(view.plane, EgressResponded);
    var rejected, admitted := FirstBoundary(BoundaryOf(view), BoundaryRejected),
      FirstBoundary(BoundaryOf(view), BoundaryAdmitted);
    if view.expected == Protected {
      if OracleHop(view) { found := found + [HopRangeViolation]; }
      if final && attempted.Some? && issuedPb.None? && planeFailed.None? { found := found + [MissingTransition]; }
      if rejected.Some? { found := found + [BoundaryRejectedPlaneEgress]; }
      if admitted.Some? {
        if attempted.None? || issuedPb.None? || admitted.value.hop != Some(attempted.value.seqNo)
           || admitted.value.pbTag != issuedPb.value.pbTag {
          found := found + [BoundaryHopMismatch];
        }
      }
      if final && planeResponded.Some? && admitted.None? { found := found + [PlaneEgressNotAdmitted]; }
    } else if PlaneHop(view) {
      found := found + [HopRangeViolation];
    }
  }

  method ValidateChain(view: View, before: seq<Anomaly>, mutations: nat) returns (found: seq<Anomaly>)
    requires mutations == Mutations(AppOf(view))
    ensures found == ChainRules(view, before)
  {
    found := before;
    var appAdmitted, executed := FirstApp(AppOf(view), AppAdmitted), FirstApp(AppOf(view), AppExecuted);
    var lineage := false;
    if appAdmitted.Some? {
      lineage := LineageOf(view);
      if !lineage { found := found + [AppAdmitWithoutLineage]; }
    }
    if executed.Some? && !(appAdmitted.Some? && lineage) { found := found + [AppExecutionWithoutLineage]; }
    if mutations > 0 && !(executed.Some? && lineage) { found := found + [AppMutationWithoutLineage]; }
    if view.expected == PositiveControlApp && |BoundaryOf(view)| > 0 { found := found + [BoundaryLaneMismatch]; }
  }

  method ValidateFinal(view: View, before: seq<Anomaly>) returns (found: seq<Anomaly>)
    ensures found == FinalRules(view, before)
  {
    found := before;
    var boundary, app := BoundaryOf(view), AppOf(view);
    var arrived, rejected, admitted := FirstBoundary(boundary, BoundaryArrived),
      FirstBoundary(boundary, BoundaryRejected), FirstBoundary(boundary, BoundaryAdmitted);
    var issuedBa, forwardResponded := FirstBoundary(boundary, AppProofIssued),
      FirstBoundary(boundary, BoundaryForwardResponded);
    var responded, aborted := FirstBoundary(boundary, BoundaryResponded), FirstBoundary(boundary, BoundaryAborted);
    var appAdmitted, appRefused := FirstApp(app, AppAdmitted), FirstApp(app, AppRefused);
    var completed, appAborted := FirstApp(app, AppCompleted), FirstApp(app, AppAborted);
    if arrived.Some? && rejected.None? && admitted.None? { found := found + [BoundaryDecisionMissing]; }
    if arrived.Some? && !(responded.Some? || aborted.Some?) { found := found + [UnresolvedAtFinalization]; }
    if issuedBa.Some? && appAdmitted.None? && appRefused.Some? { found := found + [AppRefusedBoundaryAdmitted]; }
    if forwardResponded.Some? && appAdmitted.None? { found := found + [MissingTransition]; }
    if appAdmitted.Some? && !(completed.Some? || appAborted.Some?) { found := found + [UnresolvedAtFinalization]; }
    if forwardResponded.Some? && completed.Some? && forwardResponded.value.status != completed.value.status {
      found := found + [OriginStatusMismatch];
    }
    var positive := view.expected == PositiveControlBoundary || view.expected == PositiveControlApp;
    if positive && !(appAdmitted.Some? && LineageOf(view)) { found := found + [PositiveControlFailed]; }
  }

  // ------------------------------------------------------------------ what silence means

  lemma {:induction false} CountsMutated(app: seq<AppEvent>)
    ensures Mutations(app) > 0 <==> HasApp(app, AppMutated)
  {
    if app != [] {
      CountsMutated(app[1..]);
      if HasApp(app[1..], AppMutated) {
        var i :| 0 <= i < |app[1..]| && app[1..][i].kind == AppMutated;
        assert app[i + 1].kind == AppMutated;
      }
      if HasApp(app, AppMutated) && app[0].kind != AppMutated {
        var i :| 0 <= i < |app| && app[i].kind == AppMutated;
        assert app[1..][i - 1].kind == AppMutated;
      }
    }
  }

  /** The streams themselves are legal whenever nothing is reported, on every lane. */
  lemma {:induction false} SilenceMeansLegal(view: View, final: bool)
    requires OriginAnomalies(view, final) == []
    ensures LegalBoundary(BoundaryOf(view)) && LegalApp(AppOf(view))
  {
    if view.boundary.None? && view.app.None? {
    } else {
      StreamsAreSilent(view, final);
      SilentIff(NextBoundary, BoundaryBlame, BoundaryMarks(BoundaryOf(view)));
      SilentIff(NextApp, AppBlame, AppMarks(AppOf(view)));
    }
  }

  lemma {:induction false} StreamsAreSilent(view: View, final: bool)
    requires OriginAnomalies(view, final) == [] && !(view.boundary.None? && view.app.None?)
    ensures Run(NextBoundary, BoundaryBlame, BoundaryMarks(BoundaryOf(view))) == []
    ensures Run(NextApp, AppBlame, AppMarks(AppOf(view))) == []
  {
    var f := StreamRules(view);
    assert f == [];
    assert |Run(NextBoundary, BoundaryBlame, BoundaryMarks(BoundaryOf(view)))| == 0;
  }

  lemma {:induction false} FinalKeeps(view: View, f0: seq<Anomaly>)
    ensures |FinalRules(view, f0)| >= |f0|
  {
  }

  lemma {:induction false} ChainKeeps(view: View, f0: seq<Anomaly>)
    ensures |ChainRules(view, f0)| >= |f0|
  {
  }

  lemma {:induction false} PlaneKeeps(view: View, final: bool, f0: seq<Anomaly>)
    ensures |PlaneRules(view, final, f0)| >= |f0|
  {
  }

  /** Neither a direct attempt nor a lane outside the plane. */
  predicate ChainLane(view: View)
  {
    view.expected !in {Control, PreIngress, DirectBoundaryRejected, DirectAppRejected}
      && !(view.boundary.None? && view.app.None?)
  }

  lemma {:induction false} ChainIsSilent(view: View, final: bool)
    requires OriginAnomalies(view, final) == [] && ChainLane(view)
    ensures PlaneRules(view, final, []) == [] && ChainRules(view, []) == []
  {
    var f0 := StreamRules(view);
    var f1 := PlaneRules(view, final, f0);
    var f2 := ChainRules(view, f1);
    if final { FinalKeeps(view, f2); }
    assert |f2| == 0;
    ChainKeeps(view, f1);
    assert |f1| == 0;
    PlaneKeeps(view, final, f0);
    assert f0 == [] && f1 == [] && f2 == [];
  }

  lemma {:induction false} ProtectedLineage(view: View)
    requires view.expected == Protected
    ensures LineageOf(view) <==> ProtectedLineageComplete(view)
  {
  }

  /**
   * On the protected lane, if nothing is reported and the application admitted, executed or changed anything, then the
   * whole authenticated chain is there and both streams are legal words with strictly increasing sequence numbers.
   */
  lemma {:induction false} CleanMeansLineage(view: View, final: bool)
    requires view.expected == Protected && OriginAnomalies(view, final) == []
    requires HasApp(AppOf(view), AppAdmitted) || HasApp(AppOf(view), AppExecuted) || HasApp(AppOf(view), AppMutated)
    ensures ProtectedLineageComplete(view)
    ensures LegalBoundary(BoundaryOf(view)) && LegalApp(AppOf(view))
  {
    SilenceMeansLegal(view, final);
    ChainIsSilent(view, final);
    FoundApp(AppOf(view), AppAdmitted);
    FoundApp(AppOf(view), AppExecuted);
    CountsMutated(AppOf(view));
    ProtectedLineage(view);
  }

  lemma {:induction false} StreamRulesReport(view: View, a: Anomaly)
    requires a !in {DuplicateTerminal, DuplicateEvent, ImpossibleOrder, MissingTransition}
    ensures a !in StreamRules(view)
  {
    RunReports(NextBoundary, BoundaryBlame, BoundaryMarks(BoundaryOf(view)), |BoundaryOf(view)|, a);
    RunReports(NextApp, AppBlame, AppMarks(AppOf(view)), |AppOf(view)|, a);
  }

  lemma {:induction false} PlaneReport(view: View, final: bool, f0: seq<Anomaly>, a: Anomaly)
    requires a in {AppAdmitWithoutLineage, AppExecutionWithoutLineage, AppMutationWithoutLineage} && a !in f0
    ensures a !in PlaneRules(view, final, f0)
  {
  }

  lemma {:induction false} FinalReport(view: View, f0: seq<Anomaly>, a: Anomaly)
    requires a in {AppAdmitWithoutLineage, AppExecutionWithoutLineage, AppMutationWithoutLineage}
    ensures a in FinalRules(view, f0) <==> a in f0
  {
  }

  /** What the chain rules say of each of the three codes, when nothing before them did. */
  predicate Faulty(view: View, a: Anomaly)
    requires a in {AppAdmitWithoutLineage, AppExecutionWithoutLineage, AppMutationWithoutLineage}
  {
    var app := AppOf(view);
    if a == AppAdmitWithoutLineage then FirstApp(app, AppAdmitted).Some? && !LineageOf(view)
    else if a == AppExecutionWithoutLineage then FirstApp(app, AppExecuted).Some? && !LineageOf(view)
    else Mutations(app) > 0 && !(FirstApp(app, AppExecuted).Some? && LineageOf(view))
  }

  lemma {:induction false} ChainReport(view: View, f0: seq<Anomaly>, a: Anomaly)
    requires a in {AppAdmitWithoutLineage, AppExecutionWithoutLineage, AppMutationWithoutLineage} && a !in f0
    ensures a in ChainRules(view, f0) <==> Faulty(view, a)
  {
  }

  lemma {:induction false} Report(view: View, final: bool, a: Anomaly)
    requires a in {AppAdmitWithoutLineage, AppExecutionWithoutLineage, AppMutationWithoutLineage}
             && view.expected == Protected
    ensures a in OriginAnomalies(view, final) <==> Faulty(view, a)
  {
    if view.boundary.None? && view.app.None? {
    } else {
      var f0 := StreamRules(view);
      var f1 := PlaneRules(view, final, f0);
      assert a !in f0 by { StreamRulesReport(view, a); }
      assert a !in f1 by { PlaneReport(view, final, f0, a); }
      var f2 := ChainRules(view, f1);
      assert a in f2 <==> Faulty(view, a) by { ChainReport(view, f1, a); }
      FinalReport(view, f2, a);
    }
  }

  /**
   * An application admission is reported on the protected lane exactly when the chain behind it is incomplete; so is an
   * execution, and a change to state unless an execution and a complete chain are behind it. Whether the check is final
   * makes no difference.
   */
  lemma {:induction false} ReportedIffIncomplete(view: View, final: bool)
    requires view.expected == Protected
    ensures AppAdmitWithoutLineage in OriginAnomalies(view, final)
            <==> HasApp(AppOf(view), AppAdmitted) && !ProtectedLineageComplete(view)
    ensures AppExecutionWithoutLineage in OriginAnomalies(view, final)
            <==> HasApp(AppOf(view), AppExecuted) && !ProtectedLineageComplete(view)
    ensures AppMutationWithoutLineage in OriginAnomalies(view, final)
            <==> (HasApp(AppOf(view), AppMutated)
                  && !(HasApp(AppOf(view), AppExecuted) && ProtectedLineageComplete(view)))
  {
    FoundApp(AppOf(view), AppAdmitted);
    FoundApp(AppOf(view), AppExecuted);
    CountsMutated(AppOf(view));
    ProtectedLineage(view);
    Report(view, final, AppAdmitWithoutLineage);
    Report(view, final, AppExecutionWithoutLineage);
    Report(view, final, AppMutationWithoutLineage);
  }

  /**
   * A direct attempt about which nothing is reported left the application with an empty stream or a single refusal, and
   * the boundary neither admitted it nor issued a proof for it.
   */
  lemma {:induction false} DirectMeansRefused(view: View, final: bool)
    requires view.expected == DirectBoundaryRejected || view.expected == DirectAppRejected
    requires OriginAnomalies(view, final) == []
    ensures |AppOf(view)| <= 1 && (|AppOf(view)| == 1 ==> AppOf(view)[0].kind == AppRefused)
    ensures FirstBoundary(BoundaryOf(view), BoundaryAdmitted).None?
            && FirstBoundary(BoundaryOf(view), AppProofIssued).None?
    ensures view.expected == DirectAppRejected ==> BoundaryOf(view) == []
  {
    if !(view.boundary.None? && view.app.None?) {
      assert LegalApp(AppOf(view)) by { SilenceMeansLegal(view, final); }
      assert StreamRules(view) == [];
      OnlyRefused(AppOf(view));
    }
  }

  lemma {:induction false} OnlyRefused(app: seq<AppEvent>)
    requires LegalApp(app) && FirstApp(app, AppAdmitted).None?
    ensures |app| <= 1 && (|app| == 1 ==> app[0].kind == AppRefused)
  {
    if app != [] {
      StartsApp(app);
      WordStep(NextApp, AppMarks(app), 0);
      TerminalIsLast(NextApp, AppMarks(app), 0);
    }
  }

  lemma {:induction false} EndsBoundary(boundary: seq<BoundaryEvent>, kind: BoundaryKind)
    requires LegalBoundary(boundary) && FirstBoundary(boundary, kind).Some?
             && kind in {BoundaryResponded, BoundaryAborted}
    ensures boundary != [] && boundary[|boundary| - 1].kind == kind
  {
    FoundBoundary(boundary, kind);
    var i :| 0 <= i < |boundary| && boundary[i].kind == kind;
    TerminalIsLast(NextBoundary, BoundaryMarks(boundary), i);
  }

  lemma {:induction false} EndsApp(app: seq<AppEvent>, kind: AppKind)
    requires LegalApp(app) && FirstApp(app, kind).Some? && kind in {AppRefused, AppCompleted, AppAborted}
    ensures app != [] && app[|app| - 1].kind == kind
  {
    FoundApp(app, kind);
    var i :| 0 <= i < |app| && app[i].kind == kind;
    TerminalIsLast(NextApp, AppMarks(app), i);
  }

  lemma {:induction false} StartsBoundary(boundary: seq<BoundaryEvent>)
    requires LegalBoundary(boundary) && boundary != []
    ensures FirstBoundary(boundary, BoundaryArrived).Some?
  {
    WordStep(NextBoundary, BoundaryMarks(boundary), 0);
  }

  lemma {:induction false} StartsApp(app: seq<AppEvent>)
    requires LegalApp(app) && app != []
    ensures FirstApp(app, AppAdmitted).Some? || FirstApp(app, AppRefused).Some?
  {
    WordStep(NextApp, AppMarks(app), 0);
  }

  /**
   * A stream that stays silent at finalization ended: the boundary answered or aborted, the application refused,
   * completed or aborted.
   */
  lemma {:induction false} CleanIsResolved(view: View)
    requires ChainLane(view) && OriginAnomalies(view, true) == []
    ensures BoundaryOf(view) != [] ==>
            BoundaryOf(view)[|BoundaryOf(view)| - 1].kind in {BoundaryResponded, BoundaryAborted}
    ensures AppOf(view) != [] ==> AppOf(view)[|AppOf(view)| - 1].kind in {AppRefused, AppCompleted, AppAborted}
  {
    SilenceMeansLegal(view, true);
    assert FinalRules(view, []) == [] by { FinalIsSilent(view); }
    var boundary, app := BoundaryOf(view), AppOf(view);
    if boundary != [] {
      StartsBoundary(boundary);
      if FirstBoundary(boundary, BoundaryResponded).Some? {
        EndsBoundary(boundary, BoundaryResponded);
      } else {
        EndsBoundary(boundary, BoundaryAborted);
      }
    }
    if app != [] {
      StartsApp(app);
      if FirstApp(app, AppRefused).Some? {
        EndsApp(app, AppRefused);
      } else if FirstApp(app, AppCompleted).Some? {
        EndsApp(app, AppCompleted);
      } else {
        EndsApp(app, AppAborted);
      }
    }
  }

  lemma {:induction false} FinalIsSilent(view: View)
    requires ChainLane(view) && OriginAnomalies(view, true) == []
    ensures FinalRules(view, []) == []
  {
    var f := ChainRules(view, PlaneRules(view, true, StreamRules(view)));
    FinalKeeps(view, f);
    assert f == [];
  }

  lemma {:induction false} ProtectedHop(view: View)
    requires ProtectedLineageComplete(view)
    ensures exists i :: 0 <= i < |AppOf(view)| && AppOf(view)[i].hop.Some?
  {
    FoundApp(AppOf(view), AppAdmitted);
    var admitted := FirstApp(AppOf(view), AppAdmitted).value;
    var i :| 0 <= i < |AppOf(view)| && AppOf(view)[i] == admitted;
    assert AppOf(view)[i].hop.Some?;
  }

  lemma {:induction false} HopIsSomewhere(view: View)
    requires exists i :: 0 <= i < |AppOf(view)| && AppOf(view)[i].hop.Some?
    ensures OracleHop(view) || PlaneHop(view)
  {
    var app := AppOf(view);
    var i :| 0 <= i < |app| && app[i].hop.Some?;
    if app[i].hop.value >= ORACLE_HOP_BASE {
      assert OracleHop(view);
    } else {
      assert PlaneHop(view);
    }
  }

  lemma {:induction false} SameStreamsSameHops(view: View, other: View)
    requires view.boundary == other.boundary && view.app == other.app
    ensures PlaneHop(view) == PlaneHop(other)
  {
    assert BoundaryOf(view) == BoundaryOf(other) && AppOf(view) == AppOf(other);
  }

  /**
   * The same boundary and application streams, with an admission in them, are never clean for both a protected request
   * and a positive control.
   */
  lemma {:induction false} PositiveControlsAreDisjoint(view: View, control: View, final: bool)
    requires view.boundary == control.boundary && view.app == control.app
    requires view.expected == Protected && control.expected in {PositiveControlBoundary, PositiveControlApp}
    requires HasApp(AppOf(view), AppAdmitted)
    ensures OriginAnomalies(view, final) != [] || OriginAnomalies(control, final) != []
  {
    if OriginAnomalies(view, final) == [] && OriginAnomalies(control, final) == [] {
      CleanMeansLineage(view, final);
      ChainIsSilent(view, final);
      ChainIsSilent(control, final);
      ProtectedHop(view);
      assert !OracleHop(view) && !PlaneHop(control);
      HopIsSomewhere(view);
      SameStreamsSameHops(view, control);
      assert false;
    }
  }
}
