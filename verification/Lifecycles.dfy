/** The lifecycle of one correlated request and its validator (defense/core/ledger.ts). */
module Lifecycles {
  import opened Base
  import opened LifecycleEvents
  import opened Automata
  import SemanticRequests
  import ShapeGates

  // ------------------------------------------------------------------ the plane's automaton

  /** Successors in a composition without the L2 stage: none lists an L2 kind. */
  function NextPlane(previous: Option<PlaneKind>): set<PlaneKind>
  {
    match previous
    case None => {IngressAccepted}
    case Some(IngressAccepted) => {L1Entered}
    case Some(L1Entered) => {L1Passed, L1Rejected, L1Shed, L1Error}
    case Some(L1Passed) => {EgressAttempted}
    case Some(L1Rejected) => {IngressResponded, IngressAborted}
    case Some(L1Shed) => {IngressResponded, IngressAborted}
    case Some(L1Error) => {IngressResponded, IngressAborted}
    case Some(EgressAttempted) => {ProofIssued, EgressResponded, EgressFailed}
    case Some(ProofIssued) => {EgressResponded, EgressFailed}
    case Some(EgressResponded) => {IngressResponded, IngressAborted}
    case Some(EgressFailed) => {IngressResponded, IngressAborted}
    case Some(_) => {}
  }

  function NextPlaneL2(previous: Option<PlaneKind>): set<PlaneKind>
  {
    match previous
    case Some(L1Passed) => {L2Entered}
    case Some(L2Entered) => {L2Decided}
    case Some(L2Decided) => {EgressAttempted, IngressResponded, IngressAborted}
    case Some(EgressResponded) => {L2Enrolled, L2EnrollSkipped, IngressResponded, IngressAborted}
    case Some(EgressFailed) => {L2EnrollSkipped, IngressResponded, IngressAborted}
    case Some(L2Enrolled) => {IngressResponded, IngressAborted}
    case Some(L2EnrollSkipped) => {IngressResponded, IngressAborted}
    case _ => NextPlane(previous)
  }

  /** Ten times the rank of the source, which has halves and fifths. */
  function PlaneRank(kind: PlaneKind): int
  {
    match kind
    case IngressAccepted => 10
    case L1Entered => 20
    case L1Passed | L1Rejected | L1Shed | L1Error => 30
    case L2Entered => 32
    case L2Decided => 35
    case EgressAttempted => 40
    case ProofIssued => 45
    case EgressResponded | EgressFailed => 50
    case L2Enrolled | L2EnrollSkipped => 55
    case IngressResponded | IngressAborted => 60
  }

  predicate Terminal(kind: PlaneKind) { kind == IngressResponded || kind == IngressAborted }
  predicate LayerVerdict(kind: PlaneKind) { kind in {L1Passed, L1Rejected, L1Shed, L1Error} }

  function PlaneBlame(previous: Option<PlaneKind>, kind: PlaneKind, seen: set<PlaneKind>): Anomaly
  {
    if previous.Some? && Terminal(previous.value) then DuplicateTerminal
    else if kind in seen then DuplicateEvent
    else if PlaneRank(kind) <= (if previous.None? then 0 else PlaneRank(previous.value)) then ImpossibleOrder
    else MissingTransition
  }

  function PlaneMarks(events: seq<PlaneEvent>): (marks: seq<Mark<PlaneKind>>)
    ensures |marks| == |events|
    ensures forall i :: 0 <= i < |events| ==> marks[i] == Mark(events[i].kind, events[i].seqNo)
  {
    seq(|events|, i requires 0 <= i < |events| => Mark(events[i].kind, events[i].seqNo))
  }

  // ------------------------------------------------------------------ counts and finds

  function CountHarness(events: seq<HarnessEvent>, kind: HarnessKind): nat
  {
    if events == [] then 0 else CountHarness(events[..|events| - 1], kind) + ToNat(events[|events| - 1].kind == kind)
  }

  /** How many of the first `n` events are of the kind. */
  function CountTo(events: seq<PlaneEvent>, kind: PlaneKind, n: nat): nat
    requires n <= |events|
  {
    if n == 0 then 0 else CountTo(events, kind, n - 1) + ToNat(events[n - 1].kind == kind)
  }

  function CountPlane(events: seq<PlaneEvent>, kind: PlaneKind): nat { CountTo(events, kind, |events|) }

  function CountOrigin(events: seq<OriginEvent>, kind: OriginKind): nat
  {
    if events == [] then 0 else CountOrigin(events[..|events| - 1], kind) + ToNat(events[|events| - 1].kind == kind)
  }

  function Verdicts(events: seq<PlaneEvent>): nat
  {
    CountPlane(events, L1Passed) + CountPlane(events, L1Rejected) + CountPlane(events, L1Shed)
      + CountPlane(events, L1Error)
  }

  function Finished(events: seq<OriginEvent>): nat
  {
    CountOrigin(events, OriginCompleted) + CountOrigin(events, OriginAborted)
  }

  function FirstVerdict(events: seq<PlaneEvent>): Option<PlaneEvent>
  {
    if events == [] then None else if LayerVerdict(events[0].kind) then Some(events[0]) else FirstVerdict(events[1..])
  }

  function FirstReceipt(events: seq<OriginEvent>): Option<OriginEvent>
  {
    if events == [] then None else if events[0].kind == OriginReceived then Some(events[0])
      else FirstReceipt(events[1..])
  }

  function FirstFinish(events: seq<OriginEvent>): Option<OriginEvent>
  {
    if events == [] then None else if events[0].kind != OriginReceived then Some(events[0])
      else FirstFinish(events[1..])
  }

  function FirstCompletion(events: seq<HarnessEvent>): Option<HarnessEvent>
  {
    if events == [] then None else if events[0].kind == ClientCompleted then Some(events[0])
      else FirstCompletion(events[1..])
  }

  // ------------------------------------------------------------------ outcomes

  datatype TerminalOutcome = WasRejected | WasShed | WasError | WasProxied | WasEgressFailed | WasClientAborted
    | WasL2Shed | WasL2Error

  /** The reason is one of the closed list. */
  predicate Listed(event: PlaneEvent) { event.reason.Some? && !event.reason.value.Unlisted? }

  /** The status of a reason; a reason outside the list has none. */
  function RefusalStatus(reason: Refusal): Option<int>
  {
    match reason
    case OfSemantics(_) => Some(400)
    case CreditedBudget | UnverifiedBudget => Some(503)
    case Unlisted(_) => None
    case OfGate(gate) => Some(GateStatus(gate))
  }

  function GateStatus(gate: ShapeGates.GateReason): int
  {
    match gate
    case MethodNotAllowed => 405
    case TargetTooLong => 414
    case PathNotAllowed => 404
    case HeaderCountExceeded | HeaderBytesExceeded => 431
    case ContentTypeInvalid => 415
    case BodyTooLarge => 413
    case BodyReadTimeout => 408
    case FieldNotAllowed | FieldDuplicate | FieldCountExceeded | FieldTooLong | TokenMalformed => 422
    case _ => 400
  }

  /**
   * The status the plane owes the client, by what its layers decided: nothing to compare, or a status that may itself
   * be undefined.
   */
  function PlaneStatus(view: View): Option<Option<int>>
  {
    var verdict := FirstVerdict(view.plane);
    var decided := FirstPlane(view.plane, L2Decided);
    var failed := FirstPlane(view.plane, EgressFailed);
    var responded := FirstPlane(view.plane, EgressResponded);
    if verdict.None? then None
    else if verdict.value.kind == L1Rejected then
      if verdict.value.reason.Some? then Some(RefusalStatus(verdict.value.reason.value)) else None
    else if verdict.value.kind == L1Shed || verdict.value.kind == L1Error then Some(Some(503))
    else if view.l2 && decided.Some? && decided.value.outcome in {Some(L2Sheds), Some(L2Errs)} then Some(Some(503))
    else if failed.Some? then Some(Some(if failed.value.egressError == Some(EgressTimeout) then 504 else 502))
    else if responded.Some? && responded.value.status.Some? then Some(responded.value.status)
    else None
  }

  function Outcome(plane: seq<PlaneEvent>): Option<TerminalOutcome>
  {
    if HasPlane(plane, IngressAborted) then Some(WasClientAborted)
    else if !HasPlane(plane, IngressResponded) then None
    else if HasPlane(plane, L1Rejected) then Some(WasRejected)
    else if HasPlane(plane, L1Shed) then Some(WasShed)
    else if HasPlane(plane, L1Error) then Some(WasError)
    else if HasPlane(plane, EgressFailed) then Some(WasEgressFailed)
    else if HasPlane(plane, EgressResponded) then Some(WasProxied)
    else None
  }

  /** A refusal by L2 is an outcome of its own. */
  function OutcomeL2(plane: seq<PlaneEvent>): Option<TerminalOutcome>
  {
    var decided := FirstPlane(plane, L2Decided);
    if decided.Some? && HasPlane(plane, IngressResponded) && !HasPlane(plane, IngressAborted)
      && decided.value.outcome == Some(L2Sheds)
    then Some(WasL2Shed)
    else if decided.Some? && HasPlane(plane, IngressResponded) && !HasPlane(plane, IngressAborted)
      && decided.value.outcome == Some(L2Errs)
    then Some(WasL2Error)
    else Outcome(plane)
  }

  function OutcomeHeader(o: TerminalOutcome): Text
  {
    match o
    case WasRejected => T("rejected")
    case WasShed => T("shed")
    case WasError => T("error")
    case WasProxied => T("proxied")
    case WasEgressFailed => T("egress_failed")
    case WasClientAborted => T("client_aborted")
    case WasL2Shed => T("l2_shed")
    case WasL2Error => T("l2_error")
  }

  // ------------------------------------------------------------------ the rules

  predicate ProtectedLike(view: View) { view.expected == Protected || view.expected == External }

  function HarnessRules(view: View, final: bool, f0: seq<Anomaly>): seq<Anomaly>
  {
    var completed := CountHarness(view.harness, ClientCompleted);
    if view.expected == External then Add(f0, view.harness != [], PlaneEventOnUnexpectedLane)
    else
      var f1 := Add(f0, CountHarness(view.harness, Sent) != 1 || view.harness == [] || view.harness[0].kind != Sent,
        DuplicateEvent);
      var f2 := Add(f1, completed > 1, DuplicateTerminal);
      Add(f2, final && completed == 0, SentWithoutCompletion)
  }

  function Successor(l2: bool): Successors<PlaneKind> { if l2 then NextPlaneL2 else NextPlane }

  predicate Unended(plane: seq<PlaneEvent>) { plane != [] && !Terminal(plane[|plane| - 1].kind) }
  predicate Uncorrelated(plane: seq<PlaneEvent>) { exists i :: 0 <= i < |plane| && plane[i].uncorrelated }
  predicate ExternalIngress(plane: seq<PlaneEvent>) { exists i :: 0 <= i < |plane| && plane[i].ingressExternal }

  function PlaneRules(view: View, final: bool, f0: seq<Anomaly>): seq<Anomaly>
  {
    if !ProtectedLike(view) then Add(f0, view.plane != [], PlaneEventOnUnexpectedLane)
    else
      var f1 := f0 + Run(Successor(view.l2), PlaneBlame, PlaneMarks(view.plane));
      var f2 := Add(f1, final && view.plane == [], IngressLoss);
      var f3 := Add(f2, final && Unended(view.plane), DisappearedAfterIngress);
      var f4 := Add(f3, final && Unended(view.plane), UnresolvedAtFinalization);
      var f5 := Add(f4, view.expected == Protected && Uncorrelated(view.plane), UncorrelatedIngress);
      var f6 := Add(f5, view.expected == External && !ExternalIngress(view.plane), ExternalUnclaimedDownstream);
      Add(f6, Verdicts(view.plane) > 1, DuplicateTerminal)
  }

  /**
   * The instance that may observe the request; none for a request that must die before ingress or be refused directly.
   */
  function WantedInstance(expected: ExpectedLane): Option<Instance>
  {
    if expected in {Protected, External, PositiveControlBoundary, PositiveControlApp} then Some(ProtectedOrigin)
    else if expected == Control then Some(ControlOrigin)
    else None
  }

  predicate Misplaced(view: View)
  {
    exists i :: 0 <= i < |view.origin| && Some(view.origin[i].instance) != WantedInstance(view.expected)
  }
  predicate Spoofed(origin: seq<OriginEvent>) { exists i :: 0 <= i < |origin| && origin[i].spoofed > 0 }

  function OriginRules(view: View, f0: seq<Anomaly>): seq<Anomaly>
  {
    var f1 := Add(f0, CountOrigin(view.origin, OriginReceived) > 1, DuplicateOriginProcessing);
    var f2 := Add(f1, Finished(view.origin) > 1, DuplicateTerminal);
    var f3 := Add(f2, view.origin != [] && view.origin[0].kind != OriginReceived, ImpossibleOrder);
    var f4 := Add(f3, Misplaced(view), OriginLaneMismatch);
    Add(f4, Spoofed(view.origin), OriginSpoofedHeaderSeen)
  }

  function ReceiptRules(view: View, f0: seq<Anomaly>): seq<Anomaly>
  {
    var attempted := FirstPlane(view.plane, EgressAttempted);
    var receipt, finish := FirstReceipt(view.origin), FirstFinish(view.origin);
    var f1 := Add(f0, receipt.Some? && ProtectedLike(view) && attempted.None?, OriginWithoutL1Pass);
    var f2 := Add(f1, receipt.Some? && ProtectedLike(view) && attempted.Some?
      && receipt.value.hop != Some(attempted.value.seqNo),
                  OriginHopMismatch);
    var f3 := Add(f2, receipt.Some? && view.expected == PreIngress, OriginWithoutL1Pass);
    Add(f3, view.expected == Control && (receipt.None? || finish.None?), MissingTransition)
  }

  function ResponseRules(view: View, f0: seq<Anomaly>): seq<Anomaly>
  {
    if !ProtectedLike(view) then f0
    else
      var receipt, finish := FirstReceipt(view.origin), FirstFinish(view.origin);
      var responded, answered := FirstPlane(view.plane, EgressResponded), FirstPlane(view.plane, IngressResponded);
      var client, outcome := FirstCompletion(view.harness), if view.l2 then OutcomeL2(view.plane)
        else Outcome(view.plane);
      var f1 := Add(f0, responded.Some? && (receipt.None? || finish.None?), MissingTransition);
      var f2 := Add(f1, responded.Some? && receipt.Some? && finish.Some? && finish.value.kind == OriginCompleted
                        && finish.value.status != responded.value.status, OriginStatusMismatch);
      var f3 := Add(f2, answered.Some? && PlaneStatus(view).Some? && answered.value.status != PlaneStatus(view).value,
        PlaneStatusMismatch);
      var f4 := Add(f3, client.Some? && client.value.result == Some(ClientResponse) && answered.Some?
                        && client.value.status != answered.value.status, ClientStatusMismatch);
      Add(f4, client.Some? && client.value.result == Some(ClientResponse) && client.value.outcomeHeader.Some?
        && outcome.Some?
              && client.value.outcomeHeader.value != OutcomeHeader(outcome.value), OutcomeHeaderMismatch)
  }

  /** Everything the validator reports, in order. */
  function LifecycleAnomalies(view: View, final: bool): seq<Anomaly>
  {
    var streams := OriginRules(view, PlaneRules(view, final, HarnessRules(view, final, [])));
    if final then ResponseRules(view, ReceiptRules(view, streams)) else streams
  }

  // ------------------------------------------------------------------ the validator itself

  method ValidateLifecycle(view: View, final: bool) returns (found: seq<Anomaly>)
    ensures found == LifecycleAnomalies(view, final)
  {
    found := ValidateHarness(view, final);
    found := ValidatePlane(view, final, found);
    found := ValidateOrigin(view, found);
    if !final { return; }
    found := ValidateReceipts(view, found);
    if ProtectedLike(view) { found := ValidateResponse(view, found); }
  }

  method ValidateHarness(view: View, final: bool) returns (found: seq<Anomaly>)
    ensures found == HarnessRules(view, final, [])
  {
    found := [];
    var completed := CountHarness(view.harness, ClientCompleted);
    if view.expected != External {
      if CountHarness(view.harness, Sent) != 1 || view.harness == [] || view.harness[0].kind != Sent {
        found := found + [DuplicateEvent];
      }
      if completed > 1 { found := found + [DuplicateTerminal]; }
      if final && completed == 0 { found := found + [SentWithoutCompletion]; }
    } else if |view.harness| > 0 {
      found := found + [PlaneEventOnUnexpectedLane];
    }
  }

  method ValidatePlane(view: View, final: bool, before: seq<Anomaly>) returns (found: seq<Anomaly>)
    ensures found == PlaneRules(view, final, before)
  {
    found := before;
    if !ProtectedLike(view) {
      if |view.plane| > 0 { found := found + [PlaneEventOnUnexpectedLane]; }
      return;
    }
    var steps := RunAutomaton(Successor(view.l2), PlaneBlame, PlaneMarks(view.plane));
    found := found + steps;
    if final {
      if |view.plane| == 0 {
        found := found + [IngressLoss];
      } else if !Terminal(view.plane[|view.plane| - 1].kind) {
        found := found + [DisappearedAfterIngress];
        found := found + [UnresolvedAtFinalization];
      }
    }
    if view.expected != External && Uncorrelated(view.plane) { found := found + [UncorrelatedIngress]; }
    if view.expected == External && !ExternalIngress(view.plane) { found := found + [ExternalUnclaimedDownstream]; }
    if Verdicts(view.plane) > 1 { found := found + [DuplicateTerminal]; }
  }

  method ValidateOrigin(view: View, before: seq<Anomaly>) returns (found: seq<Anomaly>)
    ensures found == OriginRules(view, before)
  {
    found := before;
    if CountOrigin(view.origin, OriginReceived) > 1 { found := found + [DuplicateOriginProcessing]; }
    if Finished(view.origin) > 1 { found := found + [DuplicateTerminal]; }
    if |view.origin| > 0 && view.origin[0].kind != OriginReceived { found := found + [ImpossibleOrder]; }
    var misplaced := false;
    for i := 0 to |view.origin|
      invariant !misplaced ==> forall k :: 0 <= k < i ==> Some(view.origin[k].instance) == WantedInstance(view.expected)
      invariant misplaced ==> Misplaced(view)
    {
      if Some(view.origin[i].instance) != WantedInstance(view.expected) {
        misplaced := true;
        break;
      }
    }
    if misplaced { found := found + [OriginLaneMismatch]; }
    if Spoofed(view.origin) { found := found + [OriginSpoofedHeaderSeen]; }
  }

  method ValidateReceipts(view: View, before: seq<Anomaly>) returns (found: seq<Anomaly>)
    ensures found == ReceiptRules(view, before)
  {
    found := before;
    var attempted := FirstPlane(view.plane, EgressAttempted);
    var receipt, finish := FirstReceipt(view.origin), FirstFinish(view.origin);
    if receipt.Some? && ProtectedLike(view) {
      if attempted.None? {
        found := found + [OriginWithoutL1Pass];
      } else if receipt.value.hop != Some(attempted.value.seqNo) {
        found := found + [OriginHopMismatch];
      }
    }
    if receipt.Some? && view.expected == PreIngress { found := found + [OriginWithoutL1Pass]; }
    if view.expected == Control {
      if receipt.None? {
        found := found + [MissingTransition];
      } else if finish.None? {
        found := found + [MissingTransition];
      }
    }
  }

  method ValidateResponse(view: View, before: seq<Anomaly>) returns (found: seq<Anomaly>)
    requires ProtectedLike(view)
    ensures found == ResponseRules(view, before)
  {
    found := before;
    var receipt, finish := FirstReceipt(view.origin), FirstFinish(view.origin);
    var responded, answered := FirstPlane(view.plane, EgressResponded), FirstPlane(view.plane, IngressResponded);
    if responded.Some? {
      if receipt.None? {
        found := found + [MissingTransition];
      } else if finish.None? {
        found := found + [MissingTransition];
      } else if finish.value.kind == OriginCompleted && finish.value.status != responded.value.status {
        found := found + [OriginStatusMismatch];
      }
    }
    var status, client := PlaneStatus(view), FirstCompletion(view.harness);
    if answered.Some? && status.Some? && answered.value.status != status.value {
      found := found + [PlaneStatusMismatch];
    }
    var reached := client.Some? && client.value.result == Some(ClientResponse);
    if reached && answered.Some? && client.value.status != answered.value.status {
      found := found + [ClientStatusMismatch];
    }
    var outcome := if view.l2 then OutcomeL2(view.plane) else Outcome(view.plane);
    if reached && client.value.outcomeHeader.Some? && outcome.Some? {
      if client.value.outcomeHeader.value != OutcomeHeader(outcome.value) { found := found + [OutcomeHeaderMismatch]; }
    }
  }
}
