/** The event vocabulary of one correlated request (defense/core/ledger.ts) and the record all sources agree on. */
module LifecycleEvents {
  import opened Base
  import SemanticRequests
  import ShapeGates

  datatype PlaneKind =
    | IngressAccepted | L1Entered | L1Passed | L1Rejected | L1Shed | L1Error | EgressAttempted | ProofIssued
    | EgressResponded | EgressFailed | IngressResponded | IngressAborted | L2Entered | L2Decided | L2Enrolled
      | L2EnrollSkipped

  datatype LayerErrorKind = Throw | Timeout | InvalidVerdict
  datatype EgressError = ConnectionRefused | ConnectionReset | EgressTimeout | OtherError

  /**
   * A reject reason as an event carries it: of the closed list (the shape gate's, the semantic gate's, the lanes'), or
   * any other text. The validator reads an empty text like a missing reason, and so it is none here.
   */
  datatype Refusal =
    | OfGate(gate: ShapeGates.GateReason) | OfSemantics(semantic: SemanticRequests.RejectReason) | CreditedBudget
      | UnverifiedBudget
    | Unlisted(name: Text)

  datatype L2Outcome = L2Proceeds | L2Sheds | L2Errs | L2Degrades

  /** The fields that the rules read. A parser rejection has no request to belong to and so is in no record's stream. */
  datatype PlaneEvent = PlaneEvent(
    kind: PlaneKind, seqNo: int, reason: Option<Refusal>, errorKind: Option<LayerErrorKind>, status: Option<int>,
    egressError: Option<EgressError>, uncorrelated: bool, ingressExternal: bool, pbTag: Option<Text>,
    outcome: Option<L2Outcome>)

  datatype OriginKind = OriginReceived | OriginCompleted | OriginAborted
  datatype Instance = ControlOrigin | ProtectedOrigin
  datatype OriginEvent = OriginEvent(instance: Instance, kind: OriginKind, hop: Option<int>, status: Option<int>,
    spoofed: nat)

  datatype HarnessKind = Sent | ClientCompleted
  datatype ClientResult = ClientResponse | ClientReset | ClientTimeout | ClientError
  datatype HarnessEvent = HarnessEvent(kind: HarnessKind, result: Option<ClientResult>, status: Option<int>,
    outcomeHeader: Option<Text>)

  datatype BoundaryKind =
    | BoundaryArrived | BoundaryRejected | BoundaryAdmitted | AppProofIssued | BoundaryForwarded
    | BoundaryForwardResponded | BoundaryForwardFailed | BoundaryResponded | BoundaryAborted
    | BoundaryParserRejected | BoundaryProtocolRefused

  datatype BoundaryEvent = BoundaryEvent(
    kind: BoundaryKind, seqNo: int, hop: Option<int>, pbTag: Option<Text>, baTag: Option<Text>, status: Option<int>)

  datatype AppKind = AppAdmitted | AppRefused | AppExecuted | AppMutated | AppCompleted | AppAborted

  datatype AppEvent = AppEvent(
    kind: AppKind, seqNo: int, hop: Option<int>, pbTag: Option<Text>, baTag: Option<Text>, status: Option<int>)

  datatype ExpectedLane =
    | Protected | Control | PreIngress | External
    | DirectBoundaryRejected | DirectAppRejected | PositiveControlBoundary | PositiveControlApp

  datatype View = View(
    expected: ExpectedLane, harness: seq<HarnessEvent>, plane: seq<PlaneEvent>, origin: seq<OriginEvent>,
    boundary: Option<seq<BoundaryEvent>>, app: Option<seq<AppEvent>>, l2: bool)

  datatype Anomaly =
    | DuplicateTerminal | DuplicateEvent | MissingTransition | ImpossibleOrder | IngressLoss | DisappearedAfterIngress
    | UnresolvedAtFinalization | SentWithoutCompletion | DuplicateOriginProcessing | OriginWithoutL1Pass
      | OriginLaneMismatch
    | OriginHopMismatch | OriginStatusMismatch | PlaneStatusMismatch | ClientStatusMismatch | OutcomeHeaderMismatch
    | PlaneEventOnUnexpectedLane | UncorrelatedIngress | OriginSpoofedHeaderSeen | ExternalUnclaimedDownstream
    | BoundaryDecisionMissing | BoundaryHopMismatch | BoundaryRejectedPlaneEgress | PlaneEgressNotAdmitted
      | BoundaryLaneMismatch
    | AppAdmitWithoutLineage | AppExecutionWithoutLineage | AppMutationWithoutLineage | AppRefusedBoundaryAdmitted
    | DirectAppExecution | DirectAppMutation | DirectNotRejected | HopRangeViolation | PositiveControlFailed

  /** One anomaly when the condition holds. */
  function When(condition: bool, a: Anomaly): seq<Anomaly> { if condition then [a] else [] }

  /** The list after one more rule was looked at. */
  function Add(found: seq<Anomaly>, broken: bool, code: Anomaly): seq<Anomaly>
  {
    if broken then found + [code] else found
  }

  // ------------------------------------------------------------------ finding events

  function FirstPlane(events: seq<PlaneEvent>, kind: PlaneKind): Option<PlaneEvent>
  {
    if events == [] then None else if events[0].kind == kind then Some(events[0]) else FirstPlane(events[1..], kind)
  }

  function FirstBoundary(events: seq<BoundaryEvent>, kind: BoundaryKind): Option<BoundaryEvent>
  {
    if events == [] then None else if events[0].kind == kind then Some(events[0]) else FirstBoundary(events[1..], kind)
  }

  function FirstApp(events: seq<AppEvent>, kind: AppKind): Option<AppEvent>
  {
    if events == [] then None else if events[0].kind == kind then Some(events[0]) else FirstApp(events[1..], kind)
  }

  predicate HasPlane(events: seq<PlaneEvent>, kind: PlaneKind)
  {
    exists i :: 0 <= i < |events| && events[i].kind == kind
  }
  predicate HasApp(events: seq<AppEvent>, kind: AppKind) { exists i :: 0 <= i < |events| && events[i].kind == kind }

  lemma {:induction false} FoundPlane(events: seq<PlaneEvent>, kind: PlaneKind)
    ensures FirstPlane(events, kind).Some? <==> HasPlane(events, kind)
    ensures FirstPlane(events, kind).Some? ==>
            FirstPlane(events, kind).value.kind == kind && FirstPlane(events, kind).value in events
  {
    if events != [] {
      FoundPlane(events[1..], kind);
      assert HasPlane(events[1..], kind) ==> HasPlane(events, kind) by {
        if HasPlane(events[1..], kind) {
          var i :| 0 <= i < |events[1..]| && events[1..][i].kind == kind;
          assert events[i + 1].kind == kind;
        }
      }
      if HasPlane(events, kind) && events[0].kind != kind {
        var i :| 0 <= i < |events| && events[i].kind == kind;
        assert events[1..][i - 1].kind == kind;
      }
    }
  }

  lemma {:induction false} FoundApp(events: seq<AppEvent>, kind: AppKind)
    ensures FirstApp(events, kind).Some? <==> HasApp(events, kind)
    ensures FirstApp(events, kind).Some? ==>
            FirstApp(events, kind).value.kind == kind && FirstApp(events, kind).value in events
  {
    if events != [] {
      FoundApp(events[1..], kind);
      if HasApp(events[1..], kind) {
        var i :| 0 <= i < |events[1..]| && events[1..][i].kind == kind;
        assert events[i + 1].kind == kind;
      }
      if HasApp(events, kind) && events[0].kind != kind {
        var i :| 0 <= i < |events| && events[i].kind == kind;
        assert events[1..][i - 1].kind == kind;
      }
    }
  }

  lemma {:induction false} FoundBoundary(events: seq<BoundaryEvent>, kind: BoundaryKind)
    ensures FirstBoundary(events, kind).Some? <==> exists i :: 0 <= i < |events| && events[i].kind == kind
  {
    if events != [] {
      FoundBoundary(events[1..], kind);
      if i :| 0 <= i < |events[1..]| && events[1..][i].kind == kind {
        assert events[i + 1].kind == kind;
      }
      if i :| 0 <= i < |events| && events[i].kind == kind && events[0].kind != kind {
        assert events[1..][i - 1].kind == kind;
      }
    }
  }
}
