/**
 * The accounting identities (lab/defense/accounting.ts) and what per-request validation (defense/core/ledger.ts) makes
 * of them.
 */
module Identities {
  import opened Base
  import opened LifecycleEvents
  import opened Automata
  import opened Lifecycles
  import opened CleanRecords
  import opened Accounts

  datatype IdentityId =
    | SentIsAcceptedPlusLoss | LossIsZero | AcceptedIsTerminalPlusUnresolved | UnresolvedIsZero
    | L1InIsItsOutcomes | L1InIsAccepted | AttemptedIsPassed | AttemptedIsRespondedPlusFailed
    | ReasonsAreRejects | UnknownReasonsAreZero | ReceivedIsRespondedPlusFailedWithReceipt | ReceivedIsFinished
    | WithoutL1PassIsZero | ControlReceivedIsSent | ControlReceivedIsFinished | PreIngressIsParserRejected
    | ClientCompletedIsSent | SpoofedIsZero

  /** The two sides that an identity compares. */
  function Sides(r: Report, parserRejected: nat, id: IdentityId): (int, int)
  {
    match id
    case SentIsAcceptedPlusLoss => (r.sent.toPlane, r.ingress.accepted + r.ingress.loss)
    case LossIsZero => (r.ingress.loss, 0)
    case AcceptedIsTerminalPlusUnresolved => (r.ingress.accepted, |r.ingress.terminal| + r.ingress.unresolved)
    case UnresolvedIsZero => (r.ingress.unresolved, 0)
    case L1InIsItsOutcomes => (r.l1.entered, r.l1.passed + r.l1.rejected + r.l1.shed + r.l1.errors)
    case L1InIsAccepted => (r.l1.entered, r.ingress.accepted)
    case AttemptedIsPassed => (r.egress.attempted, r.l1.passed)
    case AttemptedIsRespondedPlusFailed => (r.egress.attempted, r.egress.responded + r.egress.failed)
    case ReasonsAreRejects => (|r.l1.byReason| + r.l1.unknownReasons, r.l1.rejected)
    case UnknownReasonsAreZero => (r.l1.unknownReasons, 0)
    case ReceivedIsRespondedPlusFailedWithReceipt =>
      (r.origin.guarded.received, r.egress.responded + r.egress.failedWithReceipt)
    case ReceivedIsFinished => (r.origin.guarded.received, r.origin.guarded.completed + r.origin.guarded.aborted)
    case WithoutL1PassIsZero => (r.origin.withoutL1Pass, 0)
    case ControlReceivedIsSent => (r.origin.control.received, r.sent.toControl)
    case ControlReceivedIsFinished => (r.origin.control.received, r.origin.control.completed + r.origin.control.aborted)
    case PreIngressIsParserRejected => (r.sent.preIngress, parserRejected)
    case ClientCompletedIsSent => (r.client.completed, r.sent.all)
    case SpoofedIsZero => (r.origin.spoofed, 0)
  }

  /** How far the left side exceeds the right. */
  function Gap(r: Report, id: IdentityId): int
  {
    var sides := Sides(r, 0, id);
    sides.0 - sides.1
  }

  lemma {:induction false} GapAdds(a: Report, b: Report, id: IdentityId)
    ensures Gap(a.Plus(b), id) == Gap(a, id) + Gap(b, id)
  {
    assert |a.ingress.terminal + b.ingress.terminal| == |a.ingress.terminal| + |b.ingress.terminal|;
    assert |a.l1.byReason + b.l1.byReason| == |a.l1.byReason| + |b.l1.byReason|;
  }

  /** The lanes that the accounting knows: the plane's, the control's, and requests that must die before ingress. */
  predicate Accounted(r: Record) { r.view.expected in {Protected, Control, PreIngress} && Clean(r.view) }

  // ------------------------------------------------------------------ the counts of one clean record

  lemma {:induction false} CountedThere(origin: seq<OriginEvent>, instance: Instance, other: Instance, kind: OriginKind)
    requires instance != other && forall i :: 0 <= i < |origin| ==> origin[i].instance == instance
    ensures CountAt(origin, instance, kind) == CountOrigin(origin, kind) && CountAt(origin, other, kind) == 0
  {
    if origin != [] {
      CountedThere(origin[..|origin| - 1], instance, other, kind);
    }
  }

  lemma {:induction false} CountedOn(view: View, instance: Instance, other: Instance)
    requires !Misplaced(view) && WantedInstance(view.expected) == Some(instance) && instance != other
    ensures InstanceOf(view.origin, instance)
            == InstanceTotals(CountOrigin(view.origin, OriginReceived), CountOrigin(view.origin, OriginCompleted),
              CountOrigin(view.origin, OriginAborted))
    ensures InstanceOf(view.origin, other) == NO_INSTANCE
  {
    forall i | 0 <= i < |view.origin| ensures view.origin[i].instance == instance {
      assert Some(view.origin[i].instance) == WantedInstance(view.expected);
    }
    CountedThere(view.origin, instance, other, OriginReceived);
    CountedThere(view.origin, instance, other, OriginCompleted);
    CountedThere(view.origin, instance, other, OriginAborted);
  }

  lemma {:induction false} NoneSpoofed(origin: seq<OriginEvent>)
    requires !Spoofed(origin)
    ensures SpoofedSum(origin) == 0
  {
    if origin != [] {
      var init := origin[..|origin| - 1];
      forall i | 0 <= i < |init| ensures init[i].spoofed == 0 { assert origin[i].spoofed == 0; }
      NoneSpoofed(init);
      assert origin[|origin| - 1].spoofed == 0;
    }
  }

  lemma {:induction false} ReceivedThereIff(view: View)
    requires !Misplaced(view) && WantedInstance(view.expected) == Some(ProtectedOrigin)
    ensures ReceivedThere(view.origin) <==> CountOrigin(view.origin, OriginReceived) > 0
  {
    CountsSome(view.origin, OriginReceived);
    if i :| 0 <= i < |view.origin| && view.origin[i].kind == OriginReceived {
      assert Some(view.origin[i].instance) == WantedInstance(view.expected);
    }
  }

  lemma {:induction false} ReasonsAddUp(plane: seq<PlaneEvent>, n: nat)
    requires n <= |plane|
    ensures |ReasonsTo(plane, n)| + UnknownTo(plane, n) == CountTo(plane, L1Rejected, n)
  {
    if n > 0 {
      ReasonsAddUp(plane, n - 1);
    }
  }

  lemma {:induction false} CompletedOnce(view: View)
    requires HarnessRules(view, true, []) == [] && view.expected != External
    ensures CountHarness(view.harness, ClientCompleted) == 1
  {
  }

  /** A receipt whose attempt failed and whose end the origin never reported. */
  predicate LostFinish(view: View)
  {
    view.expected == Protected && HasPlane(view.plane, EgressFailed) && view.origin != [] && Finished(view.origin) == 0
  }

  /** On the protected lane, the verdict was a rejection without a reason of the closed list. */
  predicate Unreasoned(view: View)
  {
    view.expected == Protected && |view.plane| == 4 && view.plane[2].kind == L1Rejected && !Listed(view.plane[2])
  }

  lemma {:induction false} NoneUnknown(plane: seq<PlaneEvent>, n: nat)
    requires n <= |plane| && forall i :: 0 <= i < n ==> plane[i].kind != L1Rejected
    ensures UnknownTo(plane, n) == 0
  {
    if n > 0 {
      NoneUnknown(plane, n - 1);
    }
  }

  /** The rejection of a clean record is its third event, so that event alone decides. */
  lemma {:induction false} UnknownIsThird(view: View)
    requires view.expected == Protected && (RefusedAtL1(view.plane) || WentOut(view.plane))
    ensures UnknownTo(view.plane, |view.plane|) == ToNat(Unreasoned(view))
  {
    var plane := view.plane;
    if RefusedAtL1(plane) {
      NoneUnknown(plane, 2);
      assert UnknownTo(plane, 3) == UnknownTo(plane, 2) + ToNat(plane[2].kind == L1Rejected && !Listed(plane[2]));
      assert UnknownTo(plane, 4) == UnknownTo(plane, 3);
    } else {
      NoneUnknown(plane, |plane|);
    }
  }

  /** The identities that hold of each clean record alone. */
  predicate Unconditional(id: IdentityId)
  {
    id !in {UnknownReasonsAreZero, ReceivedIsFinished, PreIngressIsParserRejected}
  }

  lemma {:induction false} PlaneCounts(plane: seq<PlaneEvent>)
    requires Balanced(plane)
    ensures IngressOf(plane).accepted == 1 && IngressOf(plane).loss == 0 && IngressOf(plane).unresolved == 0
            && |IngressOf(plane).terminal| == 1
    ensures LayerOf(plane).entered == 1
    ensures LayerOf(plane).passed + LayerOf(plane).rejected + LayerOf(plane).shed + LayerOf(plane).errors == 1
    ensures |LayerOf(plane).byReason| + LayerOf(plane).unknownReasons == LayerOf(plane).rejected
  {
    ReasonsAddUp(plane, |plane|);
  }

  lemma {:induction false} EgressCounts(view: View)
    requires Balanced(view.plane) && OriginOrderly(view) && OriginAgrees(view) && view.expected == Protected
    ensures EgressOf(view).attempted == LayerOf(view.plane).passed
    ensures EgressOf(view).attempted == EgressOf(view).responded + EgressOf(view).failed
    ensures CountOrigin(view.origin, OriginReceived) == EgressOf(view).responded + EgressOf(view).failedWithReceipt
    ensures !Bypassed(view)
  {
    ReceivedThereIff(view);
  }

  lemma {:induction false} OriginCounts(r: Record)
    requires OriginOrderly(r.view) && r.view.expected == Protected
    ensures OriginOf(r).guarded.received == CountOrigin(r.view.origin, OriginReceived)
    ensures OriginOf(r).guarded.completed + OriginOf(r).guarded.aborted == Finished(r.view.origin)
    ensures OriginOf(r).control == NO_INSTANCE && OriginOf(r).spoofed == 0
  {
    CountedOn(r.view, ProtectedOrigin, ControlOrigin);
    NoneSpoofed(r.view.origin);
  }

  /** What the contribution of a clean protected record comes to. */
  predicate Even(c: Report)
  {
    && c.sent == SentTotals(1, 0, 0, 1)
    && c.ingress.accepted == 1 && c.ingress.loss == 0 && c.ingress.unresolved == 0 && |c.ingress.terminal| == 1
    && c.l1.entered == 1 && c.l1.passed + c.l1.rejected + c.l1.shed + c.l1.errors == 1
    && |c.l1.byReason| + c.l1.unknownReasons == c.l1.rejected
    && c.egress.attempted == c.l1.passed && c.egress.attempted == c.egress.responded + c.egress.failed
    && c.origin.guarded.received == c.egress.responded + c.egress.failedWithReceipt
    && c.origin.control == NO_INSTANCE && c.origin.withoutL1Pass == 0 && c.origin.spoofed == 0
    && c.client.completed == 1
  }

  /** The unconditional identities hold of these totals. */
  predicate NoGaps(c: Report) { forall id :: Unconditional(id) ==> Gap(c, id) == 0 }

  lemma {:induction false} EvenHasNoGaps(c: Report)
    requires Even(c)
    ensures NoGaps(c)
  {
  }

  lemma {:induction false} ProtectedIsEven(r: Record)
    requires Accounted(r) && r.view.expected == Protected
    ensures Even(Contribution(r))
    ensures Contribution(r).origin.guarded.received == CountOrigin(r.view.origin, OriginReceived)
    ensures Contribution(r).origin.guarded.completed + Contribution(r).origin.guarded.aborted == Finished(r.view.origin)
  {
    assert HarnessRules(r.view, true, []) == [] by { CleanIsSilent(r.view); }
    CompletedOnce(r.view);
    assert Balanced(r.view.plane) && OriginOrderly(r.view) && OriginAgrees(r.view) by { CleanProtected(r.view); }
    PlaneCounts(r.view.plane);
    EgressCounts(r.view);
    OriginCounts(r);
  }

  lemma {:induction false} FinishGap(view: View)
    requires Balanced(view.plane) && OriginOrderly(view) && OriginAgrees(view) && view.expected == Protected
    ensures CountOrigin(view.origin, OriginReceived) - Finished(view.origin) == ToNat(LostFinish(view))
  {
  }

  /** What the contribution of a clean record of another lane comes to. */
  predicate Flat(c: Report)
  {
    && c.sent.toPlane == 0 && c.sent.all == 1
    && c.ingress == NO_INGRESS && c.l1 == NO_LAYER && c.egress == NO_EGRESS
    && c.origin.guarded == NO_INSTANCE && c.origin.withoutL1Pass == 0 && c.origin.spoofed == 0
    && c.origin.control.received == c.sent.toControl
    && c.origin.control.completed + c.origin.control.aborted == c.sent.toControl
    && c.client.completed == 1
  }

  lemma {:induction false} FlatHasNoGaps(c: Report)
    requires Flat(c)
    ensures NoGaps(c)
  {
  }

  lemma {:induction false} OthersAreFlat(r: Record)
    requires Accounted(r) && r.view.expected != Protected
    ensures Flat(Contribution(r))
  {
    assert HarnessRules(r.view, true, []) == [] by { CleanIsSilent(r.view); }
    CompletedOnce(r.view);
    CleanElsewhere(r.view);
    NoneSpoofed(r.view.origin);
    if r.view.expected == Control { CountedOn(r.view, ControlOrigin, ProtectedOrigin); }
  }

  /** What a clean record leaves open: a rejection without a reason, and a failed attempt's receipt without a finish. */
  lemma {:induction false} CleanContribution(r: Record, c: Report)
    requires Accounted(r) && c == Contribution(r)
    ensures NoGaps(c)
    ensures c.origin.guarded.received - (c.origin.guarded.completed + c.origin.guarded.aborted)
            == ToNat(LostFinish(r.view))
    ensures c.l1.unknownReasons > 0 <==> Unreasoned(r.view)
  {
    if r.view.expected == Protected {
      ProtectedIsEven(r);
      EvenHasNoGaps(c);
      assert RefusedAtL1(r.view.plane) || WentOut(r.view.plane) by { CleanProtected(r.view); }
      UnknownIsThird(r.view);
      assert Balanced(r.view.plane) && OriginOrderly(r.view) && OriginAgrees(r.view) by { CleanProtected(r.view); }
      FinishGap(r.view);
    } else {
      OthersAreFlat(r);
      FlatHasNoGaps(c);
    }
  }

  // ------------------------------------------------------------------ any number of records

  function Total(cs: seq<Report>, n: nat): Report
    requires n <= |cs|
  {
    if n == 0 then NOTHING else Total(cs, n - 1).Plus(cs[n - 1])
  }

  function Contributions(records: seq<Record>): (cs: seq<Report>)
    ensures |cs| == |records| && forall i :: 0 <= i < |cs| ==> cs[i] == Contribution(records[i])
  {
    seq(|records|, i requires 0 <= i < |records| => Contribution(records[i]))
  }

  lemma {:induction false} AccountingIsTotal(records: seq<Record>, cs: seq<Report>, n: nat)
    requires n <= |cs| == |records| && forall i :: 0 <= i < |cs| ==> cs[i] == Contribution(records[i])
    ensures AccountingTo(records, n) == Total(cs, n)
  {
    if n > 0 {
      AccountingIsTotal(records, cs, n - 1);
    }
  }

  function SumTo(gaps: seq<int>, n: nat): int
    requires n <= |gaps|
  {
    if n == 0 then 0 else SumTo(gaps, n - 1) + gaps[n - 1]
  }

  lemma {:induction false} GapOfTotal(cs: seq<Report>, gaps: seq<int>, n: nat, id: IdentityId)
    requires n <= |cs| == |gaps| && forall i :: 0 <= i < |cs| ==> gaps[i] == Gap(cs[i], id)
    ensures Gap(Total(cs, n), id) == SumTo(gaps, n)
  {
    if n > 0 {
      GapOfTotal(cs, gaps, n - 1, id);
      GapAdds(Total(cs, n - 1), cs[n - 1], id);
    }
  }

  lemma {:induction false} SumOfNaturals(gaps: seq<int>, n: nat)
    requires n <= |gaps| && forall i :: 0 <= i < n ==> gaps[i] >= 0
    ensures SumTo(gaps, n) >= 0
    ensures SumTo(gaps, n) == 0 <==> forall i :: 0 <= i < n ==> gaps[i] == 0
  {
    if n > 0 {
      SumOfNaturals(gaps, n - 1);
    }
  }

  lemma {:induction false} GapsAdd(cs: seq<Report>, id: IdentityId)
    requires forall i :: 0 <= i < |cs| ==> Gap(cs[i], id) >= 0
    ensures Gap(Total(cs, |cs|), id) == 0 <==> forall i :: 0 <= i < |cs| ==> Gap(cs[i], id) == 0
  {
    var gaps := seq(|cs|, i requires 0 <= i < |cs| => Gap(cs[i], id));
    GapOfTotal(cs, gaps, |cs|, id);
    SumOfNaturals(gaps, |cs|);
    assert forall i :: 0 <= i < |cs| ==> gaps[i] == Gap(cs[i], id);
  }

  lemma {:induction false} AllClean(records: seq<Record>, cs: seq<Report>)
    requires |cs| == |records| && forall i :: 0 <= i < |cs| ==> cs[i] == Contribution(records[i])
    requires forall i :: 0 <= i < |records| ==> Accounted(records[i])
    ensures forall i :: 0 <= i < |cs| ==> NoGaps(cs[i])
    ensures forall i :: 0 <= i < |cs| ==> Gap(cs[i], ReceivedIsFinished) == ToNat(LostFinish(records[i].view))
    ensures forall i :: 0 <= i < |cs| ==> (Gap(cs[i], UnknownReasonsAreZero) >= 0
            && (Gap(cs[i], UnknownReasonsAreZero) > 0 <==> Unreasoned(records[i].view)))
  {
    forall i | 0 <= i < |cs|
      ensures NoGaps(cs[i]) && Gap(cs[i], ReceivedIsFinished) == ToNat(LostFinish(records[i].view))
      ensures Gap(cs[i], UnknownReasonsAreZero) >= 0
              && (Gap(cs[i], UnknownReasonsAreZero) > 0 <==> Unreasoned(records[i].view))
    {
      CleanContribution(records[i], cs[i]);
    }
  }

  /** Fifteen identities hold of any number of clean records. */
  lemma {:induction false} CleanRecordsReconcile(records: seq<Record>, parserRejected: nat, id: IdentityId)
    requires forall i :: 0 <= i < |records| ==> Accounted(records[i])
    requires Unconditional(id)
    ensures Sides(Accounting(records), parserRejected, id).0 == Sides(Accounting(records), parserRejected, id).1
  {
    var cs := Contributions(records);
    AllClean(records, cs);
    TotalReconciles(records, cs, parserRejected, id);
  }

  lemma {:induction false} TotalReconciles(records: seq<Record>, cs: seq<Report>, parserRejected: nat, id: IdentityId)
    requires |cs| == |records| && forall i :: 0 <= i < |cs| ==> cs[i] == Contribution(records[i])
    requires Unconditional(id) && forall i :: 0 <= i < |cs| ==> NoGaps(cs[i])
    ensures Sides(Accounting(records), parserRejected, id).0 == Sides(Accounting(records), parserRejected, id).1
  {
    AccountingIsTotal(records, cs, |cs|);
    GapsAdd(cs, id);
    assert Gap(Accounting(records), id) == 0;
  }

  /**
   * Every protected receipt resolves exactly when no failed attempt that reached the origin is left without its finish:
   * validation asks for a finish only behind a response.
   */
  lemma {:induction false} ReceiptsResolveIff(records: seq<Record>)
    requires forall i :: 0 <= i < |records| ==> Accounted(records[i])
    ensures Gap(Accounting(records), ReceivedIsFinished) == 0
            <==> forall i :: 0 <= i < |records| ==> !LostFinish(records[i].view)
  {
    var cs := Contributions(records);
    AllClean(records, cs);
    AccountingIsTotal(records, cs, |cs|);
    GapsAdd(cs, ReceivedIsFinished);
  }

  /**
   * The identity "no reject has a reason outside the closed list" holds of clean records exactly when no protected
   * record of four events has a rejection without a listed reason as its third: validation does not ask for the reason
   * itself.
   */
  lemma {:induction false} ReasonsKnownIff(records: seq<Record>)
    requires forall i :: 0 <= i < |records| ==> Accounted(records[i])
    ensures Gap(Accounting(records), UnknownReasonsAreZero) == 0
            <==> forall i :: 0 <= i < |records| ==> !Unreasoned(records[i].view)
  {
    var cs := Contributions(records);
    AllClean(records, cs);
    AccountingIsTotal(records, cs, |cs|);
    GapsAdd(cs, UnknownReasonsAreZero);
  }

  // ------------------------------------------------------------------ the two identities that validation does not give

  function Step(kind: PlaneKind, seqNo: int, status: Option<int>): PlaneEvent
  {
    PlaneEvent(kind, seqNo, None, None, status, None, false, false, None, None)
  }

  /** The plane's attempt failed after the origin had received the request, and the origin never reported an end. */
  function LostView(): View
  {
    View(Protected, [HarnessEvent(Sent, None, None, None),
      HarnessEvent(ClientCompleted, Some(ClientReset), None, None)],
         [Step(IngressAccepted, 1, None), Step(L1Entered, 2, None), Step(L1Passed, 3, None),
           Step(EgressAttempted, 4, None),
          Step(EgressFailed, 5, None), Step(IngressAborted, 6, None)],
         [OriginEvent(ProtectedOrigin, OriginReceived, Some(4), None, 0)], None, None, false)
  }

  /** A rejection that names no reason. */
  function UnreasonedView(): View
  {
    View(Protected, [HarnessEvent(Sent, None, None, None),
      HarnessEvent(ClientCompleted, Some(ClientReset), None, None)],
         [Step(IngressAccepted, 1, None), Step(L1Entered, 2, None), Step(L1Rejected, 3, None),
           Step(IngressAborted, 4, None)],
         [], None, None, false)
  }

  lemma {:induction false} LongWord(marks: seq<Mark<PlaneKind>>)
    requires |marks| == 6 && marks[0].kind == IngressAccepted && marks[1].kind == L1Entered && marks[2].kind == L1Passed
    requires marks[3].kind == EgressAttempted && marks[4].kind == EgressFailed && marks[5].kind == IngressAborted
    ensures Word(NextPlane, marks)
  {
    assert WordTo(NextPlane, marks, 1);
    assert WordTo(NextPlane, marks, 2);
    assert WordTo(NextPlane, marks, 3);
    assert WordTo(NextPlane, marks, 4);
    assert WordTo(NextPlane, marks, 5);
  }

  lemma {:induction false} ShortWord(marks: seq<Mark<PlaneKind>>)
    requires |marks| == 4 && marks[0].kind == IngressAccepted && marks[1].kind == L1Entered
             && marks[2].kind == L1Rejected
    requires marks[3].kind == IngressAborted
    ensures Word(NextPlane, marks)
  {
    assert WordTo(NextPlane, marks, 1);
    assert WordTo(NextPlane, marks, 2);
    assert WordTo(NextPlane, marks, 3);
  }

  lemma {:induction false} SilentPlane(view: View)
    requires view.expected == Protected && !view.l2 && view.plane != [] && Terminal(view.plane[|view.plane| - 1].kind)
    requires Word(NextPlane, PlaneMarks(view.plane)) && Ascending(PlaneMarks(view.plane)) && !Uncorrelated(view.plane)
    ensures PlaneRules(view, true, []) == []
  {
    var plane := view.plane;
    SilentIff(NextPlane, PlaneBlame, PlaneMarks(plane));
    PlaneIsSimple(plane);
    CountIsHas(plane, L1Passed);
    CountIsHas(plane, L1Rejected);
    CountIsHas(plane, L1Shed);
    CountIsHas(plane, L1Error);
    TwoWays(plane);
    if RefusedAtL1(plane) { RefusedHas(plane); } else { WentOutHas(plane); }
  }

  lemma {:induction false} HarnessOfTwo(view: View)
    requires view.expected == Protected && |view.harness| == 2
    requires view.harness[0].kind == Sent && view.harness[1].kind == ClientCompleted
    ensures HarnessRules(view, true, []) == []
    ensures FirstCompletion(view.harness) == Some(view.harness[1])
  {
    assert FirstCompletion(view.harness) == FirstCompletion(view.harness[1..]);
    var one := view.harness[..1];
    assert view.harness[..|view.harness| - 1] == one && one[..|one| - 1] == [];
    assert CountHarness(one, Sent) == 1 && CountHarness(one, ClientCompleted) == 0;
    assert CountHarness(view.harness, Sent) == 1 && CountHarness(view.harness, ClientCompleted) == 1;
  }

  lemma {:induction false} OneReceipt(view: View)
    requires view.expected == Protected && |view.origin| == 1 && view.origin[0].kind == OriginReceived
    requires view.origin[0].instance == ProtectedOrigin && view.origin[0].spoofed == 0
    ensures CountOrigin(view.origin, OriginReceived) == 1 && Finished(view.origin) == 0
    ensures OriginRules(view, []) == []
  {
    var none := view.origin[..|view.origin| - 1];
    assert none == [];
    assert CountOrigin(none, OriginReceived) == 0 && CountOrigin(none, OriginCompleted) == 0
           && CountOrigin(none, OriginAborted) == 0;
    assert CountOrigin(view.origin, OriginReceived) == 1;
    assert CountOrigin(view.origin, OriginCompleted) == 0 && CountOrigin(view.origin, OriginAborted) == 0;
    assert !Misplaced(view) && !Spoofed(view.origin);
  }

  lemma {:induction false} LostReceipt(view: View)
    requires view == LostView()
    ensures ReceiptRules(view, []) == []
  {
    FoundPlane(view.plane, EgressAttempted);
    assert view.plane[3].kind == EgressAttempted;
    assert FirstPlane(view.plane, EgressAttempted).value.seqNo == 4;
  }

  /** Without a response, from the plane or to the client, nothing is left to compare. */
  lemma {:induction false} NoAnswer(view: View)
    requires !HasPlane(view.plane, EgressResponded) && !HasPlane(view.plane, IngressResponded)
    requires FirstCompletion(view.harness).Some? && FirstCompletion(view.harness).value.result == Some(ClientReset)
    ensures ResponseRules(view, []) == []
  {
    FoundPlane(view.plane, EgressResponded);
    FoundPlane(view.plane, IngressResponded);
    assert FirstPlane(view.plane, IngressResponded).None? && FirstPlane(view.plane, EgressResponded).None?;
  }

  lemma {:induction false} NotObserved(view: View)
    requires view.expected == Protected && view.origin == []
    ensures OriginRules(view, []) == [] && ReceiptRules(view, []) == []
  {
  }

  lemma {:induction false} SilentIsClean(view: View)
    requires !view.l2 && Silent(view)
    ensures Clean(view)
  {
  }

  lemma {:induction false} LostWord(view: View)
    requires view == LostView()
    ensures Word(NextPlane, PlaneMarks(view.plane)) && Ascending(PlaneMarks(view.plane)) && !Uncorrelated(view.plane)
  {
    LongWord(PlaneMarks(view.plane));
  }

  lemma {:induction false} LostHas(view: View)
    requires view == LostView()
    ensures HasPlane(view.plane, EgressFailed) && !HasPlane(view.plane, EgressResponded)
            && !HasPlane(view.plane, IngressResponded)
  {
    assert view.plane[4].kind == EgressFailed;
  }

  lemma {:induction false} UnreasonedWord(view: View)
    requires view == UnreasonedView()
    ensures Word(NextPlane, PlaneMarks(view.plane)) && Ascending(PlaneMarks(view.plane)) && !Uncorrelated(view.plane)
  {
    ShortWord(PlaneMarks(view.plane));
  }

  lemma {:induction false} UnreasonedHas(view: View)
    requires view == UnreasonedView()
    ensures Unreasoned(view)
    ensures !HasPlane(view.plane, EgressResponded) && !HasPlane(view.plane, IngressResponded)
  {
    assert view.plane[2].kind == L1Rejected;
  }

  /** Validation lets a lost finish through: the condition of `ReceiptsResolveIff` can fail of a clean record. */
  lemma {:induction false} FinishCanBeLost(view: View)
    requires view == LostView()
    ensures Clean(view) && LostFinish(view)
  {
    assert LostFinish(view) && Silent(view) by {
      HarnessOfTwo(view);
      LostWord(view);
      SilentPlane(view);
      LostHas(view);
      OneReceipt(view);
      LostReceipt(view);
      NoAnswer(view);
    }
    SilentIsClean(view);
  }

  /** Validation lets a rejection without a reason through. */
  lemma {:induction false} ReasonCanBeMissing(view: View)
    requires view == UnreasonedView()
    ensures Clean(view) && Unreasoned(view)
  {
    assert HarnessRules(view, true, []) == [] && FirstCompletion(view.harness) == Some(view.harness[1]) by {
      HarnessOfTwo(view);
    }
    assert PlaneRules(view, true, []) == [] by {
      UnreasonedWord(view);
      SilentPlane(view);
    }
    assert OriginRules(view, []) == [] && ReceiptRules(view, []) == [] by { NotObserved(view); }
    UnreasonedHas(view);
    NoAnswer(view);
    SilentIsClean(view);
  }

  /**
   * What validation does ask: a reason outside the list is let through only if the plane answered without a status, or
   * not at all.
   */
  lemma {:induction false} UnlistedIsCaught(view: View)
    requires view.expected == Protected && Clean(view) && Unreasoned(view) && view.plane[2].reason.Some?
    ensures view.plane[3].kind == IngressResponded ==> view.plane[3].status == None
  {
    assert RefusedAtL1(view.plane) by { CleanProtected(view); }
    assert ResponseRules(view, []) == [] by { CleanIsSilent(view); }
    if view.plane[3].kind == IngressResponded {
      AnswerIsLast(view.plane);
      VerdictIsThird(view.plane);
      StatusIsUndefined(view);
    }
  }

  lemma {:induction false} AnswerIsLast(plane: seq<PlaneEvent>)
    requires RefusedAtL1(plane) && plane[3].kind == IngressResponded
    ensures FirstPlane(plane, IngressResponded) == Some(plane[3])
  {
    FoundPlane(plane, IngressResponded);
    assert HasPlane(plane, IngressResponded);
  }

  lemma {:induction false} VerdictIsThird(plane: seq<PlaneEvent>)
    requires RefusedAtL1(plane)
    ensures FirstVerdict(plane) == Some(plane[2])
  {
    var tail := plane[1..];
    var rest := tail[1..];
    assert tail[0] == plane[1] && rest[0] == plane[2];
    assert FirstVerdict(rest) == Some(rest[0]);
    assert FirstVerdict(tail) == FirstVerdict(rest);
  }

  lemma {:induction false} StatusIsUndefined(view: View)
    requires ProtectedLike(view) && ResponseRules(view, []) == [] && RefusedAtL1(view.plane)
             && view.plane[2].kind == L1Rejected
    requires FirstVerdict(view.plane) == Some(view.plane[2])
             && FirstPlane(view.plane, IngressResponded) == Some(view.plane[3])
    requires view.plane[2].reason.Some? && view.plane[2].reason.value.Unlisted?
    ensures view.plane[3].status == None
  {
    assert PlaneStatus(view) == Some(None);
  }
}
