/** What it means for one finalized record that its validator reports nothing (defense/core/ledger.ts). */
module CleanRecords {
  import opened Base
  import opened LifecycleEvents
  import opened Automata
  import opened Lifecycles

  /** A finalized record of a composition without the L2 stage about which nothing is reported. */
  predicate Clean(view: View) { !view.l2 && LifecycleAnomalies(view, true) == [] }

  // ------------------------------------------------------------------ each group of rules is silent

  lemma {:induction false} PlaneKeeps(view: View, f0: seq<Anomaly>)
    ensures |PlaneRules(view, true, f0)| >= |f0|
  {
  }

  lemma {:induction false} OriginKeeps(view: View, f0: seq<Anomaly>)
    ensures |OriginRules(view, f0)| >= |f0|
  {
  }

  lemma {:induction false} ReceiptKeeps(view: View, f0: seq<Anomaly>)
    ensures |ReceiptRules(view, f0)| >= |f0|
  {
  }

  lemma {:induction false} ResponseKeeps(view: View, f0: seq<Anomaly>)
    ensures |ResponseRules(view, f0)| >= |f0|
  {
  }

  predicate Silent(view: View)
  {
    && HarnessRules(view, true, []) == []
    && PlaneRules(view, true, []) == []
    && OriginRules(view, []) == []
    && ReceiptRules(view, []) == []
    && ResponseRules(view, []) == []
  }

  lemma {:induction false} CleanIsSilent(view: View)
    requires LifecycleAnomalies(view, true) == []
    ensures Silent(view)
  {
    var f1 := HarnessRules(view, true, []);
    var f2 := PlaneRules(view, true, f1);
    var f3 := OriginRules(view, f2);
    var f4 := ReceiptRules(view, f3);
    var f5 := ResponseRules(view, f4);
    ResponseKeeps(view, f4);
    assert |f4| == 0;
    ReceiptKeeps(view, f3);
    assert |f3| == 0;
    OriginKeeps(view, f2);
    assert |f2| == 0;
    PlaneKeeps(view, f1);
    assert f1 == [] && f2 == [] && f3 == [] && f4 == [] && f5 == [];
  }

  // ------------------------------------------------------------------ the shape of a clean plane stream

  predicate Opens(plane: seq<PlaneEvent>)
  {
    |plane| >= 4 && plane[0].kind == IngressAccepted && plane[1].kind == L1Entered
  }

  /** Ingress, L1, a verdict other than a pass, and the answer. */
  predicate RefusedAtL1(plane: seq<PlaneEvent>)
  {
    |plane| == 4 && Opens(plane) && plane[2].kind in {L1Rejected, L1Shed, L1Error} && Terminal(plane[3].kind)
  }

  /** Ingress, an L1 pass, an egress attempt, perhaps a proof, the result of the attempt, and the answer. */
  predicate WentOut(plane: seq<PlaneEvent>)
  {
    && |plane| in {6, 7} && Opens(plane) && plane[2].kind == L1Passed && plane[3].kind == EgressAttempted
    && (|plane| == 7 ==> plane[4].kind == ProofIssued)
    && plane[|plane| - 2].kind in {EgressResponded, EgressFailed} && Terminal(plane[|plane| - 1].kind)
  }

  lemma {:induction false} Follows(plane: seq<PlaneEvent>, i: nat)
    requires i < |plane| && Word(NextPlane, PlaneMarks(plane))
    ensures plane[i].kind in NextPlane(if i == 0 then None else Some(plane[i - 1].kind))
  {
    WordStep(NextPlane, PlaneMarks(plane), i);
  }

  lemma {:induction false} EndsThere(plane: seq<PlaneEvent>, i: nat)
    requires i < |plane| && Word(NextPlane, PlaneMarks(plane)) && Terminal(plane[i].kind)
    ensures i == |plane| - 1
  {
    TerminalIsLast(NextPlane, PlaneMarks(plane), i);
  }

  lemma {:induction false} OutThere(plane: seq<PlaneEvent>)
    requires Word(NextPlane, PlaneMarks(plane)) && plane != [] && Terminal(plane[|plane| - 1].kind)
    requires Opens(plane) && plane[2].kind == L1Passed
    ensures WentOut(plane)
  {
    Follows(plane, 3);
    assert plane[3].kind == EgressAttempted && |plane| > 4;
    Follows(plane, 4);
    assert |plane| > 5;
    Follows(plane, 5);
    if plane[4].kind != ProofIssued {
      EndsThere(plane, 5);
    } else {
      assert |plane| > 6;
      Follows(plane, 6);
      EndsThere(plane, 6);
    }
  }

  /** A legal plane stream that ended took one of the two ways. */
  lemma {:induction false} TwoWays(plane: seq<PlaneEvent>)
    requires Word(NextPlane, PlaneMarks(plane)) && plane != [] && Terminal(plane[|plane| - 1].kind)
    ensures RefusedAtL1(plane) || WentOut(plane)
  {
    Follows(plane, 0);
    assert |plane| > 1;
    Follows(plane, 1);
    assert |plane| > 2;
    Follows(plane, 2);
    assert |plane| > 3;
    if plane[2].kind != L1Passed {
      Follows(plane, 3);
      EndsThere(plane, 3);
    } else {
      OutThere(plane);
    }
  }

  lemma {:induction false} PlaneClimbs()
    ensures Climbing(NextPlane, PlaneRank)
  {
  }

  /** No kind comes twice in a legal plane stream. */
  lemma {:induction false} PlaneIsSimple(plane: seq<PlaneEvent>)
    requires Word(NextPlane, PlaneMarks(plane))
    ensures forall i, j :: 0 <= i < j < |plane| ==> plane[i].kind != plane[j].kind
  {
    PlaneClimbs();
    WordIsShort(NextPlane, PlaneRank, PlaneMarks(plane), 60);
    forall i, j | 0 <= i < j < |plane| ensures plane[i].kind != plane[j].kind {
      assert PlaneMarks(plane)[i].kind != PlaneMarks(plane)[j].kind;
    }
  }

  lemma {:induction false} CountToIsHas(plane: seq<PlaneEvent>, kind: PlaneKind, n: nat)
    requires n <= |plane|
    requires forall i, j :: 0 <= i < j < |plane| ==> plane[i].kind != plane[j].kind
    ensures CountTo(plane, kind, n) == ToNat(exists i :: 0 <= i < n && plane[i].kind == kind)
  {
    if n > 0 {
      CountToIsHas(plane, kind, n - 1);
    }
  }

  lemma {:induction false} CountIsHas(plane: seq<PlaneEvent>, kind: PlaneKind)
    requires forall i, j :: 0 <= i < j < |plane| ==> plane[i].kind != plane[j].kind
    ensures CountPlane(plane, kind) == ToNat(HasPlane(plane, kind))
  {
    CountToIsHas(plane, kind, |plane|);
  }

  /** The balance of one plane stream: what went in came out, once. */
  predicate Balanced(plane: seq<PlaneEvent>)
  {
    && HasPlane(plane, IngressAccepted) && HasPlane(plane, L1Entered) && Outcome(plane).Some?
    && ToNat(HasPlane(plane, L1Passed)) + CountPlane(plane, L1Rejected) + ToNat(HasPlane(plane, L1Shed))
      + CountPlane(plane, L1Error) == 1
    && HasPlane(plane, EgressAttempted) == HasPlane(plane, L1Passed)
    && ToNat(HasPlane(plane, EgressAttempted))
      == ToNat(HasPlane(plane, EgressResponded)) + CountPlane(plane, EgressFailed)
    && CountPlane(plane, EgressFailed) == ToNat(HasPlane(plane, EgressFailed))
  }

  lemma {:induction false} RefusedHas(plane: seq<PlaneEvent>)
    requires RefusedAtL1(plane)
    ensures HasPlane(plane, IngressAccepted) && HasPlane(plane, L1Entered)
    ensures HasPlane(plane, IngressResponded) || HasPlane(plane, IngressAborted)
    ensures ToNat(HasPlane(plane, L1Rejected)) + ToNat(HasPlane(plane, L1Shed)) + ToNat(HasPlane(plane, L1Error)) == 1
    ensures !HasPlane(plane, L1Passed) && !HasPlane(plane, EgressAttempted) && !HasPlane(plane, EgressResponded)
            && !HasPlane(plane, EgressFailed)
  {
    assert plane[0].kind == IngressAccepted && plane[1].kind == L1Entered && LayerVerdict(plane[2].kind)
           && Terminal(plane[3].kind);
  }

  lemma {:induction false} WentOutHas(plane: seq<PlaneEvent>)
    requires WentOut(plane)
    ensures HasPlane(plane, IngressAccepted) && HasPlane(plane, L1Entered) && HasPlane(plane, L1Passed)
            && HasPlane(plane, EgressAttempted)
    ensures HasPlane(plane, IngressResponded) || HasPlane(plane, IngressAborted)
    ensures !HasPlane(plane, L1Rejected) && !HasPlane(plane, L1Shed) && !HasPlane(plane, L1Error)
    ensures ToNat(HasPlane(plane, EgressResponded)) + ToNat(HasPlane(plane, EgressFailed)) == 1
  {
    assert plane[0].kind == IngressAccepted && plane[1].kind == L1Entered && plane[2].kind == L1Passed
           && plane[3].kind == EgressAttempted;
    assert plane[|plane| - 2].kind in {EgressResponded, EgressFailed} && Terminal(plane[|plane| - 1].kind);
  }

  lemma {:induction false} PlaneBalances(plane: seq<PlaneEvent>)
    requires Word(NextPlane, PlaneMarks(plane)) && plane != [] && Terminal(plane[|plane| - 1].kind)
    ensures Balanced(plane)
  {
    PlaneIsSimple(plane);
    CountIsHas(plane, L1Rejected);
    CountIsHas(plane, L1Error);
    CountIsHas(plane, EgressFailed);
    TwoWays(plane);
    if RefusedAtL1(plane) {
      RefusedHas(plane);
    } else {
      WentOutHas(plane);
    }
  }

  // ------------------------------------------------------------------ the origin's side

  lemma {:induction false} CountsSome(origin: seq<OriginEvent>, kind: OriginKind)
    ensures CountOrigin(origin, kind) > 0 <==> exists i :: 0 <= i < |origin| && origin[i].kind == kind
  {
    if origin != [] {
      var n := |origin| - 1;
      var init := origin[..n];
      CountsSome(init, kind);
      if CountOrigin(init, kind) > 0 {
        var i :| 0 <= i < |init| && init[i].kind == kind;
        assert origin[i].kind == kind;
      }
      if i :| 0 <= i < |origin| && origin[i].kind == kind && origin[n].kind != kind {
        assert init[i].kind == kind;
      }
      assert origin[n].kind == kind ==> CountOrigin(origin, kind) > 0;
    }
  }

  lemma {:induction false} FoundReceipt(origin: seq<OriginEvent>)
    ensures FirstReceipt(origin).Some? <==> exists i :: 0 <= i < |origin| && origin[i].kind == OriginReceived
    ensures FirstReceipt(origin).Some? ==> FirstReceipt(origin).value in origin
  {
    if origin != [] {
      FoundReceipt(origin[1..]);
      if i :| 0 <= i < |origin[1..]| && origin[1..][i].kind == OriginReceived {
        assert origin[i + 1].kind == OriginReceived;
      }
      if i :| 0 <= i < |origin| && origin[i].kind == OriginReceived && origin[0].kind != OriginReceived {
        assert origin[1..][i - 1].kind == OriginReceived;
      }
    }
  }

  lemma {:induction false} FoundFinish(origin: seq<OriginEvent>)
    ensures FirstFinish(origin).Some? <==> exists i :: 0 <= i < |origin| && origin[i].kind != OriginReceived
    ensures FirstFinish(origin).Some? ==>
            FirstFinish(origin).value in origin && FirstFinish(origin).value.kind != OriginReceived
  {
    if origin != [] {
      FoundFinish(origin[1..]);
      if i :| 0 <= i < |origin[1..]| && origin[1..][i].kind != OriginReceived {
        assert origin[i + 1].kind != OriginReceived;
      }
      if i :| 0 <= i < |origin| && origin[i].kind != OriginReceived && origin[0].kind == OriginReceived {
        assert origin[1..][i - 1].kind != OriginReceived;
      }
    }
  }

  lemma {:induction false} FoundCounts(origin: seq<OriginEvent>)
    ensures FirstReceipt(origin).Some? <==> CountOrigin(origin, OriginReceived) > 0
    ensures FirstFinish(origin).Some? <==> Finished(origin) > 0
  {
    FoundReceipt(origin);
    CountsSome(origin, OriginReceived);
    FoundFinish(origin);
    CountsSome(origin, OriginCompleted);
    CountsSome(origin, OriginAborted);
    if i :| 0 <= i < |origin| && origin[i].kind != OriginReceived {
      assert origin[i].kind == OriginCompleted || origin[i].kind == OriginAborted;
    }
  }

  /**
   * At most one receipt, never a finish without it, and both on the instance the lane calls for, with no header of a
   * spoofer.
   */
  predicate OriginOrderly(view: View)
  {
    && CountOrigin(view.origin, OriginReceived) <= 1
    && Finished(view.origin) <= CountOrigin(view.origin, OriginReceived)
    && (view.origin != [] ==> CountOrigin(view.origin, OriginReceived) == 1)
    && !Misplaced(view) && !Spoofed(view.origin)
  }

  lemma {:induction false} OriginIsOrderly(view: View)
    requires OriginRules(view, []) == []
    ensures OriginOrderly(view)
  {
    CountsSome(view.origin, OriginReceived);
    if view.origin != [] {
      assert view.origin[0].kind == OriginReceived;
    } else {
      assert Finished(view.origin) == 0;
    }
  }

  /**
   * The origin's observations agree with the plane's: a receipt has an attempt behind it, a response has a receipt and
   * a finish.
   */
  predicate OriginAgrees(view: View)
  {
    var received, finished := CountOrigin(view.origin, OriginReceived), Finished(view.origin);
    && (received > 0 ==> HasPlane(view.plane, EgressAttempted))
    && (HasPlane(view.plane, EgressResponded) ==> received == 1 && finished == 1)
    && received == ToNat(HasPlane(view.plane, EgressResponded))
      + ToNat(received > 0 && HasPlane(view.plane, EgressFailed))
  }

  lemma {:induction false} AttemptBehind(view: View)
    requires ReceiptRules(view, []) == [] && ProtectedLike(view)
    ensures CountOrigin(view.origin, OriginReceived) > 0 ==> HasPlane(view.plane, EgressAttempted)
  {
    FoundCounts(view.origin);
    FoundPlane(view.plane, EgressAttempted);
  }

  lemma {:induction false} ResponseObserved(view: View)
    requires ResponseRules(view, []) == [] && ProtectedLike(view) && HasPlane(view.plane, EgressResponded)
    ensures CountOrigin(view.origin, OriginReceived) > 0 && Finished(view.origin) > 0
  {
    FoundCounts(view.origin);
    FoundPlane(view.plane, EgressResponded);
  }

  lemma {:induction false} CleanPlane(view: View)
    requires PlaneRules(view, true, []) == [] && ProtectedLike(view) && !view.l2
    ensures Word(NextPlane, PlaneMarks(view.plane)) && Ascending(PlaneMarks(view.plane))
    ensures view.plane != [] && Terminal(view.plane[|view.plane| - 1].kind)
  {
    UnreportedPlane(view);
  }

  /**
   * A clean protected request: its plane stream is a legal word with increasing sequence numbers that ended one of two
   * ways and balances, and the origin's independent observations agree with it.
   */
  lemma {:induction false} CleanProtected(view: View)
    requires ProtectedLike(view) && Clean(view)
    ensures RefusedAtL1(view.plane) || WentOut(view.plane)
    ensures Ascending(PlaneMarks(view.plane))
    ensures Balanced(view.plane) && OriginOrderly(view) && OriginAgrees(view)
  {
    CleanIsSilent(view);
    CleanPlane(view);
    TwoWays(view.plane);
    PlaneBalances(view.plane);
    OriginIsOrderly(view);
    AttemptBehind(view);
    if HasPlane(view.plane, EgressResponded) { ResponseObserved(view); }
  }

  lemma {:induction false} NobodyMayObserve(view: View)
    requires view.origin != [] && WantedInstance(view.expected).None?
    ensures Misplaced(view)
  {
    assert Some(view.origin[0].instance) != WantedInstance(view.expected);
  }

  /**
   * A clean control request met the control origin once and finished there; a clean pre-ingress request met nothing.
   */
  lemma {:induction false} CleanElsewhere(view: View)
    requires Clean(view) && view.expected in {Control, PreIngress}
    ensures view.plane == [] && OriginOrderly(view)
    ensures view.expected == Control ==> CountOrigin(view.origin, OriginReceived) == 1 && Finished(view.origin) == 1
    ensures view.expected == PreIngress ==> view.origin == []
  {
    CleanIsSilent(view);
    OriginIsOrderly(view);
    FoundCounts(view.origin);
    if view.expected == PreIngress && view.origin != [] { NobodyMayObserve(view); }
  }

  // ------------------------------------------------------------------ compositions with the L2 stage

  /** A finalized record of any composition about which nothing is reported. */
  predicate Unreported(view: View) { LifecycleAnomalies(view, true) == [] }

  /** An L1 pass, the L2 stage, and the answer: nothing went out. */
  predicate RefusedAtL2(plane: seq<PlaneEvent>)
  {
    |plane| == 6 && Opens(plane) && plane[2].kind == L1Passed && plane[3].kind == L2Entered
      && plane[4].kind == L2Decided
    && Terminal(plane[5].kind)
  }

  /** Where the result of the attempt stands: after the proof, if there is one. */
  function ResultAt(plane: seq<PlaneEvent>): nat
    requires |plane| >= 8
  {
    if plane[6].kind == ProofIssued then 7 else 6
  }

  /**
   * An L1 pass, the L2 stage, an attempt, perhaps a proof, its result, perhaps what came of an enrollment, and the
   * answer.
   */
  predicate WentOutThroughL2(plane: seq<PlaneEvent>)
  {
    && |plane| >= 8 && Opens(plane) && plane[2].kind == L1Passed && plane[3].kind == L2Entered
      && plane[4].kind == L2Decided
    && plane[5].kind == EgressAttempted
    && var r := ResultAt(plane);
       && r + 2 <= |plane| <= r + 3 && plane[r].kind in {EgressResponded, EgressFailed}
         && Terminal(plane[|plane| - 1].kind)
       && (|plane| == r + 3 ==>
             plane[r + 1].kind == L2EnrollSkipped
               || (plane[r + 1].kind == L2Enrolled && plane[r].kind == EgressResponded))
  }

  lemma {:induction false} FollowsL2(plane: seq<PlaneEvent>, i: nat)
    requires i < |plane| && Word(NextPlaneL2, PlaneMarks(plane))
    ensures plane[i].kind in NextPlaneL2(if i == 0 then None else Some(plane[i - 1].kind))
  {
    WordStep(NextPlaneL2, PlaneMarks(plane), i);
  }

  lemma {:induction false} EndsThereL2(plane: seq<PlaneEvent>, i: nat)
    requires i < |plane| && Word(NextPlaneL2, PlaneMarks(plane)) && Terminal(plane[i].kind)
    ensures i == |plane| - 1
  {
    TerminalIsLast(NextPlaneL2, PlaneMarks(plane), i);
  }

  /** What follows the result of an attempt. */
  lemma {:induction false} AfterResult(plane: seq<PlaneEvent>, r: nat)
    requires r < |plane| && Word(NextPlaneL2, PlaneMarks(plane)) && Terminal(plane[|plane| - 1].kind)
    requires plane[r].kind in {EgressResponded, EgressFailed}
    ensures r + 2 <= |plane| <= r + 3
    ensures |plane| == r + 3 ==>
              plane[r + 1].kind == L2EnrollSkipped
                || (plane[r + 1].kind == L2Enrolled && plane[r].kind == EgressResponded)
  {
    assert r + 1 < |plane|;
    FollowsL2(plane, r + 1);
    if Terminal(plane[r + 1].kind) {
      EndsThereL2(plane, r + 1);
    } else {
      assert r + 2 < |plane|;
      FollowsL2(plane, r + 2);
      EndsThereL2(plane, r + 2);
    }
  }

  lemma {:induction false} ThroughL2(plane: seq<PlaneEvent>)
    requires Word(NextPlaneL2, PlaneMarks(plane)) && plane != [] && Terminal(plane[|plane| - 1].kind)
    requires |plane| > 5 && Opens(plane) && plane[2].kind == L1Passed && plane[3].kind == L2Entered
             && plane[4].kind == L2Decided
    requires plane[5].kind == EgressAttempted
    ensures WentOutThroughL2(plane)
  {
    assert |plane| > 6;
    FollowsL2(plane, 6);
    if plane[6].kind == ProofIssued {
      assert |plane| > 7;
      FollowsL2(plane, 7);
      AfterResult(plane, 7);
    } else {
      AfterResult(plane, 6);
    }
  }

  /** A legal plane stream through L2 that ended was refused at L1, answered at L2, or went out once. */
  lemma {:induction false} ThreeWays(plane: seq<PlaneEvent>)
    requires Word(NextPlaneL2, PlaneMarks(plane)) && plane != [] && Terminal(plane[|plane| - 1].kind)
    ensures RefusedAtL1(plane) || RefusedAtL2(plane) || WentOutThroughL2(plane)
  {
    FollowsL2(plane, 0);
    assert |plane| > 1;
    FollowsL2(plane, 1);
    assert |plane| > 2;
    FollowsL2(plane, 2);
    assert |plane| > 3;
    FollowsL2(plane, 3);
    if plane[2].kind != L1Passed {
      EndsThereL2(plane, 3);
    } else {
      PastL1(plane);
    }
  }

  lemma {:induction false} PastL1(plane: seq<PlaneEvent>)
    requires Word(NextPlaneL2, PlaneMarks(plane)) && |plane| > 3 && Terminal(plane[|plane| - 1].kind)
    requires Opens(plane) && plane[2].kind == L1Passed && plane[3].kind == L2Entered
    ensures RefusedAtL2(plane) || WentOutThroughL2(plane)
  {
    assert |plane| > 4;
    FollowsL2(plane, 4);
    assert |plane| > 5;
    FollowsL2(plane, 5);
    if plane[5].kind == EgressAttempted {
      ThroughL2(plane);
    } else {
      EndsThereL2(plane, 5);
    }
  }

  lemma {:induction false} UnreportedPlane(view: View)
    requires PlaneRules(view, true, []) == [] && ProtectedLike(view)
    ensures Word(Successor(view.l2), PlaneMarks(view.plane)) && Ascending(PlaneMarks(view.plane))
    ensures view.plane != [] && Terminal(view.plane[|view.plane| - 1].kind)
  {
    SilentIff(Successor(view.l2), PlaneBlame, PlaneMarks(view.plane));
    assert Run(Successor(view.l2), PlaneBlame, PlaneMarks(view.plane)) == [] by {
      assert |Run(Successor(view.l2), PlaneBlame, PlaneMarks(view.plane))| == 0;
    }
  }

  /** In a composition with L2 an unreported protected request took one of three ways. */
  lemma {:induction false} UnreportedThroughL2(view: View)
    requires ProtectedLike(view) && view.l2 && Unreported(view)
    ensures RefusedAtL1(view.plane) || RefusedAtL2(view.plane) || WentOutThroughL2(view.plane)
  {
    CleanIsSilent(view);
    UnreportedPlane(view);
    ThreeWays(view.plane);
  }

  lemma {:induction false} NoAttempt(plane: seq<PlaneEvent>)
    requires RefusedAtL1(plane) || RefusedAtL2(plane)
    ensures !HasPlane(plane, EgressAttempted)
  {
  }

  /** Fail closed, with or without L2: what reached the origin, L1 had passed and the plane had sent. */
  lemma {:induction false} RefusedNeverReachesOrigin(view: View)
    requires ProtectedLike(view) && Unreported(view)
    requires !HasPlane(view.plane, L1Passed) || !HasPlane(view.plane, EgressAttempted)
    ensures view.origin == []
  {
    CleanIsSilent(view);
    UnreportedPlane(view);
    OriginIsOrderly(view);
    AttemptBehind(view);
    if !HasPlane(view.plane, L1Passed) { assert !HasPlane(view.plane, EgressAttempted) by { PassBehindAttempt(view); } }
  }

  lemma {:induction false} PassBehindAttempt(view: View)
    requires Word(Successor(view.l2), PlaneMarks(view.plane)) && view.plane != []
             && Terminal(view.plane[|view.plane| - 1].kind)
    requires !HasPlane(view.plane, L1Passed)
    ensures !HasPlane(view.plane, EgressAttempted)
  {
    if view.l2 { ThreeWays(view.plane); } else { TwoWays(view.plane); }
    assert |view.plane| > 2 && view.plane[2].kind != L1Passed;
    NoAttempt(view.plane);
  }

  /**
   * What a clean client saw: its response carries the status the plane answered with, which is the one its layers
   * decided on, and the outcome header, when there is one, names the terminal outcome.
   */
  lemma {:induction false} ClientSawTheOutcome(view: View)
    requires ProtectedLike(view) && Clean(view)
    requires FirstCompletion(view.harness).Some? && FirstCompletion(view.harness).value.result == Some(ClientResponse)
    ensures Outcome(view.plane).Some?
    ensures HasPlane(view.plane, IngressResponded) && PlaneStatus(view).Some? ==>
            FirstCompletion(view.harness).value.status == PlaneStatus(view).value
    ensures FirstCompletion(view.harness).value.outcomeHeader.Some?
            ==> FirstCompletion(view.harness).value.outcomeHeader.value == OutcomeHeader(Outcome(view.plane).value)
  {
    CleanProtected(view);
    CleanIsSilent(view);
    FoundPlane(view.plane, IngressResponded);
  }
}
