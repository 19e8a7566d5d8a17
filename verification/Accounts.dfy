/** Accounting derived from the correlated records, and when its identities hold (lab/defense/accounting.ts). */
module Accounts {
  import opened Base
  import opened LifecycleEvents
  import opened Automata
  import opened Lifecycles
  import opened CleanRecords

  /** One correlated request; `hostile` and `scenario` label it for the residual count. */
  datatype Record = Record(view: View, hostile: bool, scenario: Text)

  datatype SentTotals = SentTotals(toPlane: nat, toControl: nat, preIngress: nat, all: nat) {
    function Plus(o: SentTotals): SentTotals
    {
      SentTotals(toPlane + o.toPlane, toControl + o.toControl, preIngress + o.preIngress, all + o.all)
    }
  }

  datatype IngressTotals = IngressTotals(accepted: nat, loss: nat, unresolved: nat,
    terminal: multiset<TerminalOutcome>) {
    function Plus(o: IngressTotals): IngressTotals
    {
      IngressTotals(accepted + o.accepted, loss + o.loss, unresolved + o.unresolved, terminal + o.terminal)
    }
  }

  datatype LayerTotals = LayerTotals(
    entered: nat, passed: nat, rejected: nat, shed: nat, errors: nat,
    byReason: multiset<Refusal>, unknownReasons: nat, byError: multiset<Option<LayerErrorKind>>) {
    function Plus(o: LayerTotals): LayerTotals
    {
      LayerTotals(entered + o.entered, passed + o.passed, rejected + o.rejected, shed + o.shed, errors + o.errors,
                  byReason + o.byReason, unknownReasons + o.unknownReasons, byError + o.byError)
    }
  }

  datatype EgressTotals = EgressTotals(attempted: nat, responded: nat, failed: nat, byError: multiset<EgressError>,
    failedWithReceipt: nat) {
    function Plus(o: EgressTotals): EgressTotals
    {
      EgressTotals(attempted + o.attempted, responded + o.responded, failed + o.failed, byError + o.byError,
                   failedWithReceipt + o.failedWithReceipt)
    }
  }

  datatype InstanceTotals = InstanceTotals(received: nat, completed: nat, aborted: nat) {
    function Plus(o: InstanceTotals): InstanceTotals
    {
      InstanceTotals(received + o.received, completed + o.completed, aborted + o.aborted)
    }
  }

  datatype OriginTotals = OriginTotals(
    guarded: InstanceTotals, control: InstanceTotals, withoutL1Pass: nat, spoofed: nat, residual: multiset<Text>) {
    function Plus(o: OriginTotals): OriginTotals
    {
      OriginTotals(guarded.Plus(o.guarded), control.Plus(o.control), withoutL1Pass + o.withoutL1Pass,
        spoofed + o.spoofed,
                   residual + o.residual)
    }
  }

  datatype ClientTotals = ClientTotals(completed: nat, byResult: multiset<Option<ClientResult>>) {
    function Plus(o: ClientTotals): ClientTotals { ClientTotals(completed + o.completed, byResult + o.byResult) }
  }

  datatype Report = Report(
    sent: SentTotals, ingress: IngressTotals, l1: LayerTotals, egress: EgressTotals, origin: OriginTotals,
      client: ClientTotals) {
    function Plus(o: Report): Report
    {
      Report(sent.Plus(o.sent), ingress.Plus(o.ingress), l1.Plus(o.l1), egress.Plus(o.egress), origin.Plus(o.origin),
        client.Plus(o.client))
    }
  }

  const NOTHING_SENT := SentTotals(0, 0, 0, 0)
  const NO_INGRESS := IngressTotals(0, 0, 0, multiset{})
  const NO_LAYER := LayerTotals(0, 0, 0, 0, 0, multiset{}, 0, multiset{})
  const NO_EGRESS := EgressTotals(0, 0, 0, multiset{}, 0)
  const NO_INSTANCE := InstanceTotals(0, 0, 0)
  const NO_ORIGIN := OriginTotals(NO_INSTANCE, NO_INSTANCE, 0, 0, multiset{})
  const NO_CLIENT := ClientTotals(0, multiset{})
  const NOTHING := Report(NOTHING_SENT, NO_INGRESS, NO_LAYER, NO_EGRESS, NO_ORIGIN, NO_CLIENT)

  // ------------------------------------------------------------------ what one record adds

  function SentOf(expected: ExpectedLane): SentTotals
  {
    SentTotals(ToNat(expected == Protected), ToNat(expected == Control),
      ToNat(expected != Protected && expected != Control), 1)
  }

  function IngressOf(plane: seq<PlaneEvent>): IngressTotals
  {
    var accepted, outcome := HasPlane(plane, IngressAccepted), Outcome(plane);
    IngressTotals(ToNat(accepted), ToNat(!accepted), ToNat(accepted && outcome.None?),
                  if outcome.Some? then multiset{outcome.value} else multiset{})
  }

  /** The reasons of the rejections among the first `n` events. */
  function ReasonsTo(plane: seq<PlaneEvent>, n: nat): multiset<Refusal>
    requires n <= |plane|
  {
    if n == 0 then multiset{}
    else
      var before, last := ReasonsTo(plane, n - 1), plane[n - 1];
      if last.kind == L1Rejected && Listed(last) then before + multiset{last.reason.value} else before
  }

  function UnknownTo(plane: seq<PlaneEvent>, n: nat): nat
    requires n <= |plane|
  {
    if n == 0 then 0 else UnknownTo(plane, n - 1) + ToNat(plane[n - 1].kind == L1Rejected && !Listed(plane[n - 1]))
  }

  function ErrorsTo(plane: seq<PlaneEvent>, n: nat): multiset<Option<LayerErrorKind>>
    requires n <= |plane|
  {
    if n == 0 then multiset{}
    else
      var before, last := ErrorsTo(plane, n - 1), plane[n - 1];
      if last.kind == L1Error then before + multiset{last.errorKind} else before
  }

  function FailuresTo(plane: seq<PlaneEvent>, n: nat): multiset<EgressError>
    requires n <= |plane|
  {
    if n == 0 then multiset{}
    else
      var before, last := FailuresTo(plane, n - 1), plane[n - 1];
      if last.kind == EgressFailed && last.egressError.Some? then before + multiset{last.egressError.value} else before
  }

  function LayerOf(plane: seq<PlaneEvent>): LayerTotals
  {
    LayerTotals(ToNat(HasPlane(plane, L1Entered)), ToNat(HasPlane(plane, L1Passed)), CountPlane(plane, L1Rejected),
                ToNat(HasPlane(plane, L1Shed)), CountPlane(plane, L1Error), ReasonsTo(plane, |plane|),
                  UnknownTo(plane, |plane|), ErrorsTo(plane, |plane|))
  }

  /** Some event of the protected instance reports a receipt. */
  predicate ReceivedThere(origin: seq<OriginEvent>)
  {
    exists i :: 0 <= i < |origin| && origin[i].kind == OriginReceived && origin[i].instance == ProtectedOrigin
  }

  function EgressOf(view: View): EgressTotals
  {
    EgressTotals(ToNat(HasPlane(view.plane, EgressAttempted)), ToNat(HasPlane(view.plane, EgressResponded)),
      CountPlane(view.plane, EgressFailed),
                 FailuresTo(view.plane, |view.plane|),
                   ToNat(ReceivedThere(view.origin) && HasPlane(view.plane, EgressFailed)))
  }

  function CountAt(origin: seq<OriginEvent>, instance: Instance, kind: OriginKind): nat
  {
    if origin == [] then 0
    else
      CountAt(origin[..|origin| - 1], instance, kind)
      + ToNat(origin[|origin| - 1].kind == kind && origin[|origin| - 1].instance == instance)
  }

  function SpoofedSum(origin: seq<OriginEvent>): nat
  {
    if origin == [] then 0 else SpoofedSum(origin[..|origin| - 1]) + origin[|origin| - 1].spoofed
  }

  function InstanceOf(origin: seq<OriginEvent>, instance: Instance): InstanceTotals
  {
    InstanceTotals(CountAt(origin, instance, OriginReceived), CountAt(origin, instance, OriginCompleted),
      CountAt(origin, instance, OriginAborted))
  }

  /**
   * A receipt nobody let through: on the protected lane without an egress attempt, before ingress any observation at
   * all.
   */
  predicate Bypassed(view: View)
  {
    if view.expected == Protected then ReceivedThere(view.origin) && !HasPlane(view.plane, EgressAttempted)
    else view.expected == PreIngress && view.origin != []
  }

  function OriginOf(r: Record): OriginTotals
  {
    OriginTotals(InstanceOf(r.view.origin, ProtectedOrigin), InstanceOf(r.view.origin, ControlOrigin),
      ToNat(Bypassed(r.view)),
                 SpoofedSum(r.view.origin),
                 if r.view.expected == Protected && r.hostile && ReceivedThere(r.view.origin) then multiset{r.scenario}
                   else multiset{})
  }

  function ResultsOf(harness: seq<HarnessEvent>): multiset<Option<ClientResult>>
  {
    if harness == [] then multiset{}
    else
      var before, last := ResultsOf(harness[..|harness| - 1]), harness[|harness| - 1];
      if last.kind == ClientCompleted then before + multiset{last.result} else before
  }

  function ClientOf(harness: seq<HarnessEvent>): ClientTotals
  {
    ClientTotals(CountHarness(harness, ClientCompleted), ResultsOf(harness))
  }

  function Contribution(r: Record): Report
  {
    var inPlane := r.view.expected == Protected;
    Report(SentOf(r.view.expected),
           if inPlane then IngressOf(r.view.plane) else NO_INGRESS,
           if inPlane then LayerOf(r.view.plane) else NO_LAYER,
           if inPlane then EgressOf(r.view) else NO_EGRESS,
           OriginOf(r), ClientOf(r.view.harness))
  }

  /** The totals of the first `n` records. */
  function AccountingTo(records: seq<Record>, n: nat): Report
    requires n <= |records|
  {
    if n == 0 then NOTHING else AccountingTo(records, n - 1).Plus(Contribution(records[n - 1]))
  }

  function Accounting(records: seq<Record>): Report { AccountingTo(records, |records|) }

  lemma {:induction false} PlusNothing(ingress: IngressTotals, l1: LayerTotals, egress: EgressTotals)
    ensures ingress.Plus(NO_INGRESS) == ingress && l1.Plus(NO_LAYER) == l1 && egress.Plus(NO_EGRESS) == egress
  {
  }

  // ------------------------------------------------------------------ the loop over records

  method DeriveAccounting(records: seq<Record>) returns (report: Report)
    ensures report == Accounting(records)
  {
    report := NOTHING;
    for i := 0 to |records|
      invariant report == AccountingTo(records, i)
    {
      report := AddRecord(report, records[i]);
    }
  }

  method AddRecord(before: Report, r: Record) returns (report: Report)
    ensures report == before.Plus(Contribution(r))
  {
    var sent := AddSent(before.sent, r.view.expected);
    var ingress, l1, egress := before.ingress, before.l1, before.egress;
    var client := AddClient(before.client, r.view.harness);
    if r.view.expected == Protected {
      ingress := AddIngress(ingress, r.view.plane);
      l1, egress := AddPlane(l1, egress, r.view);
    } else {
      PlusNothing(ingress, l1, egress);
    }
    var origin := AddOrigin(before.origin, r);
    report := Report(sent, ingress, l1, egress, origin, client);
  }

  method AddSent(before: SentTotals, expected: ExpectedLane) returns (sent: SentTotals)
    ensures sent == before.Plus(SentOf(expected))
  {
    sent := before.(all := before.all + 1);
    if expected == Protected {
      sent := sent.(toPlane := sent.toPlane + 1);
    } else if expected == Control {
      sent := sent.(toControl := sent.toControl + 1);
    } else {
      sent := sent.(preIngress := sent.preIngress + 1);
    }
  }

  method AddClient(before: ClientTotals, harness: seq<HarnessEvent>) returns (client: ClientTotals)
    ensures client == before.Plus(ClientOf(harness))
  {
    client := before;
    for i := 0 to |harness|
      invariant client == before.Plus(ClientOf(harness[..i]))
    {
      assert harness[..i + 1][..i] == harness[..i];
      if harness[i].kind == ClientCompleted {
        client := ClientTotals(client.completed + 1, client.byResult + multiset{harness[i].result});
      }
    }
    assert harness[..|harness|] == harness;
  }

  method AddIngress(before: IngressTotals, plane: seq<PlaneEvent>) returns (ingress: IngressTotals)
    ensures ingress == before.Plus(IngressOf(plane))
  {
    ingress := before;
    if HasPlane(plane, IngressAccepted) {
      ingress := ingress.(accepted := ingress.accepted + 1);
    } else {
      ingress := ingress.(loss := ingress.loss + 1);
    }
    var outcome := Outcome(plane);
    if outcome.None? {
      if HasPlane(plane, IngressAccepted) { ingress := ingress.(unresolved := ingress.unresolved + 1); }
    } else {
      ingress := ingress.(terminal := ingress.terminal + multiset{outcome.value});
    }
  }

  /** The loop over the plane's events that counts refusals, errors and failed attempts with their reasons. */
  method CountEvents(plane: seq<PlaneEvent>)
    returns (rejected: nat, byReason: multiset<Refusal>, unknownReasons: nat,
             errors: nat, byError: multiset<Option<LayerErrorKind>>, failed: nat, byFailure: multiset<EgressError>)
    ensures rejected == CountPlane(plane, L1Rejected) && byReason == ReasonsTo(plane, |plane|)
            && unknownReasons == UnknownTo(plane, |plane|)
    ensures errors == CountPlane(plane, L1Error) && byError == ErrorsTo(plane, |plane|)
    ensures failed == CountPlane(plane, EgressFailed) && byFailure == FailuresTo(plane, |plane|)
  {
    rejected, unknownReasons, errors, failed := 0, 0, 0, 0;
    byReason, byError, byFailure := multiset{}, multiset{}, multiset{};
    for i := 0 to |plane|
      invariant rejected == CountTo(plane, L1Rejected, i)
      invariant byReason == ReasonsTo(plane, i) && unknownReasons == UnknownTo(plane, i)
      invariant errors == CountTo(plane, L1Error, i) && byError == ErrorsTo(plane, i)
      invariant failed == CountTo(plane, EgressFailed, i) && byFailure == FailuresTo(plane, i)
    {
      var event := plane[i];
      if event.kind == L1Rejected {
        rejected := rejected + 1;
        if Listed(event) {
          byReason := byReason + multiset{event.reason.value};
        } else {
          unknownReasons := unknownReasons + 1;
        }
      } else if event.kind == L1Error {
        errors := errors + 1;
        byError := byError + multiset{event.errorKind};
      } else if event.kind == EgressFailed {
        failed := failed + 1;
        if event.egressError.Some? { byFailure := byFailure + multiset{event.egressError.value}; }
      }
    }
  }

  method AddPlane(layerBefore: LayerTotals, egressBefore: EgressTotals, view: View)
    returns (l1: LayerTotals, egress: EgressTotals)
    ensures l1 == layerBefore.Plus(LayerOf(view.plane)) && egress == egressBefore.Plus(EgressOf(view))
  {
    var rejected, byReason, unknownReasons, errors, byError, failed, byFailure := CountEvents(view.plane);
    l1 := AddLayer(layerBefore, view.plane, LayerTotals(0, 0, rejected, 0, errors, byReason, unknownReasons, byError));
    egress := AddEgress(egressBefore, view, EgressTotals(0, 0, failed, byFailure, 0));
  }

  method AddLayer(before: LayerTotals, plane: seq<PlaneEvent>, counted: LayerTotals) returns (l1: LayerTotals)
    requires counted == LayerOf(plane).(entered := 0, passed := 0, shed := 0)
    ensures l1 == before.Plus(LayerOf(plane))
  {
    l1 := before.Plus(counted);
    if HasPlane(plane, L1Entered) { l1 := l1.(entered := l1.entered + 1); }
    if HasPlane(plane, L1Passed) { l1 := l1.(passed := l1.passed + 1); }
    if HasPlane(plane, L1Shed) { l1 := l1.(shed := l1.shed + 1); }
  }

  method AddEgress(before: EgressTotals, view: View, counted: EgressTotals) returns (egress: EgressTotals)
    requires counted == EgressOf(view).(attempted := 0, responded := 0, failedWithReceipt := 0)
    ensures egress == before.Plus(EgressOf(view))
  {
    egress := before.Plus(counted);
    if HasPlane(view.plane, EgressAttempted) { egress := egress.(attempted := egress.attempted + 1); }
    if HasPlane(view.plane, EgressResponded) { egress := egress.(responded := egress.responded + 1); }
    if ReceivedThere(view.origin) && HasPlane(view.plane, EgressFailed) {
      egress := egress.(failedWithReceipt := egress.failedWithReceipt + 1);
    }
  }

  function Observe(t: InstanceTotals, kind: OriginKind): InstanceTotals
  {
    match kind
    case OriginReceived => t.(received := t.received + 1)
    case OriginCompleted => t.(completed := t.completed + 1)
    case OriginAborted => t.(aborted := t.aborted + 1)
  }

  method CountObservations(events: seq<OriginEvent>)
    returns (guarded: InstanceTotals, control: InstanceTotals, spoofed: nat)
    ensures guarded == InstanceOf(events, ProtectedOrigin) && control == InstanceOf(events, ControlOrigin)
    ensures spoofed == SpoofedSum(events)
  {
    guarded, control, spoofed := NO_INSTANCE, NO_INSTANCE, 0;
    for i := 0 to |events|
      invariant guarded == InstanceOf(events[..i], ProtectedOrigin) && control == InstanceOf(events[..i], ControlOrigin)
      invariant spoofed == SpoofedSum(events[..i])
    {
      assert events[..i + 1][..i] == events[..i];
      spoofed := spoofed + events[i].spoofed;
      if events[i].instance == ProtectedOrigin {
        guarded := Observe(guarded, events[i].kind);
      } else {
        control := Observe(control, events[i].kind);
      }
    }
    assert events[..|events|] == events;
  }

  method AddOrigin(before: OriginTotals, r: Record) returns (origin: OriginTotals)
    ensures origin == before.Plus(OriginOf(r))
  {
    var events := r.view.origin;
    var guarded, control, spoofed := CountObservations(events);
    origin := before.(guarded := before.guarded.Plus(guarded), control := before.control.Plus(control),
      spoofed := before.spoofed + spoofed);
    if r.view.expected == Protected {
      var received := ReceivedThere(events);
      if received && !HasPlane(r.view.plane, EgressAttempted) {
        origin := origin.(withoutL1Pass := origin.withoutL1Pass + 1);
      }
      if received && r.hostile { origin := origin.(residual := origin.residual + multiset{r.scenario}); }
    } else if r.view.expected == PreIngress {
      if |events| > 0 { origin := origin.(withoutL1Pass := origin.withoutL1Pass + 1); }
    }
  }
}
