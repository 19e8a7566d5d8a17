/**
 * Runs at the limits of single use: a proof that a restart lets in twice, and one that a drift of exactly 1000 ms lets
 * in twice without any restart. Each is a run for every request that the gate passes and the Plane approves, at the
 * Boundary.
 */
module HopLimits {
  import opened Base
  import opened Requests
  import opened SemanticRequests
  import opened WireScans
  import opened HopProofs
  import opened HopIssuing
  import opened HopAdmissions
  import opened HopRuns
  import opened HopRestarts
  import opened HopReopenings
  import HopChains
  import ReplayGuards
  import Forms
  import ShapeGates

  /** One issue of the Plane and its delivery. */
  datatype Delivery = Delivery(request: LayerRequest, issuer: Issuer, stamp: Stamp, hop: nat, corr: Text,
    signature: Bytes)

  predicate Honest(cfg: Config, digest: Bytes -> Text, d: Delivery)
  {
    && ShapeGates.Evaluate(d.request) == ShapeGates.Pass && Approve(digest, d.request).Approved?
    && CanIssue(d.issuer, Pb, d.stamp) && 1 <= d.hop <= MAX_SAFE && IsId(d.corr) && Octets(d.signature)
      && |d.signature| == 64
    && cfg.role == Pb && cfg.kidP == d.issuer.kid && cfg.boundaryId == d.issuer.audience
  }

  function ClaimsOf(digest: Bytes -> Text, d: Delivery): Claims
    requires Approve(digest, d.request).Approved?
  {
    IssuePb(d.issuer, Approve(digest, d.request).request, d.stamp, d.hop, d.corr)
  }

  function Issuing(d: Delivery): Event { PlaneIssues(d.request, d.issuer, d.stamp, d.hop, d.corr, d.signature) }

  function HeaderOf(digest: Bytes -> Text, d: Delivery): Text
    requires Approve(digest, d.request).Approved?
  {
    HopChains.SealHeader(ClaimsOf(digest, d), d.signature)
  }

  function WireOf(digest: Bytes -> Text, d: Delivery): Wire
    requires Approve(digest, d.request).Approved?
  {
    var s := Approve(digest, d.request).request;
    Wire(s.verb, s.target, HopHeaders(s, Hop(HeaderOf(digest, d), None, None)))
  }

  function ClearedOf(digest: Bytes -> Text, d: Delivery): Cleared
    requires Approve(digest, d.request).Approved?
  {
    Cleared(ClaimsOf(digest, d), ClaimsOf(digest, d), HeaderOf(digest, d), None)
  }

  /** Once issued, the delivery is cleared at any moment of its window. */
  lemma {:induction false} DeliveryClears(cfg: Config, digest: Bytes -> Text, d: Delivery, signed: set<Signature>,
      now: real)
    requires HopChains.DigestLike(digest) && Honest(cfg, digest, d)
    requires Signature(PlaneKey, PB_DOMAIN + Payload(ClaimsOf(digest, d)), d.signature) in signed
    requires HopChains.InWindow(ClaimsOf(digest, d), now, cfg.fence)
    ensures Screen(cfg, digest, Checks(signed), WireOf(digest, d), now) == Clear(ClearedOf(digest, d))
  {
    var s, c := Approve(digest, d.request).request, ClaimsOf(digest, d);
    var bound := HopChains.GatedIsSemantic(digest, d.request);
    ApprovedShape(s, bound);
    IssuedPbShape(d.issuer, s, d.stamp, d.hop, d.corr);
    var header := HopChains.SealFits(c, bound, d.signature);
    assert header == HeaderOf(digest, d);
    HopChains.BoundaryClears(cfg, digest, Checks(signed), c, bound, d.signature, None, WireOf(digest, d).headers,
      header, now);
  }

  /** The world after the Plane issued the proof. */
  function Opened(cfg: Config, digest: Bytes -> Text, d: Delivery, room: int, began: real): World
    requires Honest(cfg, digest, d)
  {
    Next(cfg, digest, Start(room, began), Issuing(d))
  }

  lemma {:induction false} FirstDelivery(cfg: Config, digest: Bytes -> Text, d: Delivery, room: int, began: real,
      first: real)
    returns (events: seq<Event>)
    requires HopChains.DigestLike(digest) && Honest(cfg, digest, d) && room >= 1
    requires HopChains.InWindow(ClaimsOf(digest, d), first, cfg.fence)
    ensures |events| == 2 && events[0] == Issuing(d) && events[1] == Presents(0, WireOf(digest, d), first, began)
    ensures && Possible(cfg, digest, Start(room, began), events)
            && After(cfg, digest, Start(room, began), events)
               == Presented(cfg, digest, Opened(cfg, digest, d, room, began), 0, WireOf(digest, d), first, began)
            && After(cfg, digest, Start(room, began), events).receipts
              == [Receipt(WireOf(digest, d), ClearedOf(digest, d), first, began)]
  {
    var n, e, f := Opened(cfg, digest, d, room, began), Issuing(d), Presents(0, WireOf(digest, d), first, began);
    DeliveryClears(cfg, digest, d, n.signed, first);
    EmptyGrants(cfg, digest, n, WireOf(digest, d), ClearedOf(digest, d), first);
    events := [e, f];
    TwoEvents(cfg, digest, Start(room, began), e, f);
  }

  /**
   * A run in which a restart lets a proof in twice: presented within the skew ahead of its issue time, before the new
   * fence, and reserved again after a restart whose fence is not after that issue time.
   */
  lemma {:induction false} EarlyProofReopens(cfg: Config, digest: Bytes -> Text, d: Delivery, room: int, began: real,
      first: real, fence: real, mono: real) returns (events: seq<Event>)
    requires HopChains.DigestLike(digest) && Honest(cfg, digest, d) && room >= 1
    requires cfg.fence <= d.stamp.iat as real && (d.stamp.iat - SKEW) as real <= first < fence <= d.stamp.iat as real
    ensures && Possible(cfg, digest, Start(room, began), events)
            && var w := After(cfg, digest, Start(room, began), events);
               && |w.receipts| == 1 && w.receipts[0].cleared.own == w.receipts[0].cleared.pb == ClaimsOf(digest, d)
               && Reserves(cfg.(fence := fence), digest, Restarted(w, room, mono), w.receipts[0].cleared)
  {
    events := FirstDelivery(cfg, digest, d, room, began, first);
    RestartReopensIff(cfg, fence, digest, room, began, events, room, mono, 0);
  }

  // ------------------------------------------------------------------ a drift of 1000 ms

  /** The world after the first delivery was concluded. */
  function Dropped(cfg: Config, digest: Bytes -> Text, w: World): World
    requires 0 in w.waiting
  {
    Concluded(cfg, digest, w, 0, Incomplete, Unchecked)
  }

  lemma {:induction false} SecondReservation(cfg: Config, digest: Bytes -> Text, d: Delivery, room: int, began: real,
      first: real, later: real)
    requires HopChains.DigestLike(digest) && Honest(cfg, digest, d) && room >= 1
    requires HopChains.InWindow(ClaimsOf(digest, d), first, cfg.fence) && later == began + RETAIN_PB as real
    ensures var w := Presented(cfg, digest, Opened(cfg, digest, d, room, began), 0, WireOf(digest, d), first, began);
            && 0 in w.waiting && Dropped(cfg, digest, w).waiting == map[]
              && Dropped(cfg, digest, w).receipts == w.receipts
            && Dropped(cfg, digest, w).signed == Opened(cfg, digest, d, room, began).signed
              && Dropped(cfg, digest, w).mono == began
            && ReplayGuards.Reserve(Dropped(cfg, digest, w).guard, Wants(Pb, ClearedOf(digest, d)), later).1
              == ReplayGuards.Granted
  {
    var n, c := Opened(cfg, digest, d, room, began), ClearedOf(digest, d);
    DeliveryClears(cfg, digest, d, n.signed, first);
    var want := Wants(Pb, c)[0];
    var w := Presented(cfg, digest, n, 0, WireOf(digest, d), first, began);
    var next := Settlement(Finish(digest, c, Incomplete, Unchecked));
    ForgetsAtExpiry(room, want, next, began, later);
    DroppedGuard(cfg, digest, w, c, want, next);
    assert Wants(Pb, c) == [want];
  }

  lemma {:induction false} DroppedGuard(cfg: Config, digest: Bytes -> Text, w: World, c: Cleared,
      want: ReplayGuards.Want, next: ReplayGuards.EntryState)
    requires 0 in w.waiting && w.waiting[0].cleared == c && cfg.role == Pb && Wants(Pb, c) == [want]
    requires next == Settlement(Finish(digest, c, Incomplete, Unchecked))
    ensures Dropped(cfg, digest, w).guard == ReplayGuards.Transit(w.guard, want.key, next)
    ensures Dropped(cfg, digest, w).waiting == w.waiting - {0} && Dropped(cfg, digest, w).receipts == w.receipts
    ensures Dropped(cfg, digest, w).signed == w.signed && Dropped(cfg, digest, w).mono == w.mono
  {
    SameHistory(cfg, digest, w, 0, Incomplete, Unchecked);
    var keys := ReplayGuards.KeysOf([want]);
    assert keys == [want.key];
    assert ReplayGuards.TransitAll(w.guard, keys, next, 0) == w.guard;
  }

  lemma {:induction false} GrantedIsReceipt(cfg: Config, digest: Bytes -> Text, n: World, wire: Wire, c: Cleared,
      now: real, later: real)
    requires n.waiting == map[] && n.mono <= later && Screen(cfg, digest, Checks(n.signed), wire, now) == Clear(c)
    requires ReplayGuards.Reserve(n.guard, Wants(cfg.role, c), later).1 == ReplayGuards.Granted
    ensures Enabled(digest, n, Presents(1, wire, now, later))
    ensures Presented(cfg, digest, n, 1, wire, now, later).receipts == n.receipts + [Receipt(wire, c, now, later)]
  {
  }

  lemma {:induction false} SecondDelivery(cfg: Config, digest: Bytes -> Text, d: Delivery, room: int, began: real,
      w: World, first: real, second: real, later: real) returns (events: seq<Event>)
    requires HopChains.DigestLike(digest) && Honest(cfg, digest, d) && room >= 1 && later == began + RETAIN_PB as real
    requires HopChains.InWindow(ClaimsOf(digest, d), first, cfg.fence)
             && HopChains.InWindow(ClaimsOf(digest, d), second, cfg.fence)
    requires w == Presented(cfg, digest, Opened(cfg, digest, d, room, began), 0, WireOf(digest, d), first, began)
    ensures |events| == 2 && events[0].Concludes? && events[1] == Presents(1, WireOf(digest, d), second, later)
    ensures Possible(cfg, digest, w, events)
            && After(cfg, digest, w, events).receipts
              == w.receipts + [Receipt(WireOf(digest, d), ClearedOf(digest, d), second, later)]
  {
    assert 0 in w.waiting by { SecondReservation(cfg, digest, d, room, began, first, later); }
    var n := Dropped(cfg, digest, w);
    assert n.waiting == map[] && n.receipts == w.receipts && n.mono <= later by {
      SecondReservation(cfg, digest, d, room, began, first, later);
    }
    assert ReplayGuards.Reserve(n.guard, Wants(Pb, ClearedOf(digest, d)), later).1 == ReplayGuards.Granted by {
      SecondReservation(cfg, digest, d, room, began, first, later);
    }
    assert Screen(cfg, digest, Checks(n.signed), WireOf(digest, d), second) == Clear(ClearedOf(digest, d)) by {
      SecondReservation(cfg, digest, d, room, began, first, later);
      DeliveryClears(cfg, digest, d, n.signed, second);
    }
    GrantedIsReceipt(cfg, digest, n, WireOf(digest, d), ClearedOf(digest, d), second, later);
    events := [Concludes(0, Incomplete, Unchecked), Presents(1, WireOf(digest, d), second, later)];
    TwoEvents(cfg, digest, w, events[0], events[1]);
  }

  /** The run is possible and ends with two reservations, both for the delivery's proof. */
  predicate ReservesTwice(cfg: Config, digest: Bytes -> Text, d: Delivery, room: int, began: real, events: seq<Event>)
    requires Approve(digest, d.request).Approved?
  {
    && Possible(cfg, digest, Start(room, began), events)
    && var receipts := After(cfg, digest, Start(room, began), events).receipts;
       |receipts| == 2 && receipts[0].cleared == receipts[1].cleared == ClearedOf(digest, d)
  }

  lemma {:induction false} Twice(cfg: Config, digest: Bytes -> Text, d: Delivery, room: int, began: real,
      a: seq<Event>, b: seq<Event>)
    requires Approve(digest, d.request).Approved? && Possible(cfg, digest, Start(room, began), a)
    requires var w := After(cfg, digest, Start(room, began), a);
             && |w.receipts| == 1 && w.receipts[0].cleared == ClearedOf(digest, d) && Possible(cfg, digest, w, b)
             && var n := After(cfg, digest, w, b);
                |n.receipts| == 2 && n.receipts[0] == w.receipts[0] && n.receipts[1].cleared == ClearedOf(digest, d)
    ensures ReservesTwice(cfg, digest, d, room, began, a + b)
  {
    RunsJoin(cfg, digest, Start(room, began), a, b);
  }

  /** Issue, deliver, drop, deliver again. */
  lemma {:induction false} TwoDeliveries(cfg: Config, digest: Bytes -> Text, d: Delivery, room: int, began: real,
                                         first: real, second: real, later: real) returns (events: seq<Event>)
    requires HopChains.DigestLike(digest) && Honest(cfg, digest, d) && room >= 1 && later == began + RETAIN_PB as real
    requires HopChains.InWindow(ClaimsOf(digest, d), first, cfg.fence)
             && HopChains.InWindow(ClaimsOf(digest, d), second, cfg.fence)
    ensures |events| == 4 && !events[0].Presents? && !events[2].Presents?
    ensures events[1] == Presents(0, WireOf(digest, d), first, began)
            && events[3] == Presents(1, WireOf(digest, d), second, later)
    ensures ReservesTwice(cfg, digest, d, room, began, events)
  {
    var a := FirstDelivery(cfg, digest, d, room, began, first);
    var b := SecondDelivery(cfg, digest, d, room, began, After(cfg, digest, Start(room, began), a), first, second,
      later);
    Twice(cfg, digest, d, room, began, a, b);
    events := a + b;
  }

  /** The clocks of a run drift apart by this much and no more. */
  ghost predicate Apart(events: seq<Event>, drift: real)
  {
    && (forall i, j :: 0 <= i < |events| && 0 <= j < |events| && events[i].Presents? && events[j].Presents? ==>
          Offset(events[i]) - Offset(events[j]) <= drift)
    && (exists i, j :: 0 <= i < |events| && 0 <= j < |events| && events[i].Presents? && events[j].Presents?
                       && Offset(events[i]) - Offset(events[j]) == drift)
  }

  lemma {:induction false} TwoPresentations(events: seq<Event>, first: real, second: real, began: real, later: real)
    requires |events| == 4 && !events[0].Presents? && !events[2].Presents? && events[1].Presents? && events[3].Presents?
    requires Offset(events[1]) == first - began && Offset(events[3]) == second - later
             && first - began == second - later + 1000.0
    ensures Apart(events, 1000.0)
  {
    assert Offset(events[1]) - Offset(events[3]) == 1000.0;
  }

  lemma {:induction false} AtBothEnds(digest: Bytes -> Text, d: Delivery, fence: real)
    requires Approve(digest, d.request).Approved? && d.issuer.lifetime == PB_MAX_LIFETIME
             && fence <= d.stamp.iat as real
    ensures HopChains.InWindow(ClaimsOf(digest, d), (d.stamp.iat - SKEW) as real, fence)
    ensures HopChains.InWindow(ClaimsOf(digest, d), (d.stamp.iat + PB_MAX_LIFETIME + SKEW) as real, fence)
  {
  }

  /**
   * A run without any restart whose clocks drift apart by exactly 1000 ms, no more, and in which a proof is reserved
   * twice: the bound of `HopRuns.OncePerProof` is tight.
   */
  lemma {:induction false} DriftBoundIsTight(cfg: Config, digest: Bytes -> Text, d: Delivery, room: int, began: real)
    returns (events: seq<Event>)
    requires HopChains.DigestLike(digest) && Honest(cfg, digest, d) && room >= 1 && cfg.fence <= d.stamp.iat as real
    requires d.issuer.lifetime == PB_MAX_LIFETIME
    ensures Apart(events, 1000.0)
    ensures ReservesTwice(cfg, digest, d, room, began, events)
  {
    var first, second := (d.stamp.iat - SKEW) as real, (d.stamp.iat + PB_MAX_LIFETIME + SKEW) as real;
    assert HopChains.InWindow(ClaimsOf(digest, d), first, cfg.fence)
           && HopChains.InWindow(ClaimsOf(digest, d), second, cfg.fence) by {
      AtBothEnds(digest, d, cfg.fence);
    }
    events := TwoDeliveries(cfg, digest, d, room, began, first, second, began + RETAIN_PB as real);
    TwoPresentations(events, first, second, began, began + RETAIN_PB as real);
  }

  // ------------------------------------------------------------------ a concrete delivery

  /** A request for the home page. */
  function Visit(): LayerRequest { LayerRequest(GET, ShapeGates.HOME, [Header(HOST, T("a"))], NoBody, None) }

  lemma {:induction false} HomeIsFine()
    ensures ShapeGates.TargetFault(GET, ShapeGates.HOME) == None
  {
    assert ShapeGates.HOME == [ShapeGates.SLASH];
    assert Forms.Find(ShapeGates.HOME, ShapeGates.QUESTION) == 1;
    assert ShapeGates.PathOf(ShapeGates.HOME) == ShapeGates.HOME;
    assert !ShapeGates.DotSegment(ShapeGates.HOME, 1) by { assert |ShapeGates.HOME[1..1]| == 0; }
    assert Forms.FindFrom(ShapeGates.HOME, ShapeGates.SLASH, 0) == 0;
    assert |ShapeGates.HOME[0..0]| == 0;
  }

  lemma {:induction false} HostIsFine(headers: seq<Header>)
    requires headers == [Header(HOST, T("a"))]
    ensures ShapeGates.HeadersFault(headers) == None
  {
    LowerIsSelf(HOST);
    assert ShapeGates.HeaderBytes(headers, 0) == 0;
    assert ShapeGates.HeaderFault(headers, 1) == None;
    assert ShapeGates.IsHost(T("a")) by {
      assert T("a")[..1] == T("a") && T("a")[1..] == [];
      assert ShapeGates.IsHostName(T("a")[..1]) && ShapeGates.IsPort(T("a")[1..]);
    }
    assert ShapeGates.Named(headers, HOST, 0) == [];
    assert ShapeGates.Named(headers, HOST, 1) == [T("a")];
  }

  lemma {:induction false} NoFramingNeeded(headers: seq<Header>)
    requires headers == [Header(HOST, T("a"))]
    ensures ShapeGates.FramingFine(headers) && ShapeGates.DeclaredLength(headers) == None
  {
    LowerIsSelf(HOST);
    assert |HOST| == 4 && |CONTENT_LENGTH| == 14 && |ShapeGates.TRANSFER_ENCODING| == 17;
    assert ShapeGates.Named(headers, ShapeGates.TRANSFER_ENCODING, 0) == []
           && ShapeGates.Named(headers, CONTENT_LENGTH, 0) == [];
  }

  lemma {:induction false} VisitPasses()
    ensures ShapeGates.Evaluate(Visit()) == ShapeGates.Pass
  {
    HomeIsFine();
    HostIsFine(Visit().headers);
    NoFramingNeeded(Visit().headers);
  }

  lemma {:induction false} VisitIsApproved(digest: Bytes -> Text)
    ensures Approve(digest, Visit()).Approved?
  {
    var tags := Tags(Visit().headers);
    BoundTag(HOST, T("a"));
    assert tags[0] == TagOf(Header(HOST, T("a")));
    assert PrintedFrom(T("a"), 1);
    CanonicalIsStable(T("a"));
    assert GatherTo(tags, 0) == Gathered(map[], [], [], 0);
    NamesDiffer();
    assert GatherTo(tags, 1).bound == map[HOST := T("a")];
  }

  /** The home page's visit, issued at 10 seconds under identifiers of all `A`. */
  function Visiting(): Delivery
  {
    Delivery(Visit(), Issuer(T("k"), T("AAAAAAAAAAAAAAAAAAAAAA"), PB_MAX_LIFETIME),
      Stamp(10_000, T("AAAAAAAAAAAAAAAAAAAAAA")), 1,
             T("AAAAAAAAAAAAAAAAAAAAAA"), NoSignature())
  }

  function Site(): Config { Config(Pb, T("k"), T("k"), T("AAAAAAAAAAAAAAAAAAAAAA"), T("AAAAAAAAAAAAAAAAAAAAAA"), 0.0) }

  lemma {:induction false} VisitingIsHonest(digest: Bytes -> Text)
    ensures Honest(Site(), digest, Visiting())
  {
    VisitPasses();
    VisitIsApproved(digest);
    PlainIds();
  }

  lemma {:induction false} PlainIds()
    ensures CanIssue(Visiting().issuer, Pb, Visiting().stamp) && IsId(Visiting().corr)
  {
  }

  /** One such run: accepted at 9.5 seconds, restarted with its fence at 9.7 seconds, reserved again. */
  lemma {:induction false} RestartReservesTwice(digest: Bytes -> Text) returns (events: seq<Event>)
    requires HopChains.DigestLike(digest)
    ensures Possible(Site(), digest, Start(1, 0.0), events)
    ensures var w := After(Site(), digest, Start(1, 0.0), events);
            |w.receipts| == 1 && Reserves(Site().(fence := 9_700.0), digest, Restarted(w, 1, 0.0),
              w.receipts[0].cleared)
  {
    VisitingIsHonest(digest);
    events := EarlyProofReopens(Site(), digest, Visiting(), 1, 0.0, 9_500.0, 9_700.0, 0.0);
  }
}
