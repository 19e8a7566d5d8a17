/**
 * What a restarted verifier accepts again: the exact condition, for a reservation's own two proofs and for its Plane
 * proof alone, over the runs that can follow the restart (defense/core/hop-admission.ts, defense/core/replay-guard.ts).
 */
module HopReopenings {
  import opened Base
  import opened Decimals
  import opened SemanticRequests
  import opened WireScans
  import opened HopProofs
  import opened HopEnvelopes
  import opened HopSizes
  import opened HopAdmissions
  import opened HopRuns
  import opened HopRestarts
  import HopChains
  import HopIssuing
  import ReplayGuards

  // ------------------------------------------------------------------ a reservation can be replayed to the checks

  /** The same wire would pass the same checks at the same moment again. */
  ghost predicate Rescreens(cfg: Config, digest: Bytes -> Text, signed: set<Signature>, r: Receipt)
  {
    Screen(cfg, digest, Checks(signed), r.wire, r.wall) == Clear(r.cleared)
  }

  ghost predicate Replayable(cfg: Config, digest: Bytes -> Text, w: World)
  {
    forall k :: 0 <= k < |w.receipts| ==> Rescreens(cfg, digest, w.signed, w.receipts[k])
  }

  lemma {:induction false} MoreSignedUpstream(cfg: Config, digest: Bytes -> Text, some: set<Signature>,
      more: set<Signature>, own: Claims, pbHeader: Text, now: real)
    requires some <= more && Upstream(cfg, digest, Checks(some), own, pbHeader, now).1.Some?
    ensures Upstream(cfg, digest, Checks(more), own, pbHeader, now)
            == Upstream(cfg, digest, Checks(some), own, pbHeader, now)
  {
  }

  /** More signatures in the world refuse nothing that was cleared. */
  lemma {:induction false} MoreSigned(cfg: Config, digest: Bytes -> Text, some: set<Signature>, more: set<Signature>,
      r: Receipt)
    requires some <= more && Rescreens(cfg, digest, some, r)
    ensures Rescreens(cfg, digest, more, r)
  {
    var scan := Scan(r.wire.headers, r.wire.verb);
    var d := DecodeProof(OwnProofs(cfg.role, scan)[0], cfg.role).value;
    if cfg.role == Ba { MoreSignedUpstream(cfg, digest, some, more, d.claims, scan.pb[0], r.wall); }
  }

  lemma {:induction false} PresentReplays(cfg: Config, digest: Bytes -> Text, w: World, id: nat, wire: Wire,
      wall: real, mono: real)
    requires Replayable(cfg, digest, w)
    ensures Replayable(cfg, digest, Presented(cfg, digest, w, id, wire, wall, mono))
  {
    var (g, begun) := Begin(cfg, digest, Checks(w.signed), w.guard, wire, wall, mono);
    if begun.Waiting? {
      BegunIsCleared(cfg, digest, Checks(w.signed), w.guard, wire, wall, mono);
      assert Rescreens(cfg, digest, w.signed, Receipt(wire, begun.cleared, wall, mono));
    }
  }

  lemma {:induction false} SignsReplay(cfg: Config, digest: Bytes -> Text, w: World, n: World)
    requires Replayable(cfg, digest, w) && n.receipts == w.receipts && w.signed <= n.signed
    ensures Replayable(cfg, digest, n)
  {
    forall k | 0 <= k < |n.receipts| ensures Rescreens(cfg, digest, n.signed, n.receipts[k]) {
      MoreSigned(cfg, digest, w.signed, n.signed, w.receipts[k]);
    }
  }

  lemma {:induction false} NextReplays(cfg: Config, digest: Bytes -> Text, w: World, e: Event)
    requires Replayable(cfg, digest, w) && Enabled(digest, w, e)
    ensures Replayable(cfg, digest, Next(cfg, digest, w, e))
  {
    var n := Next(cfg, digest, w, e);
    if e.Presents? {
      PresentReplays(cfg, digest, w, e.id, e.wire, e.wall, e.mono);
    } else {
      assert n.receipts == w.receipts && w.signed <= n.signed;
      SignsReplay(cfg, digest, w, n);
    }
  }

  lemma {:induction false} RunReplays(cfg: Config, digest: Bytes -> Text, w: World, events: seq<Event>)
    requires Replayable(cfg, digest, w) && Possible(cfg, digest, w, events)
    ensures Replayable(cfg, digest, After(cfg, digest, w, events))
    decreases |events|
  {
    if events != [] {
      NextReplays(cfg, digest, w, events[0]);
      RunReplays(cfg, digest, Next(cfg, digest, w, events[0]), events[1..]);
    }
  }

  /** Only the windows depend on the moment and on the fence. */
  lemma {:induction false} LaterScreens(cfg: Config, fence: real, digest: Bytes -> Text, signed: set<Signature>,
      r: Receipt, now: real)
    requires Rescreens(cfg, digest, signed, r)
    requires CheckWindow(r.cleared.own, cfg.(fence := fence).Own(), now) == None
    requires CheckWindow(r.cleared.pb, cfg.(fence := fence).Upstream(), now) == None
    ensures Screen(cfg.(fence := fence), digest, Checks(signed), r.wire, now) == Clear(r.cleared)
  {
    var scan := Scan(r.wire.headers, r.wire.verb);
    var d := DecodeProof(OwnProofs(cfg.role, scan)[0], cfg.role).value;
    if cfg.role == Ba { LaterUpstream(cfg, fence, digest, Checks(signed), d.claims, scan.pb[0], r.wall, now); }
  }

  lemma {:induction false} LaterUpstream(cfg: Config, fence: real, digest: Bytes -> Text, verify: Verify, own: Claims,
      pbHeader: Text, first: real, now: real)
    requires Upstream(cfg, digest, verify, own, pbHeader, first).1.Some?
    requires CheckWindow(Upstream(cfg, digest, verify, own, pbHeader, first).1.value, cfg.(fence := fence).Upstream(),
             now) == None
    ensures Upstream(cfg.(fence := fence), digest, verify, own, pbHeader, now)
            == Upstream(cfg, digest, verify, own, pbHeader, first)
  {
  }

  // ------------------------------------------------------------------ room

  /** How many keys one admission reserves. */
  function Keys(role: Role): nat { if role == Pb then 1 else 2 }

  ghost predicate Roomy(cfg: Config, capacity: int, w: World)
  {
    w.guard.capacity == capacity && (w.receipts != [] ==> capacity >= Keys(cfg.role))
  }

  lemma {:induction false} ReserveNeedsRoom(g: ReplayGuards.Guard, wants: seq<ReplayGuards.Want>, now: real)
    ensures ReplayGuards.Reserve(g, wants, now).0.capacity == g.capacity
    ensures ReplayGuards.Reserve(g, wants, now).1 == ReplayGuards.Granted ==> |wants| <= g.capacity
  {
  }

  lemma {:induction false} TransitKeepsCapacity(g: ReplayGuards.Guard, keys: seq<Text>, next: ReplayGuards.EntryState,
      n: nat)
    requires n <= |keys|
    ensures ReplayGuards.TransitAll(g, keys, next, n).capacity == g.capacity
  {
    if n > 0 {
      TransitKeepsCapacity(g, keys, next, n - 1);
    }
  }

  lemma {:induction false} NextRoomy(cfg: Config, digest: Bytes -> Text, capacity: int, w: World, e: Event)
    requires Roomy(cfg, capacity, w) && Enabled(digest, w, e)
    ensures Roomy(cfg, capacity, Next(cfg, digest, w, e))
  {
    match e
    case PlaneIssues(_, _, _, _, _, _) =>
      var n := Next(cfg, digest, w, e);
      assert n.guard == w.guard && n.receipts == w.receipts;
    case BoundarySigns(_, _) =>
    case Presents(id, wire, wall, mono) =>
      var screened := Screen(cfg, digest, Checks(w.signed), wire, wall);
      if screened.Clear? { ReserveNeedsRoom(w.guard, Wants(cfg.role, screened.cleared), mono); }
    case Concludes(id, read, cross) =>
      var c := w.waiting[id].cleared;
      var keys := ReplayGuards.KeysOf(Wants(cfg.role, c));
      TransitKeepsCapacity(w.guard, keys, Settlement(Finish(digest, c, read, cross)), |keys|);
      SameHistory(cfg, digest, w, id, read, cross);
  }

  lemma {:induction false} RunRoomy(cfg: Config, digest: Bytes -> Text, capacity: int, w: World, events: seq<Event>)
    requires Roomy(cfg, capacity, w) && Possible(cfg, digest, w, events)
    ensures Roomy(cfg, capacity, After(cfg, digest, w, events))
    decreases |events|
  {
    if events != [] {
      NextRoomy(cfg, digest, capacity, w, events[0]);
      RunRoomy(cfg, digest, capacity, Next(cfg, digest, w, events[0]), events[1..]);
    }
  }

  // ------------------------------------------------------------------ one presentation after the restart

  predicate AtOrAfter(fence: real, events: seq<Event>)
  {
    forall i :: 0 <= i < |events| && events[i].Presents? ==> events[i].wall >= fence
  }

  /** A cleared request is granted its reservation by an empty guard with room. */
  lemma {:induction false} EmptyGrants(cfg: Config, digest: Bytes -> Text, w: World, wire: Wire, c: Cleared, now: real)
    requires w.waiting == map[] && w.receipts == [] && w.guard == ReplayGuards.Empty(w.guard.capacity)
             && w.guard.capacity >= Keys(cfg.role)
    requires Screen(cfg, digest, Checks(w.signed), wire, now) == Clear(c)
    ensures Enabled(digest, w, Presents(0, wire, now, w.mono))
    ensures Presented(cfg, digest, w, 0, wire, now, w.mono).receipts == [Receipt(wire, c, now, w.mono)]
  {
    HopChains.KeysDiffer(cfg.role, c);
    HopChains.FreshIsGranted(w.guard, Wants(cfg.role, c), w.mono);
  }

  lemma {:induction false} OneEvent(cfg: Config, digest: Bytes -> Text, w: World, e: Event)
    requires Enabled(digest, w, e)
    ensures Possible(cfg, digest, w, [e]) && After(cfg, digest, w, [e]) == Next(cfg, digest, w, e)
  {
    assert [e][1..] == [];
  }

  lemma {:induction false} TwoEvents(cfg: Config, digest: Bytes -> Text, w: World, e: Event, f: Event)
    requires Enabled(digest, w, e) && Enabled(digest, Next(cfg, digest, w, e), f)
    ensures Possible(cfg, digest, w, [e, f])
    ensures After(cfg, digest, w, [e, f]) == Next(cfg, digest, Next(cfg, digest, w, e), f)
  {
    assert [e, f][1..] == [f];
    OneEvent(cfg, digest, Next(cfg, digest, w, e), f);
  }

  lemma {:induction false} RunsJoin(cfg: Config, digest: Bytes -> Text, w: World, a: seq<Event>, b: seq<Event>)
    requires Possible(cfg, digest, w, a) && Possible(cfg, digest, After(cfg, digest, w, a), b)
    ensures Possible(cfg, digest, w, a + b) && After(cfg, digest, w, a + b)
            == After(cfg, digest, After(cfg, digest, w, a), b)
    decreases |a|
  {
    if a == [] {
      assert a + b == b;
    } else {
      assert (a + b)[0] == a[0] && (a + b)[1..] == a[1..] + b;
      RunsJoin(cfg, digest, Next(cfg, digest, w, a[0]), a[1..], b);
    }
  }

  // ------------------------------------------------------------------ the reservation's own proofs

  /** Some run from `w`, at or after the fence, reserves for these two proofs. */
  ghost predicate Reserves(cfg: Config, digest: Bytes -> Text, w: World, c: Cleared)
  {
    exists events :: Possible(cfg, digest, w, events) && AtOrAfter(cfg.fence, events)
                     && HasProofs(After(cfg, digest, w, events).receipts, c)
  }

  predicate HasProofs(receipts: seq<Receipt>, c: Cleared)
  {
    exists j :: 0 <= j < |receipts| && receipts[j].cleared.own == c.own && receipts[j].cleared.pb == c.pb
  }

  /** Neither proof was issued before the fence. */
  predicate Unfenced(c: Cleared, fence: real) { c.own.iat as real >= fence && c.pb.iat as real >= fence }

  /**
   * Two windows that met before the restart meet again after it, at their common end, when neither proof is before the
   * fence.
   */
  lemma {:induction false} WindowsMeet(c: Cleared, own: Verifier, upstream: Verifier, first: real, fence: real)
    requires CheckWindow(c.own, own, first) == None && CheckWindow(c.pb, upstream, first) == None && Unfenced(c, fence)
    ensures var now := (Min(c.own.exp, c.pb.exp) + SKEW) as real;
            && now >= fence
            && CheckWindow(c.own, own.(fence := fence), now) == None
              && CheckWindow(c.pb, upstream.(fence := fence), now) == None
  {
  }

  lemma {:induction false} ReopensWhenUnfenced(cfg: Config, fence: real, digest: Bytes -> Text, w: World,
      capacity: int, mono: real, i: nat)
    requires Traced(cfg, digest, w) && Replayable(cfg, digest, w) && i < |w.receipts|
    requires capacity >= Keys(cfg.role) && Unfenced(w.receipts[i].cleared, fence)
    ensures Reserves(cfg.(fence := fence), digest, Restarted(w, capacity, mono), w.receipts[i].cleared)
  {
    var r, c, s := w.receipts[i], cfg.(fence := fence), Restarted(w, capacity, mono);
    var now := (Min(r.cleared.own.exp, r.cleared.pb.exp) + SKEW) as real;
    assert Backed(cfg, w.issued, r);
    WindowsMeet(r.cleared, cfg.Own(), cfg.Upstream(), r.wall, fence);
    assert Rescreens(cfg, digest, w.signed, r);
    LaterScreens(cfg, fence, digest, w.signed, r, now);
    EmptyGrants(c, digest, s, r.wire, r.cleared, now);
    var e := Presents(0, r.wire, now, mono);
    OneEvent(c, digest, s, e);
    assert HasProofs(After(c, digest, s, [e]).receipts, r.cleared) by {
      assert After(c, digest, s, [e]).receipts[0].cleared == r.cleared;
    }
    assert AtOrAfter(fence, [e]);
  }

  lemma {:induction false} BackedIsUnfenced(cfg: Config, issued: seq<Issue>, r: Receipt)
    requires Backed(cfg, issued, r)
    ensures Unfenced(r.cleared, cfg.fence)
  {
  }

  lemma {:induction false} ReopensOnlyUnfenced(cfg: Config, digest: Bytes -> Text, w: World, c: Cleared,
      events: seq<Event>)
    requires Digests(digest) && Traced(cfg, digest, w) && Roomy(cfg, w.guard.capacity, w)
             && Possible(cfg, digest, w, events)
    requires HasProofs(After(cfg, digest, w, events).receipts, c)
    ensures Unfenced(c, cfg.fence) && w.guard.capacity >= Keys(cfg.role)
  {
    var n := After(cfg, digest, w, events);
    RunIsTraced(cfg, digest, w, events);
    RunRoomy(cfg, digest, w.guard.capacity, w, events);
    var j :| 0 <= j < |n.receipts| && n.receipts[j].cleared.own == c.own && n.receipts[j].cleared.pb == c.pb;
    BackedIsUnfenced(cfg, n.issued, n.receipts[j]);
  }

  /**
   * A verifier that restarts with an empty guard can be made to reserve again for a reservation's own two proofs
   * exactly when neither of them was issued before the new fence and the guard has room for an admission. At the App
   * both proofs meet the fence.
   */
  lemma {:induction false} RestartReopensIff(cfg: Config, fence: real, digest: Bytes -> Text, room: int, began: real,
      events: seq<Event>, capacity: int, mono: real, i: nat)
    requires Digests(digest) && Possible(cfg, digest, Start(room, began), events)
    requires i < |After(cfg, digest, Start(room, began), events).receipts|
    ensures var w := After(cfg, digest, Start(room, began), events);
            Reserves(cfg.(fence := fence), digest, Restarted(w, capacity, mono), w.receipts[i].cleared)
            <==> Unfenced(w.receipts[i].cleared, fence) && capacity >= Keys(cfg.role)
  {
    var w, c := After(cfg, digest, Start(room, began), events), cfg.(fence := fence);
    RunIsTraced(cfg, digest, Start(room, began), events);
    RunReplays(cfg, digest, Start(room, began), events);
    var s := Restarted(w, capacity, mono);
    if Unfenced(w.receipts[i].cleared, fence) && capacity >= Keys(cfg.role) {
      ReopensWhenUnfenced(cfg, fence, digest, w, capacity, mono, i);
    }
    if Reserves(c, digest, s, w.receipts[i].cleared) {
      var later :| Possible(c, digest, s, later)
        && HasProofs(After(c, digest, s, later).receipts, w.receipts[i].cleared);
      RestartIsTraced(cfg, fence, digest, w, capacity, mono);
      ReopensOnlyUnfenced(c, digest, s, w.receipts[i].cleared, later);
    }
  }

  // ------------------------------------------------------------------ the Plane proof alone

  /** Some run from `w`, at or after the fence, reserves for this Plane proof, at the App under any Boundary proof. */
  ghost predicate ReservesPlane(cfg: Config, digest: Bytes -> Text, w: World, pb: Claims)
  {
    exists events :: Possible(cfg, digest, w, events) && AtOrAfter(cfg.fence, events)
                     && HasPlaneProof(After(cfg, digest, w, events).receipts, pb)
  }

  predicate HasPlaneProof(receipts: seq<Receipt>, pb: Claims)
  {
    exists j :: 0 <= j < |receipts| && receipts[j].cleared.pb == pb
  }

  /** A Boundary proof that commits to a verified Plane proof, issued when that one was. */
  function Renewed(cfg: Config, digest: Bytes -> Text, pb: Claims, pbHeader: Text): Claims
  {
    Claims(cfg.kidB, cfg.appId, pb.iat, pb.iat + 1, pb.jti, pb.hop, pb.corr, pb.request,
      Some(Lineage(pb.jti, digest(pbHeader))))
  }

  function NoSignature(): (octets: Bytes)
    ensures Octets(octets) && |octets| == 64
  {
    seq(64, i => 0)
  }

  /** Whatever fits as a Plane proof fits as a Boundary proof that repeats it. */
  lemma {:induction false} RenewedFits(pb: Claims, ba: Claims)
    requires Shape(pb) && Shape(ba) && RoleOf(pb) == Pb && RoleOf(ba) == Ba
    requires ba.request == pb.request && ba.hop == pb.hop && ba.iat == pb.iat && PayloadSize(pb) <= PayloadMax(Pb)
    ensures PayloadSize(ba) <= PayloadMax(Ba)
  {
    SafeLength(ba.exp);
  }

  /** The header that a Boundary puts on it. */
  lemma {:induction false} RenewedHeader(pb: Claims, ba: Claims, pbHeader: Text, d: Decoded) returns (baHeader: Text)
    requires DecodeProof(pbHeader, Pb) == Good(d) && d.claims == pb
    requires Shape(ba) && RoleOf(ba) == Ba && ba.request == pb.request && ba.hop == pb.hop && ba.iat == pb.iat
    ensures DecodeProof(baHeader, Ba) == Good(Decoded(ba, Payload(ba), NoSignature()))
  {
    AcceptedIsSealed(pbHeader, Pb, d);
    FitsExactly(pb, d.signature);
    RenewedFits(pb, ba);
    PayloadIsOctets(ba);
    FitsExactly(ba, NoSignature());
    baHeader := Envelope(Payload(ba), NoSignature());
    SealedIsAccepted(baHeader, Ba, Decoded(ba, Payload(ba), NoSignature()));
  }

  /** What a reservation at the App shows of its two proofs. */
  lemma {:induction false} ReceiptAtApp(cfg: Config, digest: Bytes -> Text, signed: set<Signature>, r: Receipt)
    returns (d: Decoded)
    requires cfg.role == Ba && Rescreens(cfg, digest, signed, r)
    ensures DecodeProof(r.cleared.pbHeader, Pb) == Good(d)
            && d == Decoded(r.cleared.pb, Payload(r.cleared.pb), d.signature)
    ensures Checks(signed)(PlaneKey, PB_DOMAIN + d.payload, d.signature)
    ensures Shape(r.cleared.pb) && Shape(r.cleared.own) && RoleOf(r.cleared.pb) == Pb
    ensures CheckWindow(r.cleared.own, cfg.Own(), r.wall) == None
            && CheckWindow(r.cleared.pb, cfg.Upstream(), r.wall) == None
  {
    ClearedMeans(cfg, digest, Checks(signed), r.wire, r.wall, r.cleared);
    d := DecodeProof(r.cleared.pbHeader, Pb).value;
    AcceptedIsSealed(r.cleared.pbHeader, Pb, d);
    var header :| Vouched(Checks(signed), cfg.OwnKey(), cfg.role, header, r.cleared.own);
    AcceptedIsSealed(header, cfg.role, DecodeProof(header, cfg.role).value);
  }

  lemma {:induction false} RenewedIsShaped(cfg: Config, digest: Bytes -> Text, r: Receipt)
    requires Digests(digest) && cfg.role == Ba && Shape(r.cleared.pb) && Shape(r.cleared.own)
    requires CheckWindow(r.cleared.own, cfg.Own(), r.wall) == None
             && CheckWindow(r.cleared.pb, cfg.Upstream(), r.wall) == None
    ensures Shape(Renewed(cfg, digest, r.cleared.pb, r.cleared.pbHeader))
            && RoleOf(Renewed(cfg, digest, r.cleared.pb, r.cleared.pbHeader)) == Ba
  {
  }

  /** The wire on which a Boundary carries a Plane proof to the App again, under a new proof of its own. */
  lemma {:induction false} RenewedClears(cfg: Config, fence: real, digest: Bytes -> Text, w: World, r: Receipt)
    returns (wire: Wire, ba: Claims)
    requires Digests(digest) && Traced(cfg, digest, w) && cfg.role == Ba && Backed(cfg, w.issued, r)
             && Rescreens(cfg, digest, w.signed, r)
    requires r.cleared.pb.iat as real >= fence
    ensures var signed := w.signed + {Signature(BoundaryKey, BA_DOMAIN + Payload(ba), NoSignature())};
            Screen(cfg.(fence := fence), digest, Checks(signed), wire, r.cleared.pb.iat as real)
            == Clear(Cleared(ba, r.cleared.pb, r.cleared.pbHeader, None))
  {
    var pb, pbHeader := r.cleared.pb, r.cleared.pbHeader;
    var d := ReceiptAtApp(cfg, digest, w.signed, r);
    ba := Renewed(cfg, digest, pb, pbHeader);
    RenewedIsShaped(cfg, digest, r);
    var baHeader := RenewedHeader(pb, ba, pbHeader, d);
    var k :| 0 <= k < |w.issued| && w.issued[k].claims == pb;
    assert IssuedWell(digest, w.issued[k]);
    var bound := ApprovedIsSemantic(digest, w.issued[k].request, pb.request);
    var headers := HopHeaders(pb.request, Hop(pbHeader, Some(baHeader), None));
    wire := Wire(pb.request.verb, pb.request.target, headers);
    var signed := w.signed + {Signature(BoundaryKey, BA_DOMAIN + Payload(ba), NoSignature())};
    HopChains.AppClears(cfg.(fence := fence), digest, Checks(signed), pb, ba, bound, d.signature, NoSignature(), None,
      headers, pbHeader, baHeader,
                        pb.iat as real);
  }

  /** A compromised Boundary signs a message, and a wire that this clears is presented. */
  lemma {:induction false} SignThenPresent(cfg: Config, digest: Bytes -> Text, s: World, message: Bytes, wire: Wire,
      c: Cleared, now: real)
    requires s.waiting == map[] && s.receipts == [] && s.guard == ReplayGuards.Empty(s.guard.capacity)
             && s.guard.capacity >= Keys(cfg.role)
    requires Screen(cfg, digest, Checks(s.signed + {Signature(BoundaryKey, message, NoSignature())}), wire, now)
             == Clear(c)
    requires now >= cfg.fence
    ensures ReservesPlane(cfg, digest, s, c.pb)
  {
    var signs := BoundarySigns(message, NoSignature());
    assert Enabled(digest, s, signs);
    var n := Next(cfg, digest, s, signs);
    assert n == s.(signed := s.signed + {Signature(BoundaryKey, message, NoSignature())});
    ThenPresents(cfg, digest, s, signs, n, wire, c, now);
  }

  lemma {:induction false} ThenPresents(cfg: Config, digest: Bytes -> Text, s: World, e: Event, n: World, wire: Wire,
      c: Cleared, now: real)
    requires Enabled(digest, s, e) && !e.Presents? && n == Next(cfg, digest, s, e)
    requires n.waiting == map[] && n.receipts == [] && n.guard == ReplayGuards.Empty(n.guard.capacity)
             && n.guard.capacity >= Keys(cfg.role)
    requires Screen(cfg, digest, Checks(n.signed), wire, now) == Clear(c) && now >= cfg.fence
    ensures ReservesPlane(cfg, digest, s, c.pb)
  {
    var presents := Presents(0, wire, now, n.mono);
    EmptyGrants(cfg, digest, n, wire, c, now);
    var reached := Next(cfg, digest, n, presents);
    assert reached == Presented(cfg, digest, n, 0, wire, now, n.mono);
    assert reached.receipts[0].cleared.pb == c.pb;
    TwoEvents(cfg, digest, s, e, presents);
    TwoReserve(cfg, digest, s, e, presents, c.pb);
  }

  lemma {:induction false} TwoReserve(cfg: Config, digest: Bytes -> Text, s: World, e: Event, f: Event, pb: Claims)
    requires Possible(cfg, digest, s, [e, f]) && !e.Presents? && f.Presents? && f.wall >= cfg.fence
    requires HasPlaneProof(After(cfg, digest, s, [e, f]).receipts, pb)
    ensures ReservesPlane(cfg, digest, s, pb)
  {
    assert AtOrAfter(cfg.fence, [e, f]);
  }

  lemma {:induction false} ReopensPlaneAtApp(cfg: Config, fence: real, digest: Bytes -> Text, w: World, capacity: int,
      mono: real, i: nat)
    requires Digests(digest) && Traced(cfg, digest, w) && Replayable(cfg, digest, w) && i < |w.receipts|
    requires cfg.role == Ba && capacity >= 2 && w.receipts[i].cleared.pb.iat as real >= fence
    ensures ReservesPlane(cfg.(fence := fence), digest, Restarted(w, capacity, mono), w.receipts[i].cleared.pb)
  {
    var r, c, s := w.receipts[i], cfg.(fence := fence), Restarted(w, capacity, mono);
    assert Backed(cfg, w.issued, r) && Rescreens(cfg, digest, w.signed, r);
    var wire, ba := RenewedClears(cfg, fence, digest, w, r);
    SignThenPresent(c, digest, s, BA_DOMAIN + Payload(ba), wire, Cleared(ba, r.cleared.pb, r.cleared.pbHeader, None),
      r.cleared.pb.iat as real);
  }

  lemma {:induction false} BothMeansPlane(cfg: Config, digest: Bytes -> Text, w: World, c: Cleared)
    requires Reserves(cfg, digest, w, c)
    ensures ReservesPlane(cfg, digest, w, c.pb)
  {
    var events :| Possible(cfg, digest, w, events) && AtOrAfter(cfg.fence, events)
      && HasProofs(After(cfg, digest, w, events).receipts, c);
    var receipts := After(cfg, digest, w, events).receipts;
    var j :| 0 <= j < |receipts| && receipts[j].cleared.own == c.own && receipts[j].cleared.pb == c.pb;
    assert HasPlaneProof(receipts, c.pb);
  }

  lemma {:induction false} PlaneReopensOnlyUnfenced(cfg: Config, digest: Bytes -> Text, w: World, pb: Claims,
      events: seq<Event>)
    requires Digests(digest) && Traced(cfg, digest, w) && Roomy(cfg, w.guard.capacity, w)
             && Possible(cfg, digest, w, events)
    requires HasPlaneProof(After(cfg, digest, w, events).receipts, pb)
    ensures pb.iat as real >= cfg.fence && w.guard.capacity >= Keys(cfg.role)
  {
    var n := After(cfg, digest, w, events);
    RunIsTraced(cfg, digest, w, events);
    RunRoomy(cfg, digest, w.guard.capacity, w, events);
    var j :| 0 <= j < |n.receipts| && n.receipts[j].cleared.pb == pb;
    BackedIsUnfenced(cfg, n.issued, n.receipts[j]);
  }

  /**
   * For the Plane proof alone the condition is its own issue time: at the App, where a Boundary can sign a new proof
   * that commits to it, and at the Boundary alike.
   */
  lemma {:induction false} PlaneProofReopensIff(cfg: Config, fence: real, digest: Bytes -> Text, room: int,
      began: real, events: seq<Event>, capacity: int, mono: real, i: nat)
    requires Digests(digest) && Possible(cfg, digest, Start(room, began), events)
    requires i < |After(cfg, digest, Start(room, began), events).receipts|
    ensures var w := After(cfg, digest, Start(room, began), events);
            ReservesPlane(cfg.(fence := fence), digest, Restarted(w, capacity, mono), w.receipts[i].cleared.pb)
            <==> w.receipts[i].cleared.pb.iat as real >= fence && capacity >= Keys(cfg.role)
  {
    var w, c := After(cfg, digest, Start(room, began), events), cfg.(fence := fence);
    RunIsTraced(cfg, digest, Start(room, began), events);
    RunReplays(cfg, digest, Start(room, began), events);
    var s, r := Restarted(w, capacity, mono), w.receipts[i];
    if r.cleared.pb.iat as real >= fence && capacity >= Keys(cfg.role) {
      if cfg.role == Ba {
        ReopensPlaneAtApp(cfg, fence, digest, w, capacity, mono, i);
      } else {
        assert Rescreens(cfg, digest, w.signed, r);
        ClearedRoles(cfg, digest, Checks(w.signed), r.wire, r.wall, r.cleared);
        ReopensWhenUnfenced(cfg, fence, digest, w, capacity, mono, i);
        BothMeansPlane(c, digest, s, r.cleared);
      }
    }
    if ReservesPlane(c, digest, s, r.cleared.pb) {
      var later :| Possible(c, digest, s, later) && HasPlaneProof(After(c, digest, s, later).receipts, r.cleared.pb);
      RestartIsTraced(cfg, fence, digest, w, capacity, mono);
      PlaneReopensOnlyUnfenced(c, digest, s, r.cleared.pb, later);
    }
  }
}
