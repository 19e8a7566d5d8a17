/**
 * The two-hop protocol as interleaved steps around one verifier: the Plane issues proofs for approved requests, a
 * compromised Boundary signs whatever it likes with its own key, anyone presents any headers, and reservations are
 * concluded later, in any order. Signatures are symbolic: one verifies when its key's holder made it.
 */
module HopRuns {
  import opened Base
  import opened Requests
  import opened SemanticRequests
  import opened WireScans
  import opened HopProofs
  import opened HopEnvelopes
  import opened HopIssuing
  import opened HopAdmissions
  import opened ReplayGuards

  datatype Signature = Signature(key: Key, message: Bytes, octets: Bytes)

  function Checks(signed: set<Signature>): Verify { (k: Key, m: Bytes, s: Bytes) => Signature(k, m, s) in signed }

  datatype Issue = Issue(request: LayerRequest, approved: Semantic, claims: Claims)

  /** A reservation that was granted: what was presented, and the two clocks at that moment. */
  datatype Receipt = Receipt(wire: Wire, cleared: Cleared, wall: real, mono: real)

  datatype Admission = Admission(receipt: Receipt, body: Bytes)

  datatype World = World(
    signed: set<Signature>, issued: seq<Issue>, guard: Guard, waiting: map<nat, Receipt>,
    receipts: seq<Receipt>, admitted: seq<Admission>, mono: real)

  function Start(capacity: int, mono: real): World { World({}, [], Empty(capacity), map[], [], [], mono) }

  datatype Event =
    | PlaneIssues(request: LayerRequest, issuer: Issuer, stamp: Stamp, hop: nat, corr: Text, octets: Bytes)
    | BoundarySigns(message: Bytes, octets: Bytes)
    | Presents(id: nat, wire: Wire, wall: real, mono: real)
    | Concludes(id: nat, read: BodyRead, cross: CrossCheck)

  /**
   * The Plane signs approved requests only; the monotonic clock does not run back; a whole body has the length asked
   * for.
   */
  predicate Enabled(digest: Bytes -> Text, w: World, e: Event)
  {
    match e
    case PlaneIssues(request, issuer, stamp, hop, corr, _) =>
      Approve(digest, request).Approved? && CanIssue(issuer, Pb, stamp) && 1 <= hop <= MAX_SAFE && IsId(corr)
    case BoundarySigns(_, _) => true
    case Presents(id, _, _, mono) => id !in w.waiting && w.mono <= mono
    case Concludes(id, read, _) =>
      id in w.waiting && (read.Whole? && w.waiting[id].cleared.own.request.bodyLen > 0 ==>
                            |read.body| == w.waiting[id].cleared.own.request.bodyLen)
  }

  function Issued(digest: Bytes -> Text, w: World, request: LayerRequest, issuer: Issuer, stamp: Stamp, hop: nat,
      corr: Text, octets: Bytes): World
    requires Approve(digest, request).Approved?
  {
    var approved := Approve(digest, request).request;
    var claims := IssuePb(issuer, approved, stamp, hop, corr);
    w.(signed := w.signed + {Signature(PlaneKey, PB_DOMAIN + Payload(claims), octets)},
       issued := w.issued + [Issue(request, approved, claims)])
  }

  function Presented(cfg: Config, digest: Bytes -> Text, w: World, id: nat, wire: Wire, wall: real, mono: real): World
  {
    var (g, begun) := Begin(cfg, digest, Checks(w.signed), w.guard, wire, wall, mono);
    if begun.Stopped? then w.(guard := g, mono := mono)
    else
      var r := Receipt(wire, begun.cleared, wall, mono);
      w.(guard := g, mono := mono, waiting := w.waiting[id := r], receipts := w.receipts + [r])
  }

  function Concluded(cfg: Config, digest: Bytes -> Text, w: World, id: nat, read: BodyRead, cross: CrossCheck): World
    requires id in w.waiting
  {
    var r := w.waiting[id];
    var outcome := Finish(digest, r.cleared, read, cross);
    var keys := KeysOf(Wants(cfg.role, r.cleared));
    w.(guard := TransitAll(w.guard, keys, Settlement(outcome), |keys|), waiting := w.waiting - {id},
       admitted := if outcome.Admitted? then w.admitted + [Admission(r, outcome.body)] else w.admitted)
  }

  function Next(cfg: Config, digest: Bytes -> Text, w: World, e: Event): World
    requires Enabled(digest, w, e)
  {
    match e
    case PlaneIssues(request, issuer, stamp, hop, corr, octets) =>
      Issued(digest, w, request, issuer, stamp, hop, corr, octets)
    case BoundarySigns(message, octets) => w.(signed := w.signed + {Signature(BoundaryKey, message, octets)})
    case Presents(id, wire, wall, mono) => Presented(cfg, digest, w, id, wire, wall, mono)
    case Concludes(id, read, cross) => Concluded(cfg, digest, w, id, read, cross)
  }

  predicate Possible(cfg: Config, digest: Bytes -> Text, w: World, events: seq<Event>)
    decreases |events|
  {
    events == [] || (Enabled(digest, w, events[0])
      && Possible(cfg, digest, Next(cfg, digest, w, events[0]), events[1..]))
  }

  function After(cfg: Config, digest: Bytes -> Text, w: World, events: seq<Event>): World
    requires Possible(cfg, digest, w, events)
    decreases |events|
  {
    if events == [] then w else After(cfg, digest, Next(cfg, digest, w, events[0]), events[1..])
  }

  // ------------------------------------------------------------------ provenance

  /** The digest function yields 32 octets in canonical base64url. */
  ghost predicate Digests(digest: Bytes -> Text) { forall b: Bytes :: IsDigest(digest(b)) }

  ghost predicate IssuedAs(issued: seq<Issue>, claims: Claims)
  {
    exists i :: 0 <= i < |issued| && issued[i].claims == claims
  }

  ghost predicate IssuedWell(digest: Bytes -> Text, x: Issue)
  {
    var a := Approve(digest, x.request);
    a.Approved? && a.request == x.approved && x.claims.request == x.approved && Shape(x.claims)
      && x.claims.lineage == None
  }

  ghost predicate SignedWell(issued: seq<Issue>, s: Signature)
  {
    s.key == PlaneKey ==> exists i :: 0 <= i < |issued| && s.message == PB_DOMAIN + Payload(issued[i].claims)
  }

  /** What the wire of a reservation carried is what both of its proofs say, and the Plane issued its Plane proof. */
  ghost predicate Backed(cfg: Config, issued: seq<Issue>, r: Receipt)
  {
    && IssuedAs(issued, r.cleared.pb) && r.cleared.own.request == r.cleared.pb.request
    && r.wire.verb == r.cleared.pb.request.verb && r.wire.url == r.cleared.pb.request.target
    && Scan(r.wire.headers, r.wire.verb).pairs == r.cleared.pb.request.pairs
    && CheckWindow(r.cleared.own, cfg.Own(), r.wall) == None
      && CheckWindow(r.cleared.pb, cfg.Upstream(), r.wall) == None
  }

  ghost predicate Received(digest: Bytes -> Text, a: Admission)
  {
    var wanted := a.receipt.cleared.pb.request;
    |a.body| == wanted.bodyLen && wanted.bodySha == if wanted.bodyLen == 0 then EMPTY_BODY else digest(a.body)
  }

  ghost predicate Traced(cfg: Config, digest: Bytes -> Text, w: World)
  {
    && (forall i :: 0 <= i < |w.issued| ==> IssuedWell(digest, w.issued[i]))
    && (forall s :: s in w.signed ==> SignedWell(w.issued, s))
    && (forall k :: 0 <= k < |w.receipts| ==> Backed(cfg, w.issued, w.receipts[k]))
    && (forall id :: id in w.waiting ==> Backed(cfg, w.issued, w.waiting[id]))
    && (forall k :: 0 <= k < |w.admitted| ==>
      Backed(cfg, w.issued, w.admitted[k].receipt) && Received(digest, w.admitted[k]))
  }

  lemma {:induction false} MoreIssued(cfg: Config, issued: seq<Issue>, x: Issue)
    ensures forall s :: SignedWell(issued, s) ==> SignedWell(issued + [x], s)
    ensures forall r :: Backed(cfg, issued, r) ==> Backed(cfg, issued + [x], r)
  {
    var more := issued + [x];
    forall s | SignedWell(issued, s) ensures SignedWell(more, s) {
      if s.key == PlaneKey {
        var i :| 0 <= i < |issued| && s.message == PB_DOMAIN + Payload(issued[i].claims);
        assert more[i] == issued[i];
      }
    }
    forall r | Backed(cfg, issued, r) ensures Backed(cfg, more, r) {
      var i :| 0 <= i < |issued| && issued[i].claims == r.cleared.pb;
      assert more[i] == issued[i];
    }
  }

  lemma {:induction false} IssueKeeps(cfg: Config, digest: Bytes -> Text, w: World, request: LayerRequest,
      issuer: Issuer, stamp: Stamp, hop: nat, corr: Text, octets: Bytes)
    requires Digests(digest) && Traced(cfg, digest, w)
    requires Enabled(digest, w, PlaneIssues(request, issuer, stamp, hop, corr, octets))
    ensures Traced(cfg, digest, Issued(digest, w, request, issuer, stamp, hop, corr, octets))
  {
    var approved := Approve(digest, request).request;
    var claims := IssuePb(issuer, approved, stamp, hop, corr);
    assert IssuedWell(digest, Issue(request, approved, claims)) by {
      NewIssueIsWell(digest, request, issuer, stamp, hop, corr);
    }
    IssueAdded(cfg, digest, w, Issue(request, approved, claims), octets);
  }

  lemma {:induction false} NewIssueIsWell(digest: Bytes -> Text, request: LayerRequest, issuer: Issuer, stamp: Stamp,
      hop: nat, corr: Text)
    requires Digests(digest) && Approve(digest, request).Approved?
    requires CanIssue(issuer, Pb, stamp) && 1 <= hop <= MAX_SAFE && IsId(corr)
    ensures var approved := Approve(digest, request).request;
            IssuedWell(digest, Issue(request, approved, IssuePb(issuer, approved, stamp, hop, corr)))
  {
    var approved := Approve(digest, request).request;
    var bound := ApprovedIsSemantic(digest, request, approved);
    ApprovedShape(approved, bound);
    IssuedPbShape(issuer, approved, stamp, hop, corr);
  }

  lemma {:induction false} IssueAdded(cfg: Config, digest: Bytes -> Text, w: World, x: Issue, octets: Bytes)
    requires Traced(cfg, digest, w) && IssuedWell(digest, x)
    ensures Traced(cfg, digest, w.(signed := w.signed + {Signature(PlaneKey, PB_DOMAIN + Payload(x.claims), octets)},
                                   issued := w.issued + [x]))
  {
    MoreIssued(cfg, w.issued, x);
    assert (w.issued + [x])[|w.issued|] == x;
    assert SignedWell(w.issued + [x], Signature(PlaneKey, PB_DOMAIN + Payload(x.claims), octets));
  }

  lemma {:induction false} SameMessage(p: Bytes, q: Bytes)
    requires PB_DOMAIN + p == PB_DOMAIN + q
    ensures p == q
  {
    assert (PB_DOMAIN + p)[|PB_DOMAIN|..] == p && (PB_DOMAIN + q)[|PB_DOMAIN|..] == q;
  }

  /** A Plane proof that verifies was issued by the Plane, whatever else was signed. */
  lemma {:induction false} VouchedWasIssued(digest: Bytes -> Text, w: World, header: Text, claims: Claims)
    requires forall i :: 0 <= i < |w.issued| ==> IssuedWell(digest, w.issued[i])
    requires forall s :: s in w.signed ==> SignedWell(w.issued, s)
    requires Vouched(Checks(w.signed), PlaneKey, Pb, header, claims)
    ensures IssuedAs(w.issued, claims)
  {
    var d := DecodeProof(header, Pb).value;
    AcceptedIsSealed(header, Pb, d);
    var s := Signature(PlaneKey, PB_DOMAIN + d.payload, d.signature);
    assert s in w.signed;
    var i :| 0 <= i < |w.issued| && s.message == PB_DOMAIN + Payload(w.issued[i].claims);
    SameMessage(d.payload, Payload(w.issued[i].claims));
    assert IssuedWell(digest, w.issued[i]);
    PayloadInjective(claims, w.issued[i].claims);
  }

  lemma {:induction false} ClearedIsBacked(cfg: Config, digest: Bytes -> Text, w: World, wire: Wire, wall: real,
      mono: real, c: Cleared)
    requires Traced(cfg, digest, w) && Screen(cfg, digest, Checks(w.signed), wire, wall) == Clear(c)
    ensures Backed(cfg, w.issued, Receipt(wire, c, wall, mono))
  {
    ClearedMeans(cfg, digest, Checks(w.signed), wire, wall, c);
    VouchedWasIssued(digest, w, c.pbHeader, c.pb);
  }

  /** What a presentation that was granted a reservation had been checked for. */
  lemma {:induction false} BegunIsCleared(cfg: Config, digest: Bytes -> Text, verify: Verify, g: Guard, wire: Wire,
      wall: real, mono: real)
    requires Begin(cfg, digest, verify, g, wire, wall, mono).1.Waiting?
    ensures var c := Begin(cfg, digest, verify, g, wire, wall, mono).1.cleared;
            Screen(cfg, digest, verify, wire, wall) == Clear(c) && Reserve(g, Wants(cfg.role, c), mono).1 == Granted
            && Begin(cfg, digest, verify, g, wire, wall, mono).0 == Reserve(g, Wants(cfg.role, c), mono).0
  {
  }

  lemma {:induction false} PresentKeeps(cfg: Config, digest: Bytes -> Text, w: World, id: nat, wire: Wire, wall: real,
      mono: real)
    requires Traced(cfg, digest, w)
    ensures Traced(cfg, digest, Presented(cfg, digest, w, id, wire, wall, mono))
  {
    var (g, begun) := Begin(cfg, digest, Checks(w.signed), w.guard, wire, wall, mono);
    if begun.Waiting? {
      assert Backed(cfg, w.issued, Receipt(wire, begun.cleared, wall, mono)) by {
        BegunIsCleared(cfg, digest, Checks(w.signed), w.guard, wire, wall, mono);
        ClearedIsBacked(cfg, digest, w, wire, wall, mono, begun.cleared);
      }
      ReceiptKeeps(cfg, digest, w, id, g, Receipt(wire, begun.cleared, wall, mono));
    }
  }

  lemma {:induction false} ReceiptKeeps(cfg: Config, digest: Bytes -> Text, w: World, id: nat, g: Guard, r: Receipt)
    requires Traced(cfg, digest, w) && Backed(cfg, w.issued, r)
    ensures Traced(cfg, digest, w.(guard := g, mono := r.mono, waiting := w.waiting[id := r],
            receipts := w.receipts + [r]))
  {
  }

  lemma {:induction false} AdmissionKeeps(cfg: Config, digest: Bytes -> Text, w: World, id: nat, g: Guard,
      more: seq<Admission>)
    requires Traced(cfg, digest, w)
    requires forall k :: 0 <= k < |more| ==> Backed(cfg, w.issued, more[k].receipt) && Received(digest, more[k])
    ensures Traced(cfg, digest, w.(guard := g, waiting := w.waiting - {id}, admitted := w.admitted + more))
  {
  }

  lemma {:induction false} FinishReceives(digest: Bytes -> Text, c: Cleared, read: BodyRead, cross: CrossCheck)
    requires Finish(digest, c, read, cross).Admitted?
    requires read.Whole? && c.own.request.bodyLen > 0 ==> |read.body| == c.own.request.bodyLen
    ensures var wanted, body := c.own.request, Finish(digest, c, read, cross).body;
            |body| == wanted.bodyLen && wanted.bodySha == if wanted.bodyLen == 0 then EMPTY_BODY else digest(body)
  {
  }

  lemma {:induction false} OutcomeKeeps(cfg: Config, digest: Bytes -> Text, w: World, id: nat, r: Receipt,
      outcome: Outcome, g: Guard)
    requires Traced(cfg, digest, w) && Backed(cfg, w.issued, r)
    requires outcome.Admitted? ==> Received(digest, Admission(r, outcome.body))
    ensures Traced(cfg, digest, w.(guard := g, waiting := w.waiting - {id},
                                   admitted := if outcome.Admitted? then w.admitted + [Admission(r, outcome.body)]
                                     else w.admitted))
  {
    if outcome.Admitted? {
      AdmissionKeeps(cfg, digest, w, id, g, [Admission(r, outcome.body)]);
    } else {
      AdmissionKeeps(cfg, digest, w, id, g, []);
      assert w.admitted + [] == w.admitted;
    }
  }

  lemma {:induction false} ConcludeKeeps(cfg: Config, digest: Bytes -> Text, w: World, id: nat, read: BodyRead,
      cross: CrossCheck)
    requires Traced(cfg, digest, w) && Enabled(digest, w, Concludes(id, read, cross))
    ensures Traced(cfg, digest, Concluded(cfg, digest, w, id, read, cross))
  {
    var r := w.waiting[id];
    var outcome := Finish(digest, r.cleared, read, cross);
    if outcome.Admitted? { FinishReceives(digest, r.cleared, read, cross); }
    OutcomeKeeps(cfg, digest, w, id, r, outcome, Concluded(cfg, digest, w, id, read, cross).guard);
  }

  lemma {:induction false} NextKeeps(cfg: Config, digest: Bytes -> Text, w: World, e: Event)
    requires Digests(digest) && Traced(cfg, digest, w) && Enabled(digest, w, e)
    ensures Traced(cfg, digest, Next(cfg, digest, w, e))
  {
    match e
    case PlaneIssues(request, issuer, stamp, hop, corr, octets) =>
      IssueKeeps(cfg, digest, w, request, issuer, stamp, hop, corr, octets);
    case BoundarySigns(message, octets) =>
    case Presents(id, wire, wall, mono) => PresentKeeps(cfg, digest, w, id, wire, wall, mono);
    case Concludes(id, read, cross) => ConcludeKeeps(cfg, digest, w, id, read, cross);
  }

  lemma {:induction false} RunIsTraced(cfg: Config, digest: Bytes -> Text, w: World, events: seq<Event>)
    requires Digests(digest) && Traced(cfg, digest, w) && Possible(cfg, digest, w, events)
    ensures Traced(cfg, digest, After(cfg, digest, w, events))
    decreases |events|
  {
    if events != [] {
      NextKeeps(cfg, digest, w, events[0]);
      RunIsTraced(cfg, digest, Next(cfg, digest, w, events[0]), events[1..]);
    }
  }

  /** An admitted request is, field by field, one that the Plane approved and issued a proof for. */
  ghost predicate Faithful(digest: Bytes -> Text, a: Admission, x: Issue)
  {
    && Approve(digest, x.request).Approved? && Approve(digest, x.request).request == x.approved
    && x.claims == a.receipt.cleared.pb && x.claims.request == x.approved
    && a.receipt.wire.verb == x.approved.verb && a.receipt.wire.url == x.approved.target
    && Scan(a.receipt.wire.headers, a.receipt.wire.verb).pairs == x.approved.pairs
    && |a.body| == x.approved.bodyLen
    && x.approved.bodySha == if x.approved.bodyLen == 0 then EMPTY_BODY else digest(a.body)
  }

  ghost predicate FromSomeIssue(digest: Bytes -> Text, a: Admission, issued: seq<Issue>)
  {
    exists i :: 0 <= i < |issued| && Faithful(digest, a, issued[i])
  }

  lemma {:induction false} TracedIsFaithful(cfg: Config, digest: Bytes -> Text, w: World, k: nat)
    requires Traced(cfg, digest, w) && k < |w.admitted|
    ensures FromSomeIssue(digest, w.admitted[k], w.issued)
  {
    var a := w.admitted[k];
    assert Backed(cfg, w.issued, a.receipt) && Received(digest, a);
    var i :| 0 <= i < |w.issued| && w.issued[i].claims == a.receipt.cleared.pb;
    assert IssuedWell(digest, w.issued[i]);
    assert Faithful(digest, a, w.issued[i]);
  }

  /**
   * At the Boundary and at the App alike, whatever a compromised Boundary signs and whoever presents what headers in
   * what order: every admitted request has exactly the method, target, pairs and body digest of a proof that the Plane
   * issued for a request it approved.
   */
  lemma {:induction false} AdmittedWasApproved(cfg: Config, digest: Bytes -> Text, capacity: int, mono: real,
      events: seq<Event>, k: nat)
    requires Digests(digest) && Possible(cfg, digest, Start(capacity, mono), events)
    requires k < |After(cfg, digest, Start(capacity, mono), events).admitted|
    ensures var w := After(cfg, digest, Start(capacity, mono), events); FromSomeIssue(digest, w.admitted[k], w.issued)
  {
    RunIsTraced(cfg, digest, Start(capacity, mono), events);
    TracedIsFaithful(cfg, digest, After(cfg, digest, Start(capacity, mono), events), k);
  }

  /** Where the digest does not collide, the admitted body is the approved body. */
  lemma {:induction false} AdmittedBodyIsApproved(digest: Bytes -> Text, a: Admission, x: Issue)
    requires Faithful(digest, a, x) && x.approved.verb == POST && x.approved.bodyLen > 0
    requires x.request.body.Some? && digest(a.body) == digest(x.request.body.value) ==> a.body == x.request.body.value
    ensures x.request.body == Some(a.body)
  {
    var bound := ApprovedIsSemantic(digest, x.request, x.approved);
  }

  // ------------------------------------------------------------------ once per proof

  /** How far the wall clock is ahead of the monotonic clock at a presentation. */
  function Offset(e: Event): real { if e.Presents? then e.wall - e.mono else 0.0 }

  /** Over the run, the two clocks drift apart by less than 1000 ms. */
  ghost predicate Drifts(events: seq<Event>)
  {
    forall i, j :: 0 <= i < |events| && 0 <= j < |events| && events[i].Presents? && events[j].Presents? ==>
      Offset(events[i]) - Offset(events[j]) < 1000.0
  }

  predicate Steady(lo: real, e: Event) { e.Presents? ==> lo <= Offset(e) < lo + 1000.0 }

  /** The least offset of a run. */
  lemma {:induction false} LeastOffset(events: seq<Event>, n: nat) returns (lo: real)
    requires n <= |events|
    ensures forall i :: 0 <= i < n && events[i].Presents? ==> lo <= Offset(events[i])
    ensures (forall i :: 0 <= i < n ==> !events[i].Presents?) || exists i ::
            0 <= i < n && events[i].Presents? && Offset(events[i]) == lo
  {
    if n == 0 {
      lo := 0.0;
    } else {
      lo := LeastOffset(events, n - 1);
      if events[n - 1].Presents? {
        var x := Offset(events[n - 1]);
        if x < lo || forall i :: 0 <= i < n - 1 ==> !events[i].Presents? { lo := x; }
      }
    }
  }

  lemma {:induction false} DriftIsSteady(events: seq<Event>) returns (lo: real)
    requires Drifts(events)
    ensures forall i :: 0 <= i < |events| ==> Steady(lo, events[i])
  {
    lo := LeastOffset(events, |events|);
  }

  /** Everything ever reserved, with the end of its retention. */
  function History(role: Role, receipts: seq<Receipt>): seq<Retention>
  {
    if receipts == [] then []
    else
      var last := receipts[|receipts| - 1];
      History(role, receipts[..|receipts| - 1]) + Retentions(Wants(role, last.cleared), last.mono)
  }

  /** The retention of the `j`th want of receipt `k` is in the history. */
  lemma {:induction false} InHistory(role: Role, receipts: seq<Receipt>, k: nat, j: nat) returns (i: nat)
    requires k < |receipts| && j < |Wants(role, receipts[k].cleared)|
    ensures i < |History(role, receipts)| && History(role, receipts)[i]
            == Retentions(Wants(role, receipts[k].cleared), receipts[k].mono)[j]
  {
    var n := |receipts| - 1;
    var before := History(role, receipts[..n]);
    if k < n {
      i := InHistory(role, receipts[..n], k, j);
    } else {
      i := |before| + j;
    }
  }

  /** The clocks of a reservation are within the run's drift, and not ahead of now. */
  predicate Timed(lo: real, now: real, r: Receipt) { lo <= r.wall - r.mono < lo + 1000.0 && r.mono <= now }

  /** Two presentations within one proof's acceptance window are closer together than the proof's retention. */
  lemma {:induction false} WithinRetention(c: Claims, verifier: Verifier, lo: real, first: real, firstMono: real,
      second: real, secondMono: real)
    requires CheckWindow(c, verifier, first) == None && CheckWindow(c, verifier, second) == None
    requires lo <= first - firstMono < lo + 1000.0 && lo <= second - secondMono < lo + 1000.0
    ensures secondMono < firstMono + (MaxLifetime(RoleOf(c)) + 2 * SKEW + 1_000) as real
  {
  }

  /** No two reservations were made for one Plane proof, nor for one proof of the verifier's own hop. */
  predicate Single(receipts: seq<Receipt>)
  {
    forall i, j :: 0 <= i < j < |receipts| ==>
      receipts[i].cleared.pb != receipts[j].cleared.pb && receipts[i].cleared.own != receipts[j].cleared.own
  }

  ghost predicate Retained(cfg: Config, lo: real, w: World)
  {
    && Remembers(w.guard.entries, History(cfg.role, w.receipts), w.mono)
    && (forall k :: 0 <= k < |w.receipts| ==> Timed(lo, w.mono, w.receipts[k]))
    && (forall k :: 0 <= k < |w.receipts| ==> RightRoles(cfg.role, w.receipts[k].cleared))
    && Single(w.receipts) && SingleUse(w.receipts, w.waiting, w.admitted)
  }

  /** What waits and what was admitted comes from reservations for pairwise different Plane proofs. */
  ghost predicate SingleUse(receipts: seq<Receipt>, waiting: map<nat, Receipt>, admitted: seq<Admission>)
  {
    && (forall id :: id in waiting ==> waiting[id] in receipts)
    && (forall k :: 0 <= k < |admitted| ==> admitted[k].receipt in receipts)
    && (forall i, j :: 0 <= i < j < |admitted| ==> admitted[i].receipt.cleared.pb != admitted[j].receipt.cleared.pb)
    && (forall id, k :: id in waiting && 0 <= k < |admitted| ==>
      waiting[id].cleared.pb != admitted[k].receipt.cleared.pb)
    && (forall x, y :: x in waiting && y in waiting && x != y ==> waiting[x].cleared.pb != waiting[y].cleared.pb)
  }

  lemma {:induction false} UseGrows(receipts: seq<Receipt>, waiting: map<nat, Receipt>, admitted: seq<Admission>,
      id: nat, r: Receipt)
    requires SingleUse(receipts, waiting, admitted) && id !in waiting
    requires forall k :: 0 <= k < |receipts| ==> receipts[k].cleared.pb != r.cleared.pb
    ensures SingleUse(receipts + [r], waiting[id := r], admitted)
  {
    forall x | x in receipts ensures x.cleared.pb != r.cleared.pb { }
  }

  lemma {:induction false} UseEnds(receipts: seq<Receipt>, waiting: map<nat, Receipt>, admitted: seq<Admission>,
      id: nat, body: Bytes)
    requires SingleUse(receipts, waiting, admitted) && id in waiting
    ensures SingleUse(receipts, waiting - {id}, admitted)
    ensures SingleUse(receipts, waiting - {id}, admitted + [Admission(waiting[id], body)])
  {
  }

  /** A Plane proof has no lineage; a verifier's own proof is of its own hop. */
  predicate RightRoles(role: Role, c: Cleared)
  {
    RoleOf(c.pb) == Pb && RoleOf(c.own) == role && (role == Pb ==> c.own == c.pb)
  }

  lemma {:induction false} ClearedRoles(cfg: Config, digest: Bytes -> Text, verify: Verify, wire: Wire, now: real,
      c: Cleared)
    requires Screen(cfg, digest, verify, wire, now) == Clear(c)
    ensures RightRoles(cfg.role, c)
  {
    ClearedMeans(cfg, digest, verify, wire, now, c);
    VouchedRole(verify, PlaneKey, Pb, c.pbHeader, c.pb);
    var header :| Vouched(verify, cfg.OwnKey(), cfg.role, header, c.own);
    VouchedRole(verify, cfg.OwnKey(), cfg.role, header, c.own);
  }

  lemma {:induction false} VouchedRole(verify: Verify, key: Key, role: Role, header: Text, claims: Claims)
    requires Vouched(verify, key, role, header, claims)
    ensures RoleOf(claims) == role
  {
    AcceptedIsSealed(header, role, DecodeProof(header, role).value);
  }

  /** An earlier reservation for the same proof still stands, so the later one is refused. */
  lemma {:induction false} SameProofIsRefused(cfg: Config, w: World, lo: real, k: nat, c: Cleared, wall: real,
      mono: real)
    requires Retained(cfg, lo, w) && k < |w.receipts| && w.mono <= mono && lo <= wall - mono < lo + 1000.0
    requires Backed(cfg, w.issued, w.receipts[k]) && RightRoles(cfg.role, c)
    requires CheckWindow(c.own, cfg.Own(), wall) == None && CheckWindow(c.pb, cfg.Upstream(), wall) == None
    requires w.receipts[k].cleared.pb == c.pb || w.receipts[k].cleared.own == c.own
    ensures Reserve(w.guard, Wants(cfg.role, c), mono).1 == Replayed
  {
    var r := w.receipts[k];
    assert Timed(lo, w.mono, r) && RightRoles(cfg.role, r.cleared);
    var j := if r.cleared.pb == c.pb && cfg.role == Ba then 1 else 0;
    var i := InHistory(cfg.role, w.receipts, k, j);
    if r.cleared.pb == c.pb {
      WithinRetention(c.pb, cfg.Upstream(), lo, r.wall, r.mono, wall, mono);
    } else {
      WithinRetention(c.own, cfg.Own(), lo, r.wall, r.mono, wall, mono);
    }
    RetainedIsReplayed(w.guard, Wants(cfg.role, c), History(cfg.role, w.receipts), w.mono, mono, i, j);
  }

  lemma {:induction false} HistoryGrows(role: Role, receipts: seq<Receipt>, r: Receipt)
    ensures History(role, receipts + [r]) == History(role, receipts) + Retentions(Wants(role, r.cleared), r.mono)
  {
    assert (receipts + [r])[..|receipts|] == receipts;
  }

  lemma {:induction false} SingleGrows(receipts: seq<Receipt>, r: Receipt)
    requires Single(receipts)
    requires forall k :: 0 <= k < |receipts| ==>
             receipts[k].cleared.pb != r.cleared.pb && receipts[k].cleared.own != r.cleared.own
    ensures Single(receipts + [r])
  {
  }

  lemma {:induction false} GrantKeeps(cfg: Config, digest: Bytes -> Text, w: World, lo: real, id: nat, wire: Wire,
      wall: real, mono: real, c: Cleared)
    requires id !in w.waiting && Traced(cfg, digest, w) && Retained(cfg, lo, w) && w.mono <= mono
             && lo <= wall - mono < lo + 1000.0
    requires Screen(cfg, digest, Checks(w.signed), wire, wall) == Clear(c)
    requires Reserve(w.guard, Wants(cfg.role, c), mono).1 == Granted
    ensures var g, r := Reserve(w.guard, Wants(cfg.role, c), mono).0, Receipt(wire, c, wall, mono);
            Retained(cfg, lo, w.(guard := g, mono := mono, waiting := w.waiting[id := r], receipts := w.receipts + [r]))
  {
    var r := Receipt(wire, c, wall, mono);
    ClearedRoles(cfg, digest, Checks(w.signed), wire, wall, c);
    assert Backed(cfg, w.issued, r) by { ClearedIsBacked(cfg, digest, w, wire, wall, mono, c); }
    forall k | 0 <= k < |w.receipts| ensures w.receipts[k].cleared.pb != c.pb && w.receipts[k].cleared.own != c.own {
      assert Backed(cfg, w.issued, w.receipts[k]);
      if w.receipts[k].cleared.pb == c.pb || w.receipts[k].cleared.own == c.own {
        SameProofIsRefused(cfg, w, lo, k, c, wall, mono);
      }
    }
    RetainedGrows(cfg, w, lo, id, r);
  }

  lemma {:induction false} RetainedGrows(cfg: Config, w: World, lo: real, id: nat, r: Receipt)
    requires id !in w.waiting && Retained(cfg, lo, w) && w.mono <= r.mono && Timed(lo, r.mono, r)
             && RightRoles(cfg.role, r.cleared)
    requires forall k :: 0 <= k < |w.receipts| ==>
             w.receipts[k].cleared.pb != r.cleared.pb && w.receipts[k].cleared.own != r.cleared.own
    requires Reserve(w.guard, Wants(cfg.role, r.cleared), r.mono).1 == Granted
    ensures var g := Reserve(w.guard, Wants(cfg.role, r.cleared), r.mono).0;
            Retained(cfg, lo, w.(guard := g, mono := r.mono, waiting := w.waiting[id := r],
              receipts := w.receipts + [r]))
  {
    ReserveRemembers(w.guard, Wants(cfg.role, r.cleared), History(cfg.role, w.receipts), w.mono, r.mono);
    HistoryGrows(cfg.role, w.receipts, r);
    SingleGrows(w.receipts, r);
    UseGrows(w.receipts, w.waiting, w.admitted, id, r);
  }

  /** A presentation that got no reservation leaves the guard as it was, or purged and counting one refusal. */
  lemma {:induction false} RefusalRemembers(cfg: Config, digest: Bytes -> Text, w: World, lo: real, id: nat,
      wire: Wire, wall: real, mono: real)
    requires id !in w.waiting && Retained(cfg, lo, w) && w.mono <= mono
    requires Begin(cfg, digest, Checks(w.signed), w.guard, wire, wall, mono).1.Stopped?
    ensures Retained(cfg, lo, Presented(cfg, digest, w, id, wire, wall, mono))
  {
    var s := Screen(cfg, digest, Checks(w.signed), wire, wall);
    if s.Clear? {
      ReserveRemembers(w.guard, Wants(cfg.role, s.cleared), History(cfg.role, w.receipts), w.mono, mono);
    }
  }

  lemma {:induction false} PresentRetains(cfg: Config, digest: Bytes -> Text, w: World, lo: real, id: nat, wire: Wire,
      wall: real, mono: real)
    requires id !in w.waiting && Traced(cfg, digest, w) && Retained(cfg, lo, w) && w.mono <= mono
             && lo <= wall - mono < lo + 1000.0
    ensures Retained(cfg, lo, Presented(cfg, digest, w, id, wire, wall, mono))
  {
    var (g, begun) := Begin(cfg, digest, Checks(w.signed), w.guard, wire, wall, mono);
    if begun.Waiting? {
      BegunIsCleared(cfg, digest, Checks(w.signed), w.guard, wire, wall, mono);
      GrantKeeps(cfg, digest, w, lo, id, wire, wall, mono, begun.cleared);
    } else {
      RefusalRemembers(cfg, digest, w, lo, id, wire, wall, mono);
    }
  }

  lemma {:induction false} SameHistory(cfg: Config, digest: Bytes -> Text, w: World, id: nat, read: BodyRead,
      cross: CrossCheck)
    requires id in w.waiting
    ensures var n, c := Concluded(cfg, digest, w, id, read, cross), w.waiting[id].cleared;
            var keys, outcome := KeysOf(Wants(cfg.role, c)), Finish(digest, c, read, cross);
            && n.receipts == w.receipts && n.mono == w.mono && n.waiting == w.waiting - {id}
            && n.guard == TransitAll(w.guard, keys, Settlement(outcome), |keys|)
            && n.admitted == if outcome.Admitted? then
              w.admitted + [Admission(w.waiting[id], BodyOf(c.own.request, read))] else w.admitted
  {
  }

  lemma {:induction false} ConcludeRetains(cfg: Config, digest: Bytes -> Text, w: World, lo: real, id: nat,
      read: BodyRead, cross: CrossCheck)
    requires Retained(cfg, lo, w) && id in w.waiting
    ensures Retained(cfg, lo, Concluded(cfg, digest, w, id, read, cross))
  {
    var c := w.waiting[id].cleared;
    var keys := KeysOf(Wants(cfg.role, c));
    var next := Settlement(Finish(digest, c, read, cross));
    UseEnds(w.receipts, w.waiting, w.admitted, id, BodyOf(c.own.request, read));
    assert Remembers(TransitAll(w.guard, keys, next, |keys|).entries, History(cfg.role, w.receipts), w.mono) by {
      SettleRemembers(w.guard, keys, next, |keys|, History(cfg.role, w.receipts), w.mono);
    }
    SameHistory(cfg, digest, w, id, read, cross);
  }

  lemma {:induction false} NextRetains(cfg: Config, digest: Bytes -> Text, w: World, lo: real, e: Event)
    requires Traced(cfg, digest, w) && Retained(cfg, lo, w) && Enabled(digest, w, e) && Steady(lo, e)
    ensures Retained(cfg, lo, Next(cfg, digest, w, e))
  {
    match e
    case PlaneIssues(_, _, _, _, _, _) =>
      var n := Next(cfg, digest, w, e);
      assert n.guard == w.guard && n.receipts == w.receipts && n.mono == w.mono;
    case BoundarySigns(_, _) =>
    case Presents(id, wire, wall, mono) => PresentRetains(cfg, digest, w, lo, id, wire, wall, mono);
    case Concludes(id, read, cross) => ConcludeRetains(cfg, digest, w, lo, id, read, cross);
  }

  lemma {:induction false} RunRetains(cfg: Config, digest: Bytes -> Text, w: World, lo: real, events: seq<Event>)
    requires Digests(digest) && Traced(cfg, digest, w) && Retained(cfg, lo, w) && Possible(cfg, digest, w, events)
    requires forall i :: 0 <= i < |events| ==> Steady(lo, events[i])
    ensures Retained(cfg, lo, After(cfg, digest, w, events))
    decreases |events|
  {
    if events != [] {
      var n := Next(cfg, digest, w, events[0]);
      assert Traced(cfg, digest, n) by { NextKeeps(cfg, digest, w, events[0]); }
      assert Retained(cfg, lo, n) by { NextRetains(cfg, digest, w, lo, events[0]); }
      RunRetains(cfg, digest, n, lo, events[1..]);
    }
  }

  /**
   * While wall and monotonic clock drift apart by less than 1000 ms over the run, no proof is ever reserved twice by
   * one verifier, purging included; and one Plane proof yields at most one admission, at the App however many Boundary
   * proofs commit to it.
   */
  lemma {:induction false} OncePerProof(cfg: Config, digest: Bytes -> Text, capacity: int, mono: real,
      events: seq<Event>)
    requires Digests(digest) && Possible(cfg, digest, Start(capacity, mono), events) && Drifts(events)
    ensures var w := After(cfg, digest, Start(capacity, mono), events);
            Single(w.receipts) && SingleUse(w.receipts, w.waiting, w.admitted)
  {
    var lo := DriftIsSteady(events);
    RunRetains(cfg, digest, Start(capacity, mono), lo, events);
  }

  // ------------------------------------------------------------------ where the bound is exact

  /** A guard forgets a settled key at the very instant its retention ends, and not while its ticket is open. */
  lemma {:induction false} ForgetsAtExpiry(capacity: int, want: Want, next: EntryState, m: real, n: real)
    requires capacity >= 1 && next != ReplayGuards.Reserved && n == m + want.retainMs as real && want.retainMs >= 250
    ensures Reserve(Empty(capacity), [want], m).1 == Granted
    ensures Reserve(Reserve(Empty(capacity), [want], m).0, [want], n).1 == Replayed
    ensures Reserve(Transit(Reserve(Empty(capacity), [want], m).0, want.key, next), [want], n).1 == Granted
  {
    var none: map<Text, Entry> := map[];
    var held: map<Text, Entry> := map[want.key := Entry(ReplayGuards.Reserved, n)];
    var wants := [want];
    assert WithReserved(none, wants, m, 0) == none;
    assert WithReserved(none, wants, m, 1) == held;
    assert ReplayGuards.Retained(none, m) == none;
    var g := Reserve(Empty(capacity), wants, m).0;
    assert g.entries == held && g.lastPurge == Some(m) && g.capacity == capacity;
    assert wants[0].key in ReplayGuards.Retained(held, n);
    var t := Transit(g, want.key, next);
    assert t.entries == map[want.key := Entry(next, n)];
    assert ReplayGuards.Retained(t.entries, n) == none;
    assert !AnyPresent(none, wants);
  }
}
