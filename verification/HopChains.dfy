/**
 * The honest chain: a request that passes the shape gate and is approved by the plane goes through the Boundary and the
 * App when it is fresh, unreplayed, within its window and arrives with an intact body; no header bound is in the way.
 */
module HopChains {
  import opened Base
  import opened Decimals
  import opened Requests
  import opened SemanticRequests
  import opened WireScans
  import opened HopProofs
  import opened HopEnvelopes
  import opened HopSizes
  import opened HopIssuing
  import opened HopAdmissions
  import ReplayGuards
  import ShapeGates
  import JsonPrinter

  // ------------------------------------------------------------------ every gated request fits

  lemma {:induction false} ValueQuoted(t: Text)
    requires |t| <= MAX_VALUE
    ensures Quoted(t) <= 512
  {
  }

  lemma {:induction false} NamesQuoted()
    ensures Quoted(CONTENT_TYPE) == 14 && Quoted(HOST) == 6 && Quoted(ORIGIN) == 8 && Quoted(FORM) == 35
  {
    assert |CONTENT_TYPE| == 12 && |HOST| == 4 && |ORIGIN| == 6 && |FORM| == 33;
    NoneEscaped(CONTENT_TYPE, 0);
    NoneEscaped(HOST, 0);
    NoneEscaped(ORIGIN, 0);
    FormEscapesNothing();
  }

  lemma {:induction false} FormEscapesNothing()
    ensures Escapes(FORM, 0) == 0
  {
    NoneEscaped(FORM, 0);
  }

  lemma {:induction false} WeightsJoin(a: seq<SemanticRequests.Pair>, b: seq<SemanticRequests.Pair>, n: nat)
    requires n <= |a|
    ensures PairsWeight(a + b, n) == PairsWeight(a, n) + PairsWeight(b, 0)
    decreases |a| - n
  {
    if n < |a| {
      WeightsJoin(a, b, n + 1);
    } else {
      WeightsTail(a, b, 0);
    }
  }

  lemma {:induction false} WeightsTail(a: seq<SemanticRequests.Pair>, b: seq<SemanticRequests.Pair>, k: nat)
    requires k <= |b|
    ensures PairsWeight(a + b, |a| + k) == PairsWeight(b, k)
    decreases |b| - k
  {
    if k < |b| {
      WeightsTail(a, b, k + 1);
    }
  }

  lemma {:induction false} OneWeight(bound: map<Text, Text>, name: Text)
    ensures PairsWeight(One(bound, name), 0) == if name in bound then 4 + Quoted(name) + Quoted(bound[name]) else 0
  {
    if name in bound {
      assert PairsWeight(One(bound, name), 1) == 0;
    }
  }

  /**
   * The pairs of an approved request: a fixed content type, and two values of at most 255 units, every unit escaped.
   */
  lemma {:induction false} PairsBound(s: Semantic, bound: map<Text, Text>)
    requires IsSemantic(s, bound)
    ensures PairsWeight(s.pairs, 0) <= 1_099
  {
    NamesQuoted();
    OneWeight(bound, CONTENT_TYPE);
    OneWeight(bound, HOST);
    OneWeight(bound, ORIGIN);
    ValueQuoted(bound[HOST]);
    if ORIGIN in bound { ValueQuoted(bound[ORIGIN]); }
    WeightsJoin(One(bound, CONTENT_TYPE) + One(bound, HOST), One(bound, ORIGIN), 0);
    WeightsJoin(One(bound, CONTENT_TYPE), One(bound, HOST), 0);
  }

  /** Both proofs of a request whose target is short fit, however much of it has to be escaped. */
  lemma {:induction false} ShortTargetFits(c: Claims, bound: map<Text, Text>)
    requires Shape(c) && IsSemantic(c.request, bound) && |c.request.target| <= 32
    ensures PayloadSize(c) <= PayloadMax(RoleOf(c))
  {
    PairsBound(c.request, bound);
    FixedPart(c);
  }

  lemma {:induction false} SealFits(c: Claims, bound: map<Text, Text>, signature: Bytes) returns (header: Text)
    requires Shape(c) && IsSemantic(c.request, bound) && |c.request.target| <= 32 && Octets(signature)
             && |signature| == 64
    ensures Octets(Payload(c)) && header == Envelope(Payload(c), signature) && |header| <= HeaderMax(RoleOf(c))
    ensures DecodeProof(header, RoleOf(c)) == Good(Decoded(c, Payload(c), signature))
  {
    PayloadIsOctets(c);
    ShortTargetFits(c, bound);
    FitsExactly(c, signature);
    header := Envelope(Payload(c), signature);
    SealedIsAccepted(header, RoleOf(c), Decoded(c, Payload(c), signature));
  }

  // ------------------------------------------------------------------ one honest hop

  predicate InWindow(c: Claims, now: real, fence: real)
  {
    (c.iat - SKEW) as real <= now <= (c.exp + SKEW) as real && fence <= c.iat as real
  }

  lemma {:induction false} WireMatches(s: Semantic, bound: map<Text, Text>, hop: Hop, headers: seq<Header>)
    requires IsSemantic(s, bound) && Scan(headers, s.verb) == CleanScan(s, hop)
    ensures WireMismatch(s, Wire(s.verb, s.target, headers), Scan(headers, s.verb)) == None
  {
    ValDec(s.bodyLen);
  }

  lemma {:induction false} BoundaryClears(cfg: Config, digest: Bytes -> Text, verify: Verify, pb: Claims,
      bound: map<Text, Text>, signature: Bytes, connection: Option<Text>, headers: seq<Header>, pbHeader: Text,
      now: real)
    requires cfg.role == Pb && pb.kid == cfg.kidP && pb.aud == cfg.boundaryId && RoleOf(pb) == Pb
    requires pb.iat < pb.exp <= pb.iat + PB_MAX_LIFETIME && InWindow(pb, now, cfg.fence)
    requires IsSemantic(pb.request, bound)
    requires DecodeProof(pbHeader, Pb) == Good(Decoded(pb, Payload(pb), signature))
    requires verify(PlaneKey, PB_DOMAIN + Payload(pb), signature)
    requires Rearranges(headers, HopHeaders(pb.request, Hop(pbHeader, None, connection)))
    requires connection.Some? ==> ConnectionFine(connection.value)
    ensures Screen(cfg, digest, verify, Wire(pb.request.verb, pb.request.target, headers), now)
            == Clear(Cleared(pb, pb, pbHeader, None))
  {
    var hop := Hop(pbHeader, None, connection);
    var wire := Wire(pb.request.verb, pb.request.target, headers);
    ScansClean(headers, pb.request, bound, hop);
    assert WireMismatch(pb.request, wire, Scan(headers, wire.verb)) == None by {
      WireMatches(pb.request, bound, hop, headers);
    }
    ScreensBoundary(cfg, digest, verify, wire, now, Decoded(pb, Payload(pb), signature), pbHeader);
  }

  /** The Boundary's ordered checks, each passed. */
  lemma {:induction false} ScreensBoundary(cfg: Config, digest: Bytes -> Text, verify: Verify, wire: Wire, now: real,
      d: Decoded, pbHeader: Text)
    requires cfg.role == Pb
    requires var scan := Scan(wire.headers, wire.verb);
             && scan.pb == [pbHeader] && scan.ba == [] && scan.nonces == [] && scan.violation == None
             && WireMismatch(d.claims.request, wire, scan) == None
    requires DecodeProof(pbHeader, Pb) == Good(d) && CheckWindow(d.claims, cfg.Own(), now) == None
             && SignedBy(verify, PlaneKey, Pb, d)
    ensures Screen(cfg, digest, verify, wire, now) == Clear(Cleared(d.claims, d.claims, pbHeader, None))
  {
  }

  lemma {:induction false} AppClears(cfg: Config, digest: Bytes -> Text, verify: Verify, pb: Claims, ba: Claims,
      bound: map<Text, Text>, signatureP: Bytes, signatureB: Bytes, connection: Option<Text>, headers: seq<Header>,
      pbHeader: Text, baHeader: Text, now: real)
    requires cfg.role == Ba && pb.kid == cfg.kidP && pb.aud == cfg.boundaryId && ba.kid == cfg.kidB
             && ba.aud == cfg.appId
    requires RoleOf(pb) == Pb && CommitsTo(digest, ba, pb, pbHeader)
    requires pb.iat < pb.exp <= pb.iat + PB_MAX_LIFETIME && InWindow(pb, now, cfg.fence)
    requires ba.iat < ba.exp <= ba.iat + BA_MAX_LIFETIME && InWindow(ba, now, cfg.fence)
    requires IsSemantic(pb.request, bound)
    requires DecodeProof(pbHeader, Pb) == Good(Decoded(pb, Payload(pb), signatureP))
    requires DecodeProof(baHeader, Ba) == Good(Decoded(ba, Payload(ba), signatureB))
    requires verify(PlaneKey, PB_DOMAIN + Payload(pb), signatureP)
             && verify(BoundaryKey, BA_DOMAIN + Payload(ba), signatureB)
    requires Rearranges(headers, HopHeaders(pb.request, Hop(pbHeader, Some(baHeader), connection)))
    requires connection.Some? ==> ConnectionFine(connection.value)
    ensures Screen(cfg, digest, verify, Wire(pb.request.verb, pb.request.target, headers), now)
            == Clear(Cleared(ba, pb, pbHeader, None))
  {
    var hop := Hop(pbHeader, Some(baHeader), connection);
    var wire := Wire(pb.request.verb, pb.request.target, headers);
    ScansClean(headers, pb.request, bound, hop);
    assert WireMismatch(ba.request, wire, Scan(headers, wire.verb)) == None by {
      WireMatches(pb.request, bound, hop, headers);
    }
    assert Upstream(cfg, digest, verify, ba, pbHeader, now) == (None, Some(pb)) by {
      LineageClears(cfg, digest, verify, pb, ba, signatureP, pbHeader, now);
    }
    ScreensApp(cfg, digest, verify, wire, now, Decoded(ba, Payload(ba), signatureB), pb, pbHeader, baHeader);
  }

  lemma {:induction false} LineageClears(cfg: Config, digest: Bytes -> Text, verify: Verify, pb: Claims, ba: Claims,
      signatureP: Bytes, pbHeader: Text, now: real)
    requires pb.kid == cfg.kidP && pb.aud == cfg.boundaryId && RoleOf(pb) == Pb && CommitsTo(digest, ba, pb, pbHeader)
    requires pb.iat < pb.exp <= pb.iat + PB_MAX_LIFETIME && InWindow(pb, now, cfg.fence)
    requires DecodeProof(pbHeader, Pb) == Good(Decoded(pb, Payload(pb), signatureP))
    requires verify(PlaneKey, PB_DOMAIN + Payload(pb), signatureP)
    ensures Upstream(cfg, digest, verify, ba, pbHeader, now) == (None, Some(pb))
  {
  }

  /** The App's ordered checks, each passed. */
  lemma {:induction false} ScreensApp(cfg: Config, digest: Bytes -> Text, verify: Verify, wire: Wire, now: real,
      d: Decoded, pb: Claims, pbHeader: Text, baHeader: Text)
    requires cfg.role == Ba
    requires var scan := Scan(wire.headers, wire.verb);
             && scan.pb == [pbHeader] && scan.ba == [baHeader] && scan.nonces == [] && scan.violation == None
             && WireMismatch(d.claims.request, wire, scan) == None
    requires DecodeProof(baHeader, Ba) == Good(d) && CheckWindow(d.claims, cfg.Own(), now) == None
             && SignedBy(verify, BoundaryKey, Ba, d)
    requires Upstream(cfg, digest, verify, d.claims, pbHeader, now) == (None, Some(pb))
    ensures Screen(cfg, digest, verify, wire, now) == Clear(Cleared(d.claims, pb, pbHeader, None))
  {
  }

  // ------------------------------------------------------------------ reservation and body

  /** None of the keys is remembered, and there is room. */
  predicate Unreplayed(g: ReplayGuards.Guard, role: Role, c: Cleared)
  {
    ReplayGuards.Absent(g.entries, Wants(role, c)) && |g.entries| + |Wants(role, c)| <= g.capacity
  }

  lemma {:induction false} KeysDiffer(role: Role, c: Cleared)
    ensures ReplayGuards.DistinctKeys(Wants(role, c))
  {
    if role == Ba {
      assert (BA_SPACE + c.own.jti)[0] == 'b' as int && (LN_SPACE + c.pb.jti)[0] == 'l' as int;
    }
  }

  lemma {:induction false} FreshIsGranted(g: ReplayGuards.Guard, wants: seq<ReplayGuards.Want>, mono: real)
    requires ReplayGuards.Absent(g.entries, wants) && ReplayGuards.DistinctKeys(wants)
             && |g.entries| + |wants| <= g.capacity
    ensures ReplayGuards.Reserve(g, wants, mono).1 == ReplayGuards.Granted
  {
    var kept := ReplayGuards.Retained(g.entries, mono);
    ReplayGuards.Tallies.Smaller(kept.Keys, g.entries.Keys);
    assert !ReplayGuards.AnyPresent(g.entries, wants) && !ReplayGuards.AnyPresent(kept, wants);
  }

  /** SHA-256 as far as the chain depends on it: 32 octets, and the constant of the empty message. */
  ghost predicate DigestLike(digest: Bytes -> Text)
  {
    digest([]) == EMPTY_BODY && forall b: Bytes :: IsDigest(digest(b))
  }

  /** The body as approved: nothing on a GET. */
  function ApprovedBody(request: LayerRequest): Bytes
  {
    if request.verb == POST && request.body.Some? then request.body.value else []
  }

  lemma {:induction false} IntactBody(digest: Bytes -> Text, request: LayerRequest, s: Semantic, c: Cleared)
    requires DigestLike(digest) && Approve(digest, request).Approved? && Approve(digest, request).request == s
    requires c.own.request == s
    ensures Finish(digest, c, Whole(ApprovedBody(request)), Agrees) == Admitted(c, ApprovedBody(request))
  {
    var bound := ApprovedIsSemantic(digest, request, s);
    VerbsDiffer();
    if s.bodyLen == 0 && s.verb == POST { assert request.body.value == []; }
  }

  lemma {:induction false} VerbsDiffer()
    ensures GET != POST
  {
    assert GET[0] != POST[0];
  }

  // ------------------------------------------------------------------ the chain

  /** Everything of one honest journey that is not decided by the request itself. */
  datatype Journey = Journey(
    plane: Issuer, stampP: Stamp, hop: nat, corr: Text, signatureP: Bytes,
    boundary: Issuer, stampB: Stamp, signatureB: Bytes,
    atBoundary: real, atApp: real, monoBoundary: real, monoApp: real,
    connectionB: Option<Text>, connectionA: Option<Text>, headersB: seq<Header>, headersA: seq<Header>)

  predicate WellIssued(j: Journey)
  {
    && CanIssue(j.plane, Pb, j.stampP) && CanIssue(j.boundary, Ba, j.stampB) && 1 <= j.hop <= MAX_SAFE && IsId(j.corr)
    && Octets(j.signatureP) && |j.signatureP| == 64 && Octets(j.signatureB) && |j.signatureB| == 64
    && (j.connectionB.Some? ==> ConnectionFine(j.connectionB.value))
      && (j.connectionA.Some? ==> ConnectionFine(j.connectionA.value))
  }

  function PlaneProof(j: Journey, s: Semantic): Claims { IssuePb(j.plane, s, j.stampP, j.hop, j.corr) }

  function SealHeader(c: Claims, signature: Bytes): Text
  {
    if Octets(Payload(c)) && Octets(signature) then Envelope(Payload(c), signature) else []
  }

  function PbHeader(j: Journey, s: Semantic): Text { SealHeader(PlaneProof(j, s), j.signatureP) }

  function BoundaryProof(j: Journey, digest: Bytes -> Text, s: Semantic): Claims
  {
    IssueBa(j.boundary, digest, PlaneProof(j, s), PbHeader(j, s), j.stampB)
  }

  function BaHeader(j: Journey, digest: Bytes -> Text, s: Semantic): Text
  {
    SealHeader(BoundaryProof(j, digest, s), j.signatureB)
  }

  /** The headers arrive as emitted, in any order and letter case. */
  ghost predicate Arrives(j: Journey, digest: Bytes -> Text, s: Semantic)
  {
    && Rearranges(j.headersB, HopHeaders(s, Hop(PbHeader(j, s), None, j.connectionB)))
    && Rearranges(j.headersA, HopHeaders(s, Hop(PbHeader(j, s), Some(BaHeader(j, digest, s)), j.connectionA)))
  }

  predicate Signed(j: Journey, digest: Bytes -> Text, verify: Verify, s: Semantic)
  {
    && verify(PlaneKey, PB_DOMAIN + Payload(PlaneProof(j, s)), j.signatureP)
    && verify(BoundaryKey, BA_DOMAIN + Payload(BoundaryProof(j, digest, s)), j.signatureB)
  }

  /** The verifiers know these issuers, and each proof is in its window wherever it is checked. */
  predicate Timely(j: Journey, digest: Bytes -> Text, s: Semantic, boundary: Config, app: Config)
  {
    var pb, ba := PlaneProof(j, s), BoundaryProof(j, digest, s);
    && boundary.role == Pb && app.role == Ba
    && boundary.kidP == app.kidP == j.plane.kid && boundary.boundaryId == app.boundaryId == j.plane.audience
    && app.kidB == j.boundary.kid && app.appId == j.boundary.audience
    && InWindow(pb, j.atBoundary, boundary.fence) && InWindow(pb, j.atApp, app.fence)
      && InWindow(ba, j.atApp, app.fence)
  }

  function AtBoundary(j: Journey, s: Semantic): Cleared
  {
    Cleared(PlaneProof(j, s), PlaneProof(j, s), PbHeader(j, s), None)
  }

  function AtApp(j: Journey, digest: Bytes -> Text, s: Semantic): Cleared
  {
    Cleared(BoundaryProof(j, digest, s), PlaneProof(j, s), PbHeader(j, s), None)
  }

  lemma {:induction false} ProofsFit(digest: Bytes -> Text, s: Semantic, bound: map<Text, Text>, j: Journey)
    requires DigestLike(digest) && IsSemantic(s, bound) && (s.verb == POST ==> IsDigest(s.bodySha)) && |s.target| <= 32
    requires WellIssued(j)
    ensures |PbHeader(j, s)| <= PB_HEADER_MAX && |BaHeader(j, digest, s)| <= BA_HEADER_MAX
    ensures DecodeProof(PbHeader(j, s), Pb) == Good(Decoded(PlaneProof(j, s), Payload(PlaneProof(j, s)), j.signatureP))
    ensures var ba := BoundaryProof(j, digest, s);
            DecodeProof(BaHeader(j, digest, s), Ba) == Good(Decoded(ba, Payload(ba), j.signatureB))
  {
    ApprovedShape(s, bound);
    IssuedPbShape(j.plane, s, j.stampP, j.hop, j.corr);
    var header := SealFits(PlaneProof(j, s), bound, j.signatureP);
    IssuedBaShape(j.boundary, digest, PlaneProof(j, s), PbHeader(j, s), j.stampB);
    header := SealFits(BoundaryProof(j, digest, s), bound, j.signatureB);
  }

  lemma {:induction false} GatedIsSemantic(digest: Bytes -> Text, request: LayerRequest)
    returns (bound: map<Text, Text>)
    requires DigestLike(digest) && ShapeGates.Evaluate(request) == ShapeGates.Pass && Approve(digest, request).Approved?
    ensures var s := Approve(digest, request).request;
            IsSemantic(s, bound) && (s.verb == POST ==> IsDigest(s.bodySha)) && |s.target| <= 32
  {
    var s := Approve(digest, request).request;
    bound := ApprovedIsSemantic(digest, request, s);
    ShapeGates.PassedTargetIsShort(request);
  }

  /**
   * For every request that passes the shape gate and that the plane approves: both proofs fit their header bounds, both
   * verifiers clear the emitted headers, whatever their order, both reservations are granted when the ids are unseen
   * and there is room, and both verifiers admit the intact body.
   */
  lemma {:induction false} HonestChainIsAdmitted(digest: Bytes -> Text, verify: Verify, request: LayerRequest,
      j: Journey, boundary: Config, app: Config, g: ReplayGuards.Guard, h: ReplayGuards.Guard)
    requires DigestLike(digest) && ShapeGates.Evaluate(request) == ShapeGates.Pass
             && Approve(digest, request).Approved? && WellIssued(j)
    requires var s := Approve(digest, request).request;
             && Arrives(j, digest, s) && Signed(j, digest, verify, s) && Timely(j, digest, s, boundary, app)
             && Unreplayed(g, Pb, AtBoundary(j, s)) && Unreplayed(h, Ba, AtApp(j, digest, s))
    ensures var s := Approve(digest, request).request;
            && |PbHeader(j, s)| <= PB_HEADER_MAX && |BaHeader(j, digest, s)| <= BA_HEADER_MAX
            && Begin(boundary, digest, verify, g, Wire(s.verb, s.target, j.headersB), j.atBoundary, j.monoBoundary).1
              == Waiting(AtBoundary(j, s))
            && Begin(app, digest, verify, h, Wire(s.verb, s.target, j.headersA), j.atApp, j.monoApp).1
              == Waiting(AtApp(j, digest, s))
    ensures var s, body := Approve(digest, request).request, Whole(ApprovedBody(request));
            && Finish(digest, AtBoundary(j, s), body, Agrees) == Admitted(AtBoundary(j, s), ApprovedBody(request))
            && Finish(digest, AtApp(j, digest, s), body, Agrees) == Admitted(AtApp(j, digest, s), ApprovedBody(request))
  {
    var s := Approve(digest, request).request;
    var bound := GatedIsSemantic(digest, request);
    ProofsFit(digest, s, bound, j);
    HonestBoundary(digest, verify, s, bound, j, boundary, app, g);
    HonestApp(digest, verify, s, bound, j, boundary, app, h);
    IntactBody(digest, request, s, AtBoundary(j, s));
    IntactBody(digest, request, s, AtApp(j, digest, s));
  }

  lemma {:induction false} HonestBoundary(digest: Bytes -> Text, verify: Verify, s: Semantic, bound: map<Text, Text>,
      j: Journey, boundary: Config, app: Config, g: ReplayGuards.Guard)
    requires IsSemantic(s, bound) && WellIssued(j) && Arrives(j, digest, s) && Signed(j, digest, verify, s)
    requires Timely(j, digest, s, boundary, app) && Unreplayed(g, Pb, AtBoundary(j, s))
    requires DecodeProof(PbHeader(j, s), Pb) == Good(Decoded(PlaneProof(j, s), Payload(PlaneProof(j, s)), j.signatureP))
    ensures Begin(boundary, digest, verify, g, Wire(s.verb, s.target, j.headersB), j.atBoundary, j.monoBoundary).1
            == Waiting(AtBoundary(j, s))
  {
    BoundaryClears(boundary, digest, verify, PlaneProof(j, s), bound, j.signatureP, j.connectionB, j.headersB,
      PbHeader(j, s), j.atBoundary);
    KeysDiffer(Pb, AtBoundary(j, s));
    FreshIsGranted(g, Wants(Pb, AtBoundary(j, s)), j.monoBoundary);
  }

  lemma {:induction false} HonestApp(digest: Bytes -> Text, verify: Verify, s: Semantic, bound: map<Text, Text>,
      j: Journey, boundary: Config, app: Config, h: ReplayGuards.Guard)
    requires IsSemantic(s, bound) && WellIssued(j) && Arrives(j, digest, s) && Signed(j, digest, verify, s)
    requires Timely(j, digest, s, boundary, app) && Unreplayed(h, Ba, AtApp(j, digest, s))
    requires DecodeProof(PbHeader(j, s), Pb) == Good(Decoded(PlaneProof(j, s), Payload(PlaneProof(j, s)), j.signatureP))
    requires var ba := BoundaryProof(j, digest, s);
             DecodeProof(BaHeader(j, digest, s), Ba) == Good(Decoded(ba, Payload(ba), j.signatureB))
    ensures Begin(app, digest, verify, h, Wire(s.verb, s.target, j.headersA), j.atApp, j.monoApp).1
            == Waiting(AtApp(j, digest, s))
  {
    AppClears(app, digest, verify, PlaneProof(j, s), BoundaryProof(j, digest, s), bound, j.signatureP, j.signatureB,
              j.connectionA, j.headersA, PbHeader(j, s), BaHeader(j, digest, s), j.atApp);
    KeysDiffer(Ba, AtApp(j, digest, s));
    FreshIsGranted(h, Wants(Ba, AtApp(j, digest, s)), j.monoApp);
  }
}
