/**
 * The ordered admission of a hop verifier (defense/core/hop-admission.ts), the Boundary's and the App's alike: cheap
 * checks first, then signatures, then the atomic reservation, and only then the body. A reservation is committed by an
 * admission and burned by anything else. Signature verification and the digest are parameters.
 */
module HopAdmissions {
  import opened Base
  import opened Decimals
  import opened Requests
  import opened SemanticRequests
  import opened HopProofs
  import opened ReplayGuards

  const RETAIN_PB := PB_MAX_LIFETIME + 2 * SKEW + 1_000
  const RETAIN_BA := BA_MAX_LIFETIME + 2 * SKEW + 1_000

  datatype Key = PlaneKey | BoundaryKey

  /** Whether octets are a signature of a message under a key. */
  type Verify = (Key, Bytes, Bytes) -> bool

  datatype Config = Config(role: Role, kidP: Text, kidB: Text, boundaryId: Text, appId: Text, fence: real)
  {
    function Own(): Verifier { if role == Pb then Verifier(kidP, boundaryId, fence) else Verifier(kidB, appId, fence) }
    function Upstream(): Verifier { Verifier(kidP, boundaryId, fence) }
    function OwnKey(): Key { if role == Pb then PlaneKey else BoundaryKey }
  }

  datatype Wire = Wire(verb: Text, url: Text, headers: seq<Header>)

  datatype Reason =
    | ProofMissing | ProofDuplicate | LineageMissing | Scanned(v: Violation) | Undecodable(r: Refusal)
      | Unacceptable(w: WindowReason)
    | MethodMismatch | TargetMismatch | HeaderMismatch | LengthMismatch | SignatureInvalid | LineageMismatch
    | ReplayRefused | CacheFull | ContentIncomplete | DigestMismatch | CanonError

  // -------------------- steps 1 to 6: nothing is reserved, nothing is read

  function OwnProofs(role: Role, scan: HopScan): seq<Text> { if role == Pb then scan.pb else scan.ba }

  function Presence(role: Role, scan: HopScan): Option<Reason>
  {
    var own := OwnProofs(role, scan);
    if own == [] then Some(ProofMissing)
    else if |own| > 1 then Some(ProofDuplicate)
    else if role == Pb && scan.ba != [] then Some(Scanned(HeaderUnbound))
    else if role == Ba && scan.pb == [] then Some(LineageMissing)
    else if role == Ba && |scan.pb| > 1 then Some(ProofDuplicate)
    else if scan.violation.Some? then Some(Scanned(scan.violation.value))
    else None
  }

  /** The declared length, when it is one numeral. */
  function Declared(scan: HopScan): Option<nat>
  {
    if scan.lengths != [] && AllDigits(scan.lengths[0]) then Some(Val(scan.lengths[0])) else None
  }

  function WireMismatch(wanted: Semantic, wire: Wire, scan: HopScan): Option<Reason>
  {
    if wire.verb != wanted.verb then Some(MethodMismatch)
    else if wire.url != wanted.target then Some(TargetMismatch)
    else if scan.pairs != wanted.pairs then Some(HeaderMismatch)
    else if wanted.verb == POST && Declared(scan) != Some(wanted.bodyLen) then Some(LengthMismatch)
    else None
  }

  predicate SignedBy(verify: Verify, key: Key, role: Role, d: Decoded)
  {
    verify(key, Domain(role) + d.payload, d.signature)
  }

  /** The Boundary proof commits to this very Plane proof and repeats its request. */
  predicate CommitsTo(digest: Bytes -> Text, own: Claims, pb: Claims, pbHeader: Text)
  {
    own.lineage == Some(Lineage(pb.jti, digest(pbHeader))) && own.hop == pb.hop && own.corr == pb.corr
      && own.request == pb.request
  }

  /** The Plane proof behind a Boundary proof, or why it is refused. */
  function Upstream(cfg: Config, digest: Bytes -> Text, verify: Verify, own: Claims, pbHeader: Text,
      now: real): (Option<Reason>, Option<Claims>)
  {
    match DecodeProof(pbHeader, Pb)
    case Bad(refusal) => (Some(Undecodable(refusal)), None)
    case Good(d) =>
      var window := CheckWindow(d.claims, cfg.Upstream(), now);
      if window.Some? then (Some(Unacceptable(window.value)), None)
      else if !CommitsTo(digest, own, d.claims, pbHeader) then (Some(LineageMismatch), None)
      else if !SignedBy(verify, PlaneKey, Pb, d) then (Some(SignatureInvalid), None)
      else (None, Some(d.claims))
  }

  /** What a request carries past step 6: its own claims, the Plane's, and whom a later refusal is attributed to. */
  datatype Cleared = Cleared(own: Claims, pb: Claims, pbHeader: Text, tag: Option<Text>)
  {
    function Attributed(): Text { if tag.Some? then tag.value else own.corr }
  }

  datatype Screening = Refuse(reason: Reason, nonce: Option<Text>) | Clear(cleared: Cleared)

  /** The harness correlation tag, when there is exactly one well-formed one. */
  function TagIn(scan: HopScan): Option<Text>
  {
    if |scan.nonces| == 1 && IsId(scan.nonces[0]) then Some(scan.nonces[0]) else None
  }

  function Screen(cfg: Config, digest: Bytes -> Text, verify: Verify, wire: Wire, now: real): Screening
  {
    var scan := Scan(wire.headers, wire.verb);
    var tag := TagIn(scan);
    var absent := Presence(cfg.role, scan);
    if absent.Some? then Refuse(absent.value, tag)
    else
      match DecodeProof(OwnProofs(cfg.role, scan)[0], cfg.role)
      case Bad(refusal) => Refuse(Undecodable(refusal), tag)
      case Good(d) =>
        var window := CheckWindow(d.claims, cfg.Own(), now);
        var mismatch := WireMismatch(d.claims.request, wire, scan);
        if window.Some? then Refuse(Unacceptable(window.value), tag)
        else if mismatch.Some? then Refuse(mismatch.value, tag)
        else if !SignedBy(verify, cfg.OwnKey(), cfg.role, d) then Refuse(SignatureInvalid, tag)
        else if cfg.role == Pb then Clear(Cleared(d.claims, d.claims, scan.pb[0], tag))
        else
          var (why, pb) := Upstream(cfg, digest, verify, d.claims, scan.pb[0], now);
          if pb.None? then Refuse(if why.Some? then why.value else CanonError,
            Some(if tag.Some? then tag.value else d.claims.corr))
          else Clear(Cleared(d.claims, pb.value, scan.pb[0], tag))
  }

  // ------------------------------------------------------------------ step 7

  const PB_SPACE := T("pb:")
  const BA_SPACE := T("ba:")
  const LN_SPACE := T("ln:")

  function Wants(role: Role, c: Cleared): seq<Want>
  {
    if role == Pb then [Want(PB_SPACE + c.pb.jti, RETAIN_PB)]
    else [Want(BA_SPACE + c.own.jti, RETAIN_BA), Want(LN_SPACE + c.pb.jti, RETAIN_PB)]
  }

  datatype Begun = Stopped(reason: Reason, nonce: Option<Text>) | Waiting(cleared: Cleared)

  /** The atomic reservation for a cleared request. */
  function ReserveFor(role: Role, g: Guard, c: Cleared, mono: real): (Guard, Begun)
  {
    var (n, r) := Reserve(g, Wants(role, c), mono);
    (n, match r
        case Granted => Waiting(c)
        case Replayed => Stopped(ReplayRefused, Some(c.Attributed()))
        case Full => Stopped(CacheFull, Some(c.Attributed())))
  }

  function ReserveScreened(role: Role, g: Guard, s: Screening, mono: real): (Guard, Begun)
  {
    match s
    case Refuse(reason, nonce) => (g, Stopped(reason, nonce))
    case Clear(c) => ReserveFor(role, g, c, mono)
  }

  /** Steps 1 to 7: one synchronous stretch, with one reading of each clock. */
  function Begin(cfg: Config, digest: Bytes -> Text, verify: Verify, g: Guard, wire: Wire, wall: real,
      mono: real): (Guard, Begun)
  {
    ReserveScreened(cfg.role, g, Screen(cfg, digest, verify, wire, wall), mono)
  }

  // ------------------------------------------------------------------ steps 8 and 9

  datatype BodyRead = Whole(body: Bytes) | Incomplete | Overflow

  /** The caller's last comparison of its own header view with the claims: absent, equal, different, or it threw. */
  datatype CrossCheck = Unchecked | Agrees | Differs | Throws

  datatype Outcome = Declined(reason: Reason, nonce: Option<Text>) | Admitted(cleared: Cleared, body: Bytes)

  function BodyOf(wanted: Semantic, read: BodyRead): Bytes
  {
    if wanted.bodyLen > 0 && read.Whole? then read.body else []
  }

  function BodyFault(digest: Bytes -> Text, wanted: Semantic, read: BodyRead): Option<Reason>
  {
    if wanted.bodyLen > MAX_BODY then Some(LengthMismatch)
    else if wanted.bodyLen > 0 && read.Incomplete? then Some(ContentIncomplete)
    else if wanted.bodyLen > 0 && read.Overflow? then Some(LengthMismatch)
    else if (if wanted.bodyLen == 0 then EMPTY_BODY else digest(BodyOf(wanted, read))) != wanted.bodySha then
      Some(DigestMismatch)
    else None
  }

  function Finish(digest: Bytes -> Text, c: Cleared, read: BodyRead, cross: CrossCheck): Outcome
  {
    var fault := BodyFault(digest, c.own.request, read);
    if fault.Some? then Declined(fault.value, Some(c.Attributed()))
    else if cross == Differs then Declined(CanonError, Some(c.Attributed()))
    else if cross == Throws then Declined(CanonError, c.tag)
    else Admitted(c, BodyOf(c.own.request, read))
  }

  function Settlement(o: Outcome): EntryState { if o.Admitted? then Committed else Burned }

  // ------------------------------------------------------------------ what clearance means

  /** A verified proof of a role with these claims. */
  ghost predicate Vouched(verify: Verify, key: Key, role: Role, header: Text, claims: Claims)
  {
    var r := DecodeProof(header, role); r.Good? && r.value.claims == claims && SignedBy(verify, key, role, r.value)
  }

  lemma {:induction false} UpstreamMeans(cfg: Config, digest: Bytes -> Text, verify: Verify, own: Claims,
      pbHeader: Text, now: real, pb: Claims)
    requires Upstream(cfg, digest, verify, own, pbHeader, now).1 == Some(pb)
    ensures own.request == pb.request && CommitsTo(digest, own, pb, pbHeader)
            && CheckWindow(pb, cfg.Upstream(), now) == None
    ensures Vouched(verify, PlaneKey, Pb, pbHeader, pb)
  {
  }

  /** Everything a cleared request has been checked for: both proofs are vouched for, and the wire is what they say. */
  lemma {:induction false} ClearedMeans(cfg: Config, digest: Bytes -> Text, verify: Verify, wire: Wire, now: real,
      c: Cleared)
    requires Screen(cfg, digest, verify, wire, now) == Clear(c)
    ensures c.own.request == c.pb.request && (cfg.role == Pb ==> c.own == c.pb)
    ensures wire.verb == c.own.request.verb && wire.url == c.own.request.target
    ensures var scan := Scan(wire.headers, wire.verb); scan.violation == None && scan.pairs == c.own.request.pairs
    ensures CheckWindow(c.own, cfg.Own(), now) == None && CheckWindow(c.pb, cfg.Upstream(), now) == None
    ensures Vouched(verify, PlaneKey, Pb, c.pbHeader, c.pb)
    ensures exists header :: Vouched(verify, cfg.OwnKey(), cfg.role, header, c.own)
    ensures cfg.role == Ba ==> CommitsTo(digest, c.own, c.pb, c.pbHeader)
  {
    var scan := Scan(wire.headers, wire.verb);
    assert Vouched(verify, cfg.OwnKey(), cfg.role, OwnProofs(cfg.role, scan)[0], c.own);
    if cfg.role == Ba {
      UpstreamMeans(cfg, digest, verify, c.own, scan.pb[0], now, c.pb);
    }
  }

  // ------------------------------------------------------------------ the object

  class HopVerifier {
    const cfg: Config
    const digest: Bytes -> Text
    const guard: ReplayGuard

    constructor (cfg: Config, digest: Bytes -> Text, capacity: int)
      requires SafePositive(capacity)
      ensures this.cfg == cfg && this.digest == digest && fresh(guard) && guard.State() == Empty(capacity)
    {
      this.cfg, this.digest := cfg, digest;
      guard := new ReplayGuard(capacity);
    }

    /** The Plane proof carried as lineage. */
    method ScreenLineage(own: Claims, header: Text, verify: Verify, wall: real)
      returns (why: Option<Reason>, pb: Option<Claims>)
      ensures (why, pb) == Upstream(cfg, digest, verify, own, header, wall)
    {
      var lineage := DecodeProof(header, Pb);
      if lineage.Bad? { return Some(Undecodable(lineage.refusal)), None; }
      var claims := lineage.value.claims;
      var window := CheckWindow(claims, cfg.Upstream(), wall);
      if window.Some? { return Some(Unacceptable(window.value)), None; }
      if !CommitsTo(digest, own, claims, header) { return Some(LineageMismatch), None; }
      if !SignedBy(verify, PlaneKey, Pb, lineage.value) { return Some(SignatureInvalid), None; }
      return None, Some(claims);
    }

    /** Steps 1 to 6, in order. */
    method ScreenRequest(wire: Wire, verify: Verify, wall: real) returns (s: Screening)
      ensures s == Screen(cfg, digest, verify, wire, wall)
    {
      var scan := ScanHopHeaders(wire.headers, wire.verb);
      var tag := TagIn(scan);
      var absent := Presence(cfg.role, scan);
      if absent.Some? { return Refuse(absent.value, tag); }
      var decoded := DecodeProof(OwnProofs(cfg.role, scan)[0], cfg.role);
      if decoded.Bad? { return Refuse(Undecodable(decoded.refusal), tag); }
      var own := decoded.value.claims;
      var window := CheckWindow(own, cfg.Own(), wall);
      if window.Some? { return Refuse(Unacceptable(window.value), tag); }
      var mismatch := WireMismatch(own.request, wire, scan);
      if mismatch.Some? { return Refuse(mismatch.value, tag); }
      if !SignedBy(verify, cfg.OwnKey(), cfg.role, decoded.value) { return Refuse(SignatureInvalid, tag); }
      if cfg.role == Pb { return Clear(Cleared(own, own, scan.pb[0], tag)); }
      var why, pb := ScreenLineage(own, scan.pb[0], verify, wall);
      if pb.None? {
        return Refuse(if why.Some? then why.value else CanonError, Some(if tag.Some? then tag.value else own.corr));
      }
      return Clear(Cleared(own, pb.value, scan.pb[0], tag));
    }

    /** Up to the reservation; what is still to do waits in the ticket. */
    method BeginAdmission(wire: Wire, verify: Verify, wall: real, mono: real)
      returns (begun: Begun, ticket: ReplayTicket?)
      modifies guard
      ensures (guard.State(), begun) == Begin(cfg, digest, verify, old(guard.State()), wire, wall, mono)
      ensures begun.Waiting? <==> ticket != null
      ensures ticket != null ==>
                fresh(ticket) && ticket.guard == guard && !ticket.settled
                && ticket.keys == KeysOf(Wants(cfg.role, begun.cleared))
    {
      var screened := ScreenRequest(wire, verify, wall);
      begun, ticket := ReserveTicket(screened, mono);
    }

    method ReserveTicket(screened: Screening, mono: real) returns (begun: Begun, ticket: ReplayTicket?)
      modifies guard
      ensures (guard.State(), begun) == ReserveScreened(cfg.role, old(guard.State()), screened, mono)
      ensures begun.Waiting? <==> ticket != null
      ensures ticket != null ==>
                fresh(ticket) && ticket.guard == guard && !ticket.settled
                && ticket.keys == KeysOf(Wants(cfg.role, begun.cleared))
    {
      if screened.Refuse? { return Stopped(screened.reason, screened.nonce), null; }
      var c := screened.cleared;
      var wants := Wants(cfg.role, c);
      var reserved := guard.ReserveAll(wants, mono);
      if reserved == Full { return Stopped(CacheFull, Some(c.Attributed())), null; }
      if reserved == Replayed { return Stopped(ReplayRefused, Some(c.Attributed())), null; }
      begun := Waiting(c);
      ticket := new ReplayTicket(guard, KeysOf(wants));
    }

    /** The body, its digest and the caller's cross-check; the ticket is settled whatever happens. */
    method FinishAdmission(c: Cleared, ticket: ReplayTicket, read: BodyRead, cross: CrossCheck)
      returns (outcome: Outcome)
      requires ticket.guard == guard && !ticket.settled
      modifies guard, ticket
      ensures outcome == Finish(digest, c, read, cross) && ticket.settled
      ensures guard.State() == TransitAll(old(guard.State()), ticket.keys, Settlement(outcome), |ticket.keys|)
    {
      var wanted := c.own.request;
      var fault := BodyFault(digest, wanted, read);
      if fault.Some? {
        outcome := Declined(fault.value, Some(c.Attributed()));
      } else if cross == Throws {
        outcome := Declined(CanonError, c.tag);
      } else if cross == Differs {
        outcome := Declined(CanonError, Some(c.Attributed()));
      } else {
        ticket.Settle(Committed);
        return Admitted(c, BodyOf(wanted, read));
      }
      ticket.Settle(Burned);
    }
  }
}
