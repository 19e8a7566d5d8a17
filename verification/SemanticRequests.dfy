/**
 * The closed semantic request (defense/core/semantic-request.ts): what the plane approves, what a hop emits and what a
 * verifier reconstructs from the raw header list. The digest function is a parameter.
 */
module SemanticRequests {
  import opened Base
  import opened Decimals
  import opened Requests

  const CONTENT_TYPE := T("content-type")
  const HOST := T("host")
  const ORIGIN := T("origin")
  const CONTENT_LENGTH := T("content-length")
  const CONNECTION := T("connection")
  const NONCE := T("x-ba0-nonce")
  const HOP_PB := T("x-ba0-hop-pb")
  const HOP_BA := T("x-ba0-hop-ba")
  const FORM := T("application/x-www-form-urlencoded")
  const EMPTY_BODY := T("47DEQpj8HBSa-_T") + T("ImW-5JCeuQeRkm") + T("5NMpJWZG3hSuFU")
  const CLOSE := T("close")
  const KEEP_ALIVE := T("keep-alive")
  const MAX_VALUE := 255
  const MAX_BODY := 32_768

  const REFUSED_HEADERS: set<Text> := {
    T("content-encoding"), T("transfer-encoding"), T("expect"), T("upgrade"), T("te"), T("trailer"), T("range"),
    T("if-range"), T("proxy-authorization"), T("authorization")}
  const SPOOFABLE_NAMES: set<Text> := {
    T("forwarded"), T("x-real-ip"), T("x-client-ip"), T("true-client-ip"), T("cf-connecting-ip"), T("cf-ipcountry"),
    T("x-original-url"), T("x-rewrite-url"), T("x-http-method-override")}

  // ------------------------------------------------------------------ names and values

  /** String.prototype.toLowerCase on the Latin-1 units a header line can hold. */
  function LowerUnit(u: int): int { if 65 <= u <= 90 || (192 <= u <= 222 && u != 215) then u + 32 else u }

  function Lower(t: Text): Text { seq(|t|, i requires 0 <= i < |t| => LowerUnit(t[i])) }

  datatype HeaderClass =
    Bound | Derived | Transport | Measurement | ProofPb | ProofBa | Refused | Spoofable | Indicator | Dropped

  predicate IsSpoofable(name: Text)
  {
    || StartsWith(name, T("x-ba0-")) || StartsWith(name, T("x-forwarded-")) || StartsWith(name, T("x-limitmark-"))
    || StartsWith(name, T("x-vercel-")) || name in SPOOFABLE_NAMES
  }

  /** Total on names. */
  function Classify(name: Text): HeaderClass
  {
    if name == CONTENT_TYPE || name == HOST || name == ORIGIN then Bound
    else if name == CONTENT_LENGTH then Derived
    else if name == CONNECTION then Transport
    else if name == NONCE then Measurement
    else if name == HOP_PB then ProofPb
    else if name == HOP_BA then ProofBa
    else if name in REFUSED_HEADERS then Refused
    else if IsSpoofable(name) then Spoofable
    else if StartsWith(name, T("cf-")) then Indicator
    else Dropped
  }

  predicate Ows(u: int) { u == 32 || u == 9 }

  function TrimLeft(t: Text): (r: Text)
    ensures |r| <= |t|
  {
    if t != [] && Ows(t[0]) then TrimLeft(t[1..]) else t
  }

  function TrimRight(t: Text): (r: Text)
    ensures |r| <= |t|
  {
    if t != [] && Ows(t[|t| - 1]) then TrimRight(t[..|t| - 1]) else t
  }

  function Trim(t: Text): Text { TrimRight(TrimLeft(t)) }

  predicate Visible(u: int) { 0x21 <= u <= 0x7e }
  predicate Printed(u: int) { 0x20 <= u <= 0x7e }

  /** Units from index `i` on are printable. */
  predicate PrintedFrom(t: Text, i: nat)
    requires i <= |t|
    decreases |t| - i
  {
    i < |t| ==> Printed(t[i]) && PrintedFrom(t, i + 1)
  }

  /** ^[\x21-\x7e](?:[\x20-\x7e]*[\x21-\x7e])?$ of at most 255 units */
  predicate IsValue(t: Text) { 1 <= |t| <= MAX_VALUE && Visible(t[0]) && Visible(t[|t| - 1]) && PrintedFrom(t, 0) }

  function CanonicalValue(raw: Text): (r: Option<Text>)
    ensures r.Some? ==> IsValue(r.value)
  {
    var value := Trim(raw);
    if IsValue(value) then Some(value) else None
  }

  lemma {:induction false} CanonicalIsStable(t: Text)
    requires IsValue(t)
    ensures Trim(t) == t && CanonicalValue(t) == Some(t)
  {
  }

  /** ^\/[\x21-\x7e]{0,255}$ */
  predicate IsTarget(t: Text)
  {
    1 <= |t| <= 256 && t[0] == '/' as int && forall i :: 0 <= i < |t| ==> Visible(t[i])
  }

  /** ^(?:0|[1-9][0-9]{0,8})$ */
  predicate IsLength(t: Text)
  {
    1 <= |t| <= 9 && AllDigits(t) && (t[0] == 48 ==> |t| == 1)
  }

  /** ^[A-Za-z0-9_-]{22}$ */
  predicate IsId(t: Text) { |t| == 22 && Alphabet(t) }

  // ------------------------------------------------------------------ the representation

  datatype Pair = Pair(name: Text, value: Text)

  datatype Semantic = Semantic(verb: Text, target: Text, pairs: seq<Pair>, bodyLen: nat, bodySha: Text)

  function One(bound: map<Text, Text>, name: Text): seq<Pair>
  {
    if name in bound then [Pair(name, bound[name])] else []
  }

  /** The entries in ascending order of their names; the closed names are ordered content-type, host, origin. */
  function Sorted(bound: map<Text, Text>): seq<Pair>
  {
    One(bound, CONTENT_TYPE) + One(bound, HOST) + One(bound, ORIGIN)
  }

  datatype RejectReason = SemanticInvalid | SemanticDuplicate | SemanticRefused
  datatype Approval = Refusal(reason: RejectReason) | Approved(request: Semantic, dropped: nat)

  // ------------------------------------------------------------------ the plane

  /** A header as both sides see it: its class, its lower-cased name and its raw value. */
  datatype Tag = Tag(cls: HeaderClass, name: Text, value: Text)

  function TagOf(h: Header): Tag { Tag(Classify(Lower(h.name)), Lower(h.name), h.value) }

  function Tags(headers: seq<Header>): seq<Tag> { seq(|headers|, i requires 0 <= i < |headers| => TagOf(headers[i])) }

  datatype Gathered =
    | Halt(reason: RejectReason)
    | Gathered(bound: map<Text, Text>, lengths: seq<Text>, connections: seq<Text>, dropped: nat)

  function GatherStep(g: Gathered, tag: Tag): Gathered
  {
    if g.Halt? then g
    else
      match tag.cls
      case Bound =>
        if tag.name in g.bound then Halt(SemanticDuplicate)
        else
          var value := CanonicalValue(tag.value);
          if value.None? then Halt(SemanticInvalid) else g.(bound := g.bound[tag.name := value.value])
      case Derived => g.(lengths := g.lengths + [Trim(tag.value)])
      case Transport => g.(connections := g.connections + [Lower(Trim(tag.value))])
      case Indicator => g.(dropped := g.dropped + 1)
      case Dropped => g.(dropped := g.dropped + 1)
      case _ => Halt(SemanticRefused)
  }

  /** After the first `n` headers. */
  function GatherTo(tags: seq<Tag>, n: nat): Gathered
    requires n <= |tags|
  {
    if n == 0 then Gathered(map[], [], [], 0) else GatherStep(GatherTo(tags, n - 1), tags[n - 1])
  }

  predicate ConnectionFine(value: Text) { value == CLOSE || value == KEEP_ALIVE }

  /** What follows the header loop. */
  function Conclude(digest: Bytes -> Text, request: LayerRequest, g: Gathered): Approval
    requires g.Gathered?
  {
    if |g.connections| > 1 || (|g.connections| == 1 && !ConnectionFine(g.connections[0])) then Refusal(SemanticRefused)
    else if |g.lengths| > 1 then Refusal(SemanticDuplicate)
    else if |g.lengths| == 1 && !IsLength(g.lengths[0]) then Refusal(SemanticInvalid)
    else if HOST !in g.bound then Refusal(SemanticInvalid)
    else if request.verb == POST then
      if CONTENT_TYPE !in g.bound || g.bound[CONTENT_TYPE] != FORM then Refusal(SemanticInvalid)
      else if request.bodyStatus != Complete || request.body.None? || |request.body.value| > MAX_BODY then
        Refusal(SemanticInvalid)
      else if |g.lengths| != 1 || Val(g.lengths[0]) != |request.body.value| then Refusal(SemanticInvalid)
      else Approved(Semantic(POST, request.target, Sorted(g.bound), |request.body.value|, digest(request.body.value)),
        g.dropped)
    else if CONTENT_TYPE in g.bound then Refusal(SemanticInvalid)
    else if |g.lengths| == 1 && g.lengths[0] != [48] then Refusal(SemanticInvalid)
    else Approved(Semantic(request.verb, request.target, Sorted(g.bound), 0, EMPTY_BODY), g.dropped)
  }

  /** buildApprovedRequest */
  function Approve(digest: Bytes -> Text, request: LayerRequest): Approval
  {
    if request.verb != GET && request.verb != POST then Refusal(SemanticInvalid)
    else if !IsTarget(request.target) then Refusal(SemanticInvalid)
    else
      var g := GatherTo(Tags(request.headers), |request.headers|);
      if g.Halt? then Refusal(g.reason) else Conclude(digest, request, g)
  }

  lemma {:induction false} HaltStays(tags: seq<Tag>, i: nat, n: nat)
    requires i <= n <= |tags| && GatherTo(tags, i).Halt?
    ensures GatherTo(tags, n) == GatherTo(tags, i)
  {
    if i < n {
      HaltStays(tags, i, n - 1);
    }
  }

  /** The loop over the headers, up to its end or the first refusal. */
  method GatherHeaders(headers: seq<Header>) returns (g: Gathered)
    ensures g == GatherTo(Tags(headers), |headers|)
  {
    ghost var tags := Tags(headers);
    var bound: map<Text, Text> := map[];
    var lengths: seq<Text> := [];
    var connections: seq<Text> := [];
    var dropped := 0;
    for i := 0 to |headers|
      invariant GatherTo(tags, i) == Gathered(bound, lengths, connections, dropped)
    {
      var name := Lower(headers[i].name);
      var raw := headers[i].value;
      var cls := Classify(name);
      assert tags[i] == Tag(cls, name, raw);
      if GatherTo(tags, i + 1).Halt? { HaltStays(tags, i + 1, |tags|); }
      match cls {
        case Bound =>
          if name in bound { return Halt(SemanticDuplicate); }
          var value := CanonicalValue(raw);
          if value.None? { return Halt(SemanticInvalid); }
          bound := bound[name := value.value];
        case Derived => lengths := lengths + [Trim(raw)];
        case Transport => connections := connections + [Lower(Trim(raw))];
        case Indicator => dropped := dropped + 1;
        case Dropped => dropped := dropped + 1;
        case _ => return Halt(SemanticRefused);
      }
    }
    return Gathered(bound, lengths, connections, dropped);
  }

  method BuildApprovedRequest(digest: Bytes -> Text, request: LayerRequest) returns (r: Approval)
    ensures r == Approve(digest, request)
  {
    if request.verb != GET && request.verb != POST { return Refusal(SemanticInvalid); }
    if !IsTarget(request.target) { return Refusal(SemanticInvalid); }
    var g := GatherHeaders(request.headers);
    if g.Halt? { return Refusal(g.reason); }
    return Conclude(digest, request, g);
  }

  /** The headers a hop emits: the pairs and, on a POST, the derived length. */
  function WireHeaders(s: Semantic): seq<Header>
  {
    seq(|s.pairs|, i requires 0 <= i < |s.pairs| => Header(s.pairs[i].name, s.pairs[i].value)) +
    (if s.verb == POST then [Header(CONTENT_LENGTH, Dec(s.bodyLen))] else [])
  }

  // ------------------------------------------------------------------ the verifier

  datatype Violation = HeaderDuplicate | HeaderUnbound | FramingInvalid | HeaderValueInvalid

  datatype Observed = Observed(
    pb: seq<Text>, ba: seq<Text>, nonces: seq<Text>, bound: map<Text, Text>, lengths: seq<Text>, connections: nat,
    duplicate: bool, unbound: bool, framing: bool, badValue: bool)

  const NOTHING := Observed([], [], [], map[], [], 0, false, false, false, false)

  function ObserveStep(o: Observed, tag: Tag): Observed
  {
    match tag.cls
    case Bound =>
      if tag.name in o.bound then o.(duplicate := true)
      else
        var value := CanonicalValue(tag.value);
        if value.None? then o.(badValue := true) else o.(bound := o.bound[tag.name := value.value])
    case Derived => o.(lengths := o.lengths + [Trim(tag.value)])
    case Transport =>
      var bad := o.connections >= 1 || !ConnectionFine(Lower(Trim(tag.value)));
      o.(connections := o.connections + 1, framing := o.framing || bad)
    case Measurement => o.(nonces := o.nonces + [tag.value])
    case ProofPb => o.(pb := o.pb + [tag.value])
    case ProofBa => o.(ba := o.ba + [tag.value])
    case _ => o.(unbound := true)
  }

  function ObserveTo(tags: seq<Tag>, n: nat): Observed
    requires n <= |tags|
  {
    if n == 0 then NOTHING else ObserveStep(ObserveTo(tags, n - 1), tags[n - 1])
  }

  datatype HopScan = HopScan(
    pb: seq<Text>, ba: seq<Text>, nonces: seq<Text>, pairs: seq<Pair>, lengths: seq<Text>, violation: Option<Violation>)

  /** What follows the loop: the fixed precedence duplicate, unbound, framing, value. */
  function Judge(o: Observed, verb: Text): HopScan
  {
    var duplicate := o.duplicate || |o.nonces| > 1;
    var badValue := o.badValue || (|o.nonces| == 1 && !IsId(o.nonces[0]));
    var framing := o.framing || |o.lengths| > 1 || (|o.lengths| == 1 && !IsLength(o.lengths[0]))
                   || (verb == GET && |o.lengths| > 0) || (verb == POST && |o.lengths| == 0);
    HopScan(o.pb, o.ba, o.nonces, Sorted(o.bound), o.lengths,
            if duplicate then Some(HeaderDuplicate)
            else if o.unbound then Some(HeaderUnbound)
            else if framing then Some(FramingInvalid)
            else if badValue then Some(HeaderValueInvalid) else None)
  }

  /** scanHopHeaders, over the raw name and value pairs. */
  function Scan(headers: seq<Header>, verb: Text): HopScan { Judge(ObserveTo(Tags(headers), |headers|), verb) }

  method ScanHopHeaders(headers: seq<Header>, verb: Text) returns (scan: HopScan)
    ensures scan == Scan(headers, verb)
  {
    ghost var tags := Tags(headers);
    var o := NOTHING;
    for i := 0 to |headers|
      invariant o == ObserveTo(tags, i)
    {
      var name := Lower(headers[i].name);
      var raw := headers[i].value;
      var cls := Classify(name);
      assert tags[i] == Tag(cls, name, raw);
      match cls {
        case Bound =>
          if name in o.bound {
            o := o.(duplicate := true);
          } else {
            var value := CanonicalValue(raw);
            if value.None? {
              o := o.(badValue := true);
            } else {
              o := o.(bound := o.bound[name := value.value]);
            }
          }
        case Derived => o := o.(lengths := o.lengths + [Trim(raw)]);
        case Transport =>
          o := o.(connections := o.connections + 1);
          if o.connections > 1 || !ConnectionFine(Lower(Trim(raw))) { o := o.(framing := true); }
        case Measurement => o := o.(nonces := o.nonces + [raw]);
        case ProofPb => o := o.(pb := o.pb + [raw]);
        case ProofBa => o := o.(ba := o.ba + [raw]);
        case _ => o := o.(unbound := true);
      }
    }
    return Judge(o, verb);
  }
}
