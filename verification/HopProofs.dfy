/**
 * The two hop proofs (defense/core/hop-proof.ts): claims as a canonical JSON array, the base64url envelope, strict
 * decoding and the acceptance window. Signatures are octets; whether one verifies is decided elsewhere.
 */
module HopProofs {
  import opened Base
  import opened Decimals
  import opened SemanticRequests
  import opened Requests
  import opened StrictJson
  import Base64
  import Forms
  import JsonPrinter
  import Utf8

  const PB_MAX_LIFETIME := 5_000
  const BA_MAX_LIFETIME := 2_000
  const SKEW := 1_000
  const PB_HEADER_MAX := 2_048
  const BA_HEADER_MAX := 2_304
  const MAX_PAIRS := 3
  const DOT := 46

  const PB_ROLE := T("ba0-pb-v2")
  const BA_ROLE := T("ba0-ba-v2")
  const PB_DOMAIN := T("ba0:pb:ed25519:v2") + [0]
  const BA_DOMAIN := T("ba0:ba:ed25519:v2") + [0]

  datatype Role = Pb | Ba

  function RoleText(role: Role): Text { if role == Pb then PB_ROLE else BA_ROLE }
  function Domain(role: Role): Bytes { if role == Pb then PB_DOMAIN else BA_DOMAIN }
  function HeaderMax(role: Role): nat { if role == Pb then PB_HEADER_MAX else BA_HEADER_MAX }
  function MaxLifetime(role: Role): nat { if role == Pb then PB_MAX_LIFETIME else BA_MAX_LIFETIME }

  /** The commitment of a Boundary proof to the Plane proof it carries. */
  datatype Lineage = Lineage(pbJti: Text, pbSha: Text)

  datatype Claims = Claims(
    kid: Text, aud: Text, iat: nat, exp: nat, jti: Text, hop: nat, corr: Text, request: Semantic,
      lineage: Option<Lineage>)

  function RoleOf(c: Claims): Role { if c.lineage.None? then Pb else Ba }

  // ------------------------------------------------------------------ encoding

  function Num(n: nat): Json { JNum(Dec(n)) }

  function PairJson(p: SemanticRequests.Pair): Json { JArr([JStr(p.name), JStr(p.value)]) }

  function PairsJson(pairs: seq<SemanticRequests.Pair>): Json
  {
    JArr(seq(|pairs|, i requires 0 <= i < |pairs| => PairJson(pairs[i])))
  }

  /** claimsPayload: 13 elements, or 15 with the lineage. */
  function ClaimsArray(c: Claims): seq<Json>
  {
    [JStr(RoleText(RoleOf(c))), JStr(c.kid), JStr(c.aud), Num(c.iat), Num(c.exp), JStr(c.jti), Num(c.hop), JStr(c.corr),
     JStr(c.request.verb), JStr(c.request.target), PairsJson(c.request.pairs), Num(c.request.bodyLen),
       JStr(c.request.bodySha)]
    + (if c.lineage.None? then [] else [JStr(c.lineage.value.pbJti), JStr(c.lineage.value.pbSha)])
  }

  function Payload(c: Claims): Text { JsonPrinter.Print(JArr(ClaimsArray(c))) }

  /** b64url(payload) "." b64url(signature) */
  function Envelope(payload: Bytes, signature: Bytes): Text
    requires Octets(payload) && Octets(signature)
  {
    Base64.Encode(payload) + [DOT] + Base64.Encode(signature)
  }

  // ------------------------------------------------------------------ the shape of claims

  /** ^[A-Za-z0-9_-]{1,32}$ */
  predicate IsKid(t: Text) { 1 <= |t| <= 32 && Alphabet(t) }

  predicate IsDigest(t: Text) { Base64.CanonicalOf(t, 32).Some? }

  /** Code-unit order of strings. */
  predicate Before(a: Text, b: Text)
    decreases |a|
  {
    b != [] && (a == [] || a[0] < b[0] || (a[0] == b[0] && Before(a[1..], b[1..])))
  }

  predicate BoundName(name: Text) { name == CONTENT_TYPE || name == HOST || name == ORIGIN }

  /** Closed names in strictly ascending order, canonical values. */
  predicate PairsFrom(pairs: seq<SemanticRequests.Pair>, i: nat, previous: Text)
    requires i <= |pairs|
    decreases |pairs| - i
  {
    i == |pairs| ||
    (BoundName(pairs[i].name) && Before(previous, pairs[i].name)
      && CanonicalValue(pairs[i].value) == Some(pairs[i].value)
     && PairsFrom(pairs, i + 1, pairs[i].name))
  }

  /** pairs.find(([key]) => key === name)?.[1] */
  function ValueNamed(pairs: seq<SemanticRequests.Pair>, name: Text): Option<Text>
  {
    if pairs == [] then None else if pairs[0].name == name then Some(pairs[0].value) else ValueNamed(pairs[1..], name)
  }

  /** What parseRequest demands. */
  predicate RequestShape(r: Semantic)
  {
    && (r.verb == GET || r.verb == POST) && IsTarget(r.target)
    && |r.pairs| <= MAX_PAIRS && PairsFrom(r.pairs, 0, [])
    && r.bodyLen <= MAX_BODY && IsDigest(r.bodySha)
    && ValueNamed(r.pairs, HOST).Some?
    && (r.verb == GET ==> r.bodyLen == 0 && r.bodySha == EMPTY_BODY && ValueNamed(r.pairs, CONTENT_TYPE).None?)
    && (r.verb == POST ==> ValueNamed(r.pairs, CONTENT_TYPE) == Some(FORM))
  }

  predicate Shape(c: Claims)
  {
    && IsKid(c.kid) && IsId(c.aud) && c.iat <= MAX_SAFE && c.exp <= MAX_SAFE && IsId(c.jti)
    && 1 <= c.hop <= MAX_SAFE && IsId(c.corr) && RequestShape(c.request)
    && (c.lineage.Some? ==> IsId(c.lineage.value.pbJti) && IsDigest(c.lineage.value.pbSha))
  }

  // ------------------------------------------------------------------ decoding the array

  datatype Refusal = Oversize | Malformed | VersionUnsupported | WrongHop
  datatype Result<+V> = Bad(refusal: Refusal) | Good(value: V)

  function TextOf(v: Json): Option<Text> { if v.JStr? then Some(v.s) else None }

  /** A safe, non-negative integer in the only spelling that JSON.stringify gives back. */
  function IntOf(v: Json): Option<nat>
  {
    if v.JNum? && AllDigits(v.literal) && Dec(Val(v.literal)) == v.literal && Val(v.literal) <= MAX_SAFE then
      Some(Val(v.literal))
    else None
  }

  function PairOf(v: Json): Option<SemanticRequests.Pair>
  {
    if v.JArr? && |v.items| == 2 && v.items[0].JStr? && v.items[1].JStr?
    then Some(SemanticRequests.Pair(v.items[0].s, v.items[1].s)) else None
  }

  function PairsOf(items: seq<Json>, i: nat): Option<seq<SemanticRequests.Pair>>
    requires i <= |items|
    decreases |items| - i
  {
    if i == |items| then Some([])
    else
      var p, rest := PairOf(items[i]), PairsOf(items, i + 1);
      if p.None? || rest.None? then None else Some([p.value] + rest.value)
  }

  /** The five request elements. */
  function RequestOf(a: seq<Json>): Option<Semantic>
    requires |a| >= 13
  {
    var verb, target, len, sha := TextOf(a[8]), TextOf(a[9]), IntOf(a[11]), TextOf(a[12]);
    var pairs := if a[10].JArr? then PairsOf(a[10].items, 0) else None;
    if verb.None? || target.None? || len.None? || sha.None? || pairs.None? then None
    else
      var r := Semantic(verb.value, target.value, pairs.value, len.value, sha.value);
      if RequestShape(r) then Some(r) else None
  }

  function LineageOf(a: seq<Json>): Option<Lineage>
    requires |a| == 15
  {
    if a[13].JStr? && a[14].JStr? then Some(Lineage(a[13].s, a[14].s)) else None
  }

  /** The typed fields of an array of the right length. */
  function ClaimsOf(a: seq<Json>): Option<Claims>
    requires |a| == 13 || |a| == 15
  {
    var kid, aud, iat, exp := TextOf(a[1]), TextOf(a[2]), IntOf(a[3]), IntOf(a[4]);
    var jti, hop, corr, request := TextOf(a[5]), IntOf(a[6]), TextOf(a[7]), RequestOf(a);
    if kid.None? || aud.None? || iat.None? || exp.None? || jti.None? || hop.None? || corr.None? || request.None? then
      None
    else if |a| == 15 && LineageOf(a).None? then None
    else
      var c := Claims(kid.value, aud.value, iat.value, exp.value, jti.value, hop.value, corr.value, request.value,
                      if |a| == 15 then Some(LineageOf(a).value) else None);
      if Shape(c) then Some(c) else None
  }

  /** Precedence: the role string, then the length, then the fields. */
  function ArrayClaims(a: seq<Json>, expected: Role): Result<Claims>
  {
    if a == [] || !a[0].JStr? then Bad(Malformed)
    else if a[0].s != PB_ROLE && a[0].s != BA_ROLE then
      Bad(if StartsWith(a[0].s, T("ba0-")) then VersionUnsupported else Malformed)
    else if a[0].s != RoleText(expected) then Bad(WrongHop)
    else if |a| != (if expected == Pb then 13 else 15) then Bad(Malformed)
    else
      var c := ClaimsOf(a);
      if c.None? then Bad(Malformed) else Good(c.value)
  }

  // ------------------------------------------------------------------ decoding the header

  datatype Decoded = Decoded(claims: Claims, payload: Bytes, signature: Bytes)

  predicate WhiteSpace(u: int) { 9 <= u <= 13 || u == 32 || u == 160 }

  /** header.trim() === header */
  predicate Trimmed(t: Text) { t != [] ==> !WhiteSpace(t[0]) && !WhiteSpace(t[|t| - 1]) }

  /** The canonical text of a signed array. */
  function PayloadArray(payload: Bytes): Option<seq<Json>>
  {
    var text := Utf8.Decode(payload);
    if text.None? then None
    else
      var v := Parse(text.value);
      if v.None? || !v.value.JArr? || JsonPrinter.Print(v.value) != text.value then None else Some(v.value.items)
  }

  /** decodeProof: size, canonical envelope, canonical text, role, shape. */
  function DecodeProof(header: Text, expected: Role): Result<Decoded>
  {
    if |header| > HeaderMax(expected) then Bad(Oversize)
    else if header == [] || !Trimmed(header) || !Lacks(header, COMMA) then Bad(Malformed)
    else
      var dot := Forms.Find(header, DOT);
      if dot == |header| || !Lacks(header[dot + 1..], DOT) then Bad(Malformed)
      else
        var payload, signature := Base64.Canonical(header[..dot]), Base64.CanonicalOf(header[dot + 1..], 64);
        if payload.None? || signature.None? then Bad(Malformed)
        else
          var a := PayloadArray(payload.value);
          if a.None? then Bad(Malformed)
          else
            var c := ArrayClaims(a.value, expected);
            if c.Bad? then Bad(c.refusal) else Good(Decoded(c.value, payload.value, signature.value))
  }

  // ------------------------------------------------------------------ the acceptance window

  datatype WindowReason = KeyUnknown | AudienceMismatch | LifetimeInvalid | NotYetValid | Expired | BeforeFence

  datatype Verifier = Verifier(kid: Text, aud: Text, fence: real)

  /** checkProofWindow: kid, audience, lifetime, freshness, then the start fence; nothing when acceptable. */
  function CheckWindow(c: Claims, verifier: Verifier, now: real): Option<WindowReason>
  {
    if c.kid != verifier.kid then Some(KeyUnknown)
    else if c.aud != verifier.aud then Some(AudienceMismatch)
    else if c.exp <= c.iat || c.exp - c.iat > MaxLifetime(RoleOf(c)) then Some(LifetimeInvalid)
    else if (c.iat - SKEW) as real > now then Some(NotYetValid)
    else if now > (c.exp + SKEW) as real then Some(Expired)
    else if c.iat as real < verifier.fence then Some(BeforeFence)
    else None
  }

  // ------------------------------------------------------------------ the array round trip

  lemma {:induction false} NumRoundTrip(v: Json, n: nat)
    ensures IntOf(v) == Some(n) <==> v == Num(n) && n <= MAX_SAFE
  {
    ValDec(n);
  }

  lemma {:induction false} PairsRoundTrip(items: seq<Json>, i: nat)
    requires i <= |items| && PairsOf(items, i).Some?
    ensures var pairs := PairsOf(items, i).value;
            |pairs| == |items| - i && forall k :: 0 <= k < |pairs| ==> PairJson(pairs[k]) == items[i + k]
    decreases |items| - i
  {
    if i < |items| {
      PairsRoundTrip(items, i + 1);
    }
  }

  lemma {:induction false} PairsComplete(pairs: seq<SemanticRequests.Pair>, items: seq<Json>, i: nat)
    requires |pairs| == |items| && i <= |items| && forall k :: 0 <= k < |pairs| ==> items[k] == PairJson(pairs[k])
    ensures PairsOf(items, i) == Some(pairs[i..])
    decreases |items| - i
  {
    if i < |items| {
      PairsComplete(pairs, items, i + 1);
      assert pairs[i..] == [pairs[i]] + pairs[i + 1..];
    } else {
      assert pairs[i..] == [];
    }
  }

  /** The pairs read back are exactly those whose encoding stands there. */
  lemma {:induction false} PairsAreEncoded(v: Json, pairs: seq<SemanticRequests.Pair>)
    ensures v.JArr? && PairsOf(v.items, 0) == Some(pairs) <==> v == PairsJson(pairs)
  {
    if v.JArr? && PairsOf(v.items, 0) == Some(pairs) {
      PairsRoundTrip(v.items, 0);
      assert v.items == PairsJson(pairs).items;
    }
    if v == PairsJson(pairs) {
      PairsComplete(pairs, v.items, 0);
      assert pairs[0..] == pairs;
    }
  }

  /** A request is read exactly from its own encoding. */
  lemma {:induction false} RequestIsEncoded(a: seq<Json>, r: Semantic)
    requires |a| >= 13
    ensures RequestOf(a) == Some(r) <==>
              RequestShape(r) && a[8] == JStr(r.verb) && a[9] == JStr(r.target) && a[10] == PairsJson(r.pairs)
              && a[11] == Num(r.bodyLen) && a[12] == JStr(r.bodySha)
  {
    PairsAreEncoded(a[10], r.pairs);
    NumRoundTrip(a[11], r.bodyLen);
    if RequestOf(a) == Some(r) {
      assert IntOf(a[11]) == Some(r.bodyLen);
      assert PairsOf(a[10].items, 0) == Some(r.pairs);
    }
  }

  predicate HeadEncoded(a: seq<Json>, c: Claims)
    requires |a| >= 13
  {
    && a[1] == JStr(c.kid) && a[2] == JStr(c.aud) && a[3] == Num(c.iat) && a[4] == Num(c.exp)
    && a[5] == JStr(c.jti) && a[6] == Num(c.hop) && a[7] == JStr(c.corr)
  }

  predicate TailEncoded(a: seq<Json>, c: Claims)
    requires |a| == 13 || |a| == 15
  {
    if |a| == 13 then c.lineage == None
    else c.lineage.Some? && a[13] == JStr(c.lineage.value.pbJti) && a[14] == JStr(c.lineage.value.pbSha)
  }

  lemma {:induction false} FieldsAreEncoded(a: seq<Json>, c: Claims)
    requires |a| == 13 || |a| == 15
    ensures ClaimsOf(a) == Some(c) <==>
            Shape(c) && HeadEncoded(a, c) && RequestOf(a) == Some(c.request) && TailEncoded(a, c)
  {
    NumRoundTrip(a[3], c.iat);
    NumRoundTrip(a[4], c.exp);
    NumRoundTrip(a[6], c.hop);
    if RequestOf(a) == Some(c.request) { RequestIsEncoded(a, c.request); }
  }

  lemma {:induction false} ArrayParts(a: seq<Json>, c: Claims)
    requires |a| == 13 || |a| == 15
    ensures a == ClaimsArray(c) <==>
              a[0] == JStr(RoleText(RoleOf(c))) && HeadEncoded(a, c) && a[8] == JStr(c.request.verb)
              && a[9] == JStr(c.request.target) && a[10] == PairsJson(c.request.pairs)
              && a[11] == Num(c.request.bodyLen) && a[12] == JStr(c.request.bodySha) && TailEncoded(a, c)
  {
    var e := ClaimsArray(c);
    if a[0] == e[0] && HeadEncoded(a, c) && a[8] == e[8] && a[9] == e[9] && a[10] == e[10] && a[11] == e[11]
      && a[12] == e[12]
       && TailEncoded(a, c) {
      assert |a| == |e|;
      forall i | 0 <= i < |a| ensures a[i] == e[i] { }
    }
  }

  lemma {:induction false} RolesDiffer()
    ensures PB_ROLE != BA_ROLE && StartsWith(PB_ROLE, T("ba0-")) && StartsWith(BA_ROLE, T("ba0-"))
  {
    assert PB_ROLE[4] != BA_ROLE[4];
  }

  lemma {:induction false} EncodedFields(a: seq<Json>, c: Claims)
    requires |a| == 13 || |a| == 15
    ensures ClaimsOf(a) == Some(c) && a[0] == JStr(RoleText(RoleOf(c))) <==> Shape(c) && a == ClaimsArray(c)
  {
    FieldsAreEncoded(a, c);
    RequestIsEncoded(a, c.request);
    ArrayParts(a, c);
  }

  lemma {:induction false} LengthTellsRole(a: seq<Json>, c: Claims)
    ensures a == ClaimsArray(c) ==> |a| == (if RoleOf(c) == Pb then 13 else 15) && a[0] == JStr(RoleText(RoleOf(c)))
    ensures (|a| == 13 || |a| == 15) && TailEncoded(a, c) ==> |a| == (if RoleOf(c) == Pb then 13 else 15)
  {
  }

  /** What ArrayClaims accepts, without its refusals. */
  lemma {:induction false} AcceptedArray(a: seq<Json>, role: Role, c: Claims)
    ensures ArrayClaims(a, role) == Good(c) <==>
              |a| == (if role == Pb then 13 else 15) && a[0] == JStr(RoleText(role)) && ClaimsOf(a) == Some(c)
  {
    RolesDiffer();
  }

  /** An array is read as claims of a role exactly when it is the encoding of well-shaped claims of that role. */
  lemma {:induction false} ArrayIsEncoded(a: seq<Json>, role: Role, c: Claims)
    ensures ArrayClaims(a, role) == Good(c) <==> Shape(c) && RoleOf(c) == role && a == ClaimsArray(c)
  {
    AcceptedArray(a, role, c);
    LengthTellsRole(a, c);
    if |a| == 13 || |a| == 15 {
      EncodedFields(a, c);
      FieldsAreEncoded(a, c);
    }
  }

  // ------------------------------------------------------------------ parseRequest as it runs

  predicate PairFits(p: SemanticRequests.Pair, previous: Text)
  {
    BoundName(p.name) && Before(previous, p.name) && CanonicalValue(p.value) == Some(p.value)
  }

  /** The loop over the pairs from index `i` on, with what it accumulated. */
  function Accumulated(items: seq<Json>, i: nat, previous: Text,
      pairs: seq<SemanticRequests.Pair>): Option<seq<SemanticRequests.Pair>>
    requires i <= |items|
    decreases |items| - i
  {
    if i == |items| then Some(pairs)
    else
      var p := PairOf(items[i]);
      if p.None? || !PairFits(p.value, previous) then None
        else Accumulated(items, i + 1, p.value.name, pairs + [p.value])
  }

  lemma {:induction false} LaterPairs(p: SemanticRequests.Pair, rest: seq<SemanticRequests.Pair>, k: nat,
      previous: Text)
    requires k <= |rest|
    ensures PairsFrom([p] + rest, k + 1, previous) == PairsFrom(rest, k, previous)
    decreases |rest| - k
  {
    if k < |rest| {
      LaterPairs(p, rest, k + 1, rest[k].name);
    }
  }

  lemma {:induction false} AccumulatesThePairs(items: seq<Json>, i: nat, previous: Text,
      pairs: seq<SemanticRequests.Pair>)
    requires i <= |items|
    ensures var rest := PairsOf(items, i);
            Accumulated(items, i, previous, pairs) ==
              if rest.Some? && PairsFrom(rest.value, 0, previous) then Some(pairs + rest.value) else None
    decreases |items| - i
  {
    if i < |items| {
      var p, more := PairOf(items[i]), PairsOf(items, i + 1);
      if p.Some? {
        AccumulatesThePairs(items, i + 1, p.value.name, pairs + [p.value]);
        if more.Some? {
          LaterPairs(p.value, more.value, 0, p.value.name);
          assert pairs + [p.value] + more.value == pairs + ([p.value] + more.value);
          assert PairsOf(items, i).value[0] == p.value;
        }
      }
    } else {
      assert pairs + [] == pairs;
    }
  }

  method ParsePairs(items: seq<Json>) returns (r: Option<seq<SemanticRequests.Pair>>)
    ensures r == var pairs := PairsOf(items, 0); if pairs.Some? && PairsFrom(pairs.value, 0, []) then pairs else None
  {
    AccumulatesThePairs(items, 0, [], []);
    assert PairsOf(items, 0).Some? ==> [] + PairsOf(items, 0).value == PairsOf(items, 0).value;
    var pairs: seq<SemanticRequests.Pair> := [];
    var previous: Text := [];
    for i := 0 to |items|
      invariant Accumulated(items, 0, [], []) == Accumulated(items, i, previous, pairs)
    {
      var p := PairOf(items[i]);
      if p.None? || !PairFits(p.value, previous) { return None; }
      previous := p.value.name;
      pairs := pairs + [p.value];
    }
    return Some(pairs);
  }

  method ParseRequest(a: seq<Json>) returns (r: Option<Semantic>)
    requires |a| >= 13
    ensures r == RequestOf(a)
  {
    var verb, target := TextOf(a[8]), TextOf(a[9]);
    if verb.None? || (verb.value != GET && verb.value != POST) { return None; }
    if target.None? || !IsTarget(target.value) { return None; }
    if !a[10].JArr? || |a[10].items| > MAX_PAIRS { PairsCount(a[10]); return None; }
    var pairs := ParsePairs(a[10].items);
    if pairs.None? { return None; }
    var len, sha := IntOf(a[11]), TextOf(a[12]);
    if len.None? || len.value > MAX_BODY || sha.None? || !IsDigest(sha.value) { return None; }
    PairsCount(a[10]);
    if ValueNamed(pairs.value, HOST).None? { return None; }
    if verb.value == GET && (len.value != 0 || sha.value != EMPTY_BODY || ValueNamed(pairs.value, CONTENT_TYPE).Some?) {
      return None;
    }
    if verb.value == POST && ValueNamed(pairs.value, CONTENT_TYPE) != Some(FORM) { return None; }
    return Some(Semantic(verb.value, target.value, pairs.value, len.value, sha.value));
  }

  lemma {:induction false} PairsCount(v: Json)
    ensures v.JArr? && PairsOf(v.items, 0).Some? ==> |PairsOf(v.items, 0).value| == |v.items|
  {
    if v.JArr? && PairsOf(v.items, 0).Some? {
      PairsRoundTrip(v.items, 0);
    }
  }
}
