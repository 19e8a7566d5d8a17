/** How long a hop proof is, exactly, and which approved requests fit the header bounds (defense/core/hop-proof.ts). */
module HopSizes {
  import opened Base
  import opened Decimals
  import opened Requests
  import opened SemanticRequests
  import opened StrictJson
  import opened HopProofs
  import opened HopEnvelopes
  import Base64
  import JsonPrinter

  /** The printed length of a printable string. */
  function Quoted(t: Text): nat { |t| + 2 + Escapes(t, 0) }

  lemma {:induction false} PrintedString(t: Text)
    requires AllPrinted(t)
    ensures |JsonPrinter.Print(JStr(t))| == Quoted(t)
  {
    PlainChars(t, 0);
  }

  predicate NoEscape(t: Text) { Lacks(t, QUOTE) && Lacks(t, BACKSLASH) }

  lemma {:induction false} NoneEscaped(t: Text, n: nat)
    requires n <= |t| && NoEscape(t)
    ensures Escapes(t, n) == 0
    decreases |t| - n
  {
    if n < |t| {
      NoneEscaped(t, n + 1);
    }
  }

  lemma {:induction false} AlphabetEscapesNothing(t: Text)
    requires Alphabet(t)
    ensures Quoted(t) == |t| + 2
  {
    AlphabetHasNo(t, QUOTE);
    AlphabetHasNo(t, BACKSLASH);
    NoneEscaped(t, 0);
  }

  // ------------------------------------------------------------------ arrays

  /** The printed items from index `n` on, each with one separator. */
  function Weight(items: seq<Json>, n: nat): nat
    requires n <= |items|
    decreases |items| - n
  {
    if n == |items| then 0 else |JsonPrinter.Print(items[n])| + 1 + Weight(items, n + 1)
  }

  lemma {:induction false} ItemsWeight(v: Json, n: nat)
    requires v.JArr? && n < |v.items|
    ensures |JsonPrinter.PrintItems(v, n)| + 1 == Weight(v.items, n)
    decreases |v.items| - n
  {
    if n + 1 < |v.items| {
      ItemsWeight(v, n + 1);
    }
  }

  lemma {:induction false} ArrayLength(items: seq<Json>)
    requires items != []
    ensures |JsonPrinter.Print(JArr(items))| == 1 + Weight(items, 0)
  {
    ItemsWeight(JArr(items), 0);
  }

  lemma {:induction false} WeightJoin(a: seq<Json>, b: seq<Json>, n: nat)
    requires n <= |a|
    ensures Weight(a + b, n) == Weight(a, n) + Weight(b, 0)
    decreases |a| - n
  {
    if n < |a| {
      WeightJoin(a, b, n + 1);
    } else {
      WeightTail(a, b, 0);
    }
  }

  lemma {:induction false} WeightTail(a: seq<Json>, b: seq<Json>, k: nat)
    requires k <= |b|
    ensures Weight(a + b, |a| + k) == Weight(b, k)
    decreases |b| - k
  {
    if k < |b| {
      WeightTail(a, b, k + 1);
    }
  }

  lemma {:induction false} WeightTwo(a: Json, b: Json)
    ensures Weight([a, b], 0) == |JsonPrinter.Print(a)| + |JsonPrinter.Print(b)| + 2
  {
    assert Weight([a, b], 2) == 0;
    assert Weight([a, b], 1) == |JsonPrinter.Print(b)| + 1;
  }

  lemma {:induction false} WeightFour(a: Json, b: Json, c: Json, d: Json)
    ensures Weight([a, b, c, d], 0) ==
              |JsonPrinter.Print(a)| + |JsonPrinter.Print(b)| + |JsonPrinter.Print(c)| + |JsonPrinter.Print(d)| + 4
  {
    WeightTwo(a, b);
    WeightTwo(c, d);
    WeightJoin([a, b], [c, d], 0);
    assert [a, b] + [c, d] == [a, b, c, d];
  }

  // ------------------------------------------------------------------ pairs

  function PairLength(p: SemanticRequests.Pair): nat { 3 + Quoted(p.name) + Quoted(p.value) }

  lemma {:induction false} PrintedPair(p: SemanticRequests.Pair)
    requires AllPrinted(p.name) && AllPrinted(p.value)
    ensures |JsonPrinter.Print(PairJson(p))| == PairLength(p)
  {
    PrintedString(p.name);
    PrintedString(p.value);
    WeightTwo(JStr(p.name), JStr(p.value));
    ArrayLength([JStr(p.name), JStr(p.value)]);
  }

  function PairsWeight(pairs: seq<SemanticRequests.Pair>, n: nat): nat
    requires n <= |pairs|
    decreases |pairs| - n
  {
    if n == |pairs| then 0 else PairLength(pairs[n]) + 1 + PairsWeight(pairs, n + 1)
  }

  predicate PrintedPairs(pairs: seq<SemanticRequests.Pair>)
  {
    forall i :: 0 <= i < |pairs| ==> AllPrinted(pairs[i].name) && AllPrinted(pairs[i].value)
  }

  lemma {:induction false} PairsWeigh(pairs: seq<SemanticRequests.Pair>, n: nat)
    requires n <= |pairs| && PrintedPairs(pairs)
    ensures Weight(PairsJson(pairs).items, n) == PairsWeight(pairs, n)
    decreases |pairs| - n
  {
    if n < |pairs| {
      PairsWeigh(pairs, n + 1);
      PrintedPair(pairs[n]);
    }
  }

  /** A non-empty pair list, with its brackets. */
  lemma {:induction false} PairsLength(pairs: seq<SemanticRequests.Pair>)
    requires pairs != [] && PrintedPairs(pairs)
    ensures |JsonPrinter.Print(PairsJson(pairs))| == 1 + PairsWeight(pairs, 0)
  {
    PairsWeigh(pairs, 0);
    ArrayLength(PairsJson(pairs).items);
  }

  // ------------------------------------------------------------------ claims

  function NumLength(n: nat): nat { |Dec(n)| }

  /** The payload of a Plane proof; the lineage adds 71. */
  function PayloadSize(c: Claims): nat
  {
    147 + |c.kid| + |c.request.verb| + NumLength(c.iat) + NumLength(c.exp) + NumLength(c.hop)
      + NumLength(c.request.bodyLen)
    + Quoted(c.request.target) + PairsWeight(c.request.pairs, 0) + (if c.lineage.None? then 0 else 71)
  }

  lemma {:induction false} RoleLength(role: Role)
    ensures Quoted(RoleText(role)) == 11
  {
    assert |PB_ROLE| == 9 && |BA_ROLE| == 9;
    NoneEscaped(RoleText(role), 0);
  }

  lemma {:induction false} VerbLength(verb: Text)
    requires verb == GET || verb == POST
    ensures Quoted(verb) == |verb| + 2 <= 6
  {
    NoneEscaped(verb, 0);
  }

  function Head(c: Claims): seq<Json>
  {
    [JStr(RoleText(RoleOf(c))), JStr(c.kid), JStr(c.aud), Num(c.iat)]
      + [Num(c.exp), JStr(c.jti), Num(c.hop), JStr(c.corr)]
  }

  lemma {:induction false} RolePrints(role: Role)
    ensures |JsonPrinter.Print(JStr(RoleText(role)))| == 11
  {
    RoleIsPlain(role);
    RoleLength(role);
    PrintedString(RoleText(role));
  }

  lemma {:induction false} HeadWeight(c: Claims)
    requires IsKid(c.kid) && IsId(c.aud) && IsId(c.jti) && IsId(c.corr)
    ensures Weight(Head(c), 0) == 93 + |c.kid| + NumLength(c.iat) + NumLength(c.exp) + NumLength(c.hop)
  {
    var role := JStr(RoleText(RoleOf(c)));
    assert |JsonPrinter.Print(role)| == 11 by { RolePrints(RoleOf(c)); }
    IdLengths(c);
    HeadFrom(c, role);
  }

  lemma {:induction false} HeadFrom(c: Claims, role: Json)
    requires role == JStr(RoleText(RoleOf(c)))
    ensures Weight(Head(c), 0) ==
              |JsonPrinter.Print(role)| + |JsonPrinter.Print(JStr(c.kid))| + |JsonPrinter.Print(JStr(c.aud))|
                + NumLength(c.iat)
              + NumLength(c.exp) + |JsonPrinter.Print(JStr(c.jti))| + NumLength(c.hop)
                + |JsonPrinter.Print(JStr(c.corr))| + 8
  {
    var a, b := [role, JStr(c.kid), JStr(c.aud), Num(c.iat)], [Num(c.exp), JStr(c.jti), Num(c.hop), JStr(c.corr)];
    WeightFour(a[0], a[1], a[2], a[3]);
    WeightFour(b[0], b[1], b[2], b[3]);
    WeightJoin(a, b, 0);
  }

  lemma {:induction false} IdLengths(c: Claims)
    requires IsKid(c.kid) && IsId(c.aud) && IsId(c.jti) && IsId(c.corr)
    ensures |JsonPrinter.Print(JStr(c.kid))| == |c.kid| + 2 && |JsonPrinter.Print(JStr(c.aud))| == 24
    ensures |JsonPrinter.Print(JStr(c.jti))| == 24 && |JsonPrinter.Print(JStr(c.corr))| == 24
  {
    IdLength(c.kid);
    IdLength(c.aud);
    IdLength(c.jti);
    IdLength(c.corr);
  }

  lemma {:induction false} IdLength(t: Text)
    requires Alphabet(t)
    ensures |JsonPrinter.Print(JStr(t))| == |t| + 2
  {
    AlphabetIsPrinted(t);
    AlphabetEscapesNothing(t);
    PrintedString(t);
  }

  lemma {:induction false} DigestLength(t: Text)
    requires IsDigest(t)
    ensures |JsonPrinter.Print(JStr(t))| == 45
  {
    DigestIsPlain(t);
    var b := Base64.Canonical(t).value;
    Base64.CanonicalIsEncoding(t, b);
    IdLength(t);
  }

  function Middle(r: Semantic): seq<Json> { [JStr(r.verb), JStr(r.target), PairsJson(r.pairs), Num(r.bodyLen)] }

  lemma {:induction false} RequestWeight(r: Semantic)
    requires RequestShape(r)
    ensures Weight(Middle(r), 0) == 7 + |r.verb| + Quoted(r.target) + PairsWeight(r.pairs, 0) + NumLength(r.bodyLen)
  {
    assert AllPrinted(r.target) && AllPrinted(r.verb) by { RequestIsPlain(r); }
    assert Quoted(r.verb) == |r.verb| + 2 by { VerbLength(r.verb); }
    assert PrintedPairs(r.pairs) by { PairsPrinted(r.pairs); }
    assert r.pairs != [] by { assert ValueNamed(r.pairs, HOST).Some?; }
    MiddleFrom(r);
  }

  lemma {:induction false} MiddleFrom(r: Semantic)
    requires AllPrinted(r.target) && AllPrinted(r.verb) && PrintedPairs(r.pairs) && r.pairs != []
    ensures Weight(Middle(r), 0) == 5 + Quoted(r.verb) + Quoted(r.target) + PairsWeight(r.pairs, 0)
            + NumLength(r.bodyLen)
  {
    PrintedString(r.verb);
    PrintedString(r.target);
    PairsLength(r.pairs);
    WeightFour(JStr(r.verb), JStr(r.target), PairsJson(r.pairs), Num(r.bodyLen));
  }

  lemma {:induction false} PairsPrinted(pairs: seq<SemanticRequests.Pair>)
    requires PairsFrom(pairs, 0, [])
    ensures PrintedPairs(pairs)
  {
    PairsArePlain(pairs, 0, []);
    forall k | 0 <= k < |pairs| ensures AllPrinted(pairs[k].name) && AllPrinted(pairs[k].value) {
      PrintedToTheEnd(pairs[k].value, 0);
      NameIsPrinted(pairs[k].name);
    }
  }

  function Tail(l: Option<Lineage>): seq<Json> { if l.None? then [] else [JStr(l.value.pbJti), JStr(l.value.pbSha)] }

  lemma {:induction false} LineageWeight(l: Option<Lineage>)
    requires l.Some? ==> IsId(l.value.pbJti) && IsDigest(l.value.pbSha)
    ensures Weight(Tail(l), 0) == if l.None? then 0 else 71
  {
    if l.Some? {
      IdLength(l.value.pbJti);
      DigestLength(l.value.pbSha);
      WeightTwo(JStr(l.value.pbJti), JStr(l.value.pbSha));
    }
  }

  lemma {:induction false} ClaimsSplit(c: Claims)
    ensures ClaimsArray(c) == Head(c) + Middle(c.request) + [JStr(c.request.bodySha)] + Tail(c.lineage)
  {
  }

  lemma {:induction false} ShaWeight(sha: Text)
    requires IsDigest(sha)
    ensures Weight([JStr(sha)], 0) == 46
  {
    DigestLength(sha);
    assert Weight([JStr(sha)], 1) == 0;
  }

  lemma {:induction false} WeightJoins(a: seq<Json>, b: seq<Json>, c: seq<Json>, d: seq<Json>)
    ensures Weight(a + b + c + d, 0) == Weight(a, 0) + Weight(b, 0) + Weight(c, 0) + Weight(d, 0)
  {
    WeightJoin(a + b + c, d, 0);
    WeightJoin(a + b, c, 0);
    WeightJoin(a, b, 0);
  }

  /** The exact length of a signed payload. */
  lemma {:induction false} PayloadLength(c: Claims)
    requires Shape(c)
    ensures |Payload(c)| == PayloadSize(c)
  {
    assert Weight(Head(c), 0) == 93 + |c.kid| + NumLength(c.iat) + NumLength(c.exp) + NumLength(c.hop) by {
      HeadWeight(c);
    }
    assert Weight([JStr(c.request.bodySha)], 0) == 46 by { ShaWeight(c.request.bodySha); }
    assert Weight(Tail(c.lineage), 0) == (if c.lineage.None? then 0 else 71) by { LineageWeight(c.lineage); }
    RequestWeight(c.request);
    SizeFrom(c);
  }

  lemma {:induction false} SizeFrom(c: Claims)
    requires Weight(Head(c), 0) == 93 + |c.kid| + NumLength(c.iat) + NumLength(c.exp) + NumLength(c.hop)
    requires Weight([JStr(c.request.bodySha)], 0) == 46 && Weight(Tail(c.lineage), 0) == if c.lineage.None? then 0
             else 71
    requires Weight(Middle(c.request), 0) ==
               7 + |c.request.verb| + Quoted(c.request.target) + PairsWeight(c.request.pairs, 0)
                 + NumLength(c.request.bodyLen)
    ensures |Payload(c)| == PayloadSize(c)
  {
    ClaimsSplit(c);
    WeightJoins(Head(c), Middle(c.request), [JStr(c.request.bodySha)], Tail(c.lineage));
    ArrayLength(ClaimsArray(c));
  }

  // ------------------------------------------------------------------ the bounds

  /** The longest payload whose envelope a verifier reads: 1470 units for a Plane proof, 1662 for a Boundary proof. */
  function PayloadMax(role: Role): nat { if role == Pb then 1_470 else 1_662 }

  /** The envelope fits the header bound exactly when the payload fits. */
  lemma {:induction false} FitsExactly(c: Claims, signature: Bytes)
    requires Shape(c) && Octets(signature) && |signature| == 64 && Octets(Payload(c))
    ensures |Envelope(Payload(c), signature)| <= HeaderMax(RoleOf(c)) <==> PayloadSize(c) <= PayloadMax(RoleOf(c))
  {
    assert |Payload(c)| == PayloadSize(c) by { PayloadLength(c); }
    EnvelopeLength(Payload(c), signature);
  }

  lemma {:induction false} EnvelopeLength(payload: Bytes, signature: Bytes)
    requires Octets(payload) && Octets(signature) && |signature| == 64
    ensures |Envelope(payload, signature)| == (|payload| * 4 + 2) / 3 + 87
  {
  }

  lemma {:induction false} SafeLength(n: nat)
    requires n <= MAX_SAFE
    ensures NumLength(n) <= 16
  {
    SixteenDigits();
    DecLength(n, 16);
  }

  lemma {:induction false} SixteenDigits()
    ensures Pow10(16) == 10_000_000_000_000_000
  {
    assert Pow10(4) == 10_000;
    assert Pow10(8) == 10_000 * Pow10(4);
    assert Pow10(12) == 10_000 * Pow10(8);
    assert Pow10(16) == 10_000 * Pow10(12);
  }

  lemma {:induction false} BodyLength(n: nat)
    requires n <= MAX_BODY
    ensures NumLength(n) <= 5
  {
    assert Pow10(5) == 100_000;
    DecLength(n, 5);
  }

  /** Ids, numbers and the verb take at most 236 of a Plane payload; the target and the pairs decide the rest. */
  lemma {:induction false} FixedPart(c: Claims)
    requires Shape(c)
    ensures PayloadSize(c) <= 236 + Quoted(c.request.target) + PairsWeight(c.request.pairs, 0)
            + (if c.lineage.None? then 0 else 71)
  {
    SafeLength(c.iat);
    SafeLength(c.exp);
    SafeLength(c.hop);
    BodyLength(c.request.bodyLen);
    VerbLength(c.request.verb);
  }
}
