/**
 * Encoding and strict decoding of a hop proof undo each other (defense/core/hop-proof.ts): a header is accepted exactly
 * when it is the canonical envelope of well-shaped claims, and its length is known from the claims.
 */
module HopEnvelopes {
  import opened Base
  import opened Decimals
  import opened Requests
  import opened SemanticRequests
  import opened StrictJson
  import opened HopProofs
  import Base64
  import Forms
  import JsonGrammar
  import JsonPrinter
  import Utf8

  // ------------------------------------------------------------------ plain values

  predicate AllPrinted(t: Text) { forall i :: 0 <= i < |t| ==> Printed(t[i]) }

  /** Nested arrays of printable ASCII strings and decimal numerals: all that claims are made of. */
  predicate Plain(v: Json)
  {
    match v
    case JStr(s) => AllPrinted(s)
    case JNum(literal) => AllDigits(literal) && literal != [] && (literal[0] == 48 ==> |literal| == 1)
    case JArr(items) => forall i :: 0 <= i < |items| ==> Plain(items[i])
    case _ => false
  }

  /** How many units the printer escapes from index `n` on. */
  function Escapes(s: Text, n: nat): (k: nat)
    requires n <= |s|
    ensures k <= |s| - n
    decreases |s| - n
  {
    if n == |s| then 0 else (if s[n] == QUOTE || s[n] == BACKSLASH then 1 else 0) + Escapes(s, n + 1)
  }

  lemma {:induction false} PlainChars(s: Text, n: nat)
    requires n <= |s| && AllPrinted(s)
    ensures Ascii(JsonPrinter.PrintChars(s, n)) && |JsonPrinter.PrintChars(s, n)| == |s| - n + Escapes(s, n)
    decreases |s| - n
  {
    if n < |s| {
      PlainChars(s, n + 1);
    }
  }

  lemma {:induction false} PlainNumber(literal: Text)
    requires Plain(JNum(literal))
    ensures JsonGrammar.IsNumber(literal, 0, |literal|)
  {
    var n := |literal|;
    assert JsonGrammar.IsInteger(literal, 0, n);
    assert JsonGrammar.IsFraction(literal, n, n) && JsonGrammar.IsExponent(literal, n, n);
  }

  lemma {:induction false} PlainPrints(v: Json)
    requires Plain(v)
    ensures JsonPrinter.Printable(v) && JsonGrammar.Unique(v) && Ascii(JsonPrinter.Print(v))
    decreases v, 1
  {
    match v
    case JStr(s) => PlainChars(s, 0);
    case JNum(literal) => PlainNumber(literal);
    case JArr(items) =>
      forall i | 0 <= i < |items| ensures JsonPrinter.Printable(items[i]) && JsonGrammar.Unique(items[i]) {
        PlainPrints(items[i]);
      }
      if items != [] { PlainItems(v, 0); }
  }

  lemma {:induction false} PlainItems(v: Json, n: nat)
    requires Plain(v) && v.JArr? && n < |v.items|
    ensures Ascii(JsonPrinter.PrintItems(v, n))
    decreases v, 0, |v.items| - n
  {
    PlainPrints(v.items[n]);
    if n + 1 < |v.items| {
      PlainItems(v, n + 1);
    }
  }

  // ------------------------------------------------------------------ claims are plain

  lemma {:induction false} AlphabetIsPrinted(t: Text)
    requires Alphabet(t)
    ensures AllPrinted(t)
  {
  }

  lemma {:induction false} PrintedToTheEnd(t: Text, i: nat)
    requires i <= |t| && PrintedFrom(t, i)
    ensures forall k :: i <= k < |t| ==> Printed(t[k])
    decreases |t| - i
  {
    if i < |t| {
      PrintedToTheEnd(t, i + 1);
    }
  }

  lemma {:induction false} DigestIsPlain(t: Text)
    requires IsDigest(t)
    ensures AllPrinted(t) && |t| == 43
  {
    var b := Base64.Canonical(t).value;
    Base64.CanonicalIsEncoding(t, b);
    AlphabetIsPrinted(t);
  }

  lemma {:induction false} NumIsPlain(n: nat)
    ensures Plain(Num(n))
  {
    LeadingDigit(n);
  }

  ghost predicate GoodPair(p: SemanticRequests.Pair) { BoundName(p.name) && IsValue(p.value) }

  lemma {:induction false} FirstPair(pairs: seq<SemanticRequests.Pair>, i: nat, previous: Text)
    requires i < |pairs| && PairsFrom(pairs, i, previous)
    ensures GoodPair(pairs[i]) && PairsFrom(pairs, i + 1, pairs[i].name)
  {
  }

  lemma {:induction false} PairsArePlain(pairs: seq<SemanticRequests.Pair>, i: nat, previous: Text)
    requires i <= |pairs| && PairsFrom(pairs, i, previous)
    ensures forall k :: i <= k < |pairs| ==> GoodPair(pairs[k])
    decreases |pairs| - i
  {
    if i < |pairs| {
      FirstPair(pairs, i, previous);
      PairsArePlain(pairs, i + 1, pairs[i].name);
      assert GoodPair(pairs[i]);
    }
  }

  lemma {:induction false} PairIsPlain(p: SemanticRequests.Pair)
    requires GoodPair(p)
    ensures Plain(PairJson(p))
  {
    PrintedToTheEnd(p.value, 0);
    NameIsPrinted(p.name);
  }

  lemma {:induction false} NameIsPrinted(name: Text)
    requires BoundName(name)
    ensures AllPrinted(name) && |name| <= 12
  {
  }

  lemma {:induction false} PairsJsonIsPlain(pairs: seq<SemanticRequests.Pair>)
    requires PairsFrom(pairs, 0, [])
    ensures Plain(PairsJson(pairs))
  {
    PairsArePlain(pairs, 0, []);
    forall k | 0 <= k < |pairs| ensures Plain(PairJson(pairs[k])) { PairIsPlain(pairs[k]); }
  }

  lemma {:induction false} VerbsArePlain()
    ensures AllPrinted(GET) && AllPrinted(POST)
  {
  }

  ghost predicate RequestPlain(r: Semantic)
  {
    AllPrinted(r.verb) && AllPrinted(r.target) && Plain(PairsJson(r.pairs)) && AllPrinted(r.bodySha)
  }

  lemma {:induction false} RequestIsPlain(r: Semantic)
    requires RequestShape(r)
    ensures RequestPlain(r)
  {
    PairsJsonIsPlain(r.pairs);
    DigestIsPlain(r.bodySha);
    VerbsArePlain();
  }

  lemma {:induction false} RoleIsPlain(role: Role)
    ensures AllPrinted(RoleText(role))
  {
  }

  ghost predicate IdsPlain(c: Claims)
  {
    AllPrinted(c.kid) && AllPrinted(c.aud) && AllPrinted(c.jti) && AllPrinted(c.corr)
  }

  lemma {:induction false} IdsArePlain(c: Claims)
    requires IsKid(c.kid) && IsId(c.aud) && IsId(c.jti) && IsId(c.corr)
    ensures IdsPlain(c)
  {
  }

  ghost predicate LineagePlain(l: Option<Lineage>)
  {
    l.Some? ==> AllPrinted(l.value.pbJti) && AllPrinted(l.value.pbSha)
  }

  lemma {:induction false} LineageIsPlain(l: Option<Lineage>)
    requires l.Some? ==> IsId(l.value.pbJti) && IsDigest(l.value.pbSha)
    ensures LineagePlain(l)
  {
    if l.Some? { DigestIsPlain(l.value.pbSha); }
  }

  lemma {:induction false} PlainParts(c: Claims, role: Text)
    requires AllPrinted(role) && role == RoleText(RoleOf(c)) && IdsPlain(c) && RequestPlain(c.request)
             && LineagePlain(c.lineage)
    ensures Plain(JArr(ClaimsArray(c)))
  {
    NumIsPlain(c.iat);
    NumIsPlain(c.exp);
    NumIsPlain(c.hop);
    NumIsPlain(c.request.bodyLen);
    var a := ClaimsArray(c);
    assert a[0] == JStr(role);
    forall i | 0 <= i < |a| ensures Plain(a[i]) { }
  }

  lemma {:induction false} ClaimsArePlain(c: Claims)
    requires Shape(c)
    ensures Plain(JArr(ClaimsArray(c)))
  {
    assert RequestPlain(c.request) by { RequestIsPlain(c.request); }
    assert IdsPlain(c) by { IdsArePlain(c); }
    assert LineagePlain(c.lineage) by { LineageIsPlain(c.lineage); }
    AllPlain(c);
  }

  lemma {:induction false} AllPlain(c: Claims)
    requires IdsPlain(c) && RequestPlain(c.request) && LineagePlain(c.lineage)
    ensures Plain(JArr(ClaimsArray(c)))
  {
    var role := RoleText(RoleOf(c));
    RoleIsPlain(RoleOf(c));
    PlainParts(c, role);
  }

  // ------------------------------------------------------------------ the payload

  /** The signed octets of claims are their canonical text, and nothing else reads as those claims. */
  lemma {:induction false} PayloadIsEncoded(payload: Bytes, role: Role, c: Claims)
    ensures PayloadArray(payload).Some? && ArrayClaims(PayloadArray(payload).value, role) == Good(c) <==>
              Shape(c) && RoleOf(c) == role && payload == Payload(c)
  {
    var v := JArr(ClaimsArray(c));
    if Shape(c) && RoleOf(c) == role && payload == Payload(c) {
      ClaimsArePlain(c);
      PlainPrints(v);
      Utf8.AsciiIsItself(payload);
      JsonPrinter.PrintThenParse(v);
      ArrayIsEncoded(ClaimsArray(c), role, c);
    }
    if PayloadArray(payload).Some? && ArrayClaims(PayloadArray(payload).value, role) == Good(c) {
      ArrayIsEncoded(PayloadArray(payload).value, role, c);
      ClaimsArePlain(c);
      PlainPrints(v);
      Utf8.AsciiComesFromAscii(payload);
    }
  }

  lemma {:induction false} PayloadIsOctets(c: Claims)
    requires Shape(c)
    ensures Octets(Payload(c)) && Ascii(Payload(c)) && Payload(c) != []
  {
    ClaimsArePlain(c);
    PlainPrints(JArr(ClaimsArray(c)));
  }

  // ------------------------------------------------------------------ the header

  lemma {:induction false} AlphabetHasNo(t: Text, u: int)
    requires Alphabet(t) && !Base64Url(u)
    ensures Lacks(t, u)
  {
  }

  lemma {:induction false} FindsFirst(t: Text, u: int, i: nat, j: nat)
    requires i <= j < |t| && t[j] == u && forall k :: i <= k < j ==> t[k] != u
    ensures Forms.FindFrom(t, u, i) == j
    decreases j - i
  {
    if i < j {
      FindsFirst(t, u, i + 1, j);
    }
  }

  /** Two alphabet texts joined by a dot come apart at that dot. */
  lemma {:induction false} EnvelopeSplits(a: Text, b: Text)
    requires Alphabet(a) && Alphabet(b) && a != [] && b != []
    ensures var t := a + [DOT] + b;
            Forms.Find(t, DOT) == |a| && t[..|a|] == a && t[|a| + 1..] == b && Lacks(t, COMMA) && Trimmed(t)
              && Lacks(b, DOT)
  {
    var t := a + [DOT] + b;
    assert forall k :: 0 <= k < |a| ==> t[k] == a[k];
    assert forall k :: 0 <= k < |b| ==> t[|a| + 1 + k] == b[k];
    FindsFirst(t, DOT, 0, |a|);
    AlphabetHasNo(a, COMMA);
    AlphabetHasNo(b, COMMA);
    AlphabetHasNo(b, DOT);
  }

  lemma {:induction false} HeaderParts(header: Text, dot: nat)
    requires dot < |header| && header[dot] == DOT
    ensures header == header[..dot] + [DOT] + header[dot + 1..]
  {
  }

  /** What an accepted header is. */
  ghost predicate Sealed(header: Text, role: Role, d: Decoded)
  {
    && Shape(d.claims) && RoleOf(d.claims) == role
    && d.payload == Payload(d.claims) && Octets(d.payload) && Octets(d.signature) && |d.signature| == 64
    && header == Envelope(d.payload, d.signature)
  }

  lemma {:induction false} SealedIsAccepted(header: Text, role: Role, d: Decoded)
    requires Sealed(header, role, d) && |header| <= HeaderMax(role)
    ensures DecodeProof(header, role) == Good(d)
  {
    PayloadIsOctets(d.claims);
    EnvelopeSplits(Base64.Encode(d.payload), Base64.Encode(d.signature));
    Base64.CanonicalIsEncoding(Base64.Encode(d.payload), d.payload);
    Base64.CanonicalIsEncoding(Base64.Encode(d.signature), d.signature);
    PayloadIsEncoded(d.payload, role, d.claims);
  }

  lemma {:induction false} AcceptedIsSealed(header: Text, role: Role, d: Decoded)
    requires DecodeProof(header, role) == Good(d)
    ensures Sealed(header, role, d) && |header| <= HeaderMax(role)
  {
    var dot := Forms.Find(header, DOT);
    Base64.CanonicalIsEncoding(header[..dot], d.payload);
    Base64.CanonicalIsEncoding(header[dot + 1..], d.signature);
    PayloadIsEncoded(d.payload, role, d.claims);
    HeaderParts(header, dot);
  }

  /** A header is accepted exactly when it is the bounded canonical envelope of well-shaped claims of its role. */
  lemma {:induction false} DecodeIsEnvelope(header: Text, role: Role, d: Decoded)
    ensures DecodeProof(header, role) == Good(d) <==> Sealed(header, role, d) && |header| <= HeaderMax(role)
  {
    if Sealed(header, role, d) && |header| <= HeaderMax(role) { SealedIsAccepted(header, role, d); }
    if DecodeProof(header, role) == Good(d) { AcceptedIsSealed(header, role, d); }
  }

  lemma {:induction false} PayloadInjective(c: Claims, d: Claims)
    requires Shape(c) && Shape(d) && Payload(c) == Payload(d)
    ensures c == d
  {
    PayloadIsEncoded(Payload(c), RoleOf(c), c);
    PayloadIsEncoded(Payload(c), RoleOf(d), d);
    ArrayIsEncoded(PayloadArray(Payload(c)).value, RoleOf(c), c);
    ArrayIsEncoded(PayloadArray(Payload(c)).value, RoleOf(d), d);
    EncodedRole(c, d);
  }

  lemma {:induction false} EncodedRole(c: Claims, d: Claims)
    requires ClaimsArray(c) == ClaimsArray(d)
    ensures RoleOf(c) == RoleOf(d)
  {
    assert |ClaimsArray(c)| == if RoleOf(c) == Pb then 13 else 15;
    assert |ClaimsArray(d)| == if RoleOf(d) == Pb then 13 else 15;
  }

  /** A proof of one hop is never accepted as the other's. */
  lemma {:induction false} RolesAreDisjoint(header: Text)
    ensures !(DecodeProof(header, Pb).Good? && DecodeProof(header, Ba).Good?)
  {
    if DecodeProof(header, Pb).Good? && DecodeProof(header, Ba).Good? {
      var p, b := DecodeProof(header, Pb).value, DecodeProof(header, Ba).value;
      AcceptedIsSealed(header, Pb, p);
      AcceptedIsSealed(header, Ba, b);
      SamePayload(p.payload, p.signature, b.payload, b.signature);
      PayloadInjective(p.claims, b.claims);
    }
  }

  lemma {:induction false} SamePayload(p: Bytes, s: Bytes, q: Bytes, r: Bytes)
    requires Octets(p) && Octets(s) && Octets(q) && Octets(r) && p != [] && s != [] && q != [] && r != []
    requires Envelope(p, s) == Envelope(q, r)
    ensures p == q && s == r
  {
    EnvelopeSplits(Base64.Encode(p), Base64.Encode(s));
    EnvelopeSplits(Base64.Encode(q), Base64.Encode(r));
    Base64.EncodeInjective(p, q);
    Base64.EncodeInjective(s, r);
  }
}
