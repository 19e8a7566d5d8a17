/**
 * The two issuers (defense/core/hop-proof.ts, issuePb and issueBa): a Plane proof states an approved request, a
 * Boundary proof repeats a verified Plane proof and commits to its header.
 */
module HopIssuing {
  import opened Base
  import opened Decimals
  import opened Requests
  import opened SemanticRequests
  import opened HopProofs
  import opened WireScans
  import Base64

  datatype Issuer = Issuer(kid: Text, audience: Text, lifetime: nat)

  /** What one call adds: the clock reading, the fresh id. */
  datatype Stamp = Stamp(iat: nat, jti: Text)

  /** The formats that every verifier demands of the identifiers, and the lifetime that the issuer itself demands. */
  predicate CanIssue(issuer: Issuer, role: Role, stamp: Stamp)
  {
    && IsKid(issuer.kid) && IsId(issuer.audience) && 1 <= issuer.lifetime <= MaxLifetime(role)
    && stamp.iat + issuer.lifetime <= MAX_SAFE && IsId(stamp.jti)
  }

  function IssuePb(issuer: Issuer, approved: Semantic, stamp: Stamp, hop: nat, corr: Text): Claims
  {
    Claims(issuer.kid, issuer.audience, stamp.iat, stamp.iat + issuer.lifetime, stamp.jti, hop, corr, approved, None)
  }

  function IssueBa(issuer: Issuer, digest: Bytes -> Text, pb: Claims, pbHeader: Text, stamp: Stamp): Claims
  {
    Claims(issuer.kid, issuer.audience, stamp.iat, stamp.iat + issuer.lifetime, stamp.jti, pb.hop, pb.corr, pb.request,
           Some(Lineage(pb.jti, digest(pbHeader))))
  }

  // ------------------------------------------------------------------ the digest of nothing

  lemma {:induction false} EmptyBodyText()
    ensures Alphabet(EMPTY_BODY) && |EMPTY_BODY| == 43 && EMPTY_BODY[42] == 'U' as int
  {
  }

  /** The constant the code compares with is a canonical digest. */
  lemma {:induction false} EmptyBodyIsDigest()
    ensures IsDigest(EMPTY_BODY)
  {
    EmptyBodyText();
    var t := EMPTY_BODY;
    Base64.EncodeUndoes(t, 0);
    assert t[0..] == t;
    Base64.CanonicalIsEncoding(t, Base64.LooseFrom(t, 0));
  }

  // ------------------------------------------------------------------ approved requests are well-shaped claims

  lemma {:induction false} NameOrder()
    ensures Before([], CONTENT_TYPE) && Before([], HOST) && Before(CONTENT_TYPE, HOST) && Before(HOST, ORIGIN)
  {
    assert CONTENT_TYPE != [] && HOST != [] && ORIGIN != [];
    assert CONTENT_TYPE[0] == 'c' as int && HOST[0] == 'h' as int && ORIGIN[0] == 'o' as int;
  }

  /** Pairs in order are what the decoder walks through. */
  lemma {:induction false} PairsInOrder(pairs: seq<SemanticRequests.Pair>)
    requires 1 <= |pairs| <= 3
    requires forall i :: 0 <= i < |pairs| ==> GoodValue(pairs[i])
    requires Before([], pairs[0].name)
    requires forall i :: 0 <= i < |pairs| - 1 ==> Before(pairs[i].name, pairs[i + 1].name)
    ensures PairsFrom(pairs, 0, [])
  {
    assert PairsFrom(pairs, |pairs|, pairs[|pairs| - 1].name);
    if |pairs| == 3 { assert PairsFrom(pairs, 2, pairs[1].name); }
    if |pairs| >= 2 { assert PairsFrom(pairs, 1, pairs[0].name); }
  }

  predicate GoodValue(p: SemanticRequests.Pair) { BoundName(p.name) && CanonicalValue(p.value) == Some(p.value) }

  lemma {:induction false} SortedPairs(bound: map<Text, Text>)
    requires bound.Keys <= {CONTENT_TYPE, HOST, ORIGIN} && HOST in bound && forall k :: k in bound ==> IsValue(bound[k])
    ensures PairsFrom(Sorted(bound), 0, []) && 1 <= |Sorted(bound)| <= 3
  {
    NameOrder();
    var pairs := Sorted(bound);
    forall k | k in bound ensures GoodValue(SemanticRequests.Pair(k, bound[k])) { CanonicalIsStable(bound[k]); }
    PairsInOrder(pairs);
  }

  lemma {:induction false} FirstNamed(pairs: seq<SemanticRequests.Pair>, k: nat)
    requires k < |pairs| && forall i :: 0 <= i < k ==> pairs[i].name != pairs[k].name
    ensures ValueNamed(pairs, pairs[k].name) == Some(pairs[k].value)
  {
    if k > 0 {
      FirstNamed(pairs[1..], k - 1);
    }
  }

  lemma {:induction false} NoneNamed(pairs: seq<SemanticRequests.Pair>, name: Text)
    requires forall i :: 0 <= i < |pairs| ==> pairs[i].name != name
    ensures ValueNamed(pairs, name) == None
  {
    if pairs != [] {
      NoneNamed(pairs[1..], name);
    }
  }

  lemma {:induction false} SortedNamed(bound: map<Text, Text>)
    requires HOST in bound
    ensures ValueNamed(Sorted(bound), HOST) == Some(bound[HOST])
    ensures ValueNamed(Sorted(bound), CONTENT_TYPE) == if CONTENT_TYPE in bound then Some(bound[CONTENT_TYPE]) else None
  {
    NamesDiffer();
    var pairs := Sorted(bound);
    var h := |One(bound, CONTENT_TYPE)|;
    assert pairs[h] == SemanticRequests.Pair(HOST, bound[HOST]);
    FirstNamed(pairs, h);
    if CONTENT_TYPE in bound {
      assert pairs[0] == SemanticRequests.Pair(CONTENT_TYPE, bound[CONTENT_TYPE]);
      FirstNamed(pairs, 0);
    } else {
      NoneNamed(pairs, CONTENT_TYPE);
    }
  }

  /** What the plane approves has the shape the decoders demand, whatever well-formed digest is used. */
  lemma {:induction false} ApprovedShape(s: Semantic, bound: map<Text, Text>)
    requires IsSemantic(s, bound) && (s.verb == POST ==> IsDigest(s.bodySha))
    ensures RequestShape(s)
  {
    SortedPairs(bound);
    SortedNamed(bound);
    EmptyBodyIsDigest();
    assert GET[0] != POST[0];
  }

  lemma {:induction false} IssuedPbShape(issuer: Issuer, approved: Semantic, stamp: Stamp, hop: nat, corr: Text)
    requires CanIssue(issuer, Pb, stamp) && RequestShape(approved) && 1 <= hop <= MAX_SAFE && IsId(corr)
    ensures Shape(IssuePb(issuer, approved, stamp, hop, corr))
  {
  }

  lemma {:induction false} IssuedBaShape(issuer: Issuer, digest: Bytes -> Text, pb: Claims, pbHeader: Text,
      stamp: Stamp)
    requires CanIssue(issuer, Ba, stamp) && Shape(pb) && IsDigest(digest(pbHeader))
    ensures Shape(IssueBa(issuer, digest, pb, pbHeader, stamp))
  {
  }
}
