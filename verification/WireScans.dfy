/**
 * Honest hops scan clean: whatever the order and letter case in which the emitted headers arrive, with or without a
 * connection header, the verifier's canonicalizer (defense/core/semantic-request.ts) reconstructs exactly the pairs
 * that the plane approved.
 */
module WireScans {
  import opened Base
  import opened Decimals
  import opened Requests
  import opened SemanticRequests

  /** `bound` is what `s` carries, and `s` is within the closed shape. */
  ghost predicate IsSemantic(s: Semantic, bound: map<Text, Text>)
  {
    && s.pairs == Sorted(bound) && bound.Keys <= {CONTENT_TYPE, HOST, ORIGIN} && HOST in bound
    && (forall k :: k in bound ==> IsValue(bound[k]))
    && IsTarget(s.target) && s.bodyLen <= MAX_BODY
    && ((s.verb == POST && CONTENT_TYPE in bound && bound[CONTENT_TYPE] == FORM) ||
        (s.verb == GET && CONTENT_TYPE !in bound && s.bodyLen == 0 && s.bodySha == EMPTY_BODY))
  }

  // ------------------------------------------------------------------ what the plane approves

  lemma {:induction false} GatheredIsClosed(headers: seq<Header>, n: nat)
    requires n <= |headers|
    ensures var g := GatherTo(Tags(headers), n);
            g.Gathered? ==> g.bound.Keys <= {CONTENT_TYPE, HOST, ORIGIN} && forall k :: k in g.bound ==>
              IsValue(g.bound[k])
  {
    if n > 0 {
      GatheredIsClosed(headers, n - 1);
      assert Tags(headers)[n - 1] == TagOf(headers[n - 1]);
    }
  }

  /** What the plane approves is closed, canonical, sorted, and bound to the request it was derived from. */
  lemma {:induction false} ApprovedIsSemantic(digest: Bytes -> Text, request: LayerRequest, s: Semantic)
    returns (bound: map<Text, Text>)
    requires Approve(digest, request).Approved? && Approve(digest, request).request == s
    ensures IsSemantic(s, bound) && s.verb == request.verb && s.target == request.target
    ensures s.verb == POST ==>
            request.body.Some? && s.bodyLen == |request.body.value| && s.bodySha == digest(request.body.value)
  {
    GatheredIsClosed(request.headers, |request.headers|);
    bound := GatherTo(Tags(request.headers), |request.headers|).bound;
  }

  // ------------------------------------------------------------------ the emitted headers

  /** What a hop adds to the wire headers of a semantic request. */
  datatype Hop = Hop(pb: Text, ba: Option<Text>, connection: Option<Text>)

  function HopHeaders(s: Semantic, hop: Hop): seq<Header>
  {
    WireHeaders(s) + [Header(HOP_PB, hop.pb)]
    + (if hop.ba.Some? then [Header(HOP_BA, hop.ba.value)] else [])
    + (if hop.connection.Some? then [Header(CONNECTION, hop.connection.value)] else [])
  }

  /** The same headers in some order, with names in any letter case. */
  ghost predicate Rearranges(headers: seq<Header>, emitted: seq<Header>)
  {
    multiset(Tags(headers)) == multiset(Tags(emitted))
  }

  function PairTags(pairs: seq<Pair>): seq<Tag>
  {
    seq(|pairs|, i requires 0 <= i < |pairs| => Tag(Bound, pairs[i].name, pairs[i].value))
  }

  function HopTags(s: Semantic, hop: Hop): seq<Tag>
  {
    PairTags(s.pairs)
    + (if s.verb == POST then [Tag(Derived, CONTENT_LENGTH, Dec(s.bodyLen))] else [])
    + [Tag(ProofPb, HOP_PB, hop.pb)]
    + (if hop.ba.Some? then [Tag(ProofBa, HOP_BA, hop.ba.value)] else [])
    + (if hop.connection.Some? then [Tag(Transport, CONNECTION, hop.connection.value)] else [])
  }

  lemma {:induction false} LowerIsSelf(name: Text)
    requires forall i :: 0 <= i < |name| ==> 45 <= name[i] <= 57 || 97 <= name[i] <= 122
    ensures Lower(name) == name
  {
  }

  lemma {:induction false} BoundTag(name: Text, value: Text)
    requires name in {CONTENT_TYPE, HOST, ORIGIN}
    ensures TagOf(Header(name, value)) == Tag(Bound, name, value)
  {
    LowerIsSelf(name);
  }

  lemma {:induction false} LengthTag(value: Text)
    ensures TagOf(Header(CONTENT_LENGTH, value)) == Tag(Derived, CONTENT_LENGTH, value)
  {
    LowerIsSelf(CONTENT_LENGTH);
    assert |CONTENT_LENGTH| == 14;
  }

  lemma {:induction false} ConnectionTag(value: Text)
    ensures TagOf(Header(CONNECTION, value)) == Tag(Transport, CONNECTION, value)
  {
    LowerIsSelf(CONNECTION);
    assert |CONNECTION| == 10;
  }

  lemma {:induction false} PbTag(value: Text)
    ensures TagOf(Header(HOP_PB, value)) == Tag(ProofPb, HOP_PB, value)
  {
    LowerIsSelf(HOP_PB);
    assert |HOP_PB| == 12 && HOP_PB[0] != CONTENT_TYPE[0];
  }

  lemma {:induction false} BaTag(value: Text)
    ensures TagOf(Header(HOP_BA, value)) == Tag(ProofBa, HOP_BA, value)
  {
    LowerIsSelf(HOP_BA);
    assert |HOP_BA| == 12 && HOP_BA[0] != CONTENT_TYPE[0] && HOP_BA[10] != HOP_PB[10];
  }

  lemma {:induction false} SortedNames(bound: map<Text, Text>)
    ensures forall i :: 0 <= i < |Sorted(bound)| ==>
              Sorted(bound)[i].name in {CONTENT_TYPE, HOST, ORIGIN} && Sorted(bound)[i].name in bound
              && Sorted(bound)[i].value == bound[Sorted(bound)[i].name]
  {
  }

  lemma {:induction false} TagsJoin(a: seq<Header>, b: seq<Header>)
    ensures Tags(a + b) == Tags(a) + Tags(b)
  {
  }

  lemma {:induction false} WireTags(s: Semantic, bound: map<Text, Text>)
    requires s.pairs == Sorted(bound)
    ensures Tags(WireHeaders(s)) == PairTags(s.pairs)
            + (if s.verb == POST then [Tag(Derived, CONTENT_LENGTH, Dec(s.bodyLen))] else [])
  {
    var first := seq(|s.pairs|, i requires 0 <= i < |s.pairs| => Header(s.pairs[i].name, s.pairs[i].value));
    var second := if s.verb == POST then [Header(CONTENT_LENGTH, Dec(s.bodyLen))] else [];
    TagsJoin(first, second);
    SortedNames(bound);
    forall i | 0 <= i < |first| ensures Tags(first)[i] == PairTags(s.pairs)[i] {
      BoundTag(s.pairs[i].name, s.pairs[i].value);
    }
    assert Tags(first) == PairTags(s.pairs);
    LengthTag(Dec(s.bodyLen));
  }

  lemma {:induction false} EmittedTags(s: Semantic, bound: map<Text, Text>, hop: Hop)
    requires s.pairs == Sorted(bound)
    ensures Tags(HopHeaders(s, hop)) == HopTags(s, hop)
  {
    var wire, pb := WireHeaders(s), [Header(HOP_PB, hop.pb)];
    var ba := if hop.ba.Some? then [Header(HOP_BA, hop.ba.value)] else [];
    var connection := if hop.connection.Some? then [Header(CONNECTION, hop.connection.value)] else [];
    TagsJoin(wire + pb + ba, connection);
    TagsJoin(wire + pb, ba);
    TagsJoin(wire, pb);
    WireTags(s, bound);
    PbTag(hop.pb);
    if hop.ba.Some? { BaTag(hop.ba.value); }
    if hop.connection.Some? { ConnectionTag(hop.connection.value); }
  }

  // ------------------------------------------------------------------ rearranged lists

  predicate DistinctNames(tags: seq<Tag>) { forall i, j :: 0 <= i < j < |tags| ==> tags[i].name != tags[j].name }

  lemma {:induction false} Once(tags: seq<Tag>, x: Tag)
    requires DistinctNames(tags)
    ensures multiset(tags)[x] <= 1
  {
    if tags != [] {
      var n := |tags| - 1;
      Once(tags[..n], x);
      assert tags == tags[..n] + [tags[n]];
      assert x == tags[n] ==> x !in tags[..n];
    }
  }

  lemma {:induction false} Twice(tags: seq<Tag>, i: nat, j: nat)
    requires i < j < |tags| && tags[i] == tags[j]
    ensures multiset(tags)[tags[i]] >= 2
  {
    assert tags == tags[..j] + [tags[j]] + tags[j + 1..];
    assert tags[i] in tags[..j];
  }

  lemma {:induction false} SameMembers(tags: seq<Tag>, all: seq<Tag>)
    requires multiset(tags) == multiset(all) && DistinctNames(all)
    ensures DistinctNames(tags) && forall t :: t in tags <==> t in all
  {
    assert forall t :: t in tags <==> t in multiset(tags);
    assert forall t :: t in all <==> t in multiset(all);
    forall i, j | 0 <= i < j < |tags| ensures tags[i].name != tags[j].name {
      if tags[i].name == tags[j].name {
        assert tags[i] in all && tags[j] in all;
        Twice(tags, i, j);
        Once(all, tags[i]);
      }
    }
  }

  // ------------------------------------------------------------------ what the verifier gathers

  /** The raw values of one class among the first `n` headers, in order. */
  function Values(tags: seq<Tag>, n: nat, cls: HeaderClass): seq<Text>
    requires n <= |tags|
  {
    if n == 0 then []
    else if tags[n - 1].cls == cls then Values(tags, n - 1, cls) + [tags[n - 1].value]
    else Values(tags, n - 1, cls)
  }

  lemma {:induction false} NoValues(tags: seq<Tag>, n: nat, cls: HeaderClass)
    requires n <= |tags| && forall i :: 0 <= i < |tags| ==> tags[i].cls != cls
    ensures Values(tags, n, cls) == []
  {
    if n > 0 {
      NoValues(tags, n - 1, cls);
    }
  }

  lemma {:induction false} OneValue(tags: seq<Tag>, n: nat, cls: HeaderClass, k: nat)
    requires k < |tags| && n <= |tags| && forall i :: 0 <= i < |tags| ==> (tags[i].cls == cls <==> i == k)
    ensures Values(tags, n, cls) == if k < n then [tags[k].value] else []
  {
    if n > 0 {
      OneValue(tags, n - 1, cls, k);
    }
  }

  predicate Closed(cls: HeaderClass)
  {
    cls.Bound? || cls.Derived? || cls.Transport? || cls.Measurement? || cls.ProofPb? || cls.ProofBa?
  }

  /** The lists the loop gathers are the raw values of each class. */
  lemma {:induction false} GathersPb(tags: seq<Tag>, n: nat)
    requires n <= |tags|
    ensures ObserveTo(tags, n).pb == Values(tags, n, ProofPb)
  {
    if n > 0 {
      GathersPb(tags, n - 1);
    }
  }

  lemma {:induction false} GathersBa(tags: seq<Tag>, n: nat)
    requires n <= |tags|
    ensures ObserveTo(tags, n).ba == Values(tags, n, ProofBa)
  {
    if n > 0 {
      GathersBa(tags, n - 1);
    }
  }

  lemma {:induction false} GathersNonces(tags: seq<Tag>, n: nat)
    requires n <= |tags|
    ensures ObserveTo(tags, n).nonces == Values(tags, n, Measurement)
  {
    if n > 0 {
      GathersNonces(tags, n - 1);
    }
  }

  lemma {:induction false} CountsConnections(tags: seq<Tag>, n: nat)
    requires n <= |tags|
    ensures ObserveTo(tags, n).connections == |Values(tags, n, Transport)|
  {
    if n > 0 {
      CountsConnections(tags, n - 1);
    }
  }

  function Trimmed(values: seq<Text>): seq<Text> { seq(|values|, i requires 0 <= i < |values| => Trim(values[i])) }

  lemma {:induction false} GathersLengths(tags: seq<Tag>, n: nat)
    requires n <= |tags|
    ensures ObserveTo(tags, n).lengths == Trimmed(Values(tags, n, Derived))
  {
    if n > 0 {
      GathersLengths(tags, n - 1);
    }
  }

  lemma {:induction false} NothingUnbound(tags: seq<Tag>, n: nat)
    requires n <= |tags| && forall i :: 0 <= i < |tags| ==> Closed(tags[i].cls)
    ensures !ObserveTo(tags, n).unbound
  {
    if n > 0 {
      NothingUnbound(tags, n - 1);
    }
  }

  predicate Connects(value: Text) { ConnectionFine(Lower(Trim(value))) }

  lemma {:induction false} NoFraming(tags: seq<Tag>, n: nat)
    requires n <= |tags| && |Values(tags, n, Transport)| <= 1
    requires forall i :: 0 <= i < |tags| && tags[i].cls.Transport? ==> Connects(tags[i].value)
    ensures !ObserveTo(tags, n).framing
  {
    if n > 0 {
      NoFraming(tags, n - 1);
      CountsConnections(tags, n - 1);
    }
  }

  /** Distinct names with canonical values are gathered as they are. */
  lemma {:induction false} GathersBound(tags: seq<Tag>, n: nat)
    requires n <= |tags| && DistinctNames(tags)
    requires forall i :: 0 <= i < |tags| && tags[i].cls.Bound? ==> IsValue(tags[i].value)
    ensures var o := ObserveTo(tags, n);
            && !o.duplicate && !o.badValue
            && (forall i :: 0 <= i < n && tags[i].cls.Bound? ==>
              tags[i].name in o.bound && o.bound[tags[i].name] == tags[i].value)
            && (forall k :: k in o.bound ==> exists i :: 0 <= i < n && tags[i].cls.Bound? && tags[i].name == k)
  {
    if n > 0 {
      GathersBound(tags, n - 1);
      if tags[n - 1].cls.Bound? { CanonicalIsStable(tags[n - 1].value); }
    }
  }

  // ------------------------------------------------------------------ the main result

  ghost predicate Belongs(t: Tag, s: Semantic, bound: map<Text, Text>, hop: Hop)
  {
    || (t.cls.Bound? && t.name in bound && t.value == bound[t.name])
    || (s.verb == POST && t == Tag(Derived, CONTENT_LENGTH, Dec(s.bodyLen)))
    || t == Tag(ProofPb, HOP_PB, hop.pb)
    || (hop.ba.Some? && t == Tag(ProofBa, HOP_BA, hop.ba.value))
    || (hop.connection.Some? && t == Tag(Transport, CONNECTION, hop.connection.value))
  }

  lemma {:induction false} TagsBelong(tags: seq<Tag>, s: Semantic, bound: map<Text, Text>, hop: Hop)
    requires IsSemantic(s, bound) && multiset(tags) == multiset(HopTags(s, hop))
    ensures DistinctNames(tags) && forall i :: 0 <= i < |tags| ==> Belongs(tags[i], s, bound, hop)
  {
    var all := HopTags(s, hop);
    HopTagsShape(s, bound, hop);
    SameMembers(tags, all);
    forall i | 0 <= i < |tags| ensures Belongs(tags[i], s, bound, hop) { assert tags[i] in all; }
  }

  lemma {:induction false} NamesDiffer()
    ensures CONTENT_TYPE != HOST && CONTENT_TYPE != ORIGIN && HOST != ORIGIN
    ensures CONTENT_LENGTH !in {CONTENT_TYPE, HOST, ORIGIN, CONNECTION, HOP_PB, HOP_BA}
    ensures CONNECTION !in {CONTENT_TYPE, HOST, ORIGIN, HOP_PB, HOP_BA}
    ensures HOP_PB !in {CONTENT_TYPE, HOST, ORIGIN, HOP_BA} && HOP_BA !in {CONTENT_TYPE, HOST, ORIGIN}
  {
    assert |CONTENT_TYPE| == 12 && |HOST| == 4 && |ORIGIN| == 6 && |CONTENT_LENGTH| == 14 && |CONNECTION| == 10;
    assert |HOP_PB| == 12 && |HOP_BA| == 12 && HOP_PB[0] == HOP_BA[0] == 120 && CONTENT_TYPE[0] == 99
           && HOP_PB[10] == 112 && HOP_BA[10] == 98;
  }

  ghost predicate Fits(tags: seq<Tag>, names: set<Text>, s: Semantic, bound: map<Text, Text>, hop: Hop)
  {
    DistinctNames(tags) && forall i :: 0 <= i < |tags| ==> tags[i].name in names && Belongs(tags[i], s, bound, hop)
  }

  lemma {:induction false} FitsMore(tags: seq<Tag>, names: set<Text>, s: Semantic, bound: map<Text, Text>, hop: Hop,
      t: Tag)
    requires Fits(tags, names, s, bound, hop) && t.name !in names && Belongs(t, s, bound, hop)
    ensures Fits(tags + [t], names + {t.name}, s, bound, hop)
  {
  }

  lemma {:induction false} FitsNone(tags: seq<Tag>, names: set<Text>, s: Semantic, bound: map<Text, Text>, hop: Hop,
      name: Text)
    requires Fits(tags, names, s, bound, hop)
    ensures Fits(tags + [], names + {name}, s, bound, hop)
  {
    assert tags + [] == tags;
  }

  lemma {:induction false} PairsFit(s: Semantic, bound: map<Text, Text>, hop: Hop)
    requires s.pairs == Sorted(bound)
    ensures Fits(PairTags(s.pairs), {CONTENT_TYPE, HOST, ORIGIN}, s, bound, hop)
  {
    NamesDiffer();
    SortedNames(bound);
  }

  lemma {:induction false} HopTagsShape(s: Semantic, bound: map<Text, Text>, hop: Hop)
    requires s.pairs == Sorted(bound)
    ensures DistinctNames(HopTags(s, hop)) && forall t :: t in HopTags(s, hop) ==> Belongs(t, s, bound, hop)
  {
    NamesDiffer();
    PairsFit(s, bound, hop);
    ExtrasFit(s, bound, hop, {CONTENT_TYPE, HOST, ORIGIN}, CONTENT_LENGTH, HOP_PB, HOP_BA, CONNECTION);
  }

  lemma {:induction false} ExtrasFit(s: Semantic, bound: map<Text, Text>, hop: Hop, names: set<Text>, length: Text,
      pb: Text, ba: Text, connection: Text)
    requires length == CONTENT_LENGTH && pb == HOP_PB && ba == HOP_BA && connection == CONNECTION
    requires Fits(PairTags(s.pairs), names, s, bound, hop)
    requires length !in names && pb !in names + {length} && ba !in names + {length, pb}
             && connection !in names + {length, pb, ba}
    ensures DistinctNames(HopTags(s, hop)) && forall t :: t in HopTags(s, hop) ==> Belongs(t, s, bound, hop)
  {
    var t0 := PairTags(s.pairs);
    var more1 := if s.verb == POST then [Tag(Derived, length, Dec(s.bodyLen))] else [];
    if s.verb == POST { FitsMore(t0, names, s, bound, hop, more1[0]); } else {
      FitsNone(t0, names, s, bound, hop, length);
    }
    var t1, names1 := t0 + more1, names + {length};
    FitsMore(t1, names1, s, bound, hop, Tag(ProofPb, pb, hop.pb));
    var t2, names2 := t1 + [Tag(ProofPb, pb, hop.pb)], names1 + {pb};
    var more3 := if hop.ba.Some? then [Tag(ProofBa, ba, hop.ba.value)] else [];
    if hop.ba.Some? { FitsMore(t2, names2, s, bound, hop, more3[0]); } else { FitsNone(t2, names2, s, bound, hop, ba); }
    var t3, names3 := t2 + more3, names2 + {ba};
    var more4 := if hop.connection.Some? then [Tag(Transport, connection, hop.connection.value)] else [];
    if hop.connection.Some? { FitsMore(t3, names3, s, bound, hop, more4[0]); } else {
      FitsNone(t3, names3, s, bound, hop, connection);
    }
    assert HopTags(s, hop) == t3 + more4;
  }

  // ------------------------------------------------------------------ one value of each kind

  /** The only header of its class is at `k`. */
  ghost predicate OnlyOne(tags: seq<Tag>, cls: HeaderClass, k: nat)
  {
    k < |tags| && forall i :: 0 <= i < |tags| ==> (tags[i].cls == cls <==> i == k)
  }

  ghost predicate AllBelong(tags: seq<Tag>, s: Semantic, bound: map<Text, Text>, hop: Hop)
  {
    DistinctNames(tags) && forall i :: 0 <= i < |tags| ==> Belongs(tags[i], s, bound, hop)
  }

  /** A tag that is there, and whose class fixes its name, is the only one of its class. */
  lemma {:induction false} IsOnlyOne(tags: seq<Tag>, s: Semantic, bound: map<Text, Text>, hop: Hop, t: Tag)
    returns (k: nat)
    requires AllBelong(tags, s, bound, hop) && t in tags && !t.cls.Bound?
    ensures OnlyOne(tags, t.cls, k) && tags[k] == t
  {
    k :| 0 <= k < |tags| && tags[k] == t;
    assert Belongs(tags[k], s, bound, hop);
    forall i | 0 <= i < |tags| && tags[i].cls == t.cls ensures i == k { assert Belongs(tags[i], s, bound, hop); }
  }

  lemma {:induction false} ReadsOne(tags: seq<Tag>, s: Semantic, bound: map<Text, Text>, hop: Hop, t: Tag)
    requires AllBelong(tags, s, bound, hop) && t in tags && !t.cls.Bound?
    ensures Values(tags, |tags|, t.cls) == [t.value]
  {
    var k := IsOnlyOne(tags, s, bound, hop, t);
    OneValue(tags, |tags|, t.cls, k);
  }

  /** Everything the hop adds is there. */
  ghost predicate HasExtras(tags: seq<Tag>, s: Semantic, hop: Hop)
  {
    && (s.verb == POST ==> Tag(Derived, CONTENT_LENGTH, Dec(s.bodyLen)) in tags)
    && Tag(ProofPb, HOP_PB, hop.pb) in tags
    && (hop.ba.Some? ==> Tag(ProofBa, HOP_BA, hop.ba.value) in tags)
    && (hop.connection.Some? ==> Tag(Transport, CONNECTION, hop.connection.value) in tags)
  }

  ghost predicate HasPairs(tags: seq<Tag>, bound: map<Text, Text>)
  {
    forall k :: k in bound ==> Tag(Bound, k, bound[k]) in tags
  }

  lemma {:induction false} PbRead(tags: seq<Tag>, s: Semantic, bound: map<Text, Text>, hop: Hop)
    requires AllBelong(tags, s, bound, hop) && HasExtras(tags, s, hop)
    ensures Values(tags, |tags|, ProofPb) == [hop.pb] && Values(tags, |tags|, Measurement) == []
  {
    ReadsOne(tags, s, bound, hop, Tag(ProofPb, HOP_PB, hop.pb));
    NoValues(tags, |tags|, Measurement);
  }

  lemma {:induction false} BaRead(tags: seq<Tag>, s: Semantic, bound: map<Text, Text>, hop: Hop)
    requires AllBelong(tags, s, bound, hop) && HasExtras(tags, s, hop)
    ensures Values(tags, |tags|, ProofBa) == if hop.ba.Some? then [hop.ba.value] else []
  {
    if hop.ba.Some? { ReadsOne(tags, s, bound, hop, Tag(ProofBa, HOP_BA, hop.ba.value)); } else {
      NoValues(tags, |tags|, ProofBa);
    }
  }

  lemma {:induction false} LengthRead(tags: seq<Tag>, s: Semantic, bound: map<Text, Text>, hop: Hop)
    requires AllBelong(tags, s, bound, hop) && HasExtras(tags, s, hop)
    ensures Values(tags, |tags|, Derived) == if s.verb == POST then [Dec(s.bodyLen)] else []
  {
    if s.verb == POST {
      ReadsOne(tags, s, bound, hop, Tag(Derived, CONTENT_LENGTH, Dec(s.bodyLen)));
    } else {
      NoValues(tags, |tags|, Derived);
    }
  }

  lemma {:induction false} ConnectionRead(tags: seq<Tag>, s: Semantic, bound: map<Text, Text>, hop: Hop)
    requires AllBelong(tags, s, bound, hop) && HasExtras(tags, s, hop)
    ensures Values(tags, |tags|, Transport) == if hop.connection.Some? then [hop.connection.value] else []
  {
    if hop.connection.Some? {
      ReadsOne(tags, s, bound, hop, Tag(Transport, CONNECTION, hop.connection.value));
    } else {
      NoValues(tags, |tags|, Transport);
    }
  }

  lemma {:induction false} Canonical(tags: seq<Tag>, s: Semantic, bound: map<Text, Text>, hop: Hop)
    requires AllBelong(tags, s, bound, hop) && forall k :: k in bound ==> IsValue(bound[k])
    ensures forall i :: 0 <= i < |tags| && tags[i].cls.Bound? ==>
              IsValue(tags[i].value) && tags[i].name in bound && bound[tags[i].name] == tags[i].value
  {
  }

  lemma {:induction false} SameBound(tags: seq<Tag>, s: Semantic, bound: map<Text, Text>, hop: Hop)
    requires AllBelong(tags, s, bound, hop) && HasPairs(tags, bound) && forall k :: k in bound ==> IsValue(bound[k])
    ensures var o := ObserveTo(tags, |tags|); o.bound == bound && !o.duplicate && !o.badValue
  {
    Canonical(tags, s, bound, hop);
    GathersBound(tags, |tags|);
    SameMap(tags, bound, ObserveTo(tags, |tags|).bound);
  }

  lemma {:induction false} SameMap(tags: seq<Tag>, bound: map<Text, Text>, seen: map<Text, Text>)
    requires HasPairs(tags, bound)
    requires forall i :: 0 <= i < |tags| && tags[i].cls.Bound? ==> tags[i].name in bound
    requires forall i :: 0 <= i < |tags| && tags[i].cls.Bound? ==>
             tags[i].name in seen && seen[tags[i].name] == tags[i].value
    requires forall k :: k in seen ==> exists i :: 0 <= i < |tags| && tags[i].cls.Bound? && tags[i].name == k
    ensures seen == bound
  {
    forall k | k in bound ensures k in seen && seen[k] == bound[k] {
      assert Tag(Bound, k, bound[k]) in tags;
    }
  }

  lemma {:induction false} ConnectionsFine()
    ensures ConnectionFine(Lower(Trim(CLOSE))) && ConnectionFine(Lower(Trim(KEEP_ALIVE)))
  {
    LowerIsSelf(CLOSE);
    LowerIsSelf(KEEP_ALIVE);
    TrimIsSelf(CLOSE);
    TrimIsSelf(KEEP_ALIVE);
  }

  lemma {:induction false} TrimIsSelf(t: Text)
    requires t != [] && !Ows(t[0]) && !Ows(t[|t| - 1])
    ensures Trim(t) == t
  {
  }

  lemma {:induction false} LengthIsClean(n: nat)
    requires n <= MAX_BODY
    ensures IsLength(Dec(n)) && Trim(Dec(n)) == Dec(n)
  {
    LeadingDigit(n);
    assert Pow10(5) == 100000;
    DecLength(n, 5);
    TrimIsSelf(Dec(n));
  }

  lemma {:induction false} ExtrasThere(tags: seq<Tag>, s: Semantic, bound: map<Text, Text>, hop: Hop)
    requires s.pairs == Sorted(bound) && bound.Keys <= {CONTENT_TYPE, HOST, ORIGIN}
             && multiset(tags) == multiset(HopTags(s, hop))
    ensures HasExtras(tags, s, hop) && HasPairs(tags, bound)
  {
    var all := HopTags(s, hop);
    assert forall t :: t in all ==> t in multiset(all);
    forall k | k in bound ensures Tag(Bound, k, bound[k]) in tags {
      PairThere(s, bound, hop, k);
      assert Tag(Bound, k, bound[k]) in multiset(tags);
    }
    ExtrasListed(s, hop);
    assert forall t :: t in all ==> t in multiset(tags);
  }

  lemma {:induction false} PairThere(s: Semantic, bound: map<Text, Text>, hop: Hop, k: Text)
    requires s.pairs == Sorted(bound) && bound.Keys <= {CONTENT_TYPE, HOST, ORIGIN} && k in bound
    ensures Tag(Bound, k, bound[k]) in HopTags(s, hop)
  {
    var i := if k == CONTENT_TYPE then 0 else if k == HOST then |One(bound, CONTENT_TYPE)|
             else |One(bound, CONTENT_TYPE)| + |One(bound, HOST)|;
    assert s.pairs[i] == SemanticRequests.Pair(k, bound[k]);
    assert PairTags(s.pairs)[i] == Tag(Bound, k, bound[k]);
    assert HopTags(s, hop)[i] == Tag(Bound, k, bound[k]);
  }

  lemma {:induction false} ExtrasListed(s: Semantic, hop: Hop)
    ensures HasExtras(HopTags(s, hop), s, hop)
  {
    var all := HopTags(s, hop);
    var n := |s.pairs|;
    var m := if s.verb == POST then n + 1 else n;
    var b := if hop.ba.Some? then m + 2 else m + 1;
    assert s.verb == POST ==> all[n] == Tag(Derived, CONTENT_LENGTH, Dec(s.bodyLen));
    assert all[m] == Tag(ProofPb, HOP_PB, hop.pb);
    assert hop.ba.Some? ==> all[m + 1] == Tag(ProofBa, HOP_BA, hop.ba.value);
    assert hop.connection.Some? ==> all[b] == Tag(Transport, CONNECTION, hop.connection.value);
  }

  /** What a verifier sees of an honest hop. */
  function CleanScan(s: Semantic, hop: Hop): HopScan
  {
    HopScan([hop.pb], if hop.ba.Some? then [hop.ba.value] else [], [], s.pairs,
            if s.verb == POST then [Dec(s.bodyLen)] else [], None)
  }

  /** In any order, with or without a connection header, the emitted headers scan clean and give back the same pairs. */
  lemma {:induction false} ScansClean(headers: seq<Header>, s: Semantic, bound: map<Text, Text>, hop: Hop)
    requires IsSemantic(s, bound) && Rearranges(headers, HopHeaders(s, hop))
    requires hop.connection.Some? ==> ConnectionFine(hop.connection.value)
    ensures Scan(headers, s.verb) == CleanScan(s, hop)
  {
    var tags := Tags(headers);
    EmittedTags(s, bound, hop);
    TagsBelong(tags, s, bound, hop);
    ExtrasThere(tags, s, bound, hop);
    ObservesClean(tags, s, bound, hop);
    JudgesClean(ObserveTo(tags, |tags|), s, bound, hop);
  }

  ghost predicate CleanObservation(o: Observed, s: Semantic, bound: map<Text, Text>, hop: Hop)
  {
    && o.pb == [hop.pb] && o.ba == (if hop.ba.Some? then [hop.ba.value] else []) && o.nonces == []
    && o.bound == bound && o.lengths == (if s.verb == POST then [Dec(s.bodyLen)] else [])
    && !o.duplicate && !o.unbound && !o.framing && !o.badValue
  }

  lemma {:induction false} ListsClean(tags: seq<Tag>, s: Semantic, bound: map<Text, Text>, hop: Hop)
    requires s.bodyLen <= MAX_BODY && AllBelong(tags, s, bound, hop) && HasExtras(tags, s, hop)
    ensures var o := ObserveTo(tags, |tags|);
            o.pb == [hop.pb] && o.ba == (if hop.ba.Some? then [hop.ba.value] else []) && o.nonces == []
            && o.lengths == (if s.verb == POST then [Dec(s.bodyLen)] else [])
  {
    PbRead(tags, s, bound, hop);
    BaRead(tags, s, bound, hop);
    LengthRead(tags, s, bound, hop);
    GathersPb(tags, |tags|);
    GathersBa(tags, |tags|);
    GathersNonces(tags, |tags|);
    GathersLengths(tags, |tags|);
    LengthIsClean(s.bodyLen);
  }

  lemma {:induction false} FramingClean(tags: seq<Tag>, s: Semantic, bound: map<Text, Text>, hop: Hop)
    requires AllBelong(tags, s, bound, hop) && HasExtras(tags, s, hop)
             && (hop.connection.Some? ==> ConnectionFine(hop.connection.value))
    ensures !ObserveTo(tags, |tags|).framing
  {
    ConnectionRead(tags, s, bound, hop);
    forall i | 0 <= i < |tags| && tags[i].cls.Transport? ensures Connects(tags[i].value) {
      assert Belongs(tags[i], s, bound, hop);
      ConnectionsFine();
    }
    NoFraming(tags, |tags|);
  }

  lemma {:induction false} UnboundClean(tags: seq<Tag>, s: Semantic, bound: map<Text, Text>, hop: Hop)
    requires AllBelong(tags, s, bound, hop)
    ensures !ObserveTo(tags, |tags|).unbound
  {
    forall i | 0 <= i < |tags| ensures Closed(tags[i].cls) { assert Belongs(tags[i], s, bound, hop); }
    NothingUnbound(tags, |tags|);
  }

  lemma {:induction false} ObservesClean(tags: seq<Tag>, s: Semantic, bound: map<Text, Text>, hop: Hop)
    requires IsSemantic(s, bound) && AllBelong(tags, s, bound, hop) && HasExtras(tags, s, hop) && HasPairs(tags, bound)
    requires hop.connection.Some? ==> ConnectionFine(hop.connection.value)
    ensures CleanObservation(ObserveTo(tags, |tags|), s, bound, hop)
  {
    ListsClean(tags, s, bound, hop);
    FramingClean(tags, s, bound, hop);
    UnboundClean(tags, s, bound, hop);
    SameBound(tags, s, bound, hop);
  }

  lemma {:induction false} JudgesClean(o: Observed, s: Semantic, bound: map<Text, Text>, hop: Hop)
    requires IsSemantic(s, bound) && CleanObservation(o, s, bound, hop)
    ensures Judge(o, s.verb) == CleanScan(s, hop)
  {
    LengthIsClean(s.bodyLen);
    assert GET[0] != POST[0];
  }
}
