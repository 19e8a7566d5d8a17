/** Counting the entries of a finite map that satisfy a predicate. */
module Tallies {
  import opened Base

  ghost function Matching<K, V>(m: map<K, V>, p: V -> bool): set<K> { set i | i in m && p(m[i]) }

  ghost function Tally<K, V>(m: map<K, V>, p: V -> bool): nat { |Matching(m, p)| }

  /** Writing one entry moves the count by that entry alone. */
  lemma {:induction false} TallyUpdate<K, V>(m: map<K, V>, id: K, v: V, p: V -> bool)
    ensures Tally(m[id := v], p) + ToNat(id in m && p(m[id])) == Tally(m, p) + ToNat(p(v))
  {
    var before, after := Matching(m, p), Matching(m[id := v], p);
    SameElsewhere(m, id, v, p);
    Without(before, id);
    Without(after, id);
  }

  lemma {:induction false} SameElsewhere<K, V>(m: map<K, V>, id: K, v: V, p: V -> bool)
    ensures Matching(m, p) - {id} == Matching(m[id := v], p) - {id}
  {
  }

  lemma {:induction false} Without<K>(s: set<K>, id: K)
    ensures |s| == |s - {id}| + ToNat(id in s)
  {
    if id !in s {
      assert s - {id} == s;
    }
  }

  lemma {:induction false} Smaller<K>(a: set<K>, b: set<K>)
    requires a <= b
    ensures |a| <= |b|
  {
    if a != {} {
      var x :| x in a;
      Smaller(a - {x}, b - {x});
    }
  }
}
