/**
 * Event streams checked against a table of legal successors, as the lifecycle validator and the lineage validator both
 * do (defense/core/ledger.ts, defense/core/lineage.ts). Only how a violation is classified differs between them.
 */
module Automata {
  import opened LifecycleEvents
  import opened Base

  datatype Mark<+K> = Mark(kind: K, seqNo: int)

  /** `None` is the start. */
  type Successors<!K> = Option<K> -> set<K>
  /** What a step that is not listed is reported as: the kind before it, its own kind, the kinds seen so far. */
  type Blame<!K> = (Option<K>, K, set<K>) -> Anomaly

  function Complaints<K(==)>(next: Successors<K>, blame: Blame<K>, m: Mark<K>, previous: Option<K>, lastSeq: int,
      seen: set<K>): seq<Anomaly>
  {
    When(m.seqNo <= lastSeq, ImpossibleOrder)
      + (if m.kind in next(previous) then [] else [blame(previous, m.kind, seen)])
  }

  function Before<K>(marks: seq<Mark<K>>, i: nat): Option<K>
    requires i <= |marks|
  {
    if i == 0 then None else Some(marks[i - 1].kind)
  }

  function LastSeq<K>(marks: seq<Mark<K>>, i: nat): int
    requires i <= |marks|
  {
    if i == 0 then -1 else marks[i - 1].seqNo
  }

  function Seen<K(==)>(marks: seq<Mark<K>>, i: nat): set<K>
    requires i <= |marks|
  {
    if i == 0 then {} else Seen(marks, i - 1) + {marks[i - 1].kind}
  }

  /** What the first `n` events cause to be reported. */
  function RunTo<K(==)>(next: Successors<K>, blame: Blame<K>, marks: seq<Mark<K>>, n: nat): seq<Anomaly>
    requires n <= |marks|
  {
    if n == 0 then []
    else
      RunTo(next, blame, marks, n - 1)
      + Complaints(next, blame, marks[n - 1], Before(marks, n - 1), LastSeq(marks, n - 1), Seen(marks, n - 1))
  }

  function Run<K(==)>(next: Successors<K>, blame: Blame<K>, marks: seq<Mark<K>>): seq<Anomaly>
  {
    RunTo(next, blame, marks, |marks|)
  }

  method RunAutomaton<K(==)>(next: Successors<K>, blame: Blame<K>, marks: seq<Mark<K>>) returns (found: seq<Anomaly>)
    ensures found == Run(next, blame, marks)
  {
    found := [];
    var previous: Option<K> := None;
    var lastSeq := -1;
    var seen: set<K> := {};
    for i := 0 to |marks|
      invariant previous == Before(marks, i) && lastSeq == LastSeq(marks, i) && seen == Seen(marks, i)
      invariant found == RunTo(next, blame, marks, i)
    {
      ghost var before := found;
      ghost var complaints := Complaints(next, blame, marks[i], previous, lastSeq, seen);
      if marks[i].seqNo <= lastSeq { found := found + [ImpossibleOrder]; }
      lastSeq := marks[i].seqNo;
      if marks[i].kind !in next(previous) { found := found + [blame(previous, marks[i].kind, seen)]; }
      seen := seen + {marks[i].kind};
      previous := Some(marks[i].kind);
      assert found == before + complaints;
    }
  }

  // ------------------------------------------------------------------ silence means a legal word

  /** The first `n` steps are each a listed successor of the one before. */
  predicate WordTo<K(==)>(next: Successors<K>, marks: seq<Mark<K>>, n: nat)
    requires n <= |marks|
  {
    n == 0 || (WordTo(next, marks, n - 1) && marks[n - 1].kind in next(Before(marks, n - 1)))
  }

  predicate Word<K(==)>(next: Successors<K>, marks: seq<Mark<K>>)
  {
    WordTo(next, marks, |marks|)
  }

  lemma {:induction false} WordStep<K>(next: Successors<K>, marks: seq<Mark<K>>, i: nat)
    requires Word(next, marks) && i < |marks|
    ensures marks[i].kind in next(Before(marks, i))
  {
    WordStepTo(next, marks, i, |marks|);
  }

  lemma {:induction false} WordStepTo<K>(next: Successors<K>, marks: seq<Mark<K>>, i: nat, n: nat)
    requires i < n <= |marks| && WordTo(next, marks, n)
    ensures marks[i].kind in next(Before(marks, i))
  {
    if i < n - 1 {
      WordStepTo(next, marks, i, n - 1);
    }
  }

  /** A kind without successors can only end a word. */
  lemma {:induction false} TerminalIsLast<K>(next: Successors<K>, marks: seq<Mark<K>>, i: nat)
    requires Word(next, marks) && i < |marks| && next(Some(marks[i].kind)) == {}
    ensures i == |marks| - 1
  {
    if i + 1 < |marks| {
      WordStep(next, marks, i + 1);
      assert false;
    }
  }

  /** Sequence numbers are not negative and increase strictly. */
  predicate Ascending<K>(marks: seq<Mark<K>>)
  {
    && (forall i :: 0 <= i < |marks| ==> marks[i].seqNo >= 0)
    && (forall i, j :: 0 <= i < j < |marks| ==> marks[i].seqNo < marks[j].seqNo)
  }

  predicate Good<K(==)>(next: Successors<K>, marks: seq<Mark<K>>, i: nat)
    requires i < |marks|
  {
    marks[i].kind in next(Before(marks, i)) && marks[i].seqNo > LastSeq(marks, i)
  }

  predicate AllGood<K(==)>(next: Successors<K>, marks: seq<Mark<K>>, n: nat)
    requires n <= |marks|
  {
    forall k :: 0 <= k < n ==> Good(next, marks, k)
  }

  lemma {:induction false} SilentTo<K>(next: Successors<K>, blame: Blame<K>, marks: seq<Mark<K>>, n: nat)
    requires n <= |marks|
    ensures RunTo(next, blame, marks, n) == [] <==> AllGood(next, marks, n)
  {
    if n > 0 {
      SilentTo(next, blame, marks, n - 1);
      var complaints := Complaints(next, blame, marks[n - 1], Before(marks, n - 1), LastSeq(marks, n - 1),
        Seen(marks, n - 1));
      assert complaints == [] <==> Good(next, marks, n - 1) by {
        if !Good(next, marks, n - 1) { assert |complaints| > 0; }
      }
      assert |RunTo(next, blame, marks, n)| == |RunTo(next, blame, marks, n - 1)| + |complaints|;
    }
  }

  lemma {:induction false} AscendsFrom<K>(next: Successors<K>, marks: seq<Mark<K>>, i: nat, j: nat)
    requires i <= j <= |marks|
    requires AllGood(next, marks, |marks|)
    ensures i < j ==> LastSeq(marks, i) < LastSeq(marks, j)
  {
    if i < j {
      AscendsFrom(next, marks, i, j - 1);
      assert Good(next, marks, j - 1);
    }
  }

  lemma {:induction false} GoodIsWord<K>(next: Successors<K>, marks: seq<Mark<K>>, n: nat)
    requires n <= |marks| && AllGood(next, marks, |marks|)
    ensures WordTo(next, marks, n)
  {
    if n > 0 {
      GoodIsWord(next, marks, n - 1);
      assert Good(next, marks, n - 1);
    }
  }

  lemma {:induction false} GoodAscends<K>(next: Successors<K>, marks: seq<Mark<K>>)
    requires AllGood(next, marks, |marks|)
    ensures Ascending(marks)
  {
    forall i | 0 <= i < |marks| ensures marks[i].seqNo >= 0 { AscendsFrom(next, marks, 0, i + 1); }
    forall i, j | 0 <= i < j < |marks| ensures marks[i].seqNo < marks[j].seqNo {
      AscendsFrom(next, marks, i + 1, j + 1);
    }
  }

  lemma {:induction false} WordIsGood<K>(next: Successors<K>, marks: seq<Mark<K>>, i: nat)
    requires i < |marks| && Word(next, marks) && Ascending(marks)
    ensures Good(next, marks, i)
  {
    WordStep(next, marks, i);
  }

  /** Nothing is reported exactly when the stream is a legal word with strictly increasing sequence numbers. */
  lemma {:induction false} SilentIff<K>(next: Successors<K>, blame: Blame<K>, marks: seq<Mark<K>>)
    ensures Run(next, blame, marks) == [] <==> Word(next, marks) && Ascending(marks)
  {
    SilentTo(next, blame, marks, |marks|);
    if AllGood(next, marks, |marks|) {
      GoodIsWord(next, marks, |marks|);
      GoodAscends(next, marks);
    } else if Word(next, marks) && Ascending(marks) {
      forall k | 0 <= k < |marks| ensures Good(next, marks, k) { WordIsGood(next, marks, k); }
    }
  }

  // ------------------------------------------------------------------ ranks

  /** Every listed successor has a higher rank than the event before it; the start ranks 0. */
  ghost predicate Climbing<K(!new)>(next: Successors<K>, rank: K -> int)
  {
    && (forall k :: k in next(None) ==> rank(k) > 0)
    && (forall p, k :: k in next(Some(p)) ==> rank(k) > rank(p))
  }

  ghost function RankBefore<K>(rank: K -> int, marks: seq<Mark<K>>, i: nat): int
    requires i <= |marks|
  {
    if i == 0 then 0 else rank(marks[i - 1].kind)
  }

  /** Each event of the word ranks above the one before it. */
  ghost predicate Rising<K>(rank: K -> int, marks: seq<Mark<K>>)
  {
    forall i :: 0 <= i < |marks| ==> RankBefore(rank, marks, i) < rank(marks[i].kind)
  }

  lemma {:induction false} WordRises<K(!new)>(next: Successors<K>, rank: K -> int, marks: seq<Mark<K>>)
    requires Climbing(next, rank) && Word(next, marks)
    ensures Rising(rank, marks)
  {
    forall i | 0 <= i < |marks| ensures RankBefore(rank, marks, i) < rank(marks[i].kind) {
      WordStep(next, marks, i);
    }
  }

  /** In a word of rising ranks no kind comes twice and the length is at most the highest rank. */
  lemma {:induction false} RankAt<K>(rank: K -> int, marks: seq<Mark<K>>, i: nat, j: nat)
    requires Rising(rank, marks)
    requires i <= j < |marks|
    ensures rank(marks[i].kind) + (j - i) <= rank(marks[j].kind)
    decreases j - i
  {
    if i < j {
      RankAt(rank, marks, i, j - 1);
      assert RankBefore(rank, marks, j) < rank(marks[j].kind);
    }
  }

  /** A legal word under climbing ranks is no longer than the highest rank, and no kind comes twice in it. */
  lemma {:induction false} WordIsShort<K(!new)>(next: Successors<K>, rank: K -> int, marks: seq<Mark<K>>, top: nat)
    requires Climbing(next, rank) && Word(next, marks)
    requires forall k :: rank(k) <= top
    ensures |marks| <= top
    ensures forall i, j :: 0 <= i < j < |marks| ==> marks[i].kind != marks[j].kind
  {
    WordRises(next, rank, marks);
    forall i, j | 0 <= i < j < |marks| ensures marks[i].kind != marks[j].kind {
      RankAt(rank, marks, i, j);
    }
    if marks != [] {
      RankAt(rank, marks, 0, |marks| - 1);
      assert RankBefore(rank, marks, 0) < rank(marks[0].kind);
      assert rank(marks[|marks| - 1].kind) <= top;
    }
  }

  /** A run reports nothing but the order violation and what the blame function says. */
  lemma {:induction false} RunReports<K(!new)>(next: Successors<K>, blame: Blame<K>, marks: seq<Mark<K>>, n: nat,
      a: Anomaly)
    requires n <= |marks| && a != ImpossibleOrder
    requires forall previous, kind, seen :: blame(previous, kind, seen) != a
    ensures a !in RunTo(next, blame, marks, n)
  {
    if n > 0 {
      RunReports(next, blame, marks, n - 1, a);
    }
  }
}
