/**
 * The grammar of sections 2 to 7 of RFC 8259 as parse trees over positions of a source text, and the proof that the
 * strict reader accepts exactly the documents of that grammar without a repeated member name at any depth.
 */
module JsonGrammar {
  import opened Base
  import opened StrictJson

  // ------------------------------------------------------------------ the grammar

  datatype Tree =
    | TString(s: Text)
    | TWord(word: Json)
    | TNumber(literal: Text)
    | TEmptyArray
    | TArray(items: Items)
    | TEmptyObject
    | TObject(members: Members)

  /** A value at [a, b) with white space around it; a separator; and more. */
  datatype Items =
    | LastItem(a: nat, value: Tree, b: nat)
    | MoreItems(a: nat, value: Tree, b: nat, comma: nat, rest: Items)

  /** A key at [k, l), a colon, a value at [a, b). */
  datatype Pair = Pair(k: nat, key: Text, l: nat, colon: nat, a: nat, value: Tree, b: nat)

  datatype Members =
    | LastMember(pair: Pair)
    | MoreMembers(pair: Pair, comma: nat, rest: Members)

  /** ws */
  predicate Spaces(src: Text, i: nat, j: nat)
    decreases j - i
  {
    i <= j <= |src| && (i < j ==> IsSpace(src[i]) && Spaces(src, i + 1, j))
  }

  predicate Digits(src: Text, i: nat, j: nat) { i < j <= |src| && forall k :: i <= k < j ==> Digit(src[k]) }

  /** int = zero / ( digit1-9 *DIGIT ), with an optional minus */
  predicate IsInteger(src: Text, i: nat, p: nat)
  {
    var d := if UnitAt(src, i, 45) then i + 1 else i;
    (UnitAt(src, d, 48) && p == d + 1) || (Digits(src, d, p) && src[d] != 48)
  }

  /** [ frac ] */
  predicate IsFraction(src: Text, p: nat, q: nat) { p == q || (UnitAt(src, p, 46) && Digits(src, p + 1, q)) }

  /** [ exp ] */
  predicate IsExponent(src: Text, q: nat, j: nat)
  {
    q == j ||
    ((UnitAt(src, q, 69) || UnitAt(src, q, 101)) &&
     Digits(src, if UnitAt(src, q + 1, 43) || UnitAt(src, q + 1, 45) then q + 2 else q + 1, j))
  }

  predicate IsNumber(src: Text, i: nat, j: nat)
  {
    exists p, q :: i < p <= q <= j <= |src| && IsInteger(src, i, p) && IsFraction(src, p, q) && IsExponent(src, q, j)
  }

  /** *char, from position `i` to `j`, denoting the units of `s` from index `n` on. */
  predicate IsChars(src: Text, i: nat, j: nat, s: Text, n: nat)
    requires n <= |s| && j <= |src|
    decreases |s| - n
  {
    if n == |s| then i == j
    else
      || (i < j && src[i] >= 32 && src[i] != QUOTE && src[i] != BACKSLASH && src[i] == s[n]
        && IsChars(src, i + 1, j, s, n + 1))
      || (i + 2 <= j && src[i] == BACKSLASH && Escape(src[i + 1]) == Some(s[n]) && IsChars(src, i + 2, j, s, n + 1))
      || (i + 6 <= j && src[i] == BACKSLASH && src[i + 1] == 117 && FourHex(src, i + 2) && HexUnit(src, i + 2) == s[n]
          && IsChars(src, i + 6, j, s, n + 1))
  }

  predicate IsString(src: Text, i: nat, j: nat, s: Text)
  {
    i + 2 <= j <= |src| && src[i] == QUOTE && src[j - 1] == QUOTE && IsChars(src, i + 1, j - 1, s, 0)
  }

  predicate IsValue(src: Text, i: nat, j: nat, t: Tree)
    decreases t
  {
    i < j <= |src| &&
    match t
    case TString(s) => IsString(src, i, j, s)
    case TWord(word) =>
      || (word == JBool(true) && TrueAt(src, i) && j == i + 4)
      || (word == JBool(false) && FalseAt(src, i) && j == i + 5)
      || (word == JNull && NullAt(src, i) && j == i + 4)
    case TNumber(literal) => IsNumber(src, i, j) && literal == src[i..j]
    case TEmptyArray => src[i] == OPEN_ARRAY && src[j - 1] == CLOSE_ARRAY && i + 2 <= j && Spaces(src, i + 1, j - 1)
    case TArray(items) => src[i] == OPEN_ARRAY && src[j - 1] == CLOSE_ARRAY && IsItems(src, i + 1, j - 1, items)
    case TEmptyObject => src[i] == OPEN_OBJECT && src[j - 1] == CLOSE_OBJECT && i + 2 <= j && Spaces(src, i + 1, j - 1)
    case TObject(members) =>
      src[i] == OPEN_OBJECT && src[j - 1] == CLOSE_OBJECT && IsMembers(src, i + 1, j - 1, members)
  }

  predicate IsItems(src: Text, i: nat, j: nat, items: Items)
    decreases items
  {
    && Spaces(src, i, items.a) && IsValue(src, items.a, items.b, items.value)
    && match items
       case LastItem(_, _, b) => Spaces(src, b, j)
       case MoreItems(_, _, b, comma, rest) =>
         Spaces(src, b, comma) && UnitAt(src, comma, COMMA) && IsItems(src, comma + 1, j, rest)
  }

  predicate IsPair(src: Text, i: nat, p: Pair)
    decreases p
  {
    && Spaces(src, i, p.k) && IsString(src, p.k, p.l, p.key)
    && Spaces(src, p.l, p.colon) && UnitAt(src, p.colon, COLON)
    && Spaces(src, p.colon + 1, p.a) && IsValue(src, p.a, p.b, p.value)
  }

  predicate IsMembers(src: Text, i: nat, j: nat, m: Members)
    decreases m
  {
    && IsPair(src, i, m.pair)
    && match m
       case LastMember(pair) => Spaces(src, pair.b, j)
       case MoreMembers(pair, comma, rest) =>
         Spaces(src, pair.b, comma) && UnitAt(src, comma, COMMA) && IsMembers(src, comma + 1, j, rest)
  }

  // ------------------------------------------------------------------ what a tree denotes

  function Meaning(t: Tree): Json
    decreases t
  {
    match t
    case TString(s) => JStr(s)
    case TWord(word) => word
    case TNumber(literal) => JNum(literal)
    case TEmptyArray => JArr([])
    case TArray(items) => JArr(ItemsMeaning(items))
    case TEmptyObject => JObj([])
    case TObject(members) => JObj(MembersMeaning(members))
  }

  function ItemsMeaning(items: Items): seq<Json>
    decreases items
  {
    match items
    case LastItem(_, value, _) => [Meaning(value)]
    case MoreItems(_, value, _, _, rest) => [Meaning(value)] + ItemsMeaning(rest)
  }

  function PairMeaning(p: Pair): Member
    decreases p
  {
    Member(p.key, Meaning(p.value))
  }

  function MembersMeaning(m: Members): seq<Member>
    decreases m
  {
    match m
    case LastMember(pair) => [PairMeaning(pair)]
    case MoreMembers(pair, _, rest) => [PairMeaning(pair)] + MembersMeaning(rest)
  }

  predicate DistinctKeys(members: seq<Member>)
  {
    forall i, j :: 0 <= i < j < |members| ==> members[i].key != members[j].key
  }

  /** No object, at any depth, repeats a member name. */
  predicate Unique(v: Json)
  {
    match v
    case JArr(items) => forall i :: 0 <= i < |items| ==> Unique(items[i])
    case JObj(members) => DistinctKeys(members) && forall i :: 0 <= i < |members| ==> Unique(members[i].value)
    case _ => true
  }

  predicate AllUnique(items: seq<Json>) { forall i :: 0 <= i < |items| ==> Unique(items[i]) }

  /** A JSON text: white space, one value, white space. */
  ghost predicate Document(src: Text, a: nat, t: Tree, b: nat)
  {
    Spaces(src, 0, a) && IsValue(src, a, b, t) && Spaces(src, b, |src|)
  }

  // ------------------------------------------------------------------ white space

  lemma {:induction false} SpaceSound(src: Text, i: nat)
    requires i <= |src|
    ensures Spaces(src, i, SkipSpace(src, i))
    decreases |src| - i
  {
    if i < |src| && IsSpace(src[i]) {
      SpaceSound(src, i + 1);
    }
  }

  lemma {:induction false} SpaceComplete(src: Text, i: nat, j: nat)
    requires Spaces(src, i, j) && (j < |src| ==> !IsSpace(src[j]))
    ensures SkipSpace(src, i) == j
    decreases j - i
  {
    if i < j {
      SpaceComplete(src, i + 1, j);
    }
  }

  lemma {:induction false} SpacesJoin(src: Text, i: nat, k: nat, j: nat)
    requires Spaces(src, i, k) && Spaces(src, k, j)
    ensures Spaces(src, i, j)
    decreases k - i
  {
    if i < k {
      SpacesJoin(src, i + 1, k, j);
    }
  }

  // ------------------------------------------------------------------ strings

  lemma {:induction false} StringEndIsQuote(src: Text, i: nat)
    requires StringEnd(src, i).Some?
    ensures src[StringEnd(src, i).value - 1] == QUOTE
    decreases |src| - i
  {
    if src[i] == BACKSLASH {
      StringEndIsQuote(src, i + 2);
    } else if src[i] != QUOTE {
      StringEndIsQuote(src, i + 1);
    }
  }

  lemma {:induction false} CharsSound(src: Text, i: nat, j: nat, s: Text, n: nat)
    requires i <= j <= |src| && n <= |s| && Unescape(src, i, j) == Some(s[n..])
    ensures IsChars(src, i, j, s, n)
    decreases j - i
  {
    if i < j {
      assert s[n..][1..] == s[n + 1..];
      var next := if src[i] != BACKSLASH then i + 1 else if Escape(src[i + 1]).Some? then i + 2 else i + 6;
      assert Unescape(src, next, j) == Some(s[n..][1..]) && s[n] == s[n..][0];
      CharsSound(src, next, j, s, n + 1);
    }
  }

  lemma {:induction false} CharsComplete(src: Text, i: nat, j: nat, s: Text, n: nat)
    requires n <= |s| && i <= j <= |src| && IsChars(src, i, j, s, n)
    ensures Unescape(src, i, j) == Some(s[n..])
    decreases |s| - n
  {
    if n < |s| {
      assert [s[n]] + s[n + 1..] == s[n..];
      if src[i] != BACKSLASH {
        CharsComplete(src, i + 1, j, s, n + 1);
      } else if Escape(src[i + 1]).Some? {
        CharsComplete(src, i + 2, j, s, n + 1);
      } else {
        CharsComplete(src, i + 6, j, s, n + 1);
      }
    } else {
      assert s[n..] == [];
    }
  }

  lemma {:induction false} CharsEnd(src: Text, i: nat, j: nat, s: Text, n: nat)
    requires n <= |s| && i <= j < |src| && src[j] == QUOTE && IsChars(src, i, j, s, n)
    ensures StringEnd(src, i) == Some(j + 1)
    decreases |s| - n
  {
    if n < |s| {
      if src[i] != BACKSLASH {
        CharsEnd(src, i + 1, j, s, n + 1);
      } else if Escape(src[i + 1]).Some? {
        CharsEnd(src, i + 2, j, s, n + 1);
      } else {
        HexIsPlain(src, i + 2);
        CharsEnd(src, i + 6, j, s, n + 1);
      }
    }
  }

  lemma {:induction false} HexIsPlain(src: Text, i: nat)
    requires i + 4 <= |src| && FourHex(src, i)
    ensures StringEnd(src, i) == StringEnd(src, i + 4)
  {
    assert StringEnd(src, i) == StringEnd(src, i + 1);
    assert StringEnd(src, i + 1) == StringEnd(src, i + 2);
    assert StringEnd(src, i + 2) == StringEnd(src, i + 3);
    assert StringEnd(src, i + 3) == StringEnd(src, i + 4);
  }

  /**
   * The scan that hides the unit after a backslash, followed by the decoding, reads exactly a string of the grammar.
   */
  lemma {:induction false} StringSound(src: Text, i: nat)
    requires StringAt(src, i).Ok?
    ensures IsString(src, i, StringAt(src, i).next, StringAt(src, i).value)
  {
    var end := StringEnd(src, i + 1).value;
    StringEndIsQuote(src, i + 1);
    var s := StringAt(src, i).value;
    assert s[0..] == s;
    CharsSound(src, i + 1, end - 1, s, 0);
  }

  lemma {:induction false} StringComplete(src: Text, i: nat, j: nat, s: Text)
    requires IsString(src, i, j, s)
    ensures StringAt(src, i) == Ok(s, j)
  {
    CharsBound(src, i + 1, j - 1, s, 0);
    CharsEnd(src, i + 1, j - 1, s, 0);
    CharsComplete(src, i + 1, j - 1, s, 0);
    assert s[0..] == s;
  }

  lemma {:induction false} CharsBound(src: Text, i: nat, j: nat, s: Text, n: nat)
    requires n <= |s| && j <= |src| && IsChars(src, i, j, s, n)
    ensures i <= j
  {
  }

  // ------------------------------------------------------------------ numbers

  lemma {:induction false} DigitsRun(src: Text, i: nat)
    requires i <= |src| && DigitsEnd(src, i) > i
    ensures Digits(src, i, DigitsEnd(src, i))
    decreases |src| - i
  {
    if DigitsEnd(src, i + 1) > i + 1 {
      DigitsRun(src, i + 1);
    }
  }

  lemma {:induction false} NumberSound(src: Text, i: nat)
    requires i <= |src| && NumberEnd(src, i).Some?
    ensures IsNumber(src, i, NumberEnd(src, i).value)
  {
    var p := IntegerEnd(src, i).value;
    var q := FractionEnd(src, p);
    var j := ExponentEnd(src, q);
    assert IsInteger(src, i, p) by {
      var d := if UnitAt(src, i, 45) then i + 1 else i;
      if src[d] != 48 { DigitsRun(src, d); }
    }
    assert IsFraction(src, p, q) by {
      if p < q { DigitsRun(src, p + 1); }
    }
    assert IsExponent(src, q, j) by {
      if q < j { DigitsRun(src, if UnitAt(src, q + 1, 43) || UnitAt(src, q + 1, 45) then q + 2 else q + 1); }
    }
  }

  /** What may follow a value inside a document. */
  predicate Follows(src: Text, j: nat)
  {
    j >= |src| || IsSpace(src[j]) || src[j] == COMMA || src[j] == CLOSE_ARRAY || src[j] == CLOSE_OBJECT
  }

  lemma {:induction false} DigitsEndIs(src: Text, i: nat, j: nat)
    requires i <= j <= |src| && (forall k :: i <= k < j ==> Digit(src[k])) && (j < |src| ==> !Digit(src[j]))
    ensures DigitsEnd(src, i) == j
    decreases j - i
  {
    if i < j {
      DigitsEndIs(src, i + 1, j);
    }
  }

  /** The greedy match stops exactly where the grammar's number does. */
  lemma {:induction false} NumberComplete(src: Text, i: nat, j: nat)
    requires IsNumber(src, i, j) && Follows(src, j)
    ensures NumberEnd(src, i) == Some(j)
  {
    var p, q :| i < p <= q <= j <= |src| && IsInteger(src, i, p) && IsFraction(src, p, q) && IsExponent(src, q, j);
    IntegerComplete(src, i, p);
    FractionComplete(src, p, q);
    ExponentComplete(src, q, j);
  }

  lemma {:induction false} IntegerComplete(src: Text, i: nat, p: nat)
    requires i < p <= |src| && IsInteger(src, i, p) && (p < |src| ==> !Digit(src[p]))
    ensures IntegerEnd(src, i) == Some(p)
  {
    var d := if UnitAt(src, i, 45) then i + 1 else i;
    if src[d] != 48 {
      DigitsEndIs(src, d, p);
    }
  }

  lemma {:induction false} FractionComplete(src: Text, p: nat, q: nat)
    requires p <= q <= |src| && IsFraction(src, p, q) && (q < |src| ==> !Digit(src[q]) && src[q] != 46)
    ensures FractionEnd(src, p) == q
  {
    if p < q {
      DigitsEndIs(src, p + 1, q);
    }
  }

  lemma {:induction false} ExponentComplete(src: Text, q: nat, j: nat)
    requires q <= j <= |src| && IsExponent(src, q, j) && (j < |src| ==> !Digit(src[j]) && src[j] != 69 && src[j] != 101)
    ensures ExponentEnd(src, q) == j
  {
    if q < j {
      DigitsEndIs(src, if UnitAt(src, q + 1, 43) || UnitAt(src, q + 1, 45) then q + 2 else q + 1, j);
    }
  }

  // ------------------------------------------------------------------ soundness

  lemma {:induction false} LiteralSound(src: Text, i: nat) returns (t: Tree)
    requires i <= |src| && LiteralAt(src, i).Ok?
    ensures IsValue(src, i, LiteralAt(src, i).next, t)
    ensures Meaning(t) == LiteralAt(src, i).value
  {
    if TrueAt(src, i) || FalseAt(src, i) || NullAt(src, i) {
      t := TWord(LiteralAt(src, i).value);
    } else {
      NumberSound(src, i);
      t := TNumber(LiteralAt(src, i).value.literal);
    }
  }

  /** White space before the first item belongs to the items as well. */
  lemma {:induction false} ItemsEarlier(src: Text, i: nat, k: nat, j: nat, items: Items)
    requires Spaces(src, i, k) && IsItems(src, k, j, items)
    ensures IsItems(src, i, j, items)
  {
    SpacesJoin(src, i, k, items.a);
  }

  lemma {:induction false} MembersEarlier(src: Text, i: nat, k: nat, j: nat, m: Members)
    requires Spaces(src, i, k) && IsMembers(src, k, j, m)
    ensures IsMembers(src, i, j, m)
  {
    SpacesJoin(src, i, k, m.pair.k);
  }

  /** Concatenation, with nothing to show for an empty first part. */
  function Join<T>(a: seq<T>, b: seq<T>): seq<T> { if a == [] then b else a + b }

  lemma {:induction false} JoinMore<T>(a: seq<T>, x: T, b: seq<T>)
    ensures Join(a + [x], b) == Join(a, [x] + b)
  {
    assert a + [x] + b == a + ([x] + b);
  }

  lemma {:induction false} JoinOne<T>(a: seq<T>, x: T)
    ensures Join(a, [x]) == a + [x]
  {
  }

  /** What `ItemsAt` did first: one value, and then the end or more. */
  lemma {:induction false} ItemsStep(src: Text, i: nat, had: seq<Json>, all: seq<Json>, end: nat)
    returns (v: Json, b: nat, c: nat)
    requires i <= |src| && ItemsAt(src, i, had) == Ok(all, end)
    ensures ValueAt(src, i) == Ok(v, b) && b <= |src| && Spaces(src, b, c) && c < |src|
    ensures (src[c] == CLOSE_ARRAY && all == had + [v] && end == c + 1) ||
            (src[c] == COMMA && ItemsAt(src, c + 1, had + [v]) == Ok(all, end))
  {
    v, b := ValueAt(src, i).value, ValueAt(src, i).next;
    c := SkipSpace(src, b);
    SpaceSound(src, b);
  }

  lemma {:induction false} ValueSound(src: Text, from: nat, v: Json, j: nat) returns (i: nat, t: Tree)
    requires from <= |src| && ValueAt(src, from) == Ok(v, j)
    ensures Spaces(src, from, i) && IsValue(src, i, j, t) && Meaning(t) == v
    decreases |src| - from, 3
  {
    i := SkipSpace(src, from);
    SpaceSound(src, from);
    if UnitAt(src, i, QUOTE) {
      StringSound(src, i);
      t := TString(StringAt(src, i).value);
    } else if UnitAt(src, i, OPEN_ARRAY) {
      var k := SkipSpace(src, i + 1);
      SpaceSound(src, i + 1);
      if UnitAt(src, k, CLOSE_ARRAY) {
        t := TEmptyArray;
      } else {
        t := ArraySound(src, i, k, v.items, j);
      }
    } else if UnitAt(src, i, OPEN_OBJECT) {
      var k := SkipSpace(src, i + 1);
      SpaceSound(src, i + 1);
      if UnitAt(src, k, CLOSE_OBJECT) {
        t := TEmptyObject;
      } else {
        t := ObjectSound(src, i, k, v.members, j);
      }
    } else {
      t := LiteralSound(src, i);
    }
  }

  lemma {:induction false} ArraySound(src: Text, i: nat, k: nat, all: seq<Json>, j: nat) returns (t: Tree)
    requires UnitAt(src, i, OPEN_ARRAY) && Spaces(src, i + 1, k) && ItemsAt(src, k, []) == Ok(all, j)
    ensures IsValue(src, i, j, t) && Meaning(t) == JArr(all)
    decreases |src| - i, 2
  {
    var items := ItemsSound(src, k, [], all, j);
    ItemsEarlier(src, i + 1, k, j - 1, items);
    t := TArray(items);
  }

  lemma {:induction false} ObjectSound(src: Text, i: nat, k: nat, all: seq<Member>, j: nat) returns (t: Tree)
    requires UnitAt(src, i, OPEN_OBJECT) && Spaces(src, i + 1, k) && MembersAt(src, k, []) == Ok(all, j)
    ensures IsValue(src, i, j, t) && Meaning(t) == JObj(all)
    decreases |src| - i, 2
  {
    var members := MembersSound(src, k, [], all, j);
    MembersEarlier(src, i + 1, k, j - 1, members);
    t := TObject(members);
  }

  lemma {:induction false} ItemsSound(src: Text, i: nat, had: seq<Json>, all: seq<Json>, end: nat)
    returns (items: Items)
    requires i <= |src| && ItemsAt(src, i, had) == Ok(all, end)
    ensures 1 <= end && UnitAt(src, end - 1, CLOSE_ARRAY) && IsItems(src, i, end - 1, items)
    ensures all == Join(had, ItemsMeaning(items))
    decreases |src| - i, 4
  {
    var v, b, c := ItemsStep(src, i, had, all, end);
    var a, t := ValueSound(src, i, v, b);
    if src[c] == CLOSE_ARRAY {
      items := LastItem(a, t, b);
      JoinOne(had, v);
    } else {
      items := ItemsMore(src, i, a, t, b, c, had + [v], all, end);
      JoinMore(had, v, ItemsMeaning(items.rest));
    }
  }

  lemma {:induction false} ItemsMore(src: Text, i: nat, a: nat, t: Tree, b: nat, c: nat, had: seq<Json>,
      all: seq<Json>, end: nat)
    returns (items: Items)
    requires Spaces(src, i, a) && IsValue(src, a, b, t) && Spaces(src, b, c) && UnitAt(src, c, COMMA)
    requires ItemsAt(src, c + 1, had) == Ok(all, end)
    ensures 1 <= end && UnitAt(src, end - 1, CLOSE_ARRAY) && IsItems(src, i, end - 1, items)
    ensures items.MoreItems? && items.value == t && all == Join(had, ItemsMeaning(items.rest))
    decreases |src| - i, 3
  {
    var rest := ItemsSound(src, c + 1, had, all, end);
    items := MoreItems(a, t, b, c, rest);
  }

  /** Distinct keys, and no repeated key inside any value: `Unique` of an object, built from the first member on. */
  predicate Tidy(members: seq<Member>)
  {
    members == [] ||
    var x := members[|members| - 1];
    Tidy(members[..|members| - 1]) && !HasKey(members[..|members| - 1], x.key) && Unique(x.value)
  }

  lemma {:induction false} NewKey(had: seq<Member>, x: Member)
    requires Tidy(had) && !HasKey(had, x.key) && Unique(x.value)
    ensures Tidy(had + [x])
  {
    assert (had + [x])[..|had|] == had;
  }

  lemma {:induction false} TidyIsUnique(members: seq<Member>)
    ensures Tidy(members) <==> Unique(JObj(members))
  {
    if members != [] {
      var had := members[..|members| - 1];
      TidyIsUnique(had);
      LastKey(had, members[|members| - 1]);
      assert members == had + [members[|members| - 1]];
    }
  }

  lemma {:induction false} LastKey(had: seq<Member>, x: Member)
    ensures Unique(JObj(had + [x])) <==> Unique(JObj(had)) && !HasKey(had, x.key) && Unique(x.value)
  {
    var all := had + [x];
    assert all[|had|] == x && forall i :: 0 <= i < |had| ==> all[i] == had[i];
  }

  lemma {:induction false} KeySound(src: Text, i: nat, key: Text, j: nat) returns (k: nat, l: nat, colon: nat)
    requires i <= |src| && KeyAt(src, i) == Ok(key, j)
    ensures Spaces(src, i, k) && IsString(src, k, l, key) && Spaces(src, l, colon) && UnitAt(src, colon, COLON)
            && j == colon + 1
  {
    k := SkipSpace(src, i);
    l := StringAt(src, k).next;
    colon := SkipSpace(src, l);
    SpaceSound(src, i);
    StringSound(src, k);
    SpaceSound(src, l);
  }

  lemma {:induction false} MemberStep(src: Text, i: nat, had: seq<Member>, x: Member, c: nat) returns (j: nat, b: nat)
    requires i <= |src| && MemberAt(src, i, had) == Ok(x, c)
    ensures i < j <= |src| && KeyAt(src, i) == Ok(x.key, j) && !HasKey(had, x.key)
    ensures ValueAt(src, j) == Ok(x.value, b) && Spaces(src, b, c)
  {
    j := KeyAt(src, i).next;
    b := ValueAt(src, j).next;
    SpaceSound(src, b);
  }

  lemma {:induction false} PairMade(src: Text, i: nat, p: Pair, v: Json)
    requires Spaces(src, i, p.k) && IsString(src, p.k, p.l, p.key) && Spaces(src, p.l, p.colon)
             && UnitAt(src, p.colon, COLON)
    requires Spaces(src, p.colon + 1, p.a) && IsValue(src, p.a, p.b, p.value) && Meaning(p.value) == v
    ensures IsPair(src, i, p) && PairMeaning(p) == Member(p.key, v)
  {
  }

  lemma {:induction false} PairSound(src: Text, i: nat, key: Text, j: nat, v: Json, b: nat) returns (p: Pair)
    requires i < j <= |src| && KeyAt(src, i) == Ok(key, j) && ValueAt(src, j) == Ok(v, b)
    ensures p.b == b && IsPair(src, i, p) && PairMeaning(p) == Member(key, v)
    decreases |src| - i, 4
  {
    var k, l, colon := KeySound(src, i, key, j);
    var a, t := ValueSound(src, j, v, b);
    p := Pair(k, key, l, colon, a, t, b);
    PairMade(src, i, p, v);
  }

  lemma {:induction false} MembersStep(src: Text, i: nat, had: seq<Member>, all: seq<Member>, end: nat)
    returns (x: Member, c: nat)
    requires i <= |src| && MembersAt(src, i, had) == Ok(all, end)
    ensures MemberAt(src, i, had) == Ok(x, c) && i < c < |src|
    ensures (src[c] == CLOSE_OBJECT && all == had + [x] && end == c + 1) ||
            (src[c] == COMMA && MembersAt(src, c + 1, had + [x]) == Ok(all, end))
  {
    x, c := MemberAt(src, i, had).value, MemberAt(src, i, had).next;
  }

  lemma {:induction false} MembersSound(src: Text, i: nat, had: seq<Member>, all: seq<Member>, end: nat)
    returns (m: Members)
    requires i <= |src| && MembersAt(src, i, had) == Ok(all, end)
    ensures 1 <= end && UnitAt(src, end - 1, CLOSE_OBJECT) && IsMembers(src, i, end - 1, m)
    ensures all == Join(had, MembersMeaning(m))
    decreases |src| - i, 6
  {
    var x, c := MembersStep(src, i, had, all, end);
    var p := FirstPair(src, i, had, x, c);
    if src[c] == CLOSE_OBJECT {
      m := LastMember(p);
      JoinOne(had, x);
    } else {
      m := MembersMore(src, i, p, c, had + [x], all, end);
      JoinMore(had, x, MembersMeaning(m.rest));
    }
  }

  lemma {:induction false} FirstPair(src: Text, i: nat, had: seq<Member>, x: Member, c: nat) returns (p: Pair)
    requires i <= |src| && MemberAt(src, i, had) == Ok(x, c)
    ensures IsPair(src, i, p) && PairMeaning(p) == x && Spaces(src, p.b, c)
    decreases |src| - i, 5
  {
    var j, b := MemberStep(src, i, had, x, c);
    p := PairSound(src, i, x.key, j, x.value, b);
  }

  lemma {:induction false} MembersMore(src: Text, i: nat, p: Pair, c: nat, had: seq<Member>, all: seq<Member>, end: nat)
    returns (m: Members)
    requires i < c && IsPair(src, i, p) && Spaces(src, p.b, c) && UnitAt(src, c, COMMA)
    requires MembersAt(src, c + 1, had) == Ok(all, end)
    ensures 1 <= end && UnitAt(src, end - 1, CLOSE_OBJECT) && IsMembers(src, i, end - 1, m)
    ensures m.MoreMembers? && m.pair == p && all == Join(had, MembersMeaning(m.rest))
    decreases |src| - i, 3
  {
    var rest := MembersSound(src, c + 1, had, all, end);
    m := MoreMembers(p, c, rest);
  }

  // ------------------------------------------------------------------ no repeated names

  lemma {:induction false} NewItem(had: seq<Json>, v: Json)
    requires AllUnique(had) && Unique(v)
    ensures AllUnique(had + [v])
  {
  }

  /** Nothing the reader returns repeats a member name, at any depth. */
  lemma {:induction false} ValueUnique(src: Text, from: nat, v: Json, j: nat)
    requires from <= |src| && ValueAt(src, from) == Ok(v, j)
    ensures Unique(v)
    decreases |src| - from, 1
  {
    var i := SkipSpace(src, from);
    if UnitAt(src, i, OPEN_ARRAY) && v.JArr? && v.items != [] {
      ItemsUnique(src, SkipSpace(src, i + 1), [], v.items, j);
    } else if UnitAt(src, i, OPEN_OBJECT) && v.JObj? && v.members != [] {
      MembersUnique(src, SkipSpace(src, i + 1), [], v.members, j);
      TidyIsUnique(v.members);
    }
  }

  lemma {:induction false} ItemsUnique(src: Text, i: nat, had: seq<Json>, all: seq<Json>, end: nat)
    requires i <= |src| && ItemsAt(src, i, had) == Ok(all, end) && AllUnique(had)
    ensures AllUnique(all)
    decreases |src| - i, 3
  {
    var v, b, c := ItemsStep(src, i, had, all, end);
    ValueUnique(src, i, v, b);
    NewItem(had, v);
    if src[c] == COMMA {
      ItemsUnique(src, c + 1, had + [v], all, end);
    }
  }

  lemma {:induction false} MembersUnique(src: Text, i: nat, had: seq<Member>, all: seq<Member>, end: nat)
    requires i <= |src| && MembersAt(src, i, had) == Ok(all, end) && Tidy(had)
    ensures Tidy(all)
    decreases |src| - i, 3
  {
    var x, c := MembersStep(src, i, had, all, end);
    FirstUnique(src, i, had, x, c);
    NewKey(had, x);
    if src[c] == COMMA {
      MembersUnique(src, c + 1, had + [x], all, end);
    }
  }

  lemma {:induction false} FirstUnique(src: Text, i: nat, had: seq<Member>, x: Member, c: nat)
    requires i <= |src| && MemberAt(src, i, had) == Ok(x, c)
    ensures Unique(x.value) && !HasKey(had, x.key)
    decreases |src| - i, 2
  {
    var j, b := MemberStep(src, i, had, x, c);
    ValueUnique(src, j, x.value, b);
  }

  // ------------------------------------------------------------------ completeness

  /** A value starts with a unit that is neither white space nor a separator nor a closing bracket. */
  predicate Starts(u: int)
  {
    u == QUOTE || u == OPEN_ARRAY || u == OPEN_OBJECT || u == 45 || Digit(u) || u == 116 || u == 102 || u == 110
  }

  lemma {:induction false} ValueStarts(src: Text, i: nat, j: nat, t: Tree)
    requires IsValue(src, i, j, t)
    ensures Starts(src[i])
  {
  }

  lemma {:induction false} LiteralComplete(src: Text, i: nat, j: nat, t: Tree)
    requires (t.TWord? || t.TNumber?) && IsValue(src, i, j, t) && Follows(src, j)
    ensures LiteralAt(src, i) == Ok(Meaning(t), j) && !UnitAt(src, i, QUOTE) && !UnitAt(src, i, OPEN_ARRAY)
            && !UnitAt(src, i, OPEN_OBJECT)
  {
    if t.TNumber? {
      NumberComplete(src, i, j);
    }
  }

  /** Every tree of the grammar without repeated names is what the reader finds. */
  lemma {:induction false} ValueComplete(src: Text, from: nat, i: nat, j: nat, t: Tree)
    requires Spaces(src, from, i) && IsValue(src, i, j, t) && Unique(Meaning(t)) && Follows(src, j)
    ensures ValueAt(src, from) == Ok(Meaning(t), j)
    decreases t, 1
  {
    ValueStarts(src, i, j, t);
    SpaceComplete(src, from, i);
    match t
    case TString(s) => StringComplete(src, i, j, s);
    case TWord(_) => LiteralComplete(src, i, j, t);
    case TNumber(_) => LiteralComplete(src, i, j, t);
    case TEmptyArray => SpaceComplete(src, i + 1, j - 1);
    case TEmptyObject => SpaceComplete(src, i + 1, j - 1);
    case TArray(items) => ArrayComplete(src, i, j, items);
    case TObject(members) =>
      TidyIsUnique(MembersMeaning(members));
      ObjectComplete(src, i, j, members);
  }

  lemma {:induction false} ArrayComplete(src: Text, i: nat, j: nat, items: Items)
    requires i + 1 < j <= |src| && IsItems(src, i + 1, j - 1, items) && UnitAt(src, j - 1, CLOSE_ARRAY)
             && AllUnique(ItemsMeaning(items))
    ensures SkipSpace(src, i + 1) == items.a < |src| && src[items.a] != CLOSE_ARRAY
    ensures ItemsAt(src, items.a, []) == Ok(ItemsMeaning(items), j)
    decreases items, 3
  {
    ValueStarts(src, items.a, items.b, items.value);
    SpaceComplete(src, i + 1, items.a);
    ItemsComplete(src, items.a, j - 1, items, []);
  }

  lemma {:induction false} ItemsFirst(src: Text, i: nat, had: seq<Json>, v: Json, b: nat, c: nat)
    requires i <= |src| && ValueAt(src, i) == Ok(v, b) && b <= |src| && SkipSpace(src, b) == c && c < |src|
    ensures src[c] == CLOSE_ARRAY ==> ItemsAt(src, i, had) == Ok(had + [v], c + 1)
    ensures src[c] == COMMA ==> ItemsAt(src, i, had) == ItemsAt(src, c + 1, had + [v])
  {
  }

  lemma {:induction false} UniqueHead(items: Items)
    requires AllUnique(ItemsMeaning(items))
    ensures Unique(Meaning(items.value)) && (items.MoreItems? ==> AllUnique(ItemsMeaning(items.rest)))
  {
    var all := ItemsMeaning(items);
    assert all[0] == Meaning(items.value);
    if items.MoreItems? {
      assert forall i :: 0 <= i < |ItemsMeaning(items.rest)| ==> ItemsMeaning(items.rest)[i] == all[i + 1];
    }
  }

  lemma {:induction false} ItemsComplete(src: Text, i: nat, j: nat, items: Items, had: seq<Json>)
    requires IsItems(src, i, j, items) && UnitAt(src, j, CLOSE_ARRAY) && AllUnique(ItemsMeaning(items))
    ensures i <= |src| && ItemsAt(src, i, had) == Ok(Join(had, ItemsMeaning(items)), j + 1)
    decreases items, 2
  {
    var v := Meaning(items.value);
    var c := if items.LastItem? then j else items.comma;
    UniqueHead(items);
    ItemComplete(src, i, items.a, items.b, c, items.value);
    ItemsFirst(src, i, had, v, items.b, c);
    if items.MoreItems? {
      ItemsComplete(src, c + 1, j, items.rest, had + [v]);
      JoinMore(had, v, ItemsMeaning(items.rest));
    } else {
      JoinOne(had, v);
    }
  }

  lemma {:induction false} ItemComplete(src: Text, i: nat, a: nat, b: nat, c: nat, t: Tree)
    requires Spaces(src, i, a) && IsValue(src, a, b, t) && Unique(Meaning(t))
    requires Spaces(src, b, c) && (UnitAt(src, c, COMMA) || UnitAt(src, c, CLOSE_ARRAY) || UnitAt(src, c, CLOSE_OBJECT))
    ensures i <= |src| && ValueAt(src, i) == Ok(Meaning(t), b) && SkipSpace(src, b) == c
    decreases t, 2
  {
    ValueComplete(src, i, a, b, t);
    SpaceComplete(src, b, c);
  }

  lemma {:induction false} ObjectComplete(src: Text, i: nat, j: nat, m: Members)
    requires i + 1 < j <= |src| && IsMembers(src, i + 1, j - 1, m) && UnitAt(src, j - 1, CLOSE_OBJECT)
             && Tidy(MembersMeaning(m))
    ensures SkipSpace(src, i + 1) == m.pair.k < |src| && src[m.pair.k] != CLOSE_OBJECT
    ensures MembersAt(src, m.pair.k, []) == Ok(MembersMeaning(m), j)
    decreases m, 3
  {
    SpaceComplete(src, i + 1, m.pair.k);
    MembersComplete(src, m.pair.k, j - 1, m, []);
  }

  lemma {:induction false} KeyComplete(src: Text, i: nat, k: nat, l: nat, colon: nat, key: Text)
    requires Spaces(src, i, k) && IsString(src, k, l, key) && Spaces(src, l, colon) && UnitAt(src, colon, COLON)
    ensures i <= |src| && KeyAt(src, i) == Ok(key, colon + 1)
  {
    SpaceComplete(src, i, k);
    StringComplete(src, k, l, key);
    SpaceComplete(src, l, colon);
  }

  lemma {:induction false} PairComplete(src: Text, i: nat, p: Pair, c: nat, had: seq<Member>)
    requires IsPair(src, i, p) && Spaces(src, p.b, c) && (UnitAt(src, c, COMMA) || UnitAt(src, c, CLOSE_OBJECT))
    requires Unique(PairMeaning(p).value) && !HasKey(had, p.key)
    ensures i <= |src| && MemberAt(src, i, had) == Ok(PairMeaning(p), c)
    decreases p, 3
  {
    KeyComplete(src, i, p.k, p.l, p.colon, p.key);
    ItemComplete(src, p.colon + 1, p.a, p.b, c, p.value);
  }

  lemma {:induction false} MembersHead(src: Text, i: nat, p: Pair, c: nat, had: seq<Member>, m: Members)
    requires IsPair(src, i, p) && Spaces(src, p.b, c) && m.pair == p && Tidy(Join(had, MembersMeaning(m)))
    ensures i <= |src|
    ensures UnitAt(src, c, CLOSE_OBJECT) ==> MembersAt(src, i, had) == Ok(had + [PairMeaning(p)], c + 1)
    ensures UnitAt(src, c, COMMA) ==> MembersAt(src, i, had) == MembersAt(src, c + 1, had + [PairMeaning(p)])
    decreases p, 4
  {
    TidyHead(had, m);
    if UnitAt(src, c, COMMA) || UnitAt(src, c, CLOSE_OBJECT) {
      PairComplete(src, i, p, c, had);
      MembersFirst(src, i, had, PairMeaning(p), c);
    }
  }

  lemma {:induction false} TidyHead(had: seq<Member>, m: Members)
    requires Tidy(Join(had, MembersMeaning(m)))
    ensures Unique(PairMeaning(m.pair).value) && !HasKey(had, m.pair.key)
  {
    var x := PairMeaning(m.pair);
    var all := Join(had, MembersMeaning(m));
    TidyIsUnique(all);
    assert MembersMeaning(m)[0] == x;
    assert all[|had|] == x;
    assert forall i :: 0 <= i < |had| ==> all[i] == had[i];
  }

  lemma {:induction false} MembersComplete(src: Text, i: nat, j: nat, m: Members, had: seq<Member>)
    requires IsMembers(src, i, j, m) && UnitAt(src, j, CLOSE_OBJECT) && Tidy(Join(had, MembersMeaning(m)))
    ensures i <= |src| && MembersAt(src, i, had) == Ok(Join(had, MembersMeaning(m)), j + 1)
    decreases m, 2
  {
    var x := PairMeaning(m.pair);
    var c := if m.LastMember? then j else m.comma;
    MembersHead(src, i, m.pair, c, had, m);
    if m.MoreMembers? {
      JoinMore(had, x, MembersMeaning(m.rest));
      MembersComplete(src, c + 1, j, m.rest, had + [x]);
    } else {
      JoinOne(had, x);
    }
  }

  /** Accepted documents are exactly the grammar's documents whose objects repeat no name, with the grammar's value. */
  lemma {:induction false} ParseIsGrammar(src: Text, v: Json)
    ensures Parse(src) == Some(v) <==> Unique(v) && exists a, t, b :: Document(src, a, t, b) && Meaning(t) == v
  {
    if Parse(src) == Some(v) {
      var b := ValueAt(src, 0).next;
      var a, t := ValueSound(src, 0, v, b);
      ValueUnique(src, 0, v, b);
      SpaceSound(src, b);
      assert Document(src, a, t, b);
    }
    if Unique(v) && exists a, t, b :: Document(src, a, t, b) && Meaning(t) == v {
      var a, t, b :| Document(src, a, t, b) && Meaning(t) == v;
      ParseComplete(src, a, t, b);
    }
  }

  lemma {:induction false} ParseComplete(src: Text, a: nat, t: Tree, b: nat)
    requires Document(src, a, t, b) && Unique(Meaning(t))
    ensures Parse(src) == Some(Meaning(t))
  {
    ValueComplete(src, 0, a, b, t);
    SpaceComplete(src, b, |src|);
  }
}
