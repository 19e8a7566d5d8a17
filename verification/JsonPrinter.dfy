/**
 * The compact printer of JSON values (JSON.stringify without spacing, which the proofs' canonical payloads rest on) and
 * its round trips through the strict reader.
 */
module JsonPrinter {
  import opened Base
  import opened StrictJson
  import opened JsonGrammar

  // ------------------------------------------------------------------ the printer

  function HexChar(d: int): (u: int)
    requires 0 <= d < 16
    ensures HexDigit(u) && HexValue(u) == d
  {
    if d < 10 then 48 + d else 87 + d
  }

  /** Four lower-case hexadecimal digits. */
  function Hex4(u: int): Text
    requires 0 <= u < 65536
  {
    [HexChar(u / 4096), HexChar(u / 256 % 16), HexChar(u / 16 % 16), HexChar(u % 16)]
  }

  predicate Unit(u: int) { 0 <= u < 65536 }
  predicate High(u: int) { 0xD800 <= u < 0xDC00 }
  predicate Low(u: int) { 0xDC00 <= u < 0xE000 }

  /** A surrogate that is not half of a pair. */
  predicate Lone(s: Text, n: nat)
    requires n < |s|
  {
    (High(s[n]) && !(n + 1 < |s| && Low(s[n + 1]))) || (Low(s[n]) && !(n > 0 && High(s[n - 1])))
  }

  function PrintUnit(u: int, lone: bool): Text
  {
    if u == QUOTE || u == BACKSLASH then [BACKSLASH, u]
    else if u == 8 then [BACKSLASH, 98]
    else if u == 9 then [BACKSLASH, 116]
    else if u == 10 then [BACKSLASH, 110]
    else if u == 12 then [BACKSLASH, 102]
    else if u == 13 then [BACKSLASH, 114]
    else if Unit(u) && (u < 32 || lone) then [BACKSLASH, 117] + Hex4(u)
    else [u]
  }

  predicate Units(s: Text) { forall i :: 0 <= i < |s| ==> Unit(s[i]) }

  function PrintChars(s: Text, n: nat): Text
    requires n <= |s|
    decreases |s| - n
  {
    if n == |s| then [] else PrintUnit(s[n], Lone(s, n)) + PrintChars(s, n + 1)
  }

  function PrintString(s: Text): Text { [QUOTE] + PrintChars(s, 0) + [QUOTE] }

  /** Values whose strings are UTF-16 and whose numbers are spelled by the grammar. */
  ghost predicate Printable(v: Json)
  {
    match v
    case JNum(literal) => IsNumber(literal, 0, |literal|)
    case JStr(s) => Units(s)
    case JArr(items) => forall i :: 0 <= i < |items| ==> Printable(items[i])
    case JObj(members) => forall i :: 0 <= i < |members| ==> Units(members[i].key) && Printable(members[i].value)
    case _ => true
  }

  function Print(v: Json): Text
    decreases v
  {
    match v
    case JNull => [110, 117, 108, 108]
    case JBool(b) => if b then [116, 114, 117, 101] else [102, 97, 108, 115, 101]
    case JNum(literal) => literal
    case JStr(s) => PrintString(s)
    case JArr(items) => if items == [] then [OPEN_ARRAY, CLOSE_ARRAY]
      else [OPEN_ARRAY] + PrintItems(v, 0) + [CLOSE_ARRAY]
    case JObj(members) =>
      if members == [] then [OPEN_OBJECT, CLOSE_OBJECT] else [OPEN_OBJECT] + PrintMembers(v, 0) + [CLOSE_OBJECT]
  }

  /** The items of an array from index `n` on, with commas between them. */
  function PrintItems(v: Json, n: nat): Text
    requires v.JArr? && n < |v.items|
    decreases v, |v.items| - n
  {
    if n + 1 < |v.items| then Print(v.items[n]) + ([COMMA] + PrintItems(v, n + 1)) else Print(v.items[n])
  }

  function PrintPair(m: Member): Text
    decreases m, 0
  {
    PrintString(m.key) + ([COLON] + Print(m.value))
  }

  function PrintMembers(v: Json, n: nat): Text
    requires v.JObj? && n < |v.members|
    decreases v, |v.members| - n
  {
    if n + 1 < |v.members| then PrintPair(v.members[n]) + ([COMMA] + PrintMembers(v, n + 1))
      else PrintPair(v.members[n])
  }

  // ------------------------------------------------------------------ texts inside texts

  /** `text` stands in `src` from position `i` on. */
  predicate At(src: Text, i: nat, text: Text) { i + |text| <= |src| && AtFrom(src, i, text, 0) }

  predicate AtFrom(src: Text, i: nat, text: Text, k: nat)
    requires k <= |text| && i + |text| <= |src|
    decreases |text| - k
  {
    k < |text| ==> src[i + k] == text[k] && AtFrom(src, i, text, k + 1)
  }

  lemma {:induction false} FirstPart(src: Text, i: nat, a: Text, b: Text, k: nat)
    requires k <= |a| && i + |a + b| <= |src| && AtFrom(src, i, a + b, k)
    ensures AtFrom(src, i, a, k) && AtFrom(src, i, a + b, |a|)
    decreases |a| - k
  {
    if k < |a| {
      FirstPart(src, i, a, b, k + 1);
    }
  }

  lemma {:induction false} SecondPart(src: Text, i: nat, a: Text, b: Text, k: nat)
    requires k <= |b| && i + |a + b| <= |src| && AtFrom(src, i, a + b, |a| + k)
    ensures AtFrom(src, i + |a|, b, k)
    decreases |b| - k
  {
    if k < |b| {
      SecondPart(src, i, a, b, k + 1);
    }
  }

  lemma {:induction false} AtSplit(src: Text, i: nat, a: Text, b: Text)
    requires At(src, i, a + b)
    ensures At(src, i, a) && At(src, i + |a|, b)
  {
    FirstPart(src, i, a, b, 0);
    SecondPart(src, i, a, b, 0);
  }

  lemma {:induction false} AtIndex(src: Text, i: nat, text: Text, k: nat, n: nat)
    requires k <= n < |text| && i + |text| <= |src| && AtFrom(src, i, text, k)
    ensures i + n < |src| && src[i + n] == text[n]
    decreases n - k
  {
    if k < n {
      AtIndex(src, i, text, k + 1, n);
    }
  }

  lemma {:induction false} AtUnit(src: Text, i: nat, text: Text, k: nat)
    requires At(src, i, text) && k < |text|
    ensures i + k < |src| && src[i + k] == text[k]
  {
    AtIndex(src, i, text, 0, k);
  }

  lemma {:induction false} FromIndex<T>(s: seq<T>, n: nat)
    requires n < |s|
    ensures n + 1 < |s| ==> s[n..] == [s[n]] + s[n + 1..]
    ensures n + 1 == |s| ==> s[n..] == [s[n]]
  {
  }

  lemma {:induction false} Wrapped(src: Text, i: nat, first: int, text: Text, last: int)
    requires At(src, i, [first] + text + [last])
    ensures UnitAt(src, i, first) && At(src, i + 1, text) && UnitAt(src, i + 1 + |text|, last)
    ensures |[first] + text + [last]| == |text| + 2
  {
    AtSplit(src, i, [first] + text, [last]);
    AtSplit(src, i, [first], text);
    AtUnit(src, i, [first], 0);
    AtUnit(src, i + 1 + |text|, [last], 0);
  }

  lemma {:induction false} AtSlice(src: Text, i: nat, text: Text, k: nat)
    requires i + |text| <= |src| && src[i..i + |text|] == text && k <= |text|
    ensures AtFrom(src, i, text, k)
    decreases |text| - k
  {
    if k < |text| {
      assert src[i..i + |text|][k] == src[i + k];
      AtSlice(src, i, text, k + 1);
    }
  }

  lemma {:induction false} AtSelf(text: Text)
    ensures At(text, 0, text)
  {
    assert text[0..|text|] == text;
    AtSlice(text, 0, text, 0);
  }

  lemma {:induction false} SliceAt(src: Text, i: nat, text: Text)
    requires At(src, i, text)
    ensures i + |text| <= |src| && src[i..i + |text|] == text
  {
    forall k | 0 <= k < |text| ensures src[i..i + |text|][k] == text[k] { AtUnit(src, i, text, k); }
  }

  // ------------------------------------------------------------------ strings

  lemma {:induction false} HexRoundTrip(src: Text, i: nat, u: int)
    requires Unit(u) && At(src, i, Hex4(u))
    ensures FourHex(src, i) && HexUnit(src, i) == u
  {
    var h := Hex4(u);
    AtUnit(src, i, h, 0);
    AtUnit(src, i, h, 1);
    AtUnit(src, i, h, 2);
    AtUnit(src, i, h, 3);
    HexParts(u);
  }

  lemma {:induction false} HexParts(u: int)
    requires Unit(u)
    ensures ((u / 4096 * 16 + u / 256 % 16) * 16 + u / 16 % 16) * 16 + u % 16 == u
  {
    assert u / 16 / 16 == u / 256 && u / 256 / 16 == u / 4096;
  }

  lemma {:induction false} CharsPrinted(src: Text, i: nat, s: Text, n: nat)
    requires n <= |s| && Units(s) && At(src, i, PrintChars(s, n))
    ensures IsChars(src, i, i + |PrintChars(s, n)|, s, n)
    decreases |s| - n
  {
    if n < |s| {
      var text := PrintUnit(s[n], Lone(s, n));
      AtSplit(src, i, text, PrintChars(s, n + 1));
      CharsPrinted(src, i + |text|, s, n + 1);
      UnitPrinted(src, i, s[n], Lone(s, n));
    }
  }

  /** How one printed unit is read back. */
  lemma {:induction false} UnitPrinted(src: Text, i: nat, u: int, lone: bool)
    requires Unit(u) && At(src, i, PrintUnit(u, lone))
    ensures |PrintUnit(u, lone)| == 1 ==> src[i] == u && u >= 32 && u != QUOTE && u != BACKSLASH
    ensures |PrintUnit(u, lone)| == 2 ==> src[i] == BACKSLASH && Escape(src[i + 1]) == Some(u)
    ensures |PrintUnit(u, lone)| == 6 ==>
            src[i] == BACKSLASH && src[i + 1] == 117 && FourHex(src, i + 2) && HexUnit(src, i + 2) == u
    ensures |PrintUnit(u, lone)| in {1, 2, 6}
  {
    var text := PrintUnit(u, lone);
    AtUnit(src, i, text, 0);
    if |text| == 2 {
      AtUnit(src, i, text, 1);
    } else if |text| == 6 {
      AtUnit(src, i, text, 1);
      AtSplit(src, i, [BACKSLASH, 117], Hex4(u));
      HexRoundTrip(src, i + 2, u);
    }
  }

  lemma {:induction false} StringPrinted(src: Text, i: nat, s: Text)
    requires Units(s) && At(src, i, PrintString(s))
    ensures IsString(src, i, i + |PrintString(s)|, s)
  {
    Wrapped(src, i, QUOTE, PrintChars(s, 0), QUOTE);
    CharsPrinted(src, i + 1, s, 0);
  }

  // ------------------------------------------------------------------ numbers

  /** Whether a slice is a number does not depend on what is around it. */
  lemma {:induction false} NumberMoves(src: Text, i: nat, j: nat, other: Text, k: nat)
    requires IsNumber(src, i, j) && At(other, k, src[i..j])
    ensures IsNumber(other, k, k + (j - i))
  {
    var p, q :| i < p <= q <= j <= |src| && IsInteger(src, i, p) && IsFraction(src, p, q) && IsExponent(src, q, j);
    IntegerMoves(src, i, j, other, k, p);
    FractionMoves(src, i, j, other, k, p, q);
    ExponentMoves(src, i, j, other, k, q);
    assert IsInteger(other, k, k + (p - i));
  }

  lemma {:induction false} UnitMoves(src: Text, i: nat, j: nat, other: Text, k: nat, n: nat)
    requires i <= n < j <= |src| && At(other, k, src[i..j])
    ensures other[k + (n - i)] == src[n]
  {
    AtUnit(other, k, src[i..j], n - i);
  }

  lemma {:induction false} DigitsMove(src: Text, i: nat, j: nat, other: Text, k: nat, a: nat, b: nat)
    requires i <= a < b <= j <= |src| && At(other, k, src[i..j]) && Digits(src, a, b)
    ensures Digits(other, k + (a - i), k + (b - i))
  {
    forall m: nat | k + (a - i) <= m < k + (b - i) ensures Digit(other[m]) {
      UnitMoves(src, i, j, other, k, m - k + i);
    }
  }

  lemma {:induction false} IntegerMoves(src: Text, i: nat, j: nat, other: Text, k: nat, p: nat)
    requires i < p <= j <= |src| && At(other, k, src[i..j]) && IsInteger(src, i, p)
    ensures IsInteger(other, k, k + (p - i))
  {
    var d := if UnitAt(src, i, 45) then i + 1 else i;
    UnitMoves(src, i, j, other, k, i);
    UnitMoves(src, i, j, other, k, d);
    if src[d] != 48 { DigitsMove(src, i, j, other, k, d, p); }
  }

  lemma {:induction false} FractionMoves(src: Text, i: nat, j: nat, other: Text, k: nat, p: nat, q: nat)
    requires i <= p <= q <= j <= |src| && At(other, k, src[i..j]) && IsFraction(src, p, q)
    ensures IsFraction(other, k + (p - i), k + (q - i))
  {
    if p < q {
      UnitMoves(src, i, j, other, k, p);
      DigitsMove(src, i, j, other, k, p + 1, q);
    }
  }

  lemma {:induction false} ExponentMoves(src: Text, i: nat, j: nat, other: Text, k: nat, q: nat)
    requires i <= q <= j <= |src| && At(other, k, src[i..j]) && IsExponent(src, q, j)
    ensures IsExponent(other, k + (q - i), k + (j - i))
  {
    if q < j {
      UnitMoves(src, i, j, other, k, q);
      UnitMoves(src, i, j, other, k, q + 1);
      DigitsMove(src, i, j, other, k, if UnitAt(src, q + 1, 43) || UnitAt(src, q + 1, 45) then q + 2 else q + 1, j);
    }
  }

  // ------------------------------------------------------------------ values

  /** Wherever a printed value stands, the grammar has a tree for it there that denotes the value. */
  lemma {:induction false} ValuePrinted(src: Text, i: nat, v: Json) returns (t: Tree)
    requires Printable(v) && At(src, i, Print(v))
    ensures IsValue(src, i, i + |Print(v)|, t) && Meaning(t) == v
    decreases v, 1
  {
    match v
    case JNull => t := WordPrinted(src, i, v);
    case JBool(_) => t := WordPrinted(src, i, v);
    case JNum(literal) =>
      assert literal[0..|literal|] == literal;
      NumberMoves(literal, 0, |literal|, src, i);
      SliceAt(src, i, literal);
      t := TNumber(literal);
    case JStr(s) =>
      StringPrinted(src, i, s);
      t := TString(s);
    case JArr(items) =>
      t := ArrayPrinted(src, i, v);
    case JObj(members) =>
      t := ObjectPrinted(src, i, v);
  }

  lemma {:induction false} WordPrinted(src: Text, i: nat, v: Json) returns (t: Tree)
    requires (v.JNull? || v.JBool?) && At(src, i, Print(v))
    ensures IsValue(src, i, i + |Print(v)|, t) && Meaning(t) == v
  {
    t := TWord(v);
    AtUnit(src, i, Print(v), 0);
    AtUnit(src, i, Print(v), 1);
    AtUnit(src, i, Print(v), 2);
    AtUnit(src, i, Print(v), 3);
    if v == JBool(false) { AtUnit(src, i, Print(v), 4); }
  }

  lemma {:induction false} ArrayPrinted(src: Text, i: nat, v: Json) returns (t: Tree)
    requires v.JArr? && Printable(v) && At(src, i, Print(v))
    ensures IsValue(src, i, i + |Print(v)|, t) && Meaning(t) == v
    decreases v, 0
  {
    if v.items == [] {
      AtUnit(src, i, Print(v), 0);
      AtUnit(src, i, Print(v), 1);
      t := TEmptyArray;
    } else {
      Wrapped(src, i, OPEN_ARRAY, PrintItems(v, 0), CLOSE_ARRAY);
      var items := ItemsPrinted(src, i + 1, v, 0);
      DenotesSlice(items, v.items, 0);
      assert v.items[0..] == v.items;
      t := TArray(items);
    }
  }

  /** A first text, a comma and more text. */
  lemma {:induction false} CommaSplit(src: Text, i: nat, first: Text, more: Text)
    requires At(src, i, first + ([COMMA] + more))
    ensures At(src, i, first) && UnitAt(src, i + |first|, COMMA) && At(src, i + |first| + 1, more)
    ensures |first + ([COMMA] + more)| == |first| + 1 + |more|
  {
    AtSplit(src, i, first, [COMMA] + more);
    AtSplit(src, i + |first|, [COMMA], more);
    AtUnit(src, i + |first|, [COMMA], 0);
  }

  /** `items` denote `all` from index `n` on. */
  predicate Denotes(items: Items, all: seq<Json>, n: nat)
    decreases items
  {
    n < |all| && Meaning(items.value) == all[n] &&
    match items
    case LastItem(_, _, _) => n + 1 == |all|
    case MoreItems(_, _, _, _, rest) => Denotes(rest, all, n + 1)
  }

  lemma {:induction false} DenotesSlice(items: Items, all: seq<Json>, n: nat)
    requires Denotes(items, all, n)
    ensures ItemsMeaning(items) == all[n..]
    decreases items
  {
    FromIndex(all, n);
    if items.MoreItems? {
      DenotesSlice(items.rest, all, n + 1);
    }
  }

  lemma {:induction false} ItemsPrinted(src: Text, i: nat, v: Json, n: nat) returns (items: Items)
    requires v.JArr? && Printable(v) && n < |v.items| && At(src, i, PrintItems(v, n))
    ensures IsItems(src, i, i + |PrintItems(v, n)|, items) && Denotes(items, v.items, n)
    decreases v, 0, |v.items| - n
  {
    var x := v.items[n];
    var b := i + |Print(x)|;
    if n + 1 < |v.items| {
      CommaSplit(src, i, Print(x), PrintItems(v, n + 1));
      var t := ValuePrinted(src, i, x);
      var rest := ItemsPrinted(src, b + 1, v, n + 1);
      items := MoreItems(i, t, b, b, rest);
    } else {
      var t := ValuePrinted(src, i, x);
      items := LastItem(i, t, b);
    }
  }

  lemma {:induction false} ObjectPrinted(src: Text, i: nat, v: Json) returns (t: Tree)
    requires v.JObj? && Printable(v) && At(src, i, Print(v))
    ensures IsValue(src, i, i + |Print(v)|, t) && Meaning(t) == v
    decreases v, 0
  {
    if v.members == [] {
      AtUnit(src, i, Print(v), 0);
      AtUnit(src, i, Print(v), 1);
      t := TEmptyObject;
    } else {
      Wrapped(src, i, OPEN_OBJECT, PrintMembers(v, 0), CLOSE_OBJECT);
      var members := MembersPrinted(src, i + 1, v, 0);
      MembersSlice(members, v.members, 0);
      assert v.members[0..] == v.members;
      t := TObject(members);
    }
  }

  lemma {:induction false} PairPrinted(src: Text, i: nat, m: Member) returns (p: Pair)
    requires Units(m.key) && Printable(m.value) && At(src, i, PrintPair(m))
    ensures IsPair(src, i, p) && PairMeaning(p) == m && p.b == i + |PrintPair(m)|
    decreases m, 0
  {
    var key, text := PrintString(m.key), Print(m.value);
    AtSplit(src, i, key, [COLON] + text);
    AtSplit(src, i + |key|, [COLON], text);
    AtUnit(src, i + |key|, [COLON], 0);
    StringPrinted(src, i, m.key);
    var t := ValuePrinted(src, i + |key| + 1, m.value);
    p := Pair(i, m.key, i + |key|, i + |key|, i + |key| + 1, t, i + |key| + 1 + |text|);
  }

  predicate DenotesMembers(m: Members, all: seq<Member>, n: nat)
    decreases m
  {
    n < |all| && PairMeaning(m.pair) == all[n] &&
    match m
    case LastMember(_) => n + 1 == |all|
    case MoreMembers(_, _, rest) => DenotesMembers(rest, all, n + 1)
  }

  lemma {:induction false} MembersSlice(m: Members, all: seq<Member>, n: nat)
    requires DenotesMembers(m, all, n)
    ensures MembersMeaning(m) == all[n..]
    decreases m
  {
    FromIndex(all, n);
    if m.MoreMembers? {
      MembersSlice(m.rest, all, n + 1);
    }
  }

  lemma {:induction false} MembersPrinted(src: Text, i: nat, v: Json, n: nat) returns (m: Members)
    requires v.JObj? && Printable(v) && n < |v.members| && At(src, i, PrintMembers(v, n))
    ensures IsMembers(src, i, i + |PrintMembers(v, n)|, m) && DenotesMembers(m, v.members, n)
    decreases v, 0, |v.members| - n
  {
    var x := v.members[n];
    if n + 1 < |v.members| {
      CommaSplit(src, i, PrintPair(x), PrintMembers(v, n + 1));
      var p := PairPrinted(src, i, x);
      var rest := MembersPrinted(src, p.b + 1, v, n + 1);
      m := MoreMembers(p, p.b, rest);
    } else {
      var p := PairPrinted(src, i, x);
      m := LastMember(p);
    }
  }

  // ------------------------------------------------------------------ round trips

  /** The reader undoes the printer on every value without repeated member names. */
  lemma {:induction false} PrintThenParse(v: Json)
    requires Printable(v) && Unique(v)
    ensures Parse(Print(v)) == Some(v)
  {
    var src := Print(v);
    AtSelf(src);
    var t := ValuePrinted(src, 0, v);
    ParseComplete(src, 0, t, |src|);
  }

  /** Printing loses nothing: different values have different texts. */
  lemma {:induction false} PrintInjective(v: Json, w: Json)
    requires Printable(v) && Unique(v) && Printable(w) && Unique(w) && Print(v) == Print(w)
    ensures v == w
  {
    PrintThenParse(v);
    PrintThenParse(w);
  }

  lemma {:induction false} CharsUnits(src: Text, i: nat, j: nat, s: Text, n: nat)
    requires Units(src) && j <= |src| && n <= |s| && IsChars(src, i, j, s, n)
    ensures forall k :: n <= k < |s| ==> Unit(s[k])
    decreases |s| - n
  {
    if n < |s| {
      var next := if src[i] != BACKSLASH then i + 1 else if Escape(src[i + 1]).Some? then i + 2 else i + 6;
      CharsUnits(src, next, j, s, n + 1);
    }
  }

  lemma {:induction false} TreePrintable(src: Text, i: nat, j: nat, t: Tree)
    requires Units(src) && IsValue(src, i, j, t)
    ensures Printable(Meaning(t))
    decreases t
  {
    match t
    case TString(s) => CharsUnits(src, i + 1, j - 1, s, 0);
    case TWord(_) =>
    case TNumber(literal) =>
      AtSelf(literal);
      NumberMoves(src, i, j, literal, 0);
    case TEmptyArray =>
    case TArray(items) => ItemsPrintable(src, i + 1, j - 1, items);
    case TEmptyObject =>
    case TObject(m) => MembersPrintable(src, i + 1, j - 1, m);
  }

  lemma {:induction false} ItemsPrintable(src: Text, i: nat, j: nat, items: Items)
    requires Units(src) && IsItems(src, i, j, items)
    ensures forall k :: 0 <= k < |ItemsMeaning(items)| ==> Printable(ItemsMeaning(items)[k])
    decreases items
  {
    TreePrintable(src, items.a, items.b, items.value);
    if items.MoreItems? {
      ItemsPrintable(src, items.comma + 1, j, items.rest);
    }
  }

  ghost predicate PrintableMember(m: Member) { Units(m.key) && Printable(m.value) }

  lemma {:induction false} PairPrintable(src: Text, i: nat, p: Pair)
    requires Units(src) && IsPair(src, i, p)
    ensures PrintableMember(PairMeaning(p))
    decreases p
  {
    CharsUnits(src, p.k + 1, p.l - 1, p.key, 0);
    TreePrintable(src, p.a, p.b, p.value);
  }

  lemma {:induction false} MembersPrintable(src: Text, i: nat, j: nat, m: Members)
    requires Units(src) && IsMembers(src, i, j, m)
    ensures forall k :: 0 <= k < |MembersMeaning(m)| ==> PrintableMember(MembersMeaning(m)[k])
    decreases m
  {
    PairPrintable(src, i, m.pair);
    if m.MoreMembers? {
      MembersPrintable(src, m.comma + 1, j, m.rest);
    }
  }

  /** Printing whatever was accepted, and reading it again, changes nothing. */
  lemma {:induction false} ParseThenPrint(src: Text, v: Json)
    requires Units(src) && Parse(src) == Some(v)
    ensures Printable(v) && Unique(v) && Parse(Print(v)) == Some(v)
  {
    ParseIsGrammar(src, v);
    var a, t, b :| Document(src, a, t, b) && Meaning(t) == v;
    TreePrintable(src, a, b, t);
    PrintThenParse(v);
  }
}
