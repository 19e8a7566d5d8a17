/**
 * The strict JSON reader of sealed artifacts (operator/lifecycle-submitter.ts, parseStrictJson) on UTF-16 code units.
 * `ValueAt` and its companions are the recursive descent over an index; class `Reader` is the shared mutable index of
 * the original. Numbers keep their literal text: conversion to a double is not part of the model.
 */
module StrictJson {
  import opened Base

  datatype Member = Member(key: Text, value: Json)
  datatype Json =
    | JNull
    | JBool(b: bool)
    | JNum(literal: Text)
    | JStr(s: Text)
    | JArr(items: seq<Json>)
    | JObj(members: seq<Member>)

  const QUOTE := 34
  const BACKSLASH := 92
  const COMMA := 44
  const COLON := 58
  const OPEN_ARRAY := 91
  const CLOSE_ARRAY := 93
  const OPEN_OBJECT := 123
  const CLOSE_OBJECT := 125

  datatype Parsed<+T> = Fail | Ok(value: T, next: nat)

  // ------------------------------------------------------------------ white space

  predicate IsSpace(u: int) { u == 32 || u == 9 || u == 13 || u == 10 }

  function SkipSpace(src: Text, i: nat): (j: nat)
    requires i <= |src|
    ensures i <= j <= |src| && (j < |src| ==> !IsSpace(src[j]))
    decreases |src| - i
  {
    if i < |src| && IsSpace(src[i]) then SkipSpace(src, i + 1) else i
  }

  // ------------------------------------------------------------------ strings

  /** The index after the closing quote: a backslash hides the unit that follows it, whatever it is. */
  function StringEnd(src: Text, i: nat): (end: Option<nat>)
    ensures end.Some? ==> i < end.value <= |src|
    decreases |src| - i
  {
    if i >= |src| then None
    else if src[i] == QUOTE then Some(i + 1)
    else if src[i] == BACKSLASH then StringEnd(src, i + 2)
    else if src[i] < 32 then None
    else StringEnd(src, i + 1)
  }

  /** The unit a two-character escape stands for (section 7 of RFC 8259). */
  function Escape(u: int): Option<int>
  {
    if u == QUOTE || u == BACKSLASH || u == 47 then Some(u)
    else if u == 98 then Some(8)
    else if u == 102 then Some(12)
    else if u == 110 then Some(10)
    else if u == 114 then Some(13)
    else if u == 116 then Some(9)
    else None
  }

  predicate FourHex(src: Text, i: nat)
    requires i + 4 <= |src|
  {
    HexDigit(src[i]) && HexDigit(src[i + 1]) && HexDigit(src[i + 2]) && HexDigit(src[i + 3])
  }

  function HexUnit(src: Text, i: nat): int
    requires i + 4 <= |src| && FourHex(src, i)
  {
    ((HexValue(src[i]) * 16 + HexValue(src[i + 1])) * 16 + HexValue(src[i + 2])) * 16 + HexValue(src[i + 3])
  }

  /** What JSON.parse makes of the characters between the quotes. */
  function Unescape(src: Text, i: nat, end: nat): Option<Text>
    requires i <= end <= |src|
    decreases end - i
  {
    if i == end then Some([])
    else if src[i] == BACKSLASH then
      if i + 1 < end && Escape(src[i + 1]).Some? then Prepend(Escape(src[i + 1]).value, Unescape(src, i + 2, end))
      else if i + 6 <= end && src[i + 1] == 117 && FourHex(src, i + 2) then
        Prepend(HexUnit(src, i + 2), Unescape(src, i + 6, end))
      else None
    else if src[i] < 32 || src[i] == QUOTE then None
    else Prepend(src[i], Unescape(src, i + 1, end))
  }

  function Prepend(u: int, rest: Option<Text>): Option<Text> { if rest.None? then None else Some([u] + rest.value) }

  function StringAt(src: Text, i: nat): (r: Parsed<Text>)
    ensures r.Ok? ==> i < r.next <= |src|
  {
    if i >= |src| || src[i] != QUOTE then Fail
    else
      var end := StringEnd(src, i + 1);
      if end.None? then Fail
      else
        var s := Unescape(src, i + 1, end.value - 1);
        if s.None? then Fail else Ok(s.value, end.value)
  }

  // ------------------------------------------------------------------ literals

  function DigitsEnd(src: Text, i: nat): (j: nat)
    requires i <= |src|
    ensures i <= j <= |src|
    decreases |src| - i
  {
    if i < |src| && Digit(src[i]) then DigitsEnd(src, i + 1) else i
  }

  /** -?(?:0|[1-9][0-9]*) */
  function IntegerEnd(src: Text, i: nat): (j: Option<nat>)
    requires i <= |src|
    ensures j.Some? ==> i < j.value <= |src|
  {
    var d := if i < |src| && src[i] == 45 then i + 1 else i;
    if d < |src| && src[d] == 48 then Some(d + 1)
    else if d < |src| && 49 <= src[d] <= 57 then Some(DigitsEnd(src, d))
    else None
  }

  /** (?:\\.[0-9]+)? */
  function FractionEnd(src: Text, i: nat): (j: nat)
    requires i <= |src|
    ensures i <= j <= |src|
  {
    if i < |src| && src[i] == 46 && DigitsEnd(src, i + 1) > i + 1 then DigitsEnd(src, i + 1) else i
  }

  /** (?:[eE][+-]?[0-9]+)? */
  function ExponentEnd(src: Text, i: nat): (j: nat)
    requires i <= |src|
    ensures i <= j <= |src|
  {
    if i < |src| && (src[i] == 69 || src[i] == 101) then
      var d := if i + 1 < |src| && (src[i + 1] == 43 || src[i + 1] == 45) then i + 2 else i + 1;
      if DigitsEnd(src, d) > d then DigitsEnd(src, d) else i
    else i
  }

  function NumberEnd(src: Text, i: nat): (j: Option<nat>)
    requires i <= |src|
    ensures j.Some? ==> i < j.value <= |src|
  {
    var k := IntegerEnd(src, i);
    if k.None? then None else Some(ExponentEnd(src, FractionEnd(src, k.value)))
  }

  predicate TrueAt(src: Text, i: nat)
  {
    i + 4 <= |src| && src[i] == 116 && src[i + 1] == 114 && src[i + 2] == 117 && src[i + 3] == 101
  }

  predicate FalseAt(src: Text, i: nat)
  {
    i + 5 <= |src| && src[i] == 102 && src[i + 1] == 97 && src[i + 2] == 108 && src[i + 3] == 115 && src[i + 4] == 101
  }

  predicate NullAt(src: Text, i: nat)
  {
    i + 4 <= |src| && src[i] == 110 && src[i + 1] == 117 && src[i + 2] == 108 && src[i + 3] == 108
  }

  function LiteralAt(src: Text, i: nat): (r: Parsed<Json>)
    requires i <= |src|
    ensures r.Ok? ==> i < r.next <= |src|
  {
    if TrueAt(src, i) then Ok(JBool(true), i + 4)
    else if FalseAt(src, i) then Ok(JBool(false), i + 5)
    else if NullAt(src, i) then Ok(JNull, i + 4)
    else
      var j := NumberEnd(src, i);
      if j.None? then Fail else Ok(JNum(src[i..j.value]), j.value)
  }

  // ------------------------------------------------------------------ values

  predicate UnitAt(src: Text, i: nat, u: int) { i < |src| && src[i] == u }

  function ValueAt(src: Text, from: nat): (r: Parsed<Json>)
    requires from <= |src|
    ensures r.Ok? ==> from < r.next <= |src|
    decreases |src| - from, 1
  {
    var i := SkipSpace(src, from);
    if UnitAt(src, i, QUOTE) then
      var s := StringAt(src, i);
      if s.Fail? then Fail else Ok(JStr(s.value), s.next)
    else if UnitAt(src, i, OPEN_ARRAY) then
      var j := SkipSpace(src, i + 1);
      if UnitAt(src, j, CLOSE_ARRAY) then Ok(JArr([]), j + 1)
      else
        var items := ItemsAt(src, j, []);
        if items.Fail? then Fail else Ok(JArr(items.value), items.next)
    else if UnitAt(src, i, OPEN_OBJECT) then
      var j := SkipSpace(src, i + 1);
      if UnitAt(src, j, CLOSE_OBJECT) then Ok(JObj([]), j + 1)
      else
        var members := MembersAt(src, j, []);
        if members.Fail? then Fail else Ok(JObj(members.value), members.next)
    else LiteralAt(src, i)
  }

  /** One value, up to what follows it. */
  function ItemAt(src: Text, i: nat): (r: Parsed<Json>)
    requires i <= |src|
    ensures r.Ok? ==> i < r.next <= |src|
    decreases |src| - i, 2
  {
    var v := ValueAt(src, i);
    if v.Fail? then Fail else Ok(v.value, SkipSpace(src, v.next))
  }

  /** Values pushed onto `items` until the array ends. */
  function ItemsAt(src: Text, i: nat, items: seq<Json>): (r: Parsed<seq<Json>>)
    requires i <= |src|
    ensures r.Ok? ==> i < r.next <= |src|
    decreases |src| - i, 3
  {
    var v := ItemAt(src, i);
    if v.Fail? then Fail
    else if UnitAt(src, v.next, CLOSE_ARRAY) then Ok(items + [v.value], v.next + 1)
    else if UnitAt(src, v.next, COMMA) then ItemsAt(src, v.next + 1, items + [v.value])
    else Fail
  }

  predicate HasKey(members: seq<Member>, key: Text) { exists i :: 0 <= i < |members| && members[i].key == key }

  /** A key and its colon. */
  function KeyAt(src: Text, from: nat): (r: Parsed<Text>)
    requires from <= |src|
    ensures r.Ok? ==> from < r.next <= |src|
  {
    var key := StringAt(src, SkipSpace(src, from));
    if key.Fail? then Fail
    else
      var c := SkipSpace(src, key.next);
      if UnitAt(src, c, COLON) then Ok(key.value, c + 1) else Fail
  }

  /** One member whose key is not among `members`, up to what follows its value. */
  function MemberAt(src: Text, from: nat, members: seq<Member>): (r: Parsed<Member>)
    requires from <= |src|
    ensures r.Ok? ==> from < r.next <= |src|
    decreases |src| - from, 2
  {
    var key := KeyAt(src, from);
    if key.Fail? || HasKey(members, key.value) then Fail
    else
      var v := ValueAt(src, key.next);
      if v.Fail? then Fail else Ok(Member(key.value, v.value), SkipSpace(src, v.next))
  }

  /** Members set on `members` until the object ends. */
  function MembersAt(src: Text, from: nat, members: seq<Member>): (r: Parsed<seq<Member>>)
    requires from <= |src|
    ensures r.Ok? ==> from < r.next <= |src|
    decreases |src| - from, 3
  {
    var m := MemberAt(src, from, members);
    if m.Fail? then Fail
    else if UnitAt(src, m.next, CLOSE_OBJECT) then Ok(members + [m.value], m.next + 1)
    else if UnitAt(src, m.next, COMMA) then MembersAt(src, m.next + 1, members + [m.value])
    else Fail
  }

  lemma {:induction false} MembersFirst(src: Text, i: nat, had: seq<Member>, x: Member, c: nat)
    requires i <= |src| && MemberAt(src, i, had) == Ok(x, c)
    ensures UnitAt(src, c, CLOSE_OBJECT) ==> MembersAt(src, i, had) == Ok(had + [x], c + 1)
    ensures UnitAt(src, c, COMMA) ==> MembersAt(src, i, had) == MembersAt(src, c + 1, had + [x])
  {
  }

  function Parse(src: Text): Option<Json>
  {
    var v := ValueAt(src, 0);
    if v.Ok? && SkipSpace(src, v.next) == |src| then Some(v.value) else None
  }

  // ------------------------------------------------------------------ the object

  class Reader {
    const source: Text
    var index: nat

    constructor (source: Text)
      ensures this.source == source && index == 0
    {
      this.source := source;
      index := 0;
    }

    method Space()
      requires index <= |source|
      modifies this
      ensures index == SkipSpace(source, old(index))
    {
      ghost var start := index;
      while index < |source| && IsSpace(source[index])
        invariant start <= index <= |source| && SkipSpace(source, start) == SkipSpace(source, index)
      {
        index := index + 1;
      }
    }

    method String() returns (r: Option<Text>)
      requires index <= |source|
      modifies this
      ensures r.Some? <==> StringAt(source, old(index)).Ok?
      ensures r.Some? ==> Ok(r.value, index) == StringAt(source, old(index))
    {
      if index == |source| || source[index] != QUOTE { return None; }
      var start := index;
      index := index + 1;
      ghost var end := StringEnd(source, index);
      while index < |source|
        invariant start < index && StringEnd(source, index) == end
        decreases |source| - index
      {
        var character := source[index];
        index := index + 1;
        if character == QUOTE {
          r := Unescape(source, start + 1, index - 1);
          return;
        }
        if character == BACKSLASH {
          index := index + 1;
        } else if character < 32 {
          return None;
        }
      }
      return None;
    }

    method Value() returns (r: Option<Json>)
      requires index <= |source|
      modifies this
      ensures r.Some? <==> ValueAt(source, old(index)).Ok?
      ensures r.Some? ==> Ok(r.value, index) == ValueAt(source, old(index))
      decreases |source| - index, 1
    {
      Space();
      if UnitAt(source, index, QUOTE) {
        var s := String();
        return if s.None? then None else Some(JStr(s.value));
      }
      if UnitAt(source, index, OPEN_ARRAY) {
        index := index + 1;
        Space();
        if UnitAt(source, index, CLOSE_ARRAY) {
          index := index + 1;
          return Some(JArr([]));
        }
        var items := Items();
        return if items.None? then None else Some(JArr(items.value));
      }
      if UnitAt(source, index, OPEN_OBJECT) {
        index := index + 1;
        Space();
        if UnitAt(source, index, CLOSE_OBJECT) {
          index := index + 1;
          return Some(JObj([]));
        }
        var members := Members();
        return if members.None? then None else Some(JObj(members.value));
      }
      var literal := LiteralAt(source, index);
      if literal.Fail? { return None; }
      index := literal.next;
      return Some(literal.value);
    }

    /** The loop over an array's values. */
    method Items() returns (r: Option<seq<Json>>)
      requires index <= |source|
      modifies this
      ensures r.Some? <==> ItemsAt(source, old(index), []).Ok?
      ensures r.Some? ==> Ok(r.value, index) == ItemsAt(source, old(index), [])
      decreases |source| - index, 3
    {
      ghost var all := ItemsAt(source, index, []);
      ghost var start := index;
      var items: seq<Json> := [];
      while true
        invariant start <= index <= |source| && all == ItemsAt(source, index, items)
        decreases |source| - index
      {
        var v := OneItem();
        if v.None? { return None; }
        items := items + [v.value];
        if UnitAt(source, index, CLOSE_ARRAY) {
          index := index + 1;
          return Some(items);
        }
        if !UnitAt(source, index, COMMA) { return None; }
        index := index + 1;
      }
    }

    method OneItem() returns (r: Option<Json>)
      requires index <= |source|
      modifies this
      ensures r.Some? <==> ItemAt(source, old(index)).Ok?
      ensures r.Some? ==> Ok(r.value, index) == ItemAt(source, old(index))
      decreases |source| - index, 2
    {
      r := Value();
      if r.Some? { Space(); }
    }

    method OneMember(members: seq<Member>) returns (r: Option<Member>)
      requires index <= |source|
      modifies this
      ensures r.Some? <==> MemberAt(source, old(index), members).Ok?
      ensures r.Some? ==> Ok(r.value, index) == MemberAt(source, old(index), members)
      decreases |source| - index, 2
    {
      var key := Key();
      if key.None? || HasKey(members, key.value) { return None; }
      var v := Value();
      if v.None? { return None; }
      Space();
      return Some(Member(key.value, v.value));
    }

    method Key() returns (r: Option<Text>)
      requires index <= |source|
      modifies this
      ensures r.Some? <==> KeyAt(source, old(index)).Ok?
      ensures r.Some? ==> Ok(r.value, index) == KeyAt(source, old(index))
    {
      Space();
      r := String();
      if r.Some? {
        Space();
        if !UnitAt(source, index, COLON) { return None; }
        index := index + 1;
      }
    }

    /** The loop over an object's members; a repeated key fails before its value is read. */
    method Members() returns (r: Option<seq<Member>>)
      requires index <= |source|
      modifies this
      ensures r.Some? <==> MembersAt(source, old(index), []).Ok?
      ensures r.Some? ==> Ok(r.value, index) == MembersAt(source, old(index), [])
      decreases |source| - index, 3
    {
      ghost var all := MembersAt(source, index, []);
      ghost var start := index;
      var members: seq<Member> := [];
      while true
        invariant start <= index <= |source| && all == MembersAt(source, index, members)
        decreases |source| - index
      {
        ghost var from := index;
        var m := OneMember(members);
        if m.None? { return None; }
        MembersFirst(source, from, members, m.value, index);
        members := members + [m.value];
        if UnitAt(source, index, CLOSE_OBJECT) {
          index := index + 1;
          return Some(members);
        }
        if !UnitAt(source, index, COMMA) { return None; }
        index := index + 1;
      }
    }
  }

  method ParseStrictJson(source: Text) returns (r: Option<Json>)
    ensures r == Parse(source)
  {
    var reader := new Reader(source);
    r := reader.Value();
    if r.Some? {
      reader.Space();
      if reader.index != |source| { return None; }
    }
  }
}
