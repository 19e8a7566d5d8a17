/**
 * The two independent readers of an urlencoded submission: the lane mechanism's token scan, which decodes nothing
 * (defense/core/lanes.ts), and the application's form parser (defense/origin/synthetic-origin.ts). The main result is
 * that the token the lanes charge is the token the application consumes.
 */
module Forms {
  import opened Base
  import Utf8

  const AMP := '&' as int
  const EQUALS := '=' as int
  const PERCENT := '%' as int
  const TOKEN_NAME := T("submissionToken")
  const TOKEN_FIELD := T("submissionToken=")

  // ------------------------------------------------------------------ splitting

  /** The first index of `u` from `i` on, or the length. */
  function FindFrom(t: Text, u: int, i: nat): (j: nat)
    requires i <= |t|
    ensures i <= j <= |t| && (forall k :: i <= k < j ==> t[k] != u) && (j < |t| ==> t[j] == u)
    decreases |t| - i
  {
    if i == |t| || t[i] == u then i else FindFrom(t, u, i + 1)
  }

  function Find(t: Text, u: int): nat { FindFrom(t, u, 0) }

  /** The pieces between separators, from index `i` on. */
  function SplitFrom(t: Text, i: nat): (pieces: seq<Text>)
    requires i <= |t|
    ensures pieces != []
    decreases |t| - i
  {
    var j := FindFrom(t, AMP, i);
    if j == |t| then [t[i..j]] else [t[i..j]] + SplitFrom(t, j + 1)
  }

  function Split(t: Text): seq<Text> { SplitFrom(t, 0) }

  // ------------------------------------------------------------------ the lanes' token scan


  predicate TokenValue(t: Text) { |t| == 43 && Alphabet(t) }

  /** Exactly one field, well formed, or nothing. `field` is the raw name with its '='. */
  function TokenIn(field: Text, pieces: seq<Text>, found: Option<Text>): Option<Text>
  {
    if pieces == [] then found
    else if StartsWith(pieces[0], field) then
      var value := pieces[0][|field|..];
      if found.Some? || !TokenValue(value) then None else TokenIn(field, pieces[1..], Some(value))
    else TokenIn(field, pieces[1..], found)
  }

  /** What the lanes read from a body. */
  function SubmissionToken(text: Text): Option<Text> { TokenIn(TOKEN_FIELD, Split(text), None) }

  lemma {:induction false} TokenField()
    ensures Alphabet(TOKEN_NAME) && TOKEN_FIELD == TOKEN_NAME + [EQUALS]
  {
  }

  predicate At(t: Text, i: nat, field: Text) { i + |field| <= |t| && t[i..i + |field|] == field }

  /** A field name without '&' matches at `i` in the text exactly when it matches the piece that starts there. */
  lemma {:induction false} MatchStaysInPiece(t: Text, field: Text, i: nat, j: nat)
    requires i <= |t| && j == FindFrom(t, AMP, i) && Lacks(field, AMP)
    ensures At(t, i, field) <==> StartsWith(t[i..j], field)
    ensures At(t, i, field) ==> i + |field| <= j && t[i..j][|field|..] == t[i + |field|..j]
  {
    var n := |field|;
    if i + n <= j {
      assert t[i..j][..n] == t[i..i + n];
    } else if i + n <= |t| {
      assert t[i..i + n][j - i] == AMP;
    }
  }

  /** The scan from index `i` on, given what was found before it. */
  function Scan(field: Text, t: Text, i: nat, found: Option<Text>): Option<Text>
    requires i <= |t|
    decreases |t| - i
  {
    var j := FindFrom(t, AMP, i);
    if At(t, i, field) && (found.Some? || i + |field| > j || !TokenValue(t[i + |field|..j])) then None
    else
      var now := if At(t, i, field) then Some(t[i + |field|..j]) else found;
      if j == |t| then now else Scan(field, t, j + 1, now)
  }

  lemma {:induction false} ScanIsTokenIn(field: Text, t: Text, i: nat, found: Option<Text>)
    requires Lacks(field, AMP) && i <= |t|
    ensures Scan(field, t, i, found) == TokenIn(field, SplitFrom(t, i), found)
    decreases |t| - i
  {
    var j := FindFrom(t, AMP, i);
    MatchStaysInPiece(t, field, i, j);
    if j < |t| {
      assert SplitFrom(t, i)[1..] == SplitFrom(t, j + 1);
      ScanIsTokenIn(field, t, j + 1, if At(t, i, field) then Some(t[i + |field|..j]) else found);
    } else {
      assert SplitFrom(t, i)[1..] == [];
    }
  }

  /** The linear scan over the text, which never builds the pieces. */
  method ScanToken(field: Text, text: Text) returns (r: Option<Text>)
    requires Lacks(field, AMP)
    ensures r == TokenIn(field, Split(text), None)
  {
    ScanIsTokenIn(field, text, 0, None);
    var found: Option<Text> := None;
    var from := 0;
    while from <= |text|
      invariant 0 <= from <= |text|
      invariant Scan(field, text, 0, None) == Scan(field, text, from, found)
      decreases |text| - from
    {
      var stop := FindFrom(text, AMP, from);
      MatchStaysInPiece(text, field, from, stop);
      if At(text, from, field) {
        if found.Some? { return None; }
        var value := text[from + |field|..stop];
        if !TokenValue(value) { return None; }
        found := Some(value);
      }
      if stop == |text| { break; }
      from := stop + 1;
    }
    return found;
  }

  // ------------------------------------------------------------------ the application's parser

  function Octet(t: Text): Option<int>
  {
    if |t| >= 3 && t[0] == PERCENT && HexDigit(t[1]) && HexDigit(t[2])
    then Some(16 * HexValue(t[1]) + HexValue(t[2])) else None
  }

  /** Up to `n` consecutive %HH octets. */
  function OctetRun(t: Text, n: nat): (b: Bytes)
    ensures 3 * |b| <= |t|
  {
    if n == 0 || Octet(t).None? then [] else [Octet(t).value] + OctetRun(t[3..], n - 1)
  }

  /** decodeURIComponent: ECMAScript's Decode, one UTF-8 sequence of %HH octets at a time. */
  function DecodeUri(t: Text): Option<Text>
    decreases |t|
  {
    if t == [] then Some([])
    else if t[0] != PERCENT then
      var rest := DecodeUri(t[1..]);
      if rest.None? then None else Some([t[0]] + rest.value)
    else
      var run := OctetRun(t, 4);
      var n := if run == [] then 0 else Utf8.LeadLength(run[0]);
      if !Utf8.CharAt(run, 0, n) then None
      else
        var rest := DecodeUri(t[3 * n..]);
        if rest.None? then None else Some(Utf8.Utf16(Utf8.CodeAt(run, 0, n)) + rest.value)
  }

  /** A '%' that two hex digits do not follow. */
  predicate BadPercent(t: Text) { exists i :: 0 <= i < |t| && t[i] == PERCENT && Octet(t[i..]).None? }

  function PlusToSpace(t: Text): Text { seq(|t|, i requires 0 <= i < |t| => if t[i] == '+' as int then 32 else t[i]) }

  function DecodeField(t: Text): Option<Text> { if BadPercent(t) then None else DecodeUri(PlusToSpace(t)) }

  const FIELD_NAMES: set<Text> := {
    T("name"), T("email"), T("company"), T("service"), T("system"), T("objective"), T("environment"), T("authority"),
    T("protection"), T("provider"), T("notes"), TOKEN_NAME, T("cf-turnstile-response")}

  function NameOf(pair: Text): Option<Text> { DecodeField(pair[..Find(pair, EQUALS)]) }

  function ValueOf(pair: Text): Option<Text>
  {
    var i := Find(pair, EQUALS);
    DecodeField(if i == |pair| then [] else pair[i + 1..])
  }

  /** Every pair decodes, is named from the closed set and is unique. */
  function FieldsOf(names: set<Text>, pairs: seq<Text>, fields: map<Text, Text>): Option<map<Text, Text>>
  {
    if pairs == [] then Some(fields)
    else
      var name, value := NameOf(pairs[0]), ValueOf(pairs[0]);
      if name.None? || value.None? || name.value !in names || name.value in fields then None
      else FieldsOf(names, pairs[1..], fields[name.value := value.value])
  }

  function FormFields(body: Bytes): Option<map<Text, Text>>
  {
    var text := Utf8.Decode(body);
    if text.None? then None else if text.value == [] then Some(map[])
      else FieldsOf(FIELD_NAMES, Split(text.value), map[])
  }

  method ParseStrictForm(body: Bytes) returns (r: Option<map<Text, Text>>)
    ensures r == FormFields(body)
  {
    var text := Utf8.Decode(body);
    if text.None? { return None; }
    var fields: map<Text, Text> := map[];
    if text.value == [] { return Some(fields); }
    var pairs := Split(text.value);
    assert pairs[0..] == pairs;
    for i := 0 to |pairs|
      invariant FieldsOf(FIELD_NAMES, pairs, map[]) == FieldsOf(FIELD_NAMES, pairs[i..], fields)
    {
      var name, value := NameOf(pairs[i]), ValueOf(pairs[i]);
      assert pairs[i..][0] == pairs[i] && pairs[i..][1..] == pairs[i + 1..];
      if name.None? || value.None? || name.value !in FIELD_NAMES || name.value in fields { return None; }
      fields := fields[name.value := value.value];
    }
    return Some(fields);
  }

  // ------------------------------------------------------------------ agreement

  /** An accepted form holds every pair, and no two pairs share a name. */
  lemma {:induction false} AcceptedPairs(names: set<Text>, pairs: seq<Text>, fields: map<Text, Text>, k: nat)
    requires FieldsOf(names, pairs, fields).Some? && k < |pairs|
    ensures NameOf(pairs[k]).Some? && ValueOf(pairs[k]).Some?
    ensures var f := FieldsOf(names, pairs, fields).value;
            NameOf(pairs[k]).value in f && f[NameOf(pairs[k]).value] == ValueOf(pairs[k]).value
    ensures NameOf(pairs[k]).value !in fields
  {
    var name, value := NameOf(pairs[0]).value, ValueOf(pairs[0]).value;
    var next := fields[name := value];
    if k > 0 {
      AcceptedPairs(names, pairs[1..], next, k - 1);
    } else {
      Kept(names, pairs[1..], next, name);
    }
  }

  lemma {:induction false} Kept(names: set<Text>, pairs: seq<Text>, fields: map<Text, Text>, name: Text)
    requires FieldsOf(names, pairs, fields).Some? && name in fields
    ensures name in FieldsOf(names, pairs, fields).value && FieldsOf(names, pairs, fields).value[name] == fields[name]
  {
    if pairs != [] {
      Kept(names, pairs[1..], fields[NameOf(pairs[0]).value := ValueOf(pairs[0]).value], name);
    }
  }

  lemma {:induction false} FirstAccepted(names: set<Text>, pairs: seq<Text>, fields: map<Text, Text>)
    returns (name: Text, next: map<Text, Text>)
    requires FieldsOf(names, pairs, fields).Some? && pairs != []
    ensures NameOf(pairs[0]) == Some(name) && name in next && FieldsOf(names, pairs[1..], next).Some?
  {
    name := NameOf(pairs[0]).value;
    next := fields[name := ValueOf(pairs[0]).value];
  }

  lemma {:induction false} DistinctNames(names: set<Text>, pairs: seq<Text>, fields: map<Text, Text>, j: nat, k: nat)
    requires FieldsOf(names, pairs, fields).Some? && j < k < |pairs|
    ensures NameOf(pairs[j]) != NameOf(pairs[k])
    decreases j
  {
    var name, next := FirstAccepted(names, pairs, fields);
    var rest := pairs[1..];
    assert rest[k - 1] == pairs[k];
    if j == 0 {
      AcceptedPairs(names, rest, next, k - 1);
    } else {
      assert rest[j - 1] == pairs[j];
      DistinctNames(names, rest, next, j - 1, k - 1);
    }
  }

  lemma {:induction false} PlainDecodesToItself(t: Text)
    requires Alphabet(t)
    ensures DecodeField(t) == Some(t)
  {
    assert PlusToSpace(t) == t;
    PlainUri(t);
  }

  lemma {:induction false} PlainUri(t: Text)
    requires Alphabet(t)
    ensures DecodeUri(t) == Some(t)
  {
    if t != [] {
      PlainUri(t[1..]);
      assert [t[0]] + t[1..] == t;
    }
  }

  /** A raw pair that begins with a plain name and '=' decodes to that name, and a plain value to itself. */
  lemma {:induction false} PlainPair(name: Text, rest: Text)
    requires Alphabet(name)
    ensures NameOf(name + [EQUALS] + rest) == Some(name)
    ensures Alphabet(rest) ==> ValueOf(name + [EQUALS] + rest) == Some(rest)
  {
    var pair := name + [EQUALS] + rest;
    assert pair[..|name|] == name && pair[|name| + 1..] == rest;
    FindIs(pair, EQUALS, 0, |name|);
    PlainDecodesToItself(name);
    if Alphabet(rest) {
      PlainDecodesToItself(rest);
    }
  }

  lemma {:induction false} FindIs(t: Text, u: int, i: nat, j: nat)
    requires i <= j <= |t| && (forall k :: i <= k < j ==> t[k] != u) && (j < |t| ==> t[j] == u)
    ensures FindFrom(t, u, i) == j
    decreases j - i
  {
    if i < j {
      FindIs(t, u, i + 1, j);
    }
  }

  lemma {:induction false} FindInTail(head: Text, tail: Text, u: int, k: nat)
    requires k <= |tail|
    ensures FindFrom(head + tail, u, |head| + k) == |head| + FindFrom(tail, u, k)
  {
    var t, j := head + tail, FindFrom(tail, u, k);
    assert forall i :: |head| <= i < |t| ==> t[i] == tail[i - |head|];
    FindIs(t, u, |head| + k, |head| + j);
  }

  lemma {:induction false} SplitTail(head: Text, tail: Text, k: nat)
    requires k <= |tail|
    ensures SplitFrom(head + tail, |head| + k) == SplitFrom(tail, k)
    decreases |tail| - k
  {
    var j := FindFrom(tail, AMP, k);
    FindInTail(head, tail, AMP, k);
    JoinSlice(head, tail, k, j);
    if j < |tail| {
      SplitTail(head, tail, j + 1);
    }
  }

  lemma {:induction false} SplitAt(head: Text, tail: Text)
    requires Lacks(head, AMP)
    ensures Split(head + [AMP] + tail) == [head] + Split(tail)
  {
    var text := head + [AMP] + tail;
    assert text[0..|head|] == head;
    FindIs(text, AMP, 0, |head|);
    SplitTail(head + [AMP], tail, 0);
  }

  lemma {:induction false} SplitOne(t: Text)
    requires Lacks(t, AMP)
    ensures Split(t) == [t]
  {
    FindIs(t, AMP, 0, |t|);
    assert t[0..|t|] == t;
  }

  /** Each of the texts is what its piece decodes to. */
  ghost predicate DecodesTo(pieces: seq<Bytes>, texts: seq<Text>)
  {
    |pieces| == |texts| && forall k :: 0 <= k < |pieces| ==> Utf8.Decode(pieces[k]) == Some(texts[k])
  }

  lemma {:induction false} DecodesMore(piece: Bytes, pieces: seq<Bytes>, text: Text, texts: seq<Text>)
    requires Utf8.Decode(piece) == Some(text) && DecodesTo(pieces, texts)
    ensures DecodesTo([piece] + pieces, [text] + texts)
  {
  }

  /** Splitting the octets and splitting the decoded text give the same pieces. */
  lemma {:induction false} SplitDecoded(body: Bytes, i: nat)
    requires i <= |body| && Utf8.WellFormed(body, i, |body|)
    ensures DecodesTo(SplitFrom(body, i), Split(Utf8.TextOf(body, i, |body|)))
    decreases |body| - i
  {
    var j, n := FindFrom(body, AMP, i), |body|;
    if j == n {
      LastPiece(body, i);
    } else {
      DecodedCut(body, i, j);
      SplitDecoded(body, j + 1);
      DecodesMore(body[i..j], SplitFrom(body, j + 1), Utf8.Decode(body[i..j]).value,
        Split(Utf8.TextOf(body, j + 1, n)));
    }
  }

  lemma {:induction false} LastPiece(body: Bytes, i: nat)
    requires i <= |body| && Utf8.WellFormed(body, i, |body|) && FindFrom(body, AMP, i) == |body|
    ensures DecodesTo([body[i..|body|]], Split(Utf8.TextOf(body, i, |body|)))
  {
    Utf8.AsciiUnitsComeFromOctets(body, i, |body|, AMP);
    SplitOne(Utf8.TextOf(body, i, |body|));
    Utf8.DecodeSlice(body, i, |body|);
  }

  lemma {:induction false} DecodedCut(body: Bytes, i: nat, j: nat)
    requires i <= j < |body| && Utf8.WellFormed(body, i, |body|) && j == FindFrom(body, AMP, i)
    ensures Utf8.WellFormed(body, j + 1, |body|) && Utf8.Decode(body[i..j]).Some?
    ensures Split(Utf8.TextOf(body, i, |body|))
         == [Utf8.Decode(body[i..j]).value] + Split(Utf8.TextOf(body, j + 1, |body|))
  {
    Utf8.SplitsAtAscii(body, i, j, |body|);
    Utf8.AsciiUnitsComeFromOctets(body, i, j, AMP);
    SplitAt(Utf8.TextOf(body, i, j), Utf8.TextOf(body, j + 1, |body|));
    Utf8.DecodeSlice(body, i, j);
  }

  lemma {:induction false} ScanFinds(field: Text, pieces: seq<Text>, found: Option<Text>) returns (k: nat)
    requires TokenIn(field, pieces, found).Some?
    ensures found.Some? ==> TokenIn(field, pieces, found) == found
    ensures found.None? ==> k < |pieces| && TokenValue(TokenIn(field, pieces, found).value)
                            && pieces[k] == field + TokenIn(field, pieces, found).value
  {
    if pieces == [] {
      k := 0;
    } else if StartsWith(pieces[0], field) {
      var value := pieces[0][|field|..];
      var _ := ScanFinds(field, pieces[1..], Some(value));
      k := 0;
    } else {
      k := ScanFinds(field, pieces[1..], found);
      k := k + 1;
    }
  }

  lemma {:induction false} ScanIsComplete(field: Text, pieces: seq<Text>, k: nat, t: Text)
    requires k < |pieces| && pieces[k] == field + t && TokenValue(t)
    requires forall j :: 0 <= j < |pieces| && StartsWith(pieces[j], field) ==> j == k
    ensures TokenIn(field, pieces, None) == Some(t)
  {
    StartsWithJoin(field, t);
    if k == 0 {
      NothingMore(field, pieces[1..], Some(t));
    } else {
      assert !StartsWith(pieces[0], field);
      forall j | 0 <= j < |pieces| - 1 && StartsWith(pieces[1..][j], field) ensures j == k - 1 {
        assert pieces[j + 1] == pieces[1..][j];
      }
      ScanIsComplete(field, pieces[1..], k - 1, t);
    }
  }

  lemma {:induction false} NothingMore(field: Text, pieces: seq<Text>, found: Option<Text>)
    requires forall j :: 0 <= j < |pieces| ==> !StartsWith(pieces[j], field)
    ensures TokenIn(field, pieces, found) == found
  {
    if pieces != [] {
      NothingMore(field, pieces[1..], found);
    }
  }

  lemma {:induction false} StartsWithJoin(a: Text, b: Text)
    ensures StartsWith(a + b, a) && (a + b)[|a|..] == b
  {
  }

  /** Whatever follows it, a raw pair that begins with a plain name and '=' is decoded under that name. */
  lemma {:induction false} RawName(name: Text, body: Bytes, j: nat)
    requires Alphabet(name) && Utf8.Decode(body).Some? && j < |Split(body)|
    requires StartsWith(Split(body)[j], name + [EQUALS])
    ensures j < |Split(Utf8.Decode(body).value)| && NameOf(Split(Utf8.Decode(body).value)[j]) == Some(name)
  {
    SplitDecoded(body, 0);
    DecodedField(name, Split(body)[j]);
    PlainPair(name, Utf8.Decode(Split(body)[j][|name| + 1..]).value);
  }

  lemma {:induction false} DecodedField(name: Text, piece: Bytes)
    requires Alphabet(name) && Utf8.Decode(piece).Some? && StartsWith(piece, name + [EQUALS])
    ensures Utf8.Decode(piece[|name| + 1..]).Some?
    ensures Utf8.Decode(piece).value == name + [EQUALS] + Utf8.Decode(piece[|name| + 1..]).value
  {
    var n := |name|;
    Prefix(name, piece);
    Utf8.SplitsAtAscii(piece, 0, n, |piece|);
    Utf8.AsciiRange(piece, 0, n);
    Utf8.DecodeSlice(piece, n + 1, |piece|);
  }

  lemma {:induction false} Prefix(name: Text, piece: Text)
    requires StartsWith(piece, name + [EQUALS])
    ensures piece[0..|name|] == name && piece[|name|] == EQUALS && piece[|name| + 1..] == piece[|name| + 1..|piece|]
    ensures forall k :: 0 <= k < |name| ==> piece[k] == name[k]
  {
    var n := |name|;
    assert forall k :: 0 <= k <= n ==> piece[k] == piece[..n + 1][k] == (name + [EQUALS])[k];
  }

  lemma {:induction false} RawToken(name: Text, body: Bytes, k: nat, t: Text)
    requires Alphabet(name) && Alphabet(t) && Utf8.Decode(body).Some? && k < |Split(body)|
    requires Split(body)[k] == name + [EQUALS] + t
    ensures k < |Split(Utf8.Decode(body).value)|
    ensures NameOf(Split(Utf8.Decode(body).value)[k]) == Some(name)
    ensures ValueOf(Split(Utf8.Decode(body).value)[k]) == Some(t)
  {
    SplitDecoded(body, 0);
    StartsWithJoin(name + [EQUALS], t);
    DecodedField(name, name + [EQUALS] + t);
    Utf8.AsciiIsItself(t);
    PlainPair(name, t);
  }

  /** The scan and the parser on a body whose pairs the parser accepts, for any closed set of names. */
  lemma {:induction false} FieldAgreement(names: set<Text>, name: Text, body: Bytes, t: Text)
    requires Alphabet(name) && Utf8.Decode(body).Some?
    requires FieldsOf(names, Split(Utf8.Decode(body).value), map[]).Some?
    ensures TokenIn(name + [EQUALS], Split(body), None) == Some(t) <==>
            TokenValue(t) && name + [EQUALS] + t in Split(body)
    ensures TokenIn(name + [EQUALS], Split(body), None) == Some(t) ==>
              var fields := FieldsOf(names, Split(Utf8.Decode(body).value), map[]).value;
              name in fields && fields[name] == t
  {
    var field, raw, pairs := name + [EQUALS], Split(body), Split(Utf8.Decode(body).value);
    if TokenIn(field, raw, None) == Some(t) {
      var k := ScanFinds(field, raw, None);
      RawToken(name, body, k, t);
      AcceptedPairs(names, pairs, map[], k);
    }
    if TokenValue(t) && field + t in raw {
      var k :| 0 <= k < |raw| && raw[k] == field + t;
      StartsWithJoin(field, t);
      forall j | 0 <= j < |raw| && StartsWith(raw[j], field) ensures j == k {
        RawName(name, body, j);
        RawName(name, body, k);
        if j < k { DistinctNames(names, pairs, map[], j, k); }
        if k < j { DistinctNames(names, pairs, map[], k, j); }
      }
      ScanIsComplete(field, raw, k, t);
    }
  }

  /**
   * For every body the application accepts, whatever the encoding of its other fields: the lanes' scan returns `t`
   * exactly when some raw pair is the token field with the well-formed value `t`, and then the application's own
   * submissionToken field is exactly `t`.
   */
  lemma {:induction false} TokenAgreement(body: Bytes, t: Text)
    requires FormFields(body).Some?
    ensures SubmissionToken(body) == Some(t) <==> TokenValue(t) && TOKEN_FIELD + t in Split(body)
    ensures SubmissionToken(body) == Some(t) ==>
              TOKEN_NAME in FormFields(body).value && FormFields(body).value[TOKEN_NAME] == t
  {
    TokenField();
    if Utf8.Decode(body).value == [] {
      EmptyBody(TOKEN_FIELD, body, t);
    } else {
      FieldAgreement(FIELD_NAMES, TOKEN_NAME, body, t);
    }
  }

  lemma {:induction false} EmptyBody(field: Text, body: Bytes, t: Text)
    requires Utf8.Decode(body) == Some([]) && field != []
    ensures TokenIn(field, Split(body), None) == None && field + t !in Split(body)
  {
    Utf8.AsciiComesFromAscii(body);
    assert Split([]) == [[]];
  }
}
