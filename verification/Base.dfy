/** Vocabulary shared by the model: optional values, UTF-16 text and byte strings. */
module Base {

  datatype Option<+T> = None | Some(value: T)

  /** A JavaScript string as its 16-bit code units; a Latin-1 string uses the first 256 of them. */
  type Text = seq<int>

  /** Octets, 0 to 255 each. */
  type Bytes = seq<int>

  predicate Octets(b: Bytes) { forall i :: 0 <= i < |b| ==> 0 <= b[i] < 256 }

  /** Number.MAX_SAFE_INTEGER. */
  const MAX_SAFE: int := 9_007_199_254_740_991

  /** What the constructors demand of a size: Number.isSafeInteger(n) && n >= 1. */
  predicate SafePositive(n: int) { 1 <= n <= MAX_SAFE }

  /** A literal as code units. */
  function T(s: string): (t: Text)
    ensures |t| == |s|
    ensures forall i :: 0 <= i < |s| ==> t[i] == s[i] as int
  {
    seq(|s|, i requires 0 <= i < |s| => s[i] as int)
  }

  predicate StartsWith(t: Text, prefix: Text) { |prefix| <= |t| && t[..|prefix|] == prefix }

  /** `u` does not occur in `t`. */
  predicate Lacks(t: Text, u: int) { forall i :: 0 <= i < |t| ==> t[i] != u }

  predicate Digit(u: int) { 48 <= u <= 57 }
  predicate Letter(u: int) { 65 <= u <= 90 || 97 <= u <= 122 }
  predicate HexDigit(u: int) { Digit(u) || 65 <= u <= 70 || 97 <= u <= 102 }

  /** [A-Za-z0-9_-] */
  predicate Base64Url(u: int) { Letter(u) || Digit(u) || u == '_' as int || u == '-' as int }

  predicate Alphabet(t: Text) { forall i :: 0 <= i < |t| ==> Base64Url(t[i]) }

  function HexValue(u: int): (v: int)
    requires HexDigit(u)
    ensures 0 <= v < 16
  {
    if Digit(u) then u - 48 else if u <= 70 then u - 55 else u - 87
  }

  lemma {:induction false} Regroup(a: Text, b: Text, c: Text, d: Text)
    ensures a + (b + c + d) == a + b + c + d
  {
  }

  lemma {:induction false} DropDrop(t: Text, a: nat, b: nat)
    requires a + b <= |t|
    ensures t[a..][b..] == t[a + b..]
  {
  }

  lemma {:induction false} JoinSlice(a: Text, b: Text, i: nat, j: nat)
    requires i <= j <= |b|
    ensures (a + b)[|a| + i..|a| + j] == b[i..j]
  {
  }

  function Min(a: int, b: int): (m: int)
    ensures m <= a && m <= b && (m == a || m == b)
  {
    if a <= b then a else b
  }

  function Max(a: int, b: int): (m: int)
    ensures m >= a && m >= b && (m == a || m == b)
  {
    if a >= b then a else b
  }

  /** A condition as a count. */
  function ToNat(b: bool): nat { if b then 1 else 0 }

  predicate Ascii(t: Text) { forall i :: 0 <= i < |t| ==> 0 <= t[i] < 128 }

  /** ECMAScript's Math.floor on a clock reading. */
  function Floor(t: real): int { t.Floor }
}
