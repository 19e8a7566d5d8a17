/**
 * The base64url codec without padding (section 5 of RFC 4648) as Buffer applies it, and decodeCanonicalB64
 * (defense/core/hop-proof.ts). The main result: a text is accepted exactly when it is the encoding of some octets.
 */
module Base64 {
  import opened Base

  /** The alphabet, in order. */
  function CharOf(d: int): (u: int)
    requires 0 <= d < 64
    ensures Base64Url(u) && DigitOf(u) == d
  {
    if d < 26 then 65 + d
    else if d < 52 then 71 + d
    else if d < 62 then d - 4
    else if d == 62 then '-' as int
    else '_' as int
  }

  function DigitOf(u: int): (d: int)
    requires Base64Url(u)
    ensures 0 <= d < 64
  {
    if 65 <= u <= 90 then u - 65
    else if 97 <= u <= 122 then u - 71
    else if Digit(u) then u + 4
    else if u == '-' as int then 62
    else 63
  }


  // ------------------------------------------------------------------ encoding

  /** Three octets are four characters. */
  function Quad(a: int, b: int, c: int): (t: Text)
    requires 0 <= a < 256 && 0 <= b < 256 && 0 <= c < 256
    ensures |t| == 4 && Alphabet(t)
  {
    [CharOf(a / 4), CharOf(a % 4 * 16 + b / 16), CharOf(b % 16 * 4 + c / 64), CharOf(c % 64)]
  }

  /** The encoding of the octets from index `i` on; the spare bits of a short last group are zero. */
  function EncodeFrom(b: Bytes, i: nat): (t: Text)
    requires i <= |b| && Octets(b)
    ensures Alphabet(t) && |t| == ((|b| - i) * 4 + 2) / 3
    decreases |b| - i
  {
    if i == |b| then []
    else if i + 1 == |b| then Quad(b[i], 0, 0)[..2]
    else if i + 2 == |b| then Quad(b[i], b[i + 1], 0)[..3]
    else Quad(b[i], b[i + 1], b[i + 2]) + EncodeFrom(b, i + 3)
  }

  function Encode(b: Bytes): (t: Text)
    requires Octets(b)
    ensures Alphabet(t) && |t| == (|b| * 4 + 2) / 3
  {
    EncodeFrom(b, 0)
  }

  // ------------------------------------------------------------------ decoding

  /** The three octets of four digits. */
  function Triple(p: int, q: int, r: int, s: int): (b: Bytes)
    requires 0 <= p < 64 && 0 <= q < 64 && 0 <= r < 64 && 0 <= s < 64
    ensures |b| == 3 && Octets(b)
  {
    [p * 4 + q / 16, q % 16 * 16 + r / 4, r % 4 * 64 + s]
  }

  /** Buffer.from(value, "base64url"): spare bits and a single left-over character are ignored. */
  function LooseFrom(t: Text, i: nat): (b: Bytes)
    requires i <= |t| && Alphabet(t)
    ensures Octets(b)
    decreases |t| - i
  {
    if i + 4 <= |t| then
      Triple(DigitOf(t[i]), DigitOf(t[i + 1]), DigitOf(t[i + 2]), DigitOf(t[i + 3])) + LooseFrom(t, i + 4)
    else if i + 3 == |t| then Triple(DigitOf(t[i]), DigitOf(t[i + 1]), DigitOf(t[i + 2]), 0)[..2]
    else if i + 2 == |t| then Triple(DigitOf(t[i]), DigitOf(t[i + 1]), 0, 0)[..1]
    else []
  }

  /** decodeCanonicalB64 without an expected length. */
  function Canonical(t: Text): Option<Bytes>
  {
    if t == [] || !Alphabet(t) || |t| % 4 == 1 then None
    else
      var b := LooseFrom(t, 0);
      if Encode(b) != t then None else Some(b)
  }

  /** decodeCanonicalB64 with an expected length. */
  function CanonicalOf(t: Text, length: nat): Option<Bytes>
  {
    var b := Canonical(t);
    if b.Some? && |b.value| == length then b else None
  }

  // ------------------------------------------------------------------ round trips

  lemma {:induction false} Recombine(n: int, m: int)
    requires m > 0
    ensures n / m * m + n % m == n
  {
  }

  lemma {:induction false} FirstOctet(a: int, b: int)
    requires 0 <= a < 256 && 0 <= b < 256
    ensures (a % 4 * 16 + b / 16) / 16 == a % 4 && (a % 4 * 16 + b / 16) % 16 == b / 16
  {
  }

  lemma {:induction false} SecondOctet(b: int, c: int)
    requires 0 <= b < 256 && 0 <= c < 256
    ensures (b % 16 * 4 + c / 64) / 4 == b % 16 && (b % 16 * 4 + c / 64) % 4 == c / 64
  {
  }

  lemma {:induction false} QuadTriple(a: int, b: int, c: int)
    requires 0 <= a < 256 && 0 <= b < 256 && 0 <= c < 256
    ensures var t := Quad(a, b, c);
            Triple(DigitOf(t[0]), DigitOf(t[1]), DigitOf(t[2]), DigitOf(t[3])) == [a, b, c]
  {
    var p, q, r, s := a / 4, a % 4 * 16 + b / 16, b % 16 * 4 + c / 64, c % 64;
    assert q / 16 == a % 4 && q % 16 == b / 16 by { FirstOctet(a, b); }
    assert r / 4 == b % 16 && r % 4 == c / 64 by { SecondOctet(b, c); }
    TripleFrom(a, b, c, p, q, r, s);
  }

  lemma {:induction false} TripleFrom(a: int, b: int, c: int, p: int, q: int, r: int, s: int)
    requires 0 <= p < 64 && 0 <= q < 64 && 0 <= r < 64 && 0 <= s < 64
    requires p == a / 4 && q / 16 == a % 4 && q % 16 == b / 16 && r / 4 == b % 16 && r % 4 == c / 64 && s == c % 64
    ensures Triple(p, q, r, s) == [a, b, c]
  {
    Recombine(a, 4);
    Recombine(b, 16);
    Recombine(c, 64);
  }

  lemma {:induction false} DropHead(a: Text, b: Text)
    ensures (a + b)[|a|..] == b
  {
  }

  lemma {:induction false} ThreeMore(b: Bytes, i: nat)
    requires i + 3 <= |b|
    ensures b[i..] == [b[i], b[i + 1], b[i + 2]] + b[i + 3..]
  {
  }

  /** `t` holds the encoding of `b` from octet `i` on at character `k`. */
  lemma {:induction false} LooseUndoes(b: Bytes, i: nat, t: Text, k: nat)
    requires Octets(b) && i <= |b| && Alphabet(t) && k <= |t| && t[k..] == EncodeFrom(b, i)
    ensures LooseFrom(t, k) == b[i..]
    decreases |b| - i
  {
    var rest := t[k..];
    if i + 3 <= |b| {
      QuadTriple(b[i], b[i + 1], b[i + 2]);
      assert rest[0] == t[k] && rest[1] == t[k + 1] && rest[2] == t[k + 2] && rest[3] == t[k + 3];
      DropHead(Quad(b[i], b[i + 1], b[i + 2]), EncodeFrom(b, i + 3));
      DropDrop(t, k, 4);
      LooseUndoes(b, i + 3, t, k + 4);
      ThreeMore(b, i);
    } else if i + 2 == |b| {
      QuadTriple(b[i], b[i + 1], 0);
      assert rest[0] == t[k] && rest[1] == t[k + 1] && rest[2] == t[k + 2];
      assert b[i..] == [b[i], b[i + 1]];
    } else if i + 1 == |b| {
      QuadTriple(b[i], 0, 0);
      assert rest[0] == t[k] && rest[1] == t[k + 1];
      assert b[i..] == [b[i]];
    }
  }

  lemma {:induction false} DecodeEncode(b: Bytes)
    requires Octets(b)
    ensures LooseFrom(Encode(b), 0) == b
  {
    assert Encode(b)[0..] == Encode(b) && b[0..] == b;
    LooseUndoes(b, 0, Encode(b), 0);
  }

  /** A text is accepted exactly when it is the encoding of octets, and then it denotes those octets. */
  lemma {:induction false} CanonicalIsEncoding(t: Text, b: Bytes)
    ensures Canonical(t) == Some(b) <==> b != [] && Octets(b) && t == Encode(b)
  {
    if b != [] && Octets(b) && t == Encode(b) {
      DecodeEncode(b);
    }
    if Canonical(t) == Some(b) {
      assert LooseFrom(t, 0) == b;
      assert t == Encode(b);
    }
  }

  /** With an expected length: exactly the encodings of that many octets. */
  lemma {:induction false} CanonicalOfIsEncoding(t: Text, length: nat, b: Bytes)
    ensures CanonicalOf(t, length) == Some(b) <==> b != [] && Octets(b) && |b| == length && t == Encode(b)
  {
    CanonicalIsEncoding(t, b);
  }

  lemma {:induction false} EncodeInjective(a: Bytes, b: Bytes)
    requires Octets(a) && Octets(b) && Encode(a) == Encode(b)
    ensures a == b
  {
    DecodeEncode(a);
    DecodeEncode(b);
  }

  // ------------------------------------------------------------------ which texts are canonical

  lemma {:induction false} OctetsTail(a: Bytes, b: Bytes, i: nat)
    requires i <= |b|
    ensures forall k :: i <= k < |b| ==> (a + b)[|a| + k] == b[k]
  {
  }

  lemma {:induction false} EncodeTail(a: Bytes, b: Bytes, i: nat)
    requires Octets(a) && Octets(b) && Octets(a + b) && i <= |b|
    ensures EncodeFrom(a + b, |a| + i) == EncodeFrom(b, i)
    decreases |b| - i
  {
    OctetsTail(a, b, i);
    if i + 3 <= |b| {
      EncodeTail(a, b, i + 3);
    }
  }

  /** The spare bits of the last character from index `k` on are zero. */
  predicate SpareBitsZero(t: Text, k: nat)
    requires k <= |t| && Alphabet(t)
  {
    && (|t| - k) % 4 != 1
    && ((|t| - k) % 4 == 2 ==> DigitOf(t[|t| - 1]) % 16 == 0)
    && ((|t| - k) % 4 == 3 ==> DigitOf(t[|t| - 1]) % 4 == 0)
  }

  lemma {:induction false} FirstDigits(p: int, q: int)
    requires 0 <= p < 64 && 0 <= q < 64
    ensures (p * 4 + q / 16) / 4 == p && (p * 4 + q / 16) % 4 == q / 16
  {
  }

  lemma {:induction false} LaterDigits(q: int, r: int)
    requires 0 <= q < 64 && 0 <= r < 64
    ensures (q % 16 * 16 + r / 4) / 16 == q % 16 && (q % 16 * 16 + r / 4) % 16 == r / 4
  {
  }

  lemma {:induction false} LastDigits(r: int, s: int)
    requires 0 <= r < 64 && 0 <= s < 64
    ensures (r % 4 * 64 + s) / 64 == r % 4 && (r % 4 * 64 + s) % 64 == s
  {
  }

  lemma {:induction false} CharOfDigit(u: int)
    requires Base64Url(u)
    ensures CharOf(DigitOf(u)) == u
  {
  }

  /** Four characters are the group of the octets they denote. */
  lemma {:induction false} GroupBack(p: int, q: int, r: int, s: int)
    requires 0 <= p < 64 && 0 <= q < 64 && 0 <= r < 64 && 0 <= s < 64
    ensures var b := Triple(p, q, r, s); Quad(b[0], b[1], b[2]) == [CharOf(p), CharOf(q), CharOf(r), CharOf(s)]
  {
    var x, y, z := p * 4 + q / 16, q % 16 * 16 + r / 4, r % 4 * 64 + s;
    assert x / 4 == p && x % 4 == q / 16 by { FirstDigits(p, q); }
    assert y / 16 == q % 16 && y % 16 == r / 4 by { LaterDigits(q, r); }
    assert z / 64 == r % 4 && z % 64 == s by { LastDigits(r, s); }
    GroupFrom(p, q, r, s, x, y, z);
  }

  lemma {:induction false} GroupFrom(p: int, q: int, r: int, s: int, x: int, y: int, z: int)
    requires 0 <= p < 64 && 0 <= q < 64 && 0 <= r < 64 && 0 <= s < 64 && 0 <= x < 256 && 0 <= y < 256 && 0 <= z < 256
    requires x / 4 == p && x % 4 == q / 16 && y / 16 == q % 16 && y % 16 == r / 4 && z / 64 == r % 4 && z % 64 == s
    ensures Quad(x, y, z) == [CharOf(p), CharOf(q), CharOf(r), CharOf(s)]
  {
    Recombine(q, 16);
    Recombine(r, 4);
    assert x % 4 * 16 + y / 16 == q && y % 16 * 4 + z / 64 == r;
  }

  lemma {:induction false} FullGroup(t: Text, k: nat)
    requires k + 4 <= |t| && Alphabet(t)
    ensures var b := Triple(DigitOf(t[k]), DigitOf(t[k + 1]), DigitOf(t[k + 2]), DigitOf(t[k + 3]));
            Quad(b[0], b[1], b[2]) == t[k..k + 4]
  {
    GroupBack(DigitOf(t[k]), DigitOf(t[k + 1]), DigitOf(t[k + 2]), DigitOf(t[k + 3]));
    CharOfDigit(t[k]);
    CharOfDigit(t[k + 1]);
    CharOfDigit(t[k + 2]);
    CharOfDigit(t[k + 3]);
  }

  lemma {:induction false} ShortGroup(t: Text, k: nat)
    requires k < |t| && (k + 2 == |t| || k + 3 == |t|) && Alphabet(t) && SpareBitsZero(t, k)
    ensures EncodeFrom(LooseFrom(t, k), 0) == t[k..]
  {
    var r := if k + 3 == |t| then DigitOf(t[k + 2]) else 0;
    GroupBack(DigitOf(t[k]), DigitOf(t[k + 1]), r, 0);
    CharOfDigit(t[k]);
    CharOfDigit(t[k + 1]);
    if k + 3 == |t| {
      CharOfDigit(t[k + 2]);
      assert t[k..] == [t[k], t[k + 1], t[k + 2]];
    } else {
      assert t[k..] == [t[k], t[k + 1]];
    }
  }

  lemma {:induction false} GroupThenRest(t: Text, k: nat)
    requires k + 4 <= |t| && Alphabet(t) && EncodeFrom(LooseFrom(t, k + 4), 0) == t[k + 4..]
    ensures EncodeFrom(LooseFrom(t, k), 0) == t[k..]
  {
    var a, b := Triple(DigitOf(t[k]), DigitOf(t[k + 1]), DigitOf(t[k + 2]), DigitOf(t[k + 3])), LooseFrom(t, k + 4);
    FullGroup(t, k);
    EncodeTail(a, b, 0);
    assert LooseFrom(t, k) == a + b;
    assert EncodeFrom(a + b, 0) == Quad(a[0], a[1], a[2]) + EncodeFrom(a + b, 3);
    assert t[k..] == t[k..k + 4] + t[k + 4..];
  }

  /** Decoding then encoding gives a text back when its spare bits are zero. */
  lemma {:induction false} EncodeUndoes(t: Text, k: nat)
    requires k <= |t| && Alphabet(t) && SpareBitsZero(t, k)
    ensures EncodeFrom(LooseFrom(t, k), 0) == t[k..] && |LooseFrom(t, k)| == (|t| - k) * 3 / 4
    decreases |t| - k
  {
    if k + 4 <= |t| {
      EncodeUndoes(t, k + 4);
      GroupThenRest(t, k);
    } else if k < |t| {
      ShortGroup(t, k);
    } else {
      assert t[k..] == [];
    }
  }
}
