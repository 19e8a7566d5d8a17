/** Strict UTF-8 as TextDecoder (fatal, BOM kept) and decodeURIComponent apply it: octets to UTF-16 code units. */
module Utf8 {
  import opened Base

  /** How many octets a lead octet announces; 0 when it is not a lead octet. */
  function LeadLength(b0: int): nat
  {
    if 0 <= b0 < 0x80 then 1
    else if 0xC0 <= b0 < 0xE0 then 2
    else if 0xE0 <= b0 < 0xF0 then 3
    else if 0xF0 <= b0 < 0xF8 then 4
    else 0
  }

  function LeadBits(b0: int): int
  {
    if b0 < 0x80 then b0 else if b0 < 0xE0 then b0 - 0xC0 else if b0 < 0xF0 then b0 - 0xE0 else b0 - 0xF0
  }

  /** The code point of the `n` octets at `i`. */
  function CodeAt(b: Bytes, i: nat, n: nat): int
    requires 1 <= n && i + n <= |b|
  {
    if n == 1 then LeadBits(b[i]) else CodeAt(b, i, n - 1) * 64 + b[i + n - 1] - 0x80
  }

  /** Not overlong, not a surrogate, not beyond the last code point. */
  predicate Minimal(code: int, n: nat)
  {
    match n
    case 1 => true
    case 2 => 0x80 <= code < 0x800
    case 3 => 0x800 <= code < 0xD800 || 0xE000 <= code < 0x1_0000
    case _ => 0x1_0000 <= code < 0x11_0000
  }

  /** A character of `n` octets stands at `i` (section 3 of RFC 3629). */
  predicate CharAt(b: Bytes, i: nat, n: nat)
  {
    && 1 <= n && i + n <= |b| && LeadLength(b[i]) == n
    && (forall k :: i < k < i + n ==> 0x80 <= b[k] < 0xC0)
    && Minimal(CodeAt(b, i, n), n)
  }

  function Utf16(code: int): (t: Text)
    ensures t != []
    ensures code >= 0x80 ==> forall i :: 0 <= i < |t| ==> t[i] >= 0x80
  {
    if code < 0x1_0000 then [code]
    else [0xD800 + (code - 0x1_0000) / 1024, 0xDC00 + (code - 0x1_0000) % 1024]
  }

  predicate WellFormed(b: Bytes, i: nat, end: nat)
    requires i <= end <= |b|
    decreases end - i
  {
    i == end ||
    var n := LeadLength(b[i]);
    i + n <= end && CharAt(b, i, n) && WellFormed(b, i + n, end)
  }

  /** The text of the octets from `i` up to `end`. */
  function TextOf(b: Bytes, i: nat, end: nat): Text
    requires i <= end <= |b| && WellFormed(b, i, end)
    decreases end - i
  {
    if i == end then []
    else
      var n := LeadLength(b[i]);
      Utf16(CodeAt(b, i, n)) + TextOf(b, i + n, end)
  }

  function Decode(b: Bytes): Option<Text> { if WellFormed(b, 0, |b|) then Some(TextOf(b, 0, |b|)) else None }

  // ------------------------------------------------------------------ slices

  /** Octets `i` to `end` of `a` stand in `b` as well, shifted down by `d`. */
  ghost predicate Shifted(a: Bytes, i: nat, end: nat, b: Bytes, d: int)
  {
    i <= end <= |a| && 0 <= i - d && end - d <= |b| && forall k {:trigger a[k]} :: i <= k < end ==> a[k] == b[k - d]
  }

  lemma {:induction false} SameCode(a: Bytes, i: nat, n: nat, b: Bytes, d: int)
    requires 1 <= n && Shifted(a, i, i + n, b, d)
    ensures CodeAt(a, i, n) == CodeAt(b, i - d, n)
  {
    assert a[i + n - 1] == b[i + n - 1 - d];
    if n > 1 {
      SameCode(a, i, n - 1, b, d);
    }
  }

  lemma {:induction false} SameChar(a: Bytes, i: nat, end: nat, b: Bytes, d: int)
    requires i < end && Shifted(a, i, end, b, d)
    ensures var n := LeadLength(a[i]);
            LeadLength(b[i - d]) == n && (i + n <= end ==> (CharAt(a, i, n) <==> CharAt(b, i - d, n)))
  {
    assert a[i] == b[i - d];
    var n := LeadLength(a[i]);
    if 1 <= n && i + n <= end {
      SameCode(a, i, n, b, d);
      forall k | i - d < k < i - d + n ensures b[k] == a[k + d] {
        assert a[k + d] == b[k + d - d];
      }
      assert (forall k :: i < k < i + n ==> 0x80 <= a[k] < 0xC0) ==> forall k :: i - d < k < i - d + n ==>
             0x80 <= b[k] < 0xC0;
    }
  }

  lemma {:induction false} SameText(a: Bytes, i: nat, end: nat, b: Bytes, d: int)
    requires Shifted(a, i, end, b, d)
    ensures WellFormed(a, i, end) <==> WellFormed(b, i - d, end - d)
    ensures WellFormed(a, i, end) ==> TextOf(a, i, end) == TextOf(b, i - d, end - d)
    decreases end - i
  {
    if i < end {
      SameChar(a, i, end, b, d);
      var n := LeadLength(a[i]);
      if i + n <= end && CharAt(a, i, n) {
        SameCode(a, i, n, b, d);
        SameText(a, i + n, end, b, d);
      }
    }
  }

  /** Decoding a slice is decoding the range. */
  lemma {:induction false} DecodeSlice(b: Bytes, i: nat, end: nat)
    requires i <= end <= |b|
    ensures Decode(b[i..end]) == if WellFormed(b, i, end) then Some(TextOf(b, i, end)) else None
  {
    SameText(b, i, end, b[i..end], i);
  }

  // ------------------------------------------------------------------ ASCII

  lemma {:induction false} AsciiRange(b: Bytes, i: nat, end: nat)
    requires i <= end <= |b| && forall k :: i <= k < end ==> 0 <= b[k] < 128
    ensures WellFormed(b, i, end) && TextOf(b, i, end) == b[i..end]
    decreases end - i
  {
    if i < end {
      AsciiRange(b, i + 1, end);
      assert CodeAt(b, i, 1) == b[i];
      assert [b[i]] + b[i + 1..end] == b[i..end];
    }
  }

  lemma {:induction false} AsciiIsItself(b: Bytes)
    requires Ascii(b)
    ensures Decode(b) == Some(b)
  {
    AsciiRange(b, 0, |b|);
    assert b[0..|b|] == b;
  }

  /** Every octet of a character longer than one, and every code unit it decodes to, is outside ASCII. */
  lemma {:induction false} WideChar(b: Bytes, i: nat, n: nat)
    requires CharAt(b, i, n) && n > 1
    ensures CodeAt(b, i, n) >= 0x80 && forall k :: i <= k < i + n ==> b[k] >= 0x80
  {
  }

  lemma {:induction false} NotInside(b: Bytes, i: nat, n: nat, k: nat)
    requires CharAt(b, i, n) && i < k < |b| && b[k] < 128
    ensures i + n <= k
  {
    if n > 1 {
      WideChar(b, i, n);
    }
  }

  lemma {:induction false} AsciiTail(a: Text, b: Text)
    requires Ascii(a + b)
    ensures Ascii(b)
  {
    assert forall i :: 0 <= i < |b| ==> b[i] == (a + b)[|a| + i];
  }

  lemma {:induction false} AsciiRangeComesFromAscii(b: Bytes, i: nat, end: nat)
    requires i <= end <= |b| && WellFormed(b, i, end) && Ascii(TextOf(b, i, end))
    ensures forall k :: i <= k < end ==> 0 <= b[k] < 128
    decreases end - i
  {
    if i < end {
      var n := LeadLength(b[i]);
      assert TextOf(b, i, end)[0] == Utf16(CodeAt(b, i, n))[0];
      if n > 1 {
        WideChar(b, i, n);
      }
      AsciiTail(Utf16(CodeAt(b, i, n)), TextOf(b, i + n, end));
      AsciiRangeComesFromAscii(b, i + 1, end);
    }
  }

  /** Only ASCII octets decode to ASCII text. */
  lemma {:induction false} AsciiComesFromAscii(b: Bytes)
    requires Decode(b).Some? && Ascii(Decode(b).value)
    ensures Decode(b).value == b
  {
    AsciiRangeComesFromAscii(b, 0, |b|);
    AsciiIsItself(b);
  }

  lemma {:induction false} WellFormedAround(b: Bytes, i: nat, k: nat, end: nat)
    requires i <= k < end <= |b| && WellFormed(b, i, end) && 0 <= b[k] < 128
    ensures WellFormed(b, i, k) && WellFormed(b, k + 1, end)
    decreases end - i
  {
    if i < k {
      NotInside(b, i, LeadLength(b[i]), k);
      WellFormedAround(b, i + LeadLength(b[i]), k, end);
    }
  }

  lemma {:induction false} TextStep(b: Bytes, i: nat, end: nat)
    requires i < end <= |b| && WellFormed(b, i, end)
    ensures TextOf(b, i, end) == Utf16(CodeAt(b, i, LeadLength(b[i]))) + TextOf(b, i + LeadLength(b[i]), end)
  {
  }

  /** An ASCII octet is a character boundary: decoding splits around it. */
  lemma {:induction false} SplitsAtAscii(b: Bytes, i: nat, k: nat, end: nat)
    requires i <= k < end <= |b| && WellFormed(b, i, end) && 0 <= b[k] < 128
    ensures WellFormed(b, i, k) && WellFormed(b, k + 1, end)
    ensures TextOf(b, i, end) == TextOf(b, i, k) + [b[k]] + TextOf(b, k + 1, end)
    decreases end - i
  {
    WellFormedAround(b, i, k, end);
    var n := LeadLength(b[i]);
    if i == k {
      assert CodeAt(b, k, 1) == b[k];
    } else {
      NotInside(b, i, n, k);
      SplitsAtAscii(b, i + n, k, end);
      TextStep(b, i, end);
      TextStep(b, i, k);
      Regroup(Utf16(CodeAt(b, i, n)), TextOf(b, i + n, k), [b[k]], TextOf(b, k + 1, end));
    }
  }

  /** A code unit below 128 in the decoded text comes only from that very octet. */
  lemma {:induction false} AsciiUnitsComeFromOctets(b: Bytes, i: nat, end: nat, u: int)
    requires i <= end <= |b| && WellFormed(b, i, end)
    requires 0 <= u < 128 && forall k :: i <= k < end ==> b[k] != u
    ensures Lacks(TextOf(b, i, end), u)
    decreases end - i
  {
    if i < end {
      var n := LeadLength(b[i]);
      AsciiUnitsComeFromOctets(b, i + n, end, u);
      assert n == 1 ==> CodeAt(b, i, n) == b[i];
      assert Lacks(Utf16(CodeAt(b, i, n)), u);
    }
  }
}
