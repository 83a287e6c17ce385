/** Big-endian integers: the looping encoders, stretching to a fixed width, and the checked parser. */
module Integers {
  import opened Prelude

  const U64: nat := 0x1_0000_0000_0000_0000

  ghost predicate Below(ds: seq<nat>, base: nat) { forall i :: 0 <= i < |ds| ==> ds[i] < base }

  /** Positional value, most significant digit first. */
  function Value(ds: seq<nat>, base: nat): nat {
    if ds == [] then 0 else Value(ds[..|ds| - 1], base) * base + ds[|ds| - 1]
  }

  /** The shortest digit string; zero has none. */
  function Digits(n: nat, base: nat): (ds: seq<nat>)
    requires base >= 2
    ensures Below(ds, base)
    decreases n
  {
    if n == 0 then [] else Shrinks(n, base); Digits(n / base, base) + [n % base]
  }

  lemma Shrinks(n: nat, base: nat)
    requires base >= 2 && n > 0
    ensures 0 <= n / base < n && n == n / base * base + n % base
  {
    var q := n / base;
    assert n == base * q + n % base;
    if q >= n { AtLeastTwice(base, q); }
  }

  lemma AtLeastTwice(base: nat, q: nat)
    requires base >= 2
    ensures base * q >= 2 * q
  {
  }

  function Reverse(s: seq<nat>): (r: seq<nat>)
    ensures |r| == |s| && forall i :: 0 <= i < |s| ==> r[i] == s[|s| - 1 - i]
  {
    seq(|s|, i requires 0 <= i < |s| => s[|s| - 1 - i])
  }

  lemma ReverseSnoc(s: seq<nat>, x: nat)
    ensures Reverse(s + [x]) == [x] + Reverse(s)
  {
  }

  lemma ReverseTwice(s: seq<nat>)
    ensures Reverse(Reverse(s)) == s
  {
  }

  /** `encode_int_be_base32` and `encode_int_be_base256`: digits are pushed least significant first, then reversed. */
  method EncodeIntBe(n: nat, base: nat) returns (out: seq<nat>)
    requires base >= 2
    ensures out == Digits(n, base)
  {
    out := [];
    var rem: nat := n;
    while rem != 0
      invariant Digits(n, base) == Digits(rem, base) + Reverse(out)
      decreases rem
    {
      ReverseSnoc(out, rem % base);
      Shrinks(rem, base);
      ghost var high := Digits(rem / base, base);
      assert high + [rem % base] + Reverse(out) == high + ([rem % base] + Reverse(out));
      out, rem := out + [rem % base], rem / base;
    }
    out := Reverse(out);
  }

  lemma {:induction false} ValueOfDigits(n: nat, base: nat)
    requires base >= 2
    ensures Value(Digits(n, base), base) == n
    decreases n
  {
    if n > 0 {
      Shrinks(n, base);
      ValueOfDigits(n / base, base);
      assert Digits(n, base)[..|Digits(n, base)| - 1] == Digits(n / base, base);
    }
  }

  lemma DigitsStep(v: nat, base: nat, d: nat)
    requires base >= 2 && d < base && v * base + d > 0
    ensures Digits(v * base + d, base) == Digits(v, base) + [d]
  {
    DivUnique(v * base + d, base, v, d);
  }

  /** Digit strings without a leading zero are the shortest ones. */
  lemma {:induction false} DigitsOfValue(ds: seq<nat>, base: nat)
    requires base >= 2 && Below(ds, base) && (ds != [] ==> ds[0] != 0)
    ensures Digits(Value(ds, base), base) == ds
    ensures ds != [] ==> Value(ds, base) > 0
    decreases |ds|
  {
    if ds != [] {
      var k := |ds| - 1;
      var v := Value(ds[..k], base);
      if k > 0 { assert ds[..k][0] == ds[0]; }
      DigitsOfValue(ds[..k], base);
      if k > 0 { Grows(base, v); }
      DigitsStep(v, base, ds[k]);
      assert ds == ds[..k] + [ds[k]];
    }
  }

  lemma DigitsLead(n: nat, base: nat)
    requires base >= 2 && n > 0
    ensures Digits(n, base) != [] && Digits(n, base)[0] != 0
    decreases n
  {
    Shrinks(n, base);
    if n / base > 0 {
      DigitsLead(n / base, base);
    } else {
      assert n % base == n by { DivUnique(n % base, base, 0, n % base); }
    }
  }

  // ---------- How many digits ----------

  function Power(base: nat, k: nat): nat { if k == 0 then 1 else base * Power(base, k - 1) }

  lemma {:induction false} DigitsFit(n: nat, base: nat, k: nat)
    requires base >= 2 && n < Power(base, k)
    ensures |Digits(n, base)| <= k
    decreases k
  {
    if n > 0 {
      QuotientFits(n, base, Power(base, k - 1));
      DigitsFit(n / base, base, k - 1);
    }
  }

  lemma QuotientFits(n: nat, base: nat, p: nat)
    requires base >= 2 && n < base * p
    ensures 0 <= n / base < p
  {
    var q := n / base;
    assert n == base * q + n % base;
    assert base * q - base * p == base * (q - p);
    if q > p { Grows(base, q - p); }
  }

  lemma HornerBound(v: nat, p: nat, base: nat, d: nat)
    requires v < p && d < base
    ensures v * base + d < base * p
  {
    assert base * p - v * base == base * (p - v);
    Grows(base, p - v);
  }

  lemma {:induction false} ValueBound(ds: seq<nat>, base: nat)
    requires base >= 2 && Below(ds, base)
    ensures Value(ds, base) < Power(base, |ds|)
    decreases |ds|
  {
    if ds != [] {
      var k := |ds| - 1;
      ValueBound(ds[..k], base);
      HornerBound(Value(ds[..k], base), Power(base, k), base, ds[k]);
    }
  }

  /** Re-encoding a parsed integer never makes it longer. */
  lemma ShortestDigits(ds: seq<nat>, base: nat)
    requires base >= 2 && Below(ds, base)
    ensures |Digits(Value(ds, base), base)| <= |ds|
  {
    ValueBound(ds, base);
    DigitsFit(Value(ds, base), base, |ds|);
  }

  /** `n` shifted right by five bits, `pos` times. */
  function Drop(n: nat, pos: nat): nat { if pos == 0 then n else Drop(n / 32, pos - 1) }

  lemma {:induction false} DropIsPrefix(n: nat, pos: nat)
    ensures Drop(n, pos) > 0 <==> |Digits(n, 32)| > pos
    ensures Drop(n, pos + 1) == Drop(n, pos) / 32
    decreases pos
  {
    if pos == 0 {
      assert Drop(n, 1) == Drop(n / 32, 0);
    } else {
      DropIsPrefix(n / 32, pos - 1);
      if n == 0 { assert Drop(0, pos) == Drop(0, pos - 1); }
    }
  }

  lemma ThirteenDigits(n: nat)
    requires n < U64
    ensures Drop(n, 13) == 0
  {
    DropIsPrefix(n, 13);
    assert Power(32, 13) == 0x2_0000_0000_0000_0000 by {
      assert Power(32, 3) == 0x8000;
      assert Power(32, 6) == 0x8000 * Power(32, 3);
      assert Power(32, 9) == 0x8000 * Power(32, 6);
      assert Power(32, 12) == 0x8000 * Power(32, 9);
    }
    DigitsFit(n, 32, 13);
  }

  /** The number of the highest nonzero group of five bits among the lowest `pos` groups; 0 if all are zero. */
  function HighestGroup(n: nat, pos: nat): nat {
    if pos == 0 then 0 else if Drop(n, pos - 1) % 32 != 0 then pos else HighestGroup(n, pos - 1)
  }

  /** `encoded_int_be_base32_size`. */
  function EncodedSize(n: nat): nat { HighestGroup(n, 13) }

  method EncodedIntBeBase32Size(n: nat) returns (size: nat)
    ensures size == EncodedSize(n)
  {
    var pos := 13;
    while pos > 0
      invariant 0 <= pos <= 13 && EncodedSize(n) == HighestGroup(n, pos)
    {
      pos := pos - 1;
      if Drop(n, pos) % 32 != 0 {
        return pos + 1;
      }
    }
    size := 0;
  }

  lemma {:induction false} HighestGroupIsDigits(n: nat, pos: nat)
    requires Drop(n, pos) == 0
    ensures HighestGroup(n, pos) == |Digits(n, 32)|
    decreases pos
  {
    if pos > 0 {
      DropIsPrefix(n, pos - 1);
      DropIsPrefix(n, pos);
      if Drop(n, pos - 1) % 32 == 0 { HighestGroupIsDigits(n, pos - 1); }
    } else {
      DropIsPrefix(n, 0);
    }
  }

  /** The size computed from bit groups is the number of digits written, for every 64-bit integer. */
  lemma EncodedSizeIsDigits(n: nat)
    requires n < U64
    ensures EncodedSize(n) == |Digits(n, 32)| <= 13
  {
    ThirteenDigits(n);
    DropIsPrefix(n, 13);
    HighestGroupIsDigits(n, 13);
  }

  // ---------- Stretching ----------

  function ZeroDigits(n: nat): (z: seq<nat>)
    ensures |z| == n
  {
    seq(n, i => 0)
  }

  function TryStretch(ds: seq<nat>, len: nat): (r: Option<seq<nat>>)
    ensures r.Some? <==> |ds| <= len
    ensures r.Some? ==> |r.value| == len
  {
    if |ds| > len then None else Some(ZeroDigits(len - |ds|) + ds)
  }

  lemma {:induction false} LeadingZeros(n: nat, ds: seq<nat>, base: nat)
    ensures Value(ZeroDigits(n) + ds, base) == Value(ds, base)
    decreases |ds|, n
  {
    var all := ZeroDigits(n) + ds;
    if ds != [] {
      LeadingZeros(n, ds[..|ds| - 1], base);
      assert all[..|all| - 1] == ZeroDigits(n) + ds[..|ds| - 1];
    } else if n > 0 {
      LeadingZeros(n - 1, [], base);
      assert all[..n - 1] == ZeroDigits(n - 1) + [];
    }
  }

  /** `n` in exactly `len` digits. */
  function Fixed(n: nat, base: nat, len: nat): (ds: seq<nat>)
    requires base >= 2 && n < Power(base, len)
    ensures |ds| == len && Below(ds, base) && Value(ds, base) == n
  {
    DigitsFit(n, base, len);
    ValueOfDigits(n, base);
    LeadingZeros(len - |Digits(n, base)|, Digits(n, base), base);
    TryStretch(Digits(n, base), len).value
  }

  // ---------- Parsing ----------

  /** `parse_int_be`: a fold that gives up on the first overflow of a type that holds up to `max`. */
  function ParseIntBe(ds: seq<nat>, base: nat, max: nat): Option<nat> {
    if ds == [] then Some(0)
    else match ParseIntBe(ds[..|ds| - 1], base, max)
      case None => None
      case Some(x) =>
        if x * base > max then None
        else if x * base + ds[|ds| - 1] > max then None
        else Some(x * base + ds[|ds| - 1])
  }

  /** The parser returns the positional value exactly when it fits, leading zeros or not. */
  lemma {:induction false} ParseIntBeIff(ds: seq<nat>, base: nat, max: nat)
    requires base >= 1
    ensures ParseIntBe(ds, base, max) == if Value(ds, base) <= max then Some(Value(ds, base)) else None
    decreases |ds|
  {
    if ds != [] {
      ParseIntBeIff(ds[..|ds| - 1], base, max);
      Grows(Value(ds[..|ds| - 1], base), base);
    }
  }

  /** Parsing inverts encoding, at any stretched width and for every type that holds the number. */
  lemma ParseEncoded(n: nat, base: nat, len: nat, max: nat)
    requires base >= 2 && n < Power(base, len)
    ensures ParseIntBe(Digits(n, base), base, max) == if n <= max then Some(n) else None
    ensures ParseIntBe(Fixed(n, base, len), base, max) == if n <= max then Some(n) else None
  {
    ValueOfDigits(n, base);
    ParseIntBeIff(Digits(n, base), base, max);
    ParseIntBeIff(Fixed(n, base, len), base, max);
  }
}
