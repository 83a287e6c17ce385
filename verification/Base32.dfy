/**
 Regrouping bytes into 5-bit symbols and back, as in BIP 173, and the streaming converter that
 writes symbols while bytes are still arriving.
 */
module Base32 {
  import opened Prelude

  type u5 = x: nat | x < 32
  type u8 = x: nat | x < 256

  // ---------- Bit strings ----------

  function Pow2(n: nat): (r: nat)
    ensures r >= 1
  {
    if n == 0 then 1 else 2 * Pow2(n - 1)
  }

  /** The low `w` bits of `x`, most significant first. */
  function BitsOf(x: nat, w: nat): (bits: seq<bool>)
    ensures |bits| == w
  {
    if w == 0 then [] else BitsOf(x / 2, w - 1) + [x % 2 == 1]
  }

  function ValueOf(bits: seq<bool>): (x: nat)
    ensures x < Pow2(|bits|)
  {
    if bits == [] then 0 else 2 * ValueOf(bits[..|bits| - 1]) + (if bits[|bits| - 1] then 1 else 0)
  }

  lemma {:induction false} ValueOfBits(x: nat, w: nat)
    requires x < Pow2(w)
    ensures ValueOf(BitsOf(x, w)) == x
    decreases w
  {
    if w > 0 {
      ValueOfBits(x / 2, w - 1);
      assert BitsOf(x, w)[..w - 1] == BitsOf(x / 2, w - 1);
    }
  }

  lemma {:induction false} BitsOfValue(bits: seq<bool>)
    ensures BitsOf(ValueOf(bits), |bits|) == bits
    decreases |bits|
  {
    if bits != [] { BitsOfValue(bits[..|bits| - 1]); }
  }

  /** Shifts, on numbers wide enough to lose nothing at the top. */
  function Shr(x: nat, n: nat): nat { if n == 0 then x else Shr(x / 2, n - 1) }
  function Shl(x: nat, n: nat): nat { if n == 0 then x else 2 * Shl(x, n - 1) }

  /** A word of `a + b` bits is its upper `a` bits followed by its lower `b`. */
  lemma {:induction false} BitsSplit(x: nat, a: nat, b: nat)
    ensures BitsOf(x, a + b) == BitsOf(Shr(x, b), a) + BitsOf(x, b)
    decreases b
  {
    if b > 0 { BitsSplit(x / 2, a, b - 1); }
  }

  lemma {:induction false} BitsIgnoreHigh(x: nat, high: nat, w: nat)
    ensures BitsOf(x + Shl(high, w), w) == BitsOf(x, w)
    decreases w
  {
    if w > 0 {
      assert (x + Shl(high, w)) / 2 == x / 2 + Shl(high, w - 1);
      BitsIgnoreHigh(x / 2, high, w - 1);
    }
  }

  lemma {:induction false} BitsOfShl(x: nat, n: nat, w: nat)
    ensures BitsOf(Shl(x, n), w + n) == BitsOf(x, w) + Zeros(n)
    decreases n
  {
    if n > 0 { BitsOfShl(x, n - 1, w); }
  }

  lemma {:induction false} ShrBound(x: nat, n: nat, w: nat)
    requires x < Pow2(w + n)
    ensures Shr(x, n) < Pow2(w)
    decreases n
  {
    if n > 0 { ShrBound(x / 2, n - 1, w); }
  }

  lemma {:induction false} ZeroBits(n: nat)
    ensures BitsOf(0, n) == Zeros(n)
  {
    if n > 0 { ZeroBits(n - 1); }
  }

  function Zeros(n: nat): (z: seq<bool>)
    ensures |z| == n
  {
    seq(n, i => false)
  }

  // ---------- Words of a fixed width ----------

  ghost predicate Words(xs: seq<nat>, w: nat) { forall i :: 0 <= i < |xs| ==> xs[i] < Pow2(w) }

  function Bits(xs: seq<nat>, w: nat): (bits: seq<bool>)
    ensures |bits| == w * |xs|
  {
    if xs == [] then [] else BitsOf(xs[0], w) + Bits(xs[1..], w)
  }

  function Group(bits: seq<bool>, w: nat): (xs: seq<nat>)
    requires w > 0 && |bits| % w == 0
    ensures |xs| == |bits| / w && Words(xs, w)
    decreases |bits|
  {
    if bits == [] then []
    else
      GroupStep(|bits|, w);
      [ValueOf(bits[..w])] + Group(bits[w..], w)
  }

  lemma GroupStep(n: nat, w: nat)
    requires w > 0 && n > 0 && n % w == 0
    ensures n >= w && (n - w) % w == 0 && (n - w) / w == n / w - 1
  {
    var q := n / w;
    assert n == w * q;
    assert q != 0;
    Grows(w, q);
    assert n - w == w * (q - 1);
    DivUnique(n - w, w, q - 1, 0);
  }

  lemma MultipleOf(w: nat, n: nat)
    requires w > 0
    ensures w * n % w == 0 && w * n / w == n
  {
    DivUnique(w * n, w, n, 0);
  }

  lemma {:induction false} GroupOfBits(xs: seq<nat>, w: nat)
    requires w > 0 && Words(xs, w)
    ensures |Bits(xs, w)| % w == 0 && Group(Bits(xs, w), w) == xs
    decreases |xs|
  {
    MultipleOf(w, |xs|);
    if xs != [] {
      var bits := Bits(xs, w);
      GroupStep(|bits|, w);
      assert bits[..w] == BitsOf(xs[0], w) && bits[w..] == Bits(xs[1..], w);
      ValueOfBits(xs[0], w);
      GroupOfBits(xs[1..], w);
    }
  }

  lemma {:induction false} BitsOfGroup(bits: seq<bool>, w: nat)
    requires w > 0 && |bits| % w == 0
    ensures Bits(Group(bits, w), w) == bits
    decreases |bits|
  {
    if bits != [] {
      GroupStep(|bits|, w);
      var rest := Group(bits[w..], w);
      BitsOfValue(bits[..w]);
      BitsOfGroup(bits[w..], w);
      assert Group(bits, w) == [ValueOf(bits[..w])] + rest;
      assert Group(bits, w)[1..] == rest;
      assert bits == bits[..w] + bits[w..];
    }
  }

  lemma {:induction false} BitsConcat(a: seq<nat>, b: seq<nat>, w: nat)
    ensures Bits(a + b, w) == Bits(a, w) + Bits(b, w)
    decreases |a|
  {
    if a == [] {
      assert a + b == b;
    } else {
      BitsConcat(a[1..], b, w);
      assert (a + b)[1..] == a[1..] + b;
    }
  }

  lemma BitsInjective(a: seq<nat>, b: seq<nat>, w: nat)
    requires w > 0 && Words(a, w) && Words(b, w) && Bits(a, w) == Bits(b, w)
    ensures a == b
  {
    GroupOfBits(a, w);
    GroupOfBits(b, w);
  }

  // ---------- The two directions ----------

  /** `bytes_size_to_base32_size`. */
  function Base32Size(n: nat): nat { if n * 8 % 5 == 0 then n * 8 / 5 else n * 8 / 5 + 1 }

  /** Zero bits that complete the last symbol. */
  function Padding(n: nat): (p: nat)
    ensures p < 5 && n * 8 + p == 5 * Base32Size(n)
  {
    5 * Base32Size(n) - n * 8
  }

  lemma PowersOfTwo()
    ensures Pow2(0) == 1 && Pow2(1) == 2 && Pow2(2) == 4 && Pow2(3) == 8 && Pow2(4) == 16
    ensures Pow2(5) == 32 && Pow2(6) == 64 && Pow2(7) == 128 && Pow2(8) == 256
  {
  }

  /** The bytes' bits, padded with zeros to whole symbols. */
  function PaddedBits(bytes: seq<u8>): (bits: seq<bool>)
    ensures |bits| == 5 * Base32Size(|bytes|) && |bits| % 5 == 0
  {
    Bits(bytes, 8) + Zeros(Padding(|bytes|))
  }

  function ToBase32(bytes: seq<u8>): (syms: seq<u5>)
    ensures |syms| == Base32Size(|bytes|)
  {
    PowersOfTwo();
    Group(PaddedBits(bytes), 5)
  }

  lemma EncodingBits(bytes: seq<u8>)
    ensures Bits(ToBase32(bytes), 5) == PaddedBits(bytes)
  {
    BitsOfGroup(PaddedBits(bytes), 5);
  }

  /** Strict decoding: at most four left-over bits, all of them zero. */
  function FromBase32(syms: seq<u5>): (r: Option<seq<u8>>)
    ensures r.Some? ==> |r.value| == |syms| * 5 / 8
  {
    var bits := Bits(syms, 5);
    var n := |bits| / 8;
    var rest := bits[8 * n..];
    if |rest| >= 5 || true in rest then None
    else
      MultipleOf(8, n);
      PowersOfTwo();
      Some(Group(bits[..8 * n], 8))
  }

  lemma SymbolsAreWords(syms: seq<u5>)
    ensures Words(syms, 5)
  {
    PowersOfTwo();
  }

  lemma BytesAreWords(bytes: seq<u8>)
    ensures Words(bytes, 8)
  {
    PowersOfTwo();
  }

  /** Symbols are determined by their bits: any symbols that spell the bytes and zero padding are the encoding. */
  lemma Base32Unique(bytes: seq<u8>, syms: seq<u5>, pad: nat)
    requires pad < 5 && Bits(syms, 5) == Bits(bytes, 8) + Zeros(pad)
    ensures syms == ToBase32(bytes)
  {
    assert pad == Padding(|bytes|) by { assert |Bits(syms, 5)| == |Bits(bytes, 8) + Zeros(pad)|; }
    SymbolsAreWords(syms);
    GroupOfBits(syms, 5);
  }

  lemma DecodeEncoded(bytes: seq<u8>)
    ensures FromBase32(ToBase32(bytes)) == Some(bytes)
  {
    var p := Padding(|bytes|);
    var all := PaddedBits(bytes);
    EncodingBits(bytes);
    assert |all| / 8 == |bytes|;
    assert all[8 * |bytes|..] == Zeros(p) && all[..8 * |bytes|] == Bits(bytes, 8);
    BytesAreWords(bytes);
    GroupOfBits(bytes, 8);
  }

  lemma AllZero(bits: seq<bool>)
    requires true !in bits
    ensures bits == Zeros(|bits|)
  {
    forall i | 0 <= i < |bits| ensures !bits[i] { assert bits[i] in bits; }
  }

  lemma EncodeDecoded(syms: seq<u5>)
    requires FromBase32(syms).Some?
    ensures syms == ToBase32(FromBase32(syms).value)
  {
    var bits := Bits(syms, 5);
    var n := |bits| / 8;
    MultipleOf(8, n);
    BitsOfGroup(bits[..8 * n], 8);
    var rest := bits[8 * n..];
    AllZero(rest);
    assert bits == bits[..8 * n] + rest;
    Base32Unique(FromBase32(syms).value, syms, |rest|);
  }

  /** The decoder accepts exactly the encodings, and returns the bytes that were encoded. */
  lemma FromBase32Iff(syms: seq<u5>, bytes: seq<u8>)
    ensures FromBase32(syms) == Some(bytes) <==> syms == ToBase32(bytes)
  {
    DecodeEncoded(bytes);
    if FromBase32(syms).Some? { EncodeDecoded(syms); }
  }

  // ---------- The streaming converter ----------

  /** Bitwise or. */
  function BitOr(x: nat, y: nat): nat {
    if x == 0 && y == 0 then 0
    else 2 * BitOr(x / 2, y / 2) + (if x % 2 == 1 || y % 2 == 1 then 1 else 0)
  }

  function OrBits(a: seq<bool>, b: seq<bool>): seq<bool>
    requires |a| == |b|
  {
    seq(|a|, i requires 0 <= i < |a| => a[i] || b[i])
  }

  lemma {:induction false} BitOrBits(x: nat, y: nat, w: nat)
    requires x < Pow2(w) && y < Pow2(w)
    ensures BitOr(x, y) < Pow2(w)
    ensures BitsOf(BitOr(x, y), w) == OrBits(BitsOf(x, w), BitsOf(y, w))
    decreases w
  {
    if w > 0 {
      BitOrBits(x / 2, y / 2, w - 1);
      assert BitOr(x, y) / 2 == BitOr(x / 2, y / 2);
    }
  }

  /** The bits of a byte, and of a byte shifted as an eight-bit register. */
  function Byte(x: u8): seq<bool> { BitsOf(x, 8) }

  lemma ByteWidened(x: u8, k: nat)
    ensures x < Pow2(k + 8) && BitsOf(x, k + 8) == Zeros(k) + Byte(x)
  {
    PowersOfTwo();
    Pow2Grows(8, k + 8);
    BitsSplit(x, k, 8);
    ByteIsEightBits(x);
    ZeroBits(k);
  }

  lemma ByteShr(x: u8, n: nat, k: nat, w: nat)
    requires n <= 8 && w == k + 8 - n
    ensures Shr(x, n) < Pow2(w) && BitsOf(Shr(x, n), w) == Zeros(k) + Byte(x)[..8 - n]
  {
    ByteWidened(x, k);
    ShrBound(x, n, w);
    BitsSplit(x, w, n);
    var bits := BitsOf(x, k + 8);
    assert w + n == k + 8;
    assert BitsOf(Shr(x, n), w) == bits[..w];
    assert bits[..w] == Zeros(k) + Byte(x)[..8 - n];
  }

  lemma ByteIsEightBits(x: u8)
    ensures Shr(x, 8) == 0
  {
    PowersOfTwo();
    ShrBound(x, 8, 0);
  }

  lemma {:induction false} Pow2Grows(a: nat, b: nat)
    requires a <= b
    ensures Pow2(a) <= Pow2(b)
    decreases b
  {
    if a < b { Pow2Grows(a, b - 1); }
  }

  lemma ShlDropsTop(x: nat, n: nat, a: nat)
    ensures BitsOf(Shl(x, n), a + n) == BitsOf(x, n + a)[n..] + Zeros(n)
  {
    BitsOfShl(x, n, a);
    BitsSplit(x, n, a);
  }

  lemma LowByte(y: nat)
    ensures BitsOf(y % 256, 8) == BitsOf(y, 8)
  {
    ShlByEight(y / 256);
    BitsIgnoreHigh(y % 256, y / 256, 8);
  }

  lemma ByteShl(x: u8, n: nat)
    requires n <= 8
    ensures Byte(Shl(x, n) % 256) == Byte(x)[n..] + Zeros(n)
  {
    LowByte(Shl(x, n));
    ShlDropsTop(x, n, 8 - n);
  }

  lemma ShlByEight(x: nat)
    ensures Shl(x, 8) == x * 256
  {
    assert Shl(x, 1) == 2 * x;
    assert Shl(x, 3) == 4 * Shl(x, 1);
    assert Shl(x, 5) == 4 * Shl(x, 3);
    assert Shl(x, 7) == 4 * Shl(x, 5);
  }

  /** `n` bits are buffered at the top of the register; the others are zero. */
  ghost predicate Buffered(buffer: u8, n: nat) { n <= 8 && Byte(buffer)[n..] == Zeros(8 - n) }

  /** One symbol is complete in the buffer: it and the rest of the buffer are the buffered bits. */
  lemma FlushSymbol(buffer: u8, n: nat)
    requires 5 <= n <= 7 && Buffered(buffer, n)
    ensures Shr(buffer, 3) < 32 && Buffered(Shl(buffer, 5) % 256, n - 5)
    ensures BitsOf(Shr(buffer, 3), 5) + Byte(Shl(buffer, 5) % 256)[..n - 5] == Byte(buffer)[..n]
  {
    PowersOfTwo();
    ByteShr(buffer, 3, 0, 5);
    ByteShl(buffer, 5);
    var b := Byte(buffer);
    assert Zeros(0) + b[..5] == b[..5];
    assert (b[5..] + Zeros(5))[n - 5..] == b[n..] + Zeros(5) == Zeros(13 - n);
    assert (b[5..] + Zeros(5))[..n - 5] == b[5..n];
  }

  /** One symbol is made of the buffered bits and the first bits of a new byte; the others are buffered. */
  lemma CombineSymbol(buffer: u8, n: nat, byte: u8)
    requires n <= 4 && Buffered(buffer, n)
    ensures BitOr(Shr(buffer, 3), Shr(byte, 3 + n)) < 32 && Buffered(Shl(byte, 5 - n) % 256, 3 + n)
    ensures BitsOf(BitOr(Shr(buffer, 3), Shr(byte, 3 + n)), 5) + Byte(Shl(byte, 5 - n) % 256)[..3 + n] ==
      Byte(buffer)[..n] + Byte(byte)
  {
    PowersOfTwo();
    ByteShr(buffer, 3, 0, 5);
    ByteShr(byte, 3 + n, n, 5);
    ByteShl(byte, 5 - n);
    BitOrBits(Shr(buffer, 3), Shr(byte, 3 + n), 5);
    CombineBits(Byte(buffer), Byte(byte), n);
  }

  lemma CombineBits(b: seq<bool>, c: seq<bool>, n: nat)
    requires |b| == |c| == 8 && n <= 4 && b[n..] == Zeros(8 - n)
    ensures OrBits(Zeros(0) + b[..5], Zeros(n) + c[..5 - n]) + (c[5 - n..] + Zeros(5 - n))[..3 + n] == b[..n] + c
    ensures (c[5 - n..] + Zeros(5 - n))[3 + n..] == Zeros(5 - n)
  {
    forall i | n <= i < 5 ensures !b[i] { assert b[i] == b[n..][i - n]; }
    assert OrBits(Zeros(0) + b[..5], Zeros(n) + c[..5 - n]) == b[..n] + c[..5 - n];
    assert (c[5 - n..] + Zeros(5 - n))[..3 + n] == c[5 - n..];
    Assoc(b[..n], c[..5 - n], c[5 - n..]);
    assert c[..5 - n] + c[5 - n..] == c;
  }

  lemma LastSymbol(buffer: u8, n: nat)
    requires 1 <= n <= 4 && Buffered(buffer, n)
    ensures Shr(buffer, 3) < 32 && BitsOf(Shr(buffer, 3), 5) == Byte(buffer)[..n] + Zeros(5 - n)
  {
    PowersOfTwo();
    ByteShr(buffer, 3, 0, 5);
    var b := Byte(buffer);
    forall i | n <= i < 5 ensures !b[i] { assert b[i] == b[n..][i - n]; }
  }

  lemma WriteSymbol(writer: seq<u5>, sym: u5)
    ensures Bits(writer + [sym], 5) == Bits(writer, 5) + BitsOf(sym, 5)
  {
    BitsConcat(writer, [sym], 5);
  }

  lemma ReadByte(input: seq<u8>, byte: u8)
    ensures Bits(input + [byte], 8) == Bits(input, 8) + Byte(byte)
  {
    BitsConcat(input, [byte], 8);
  }

  /**
   What was written since `before`, followed by the `n` buffered bits, is `input` bit for bit;
   unused buffer bits are zero.
   */
  ghost predicate Spells(writer: seq<u5>, buffer: u8, n: nat, before: seq<u5>, input: seq<u8>) {
    && n <= 7
    && Buffered(buffer, n)
    && Bits(writer, 5) + Byte(buffer)[..n] == Bits(before, 5) + Bits(input, 8)
  }

  lemma FlushStep(writer: seq<u5>, buffer: u8, n: nat, before: seq<u5>, input: seq<u8>)
    requires Spells(writer, buffer, n, before, input) && n >= 5
    ensures Shr(buffer, 3) < 32 && Shr(buffer - buffer % 8, 3) == Shr(buffer, 3)
    ensures Spells(writer + [Shr(buffer, 3)], Shl(buffer, 5) % 256, n - 5, before, input)
  {
    FlushSymbol(buffer, n);
    MaskThenShift(buffer);
    WriteSymbol(writer, Shr(buffer, 3));
    Assoc(Bits(writer, 5), BitsOf(Shr(buffer, 3), 5), Byte(Shl(buffer, 5) % 256)[..n - 5]);
  }

  lemma CombineStep(writer: seq<u5>, buffer: u8, n: nat, byte: u8, before: seq<u5>, input: seq<u8>)
    requires Spells(writer, buffer, n, before, input) && n <= 4
    ensures BitOr(Shr(buffer, 3), Shr(byte, 3 + n)) < 32
    ensures Spells(writer + [BitOr(Shr(buffer, 3), Shr(byte, 3 + n))], Shl(byte, 5 - n) % 256, 3 + n,
                   before, input + [byte])
  {
    CombineSymbol(buffer, n, byte);
    var sym := BitOr(Shr(buffer, 3), Shr(byte, 3 + n));
    ReadByte(input, byte);
    WriteSymbol(writer, sym);
    Regroup(Bits(writer, 5), Byte(buffer)[..n], BitsOf(sym, 5), Byte(Shl(byte, 5 - n) % 256)[..3 + n], Byte(byte),
      Bits(before, 5), Bits(input, 8));
  }

  lemma FinalStep(writer: seq<u5>, buffer: u8, n: nat, before: seq<u5>, input: seq<u8>)
    requires Spells(writer, buffer, n, before, input) && n <= 4
    ensures n == 0 ==> writer == before + ToBase32(input)
    ensures n != 0 ==> Shr(buffer, 3) < 32 && writer + [Shr(buffer, 3)] == before + ToBase32(input)
  {
    if n == 0 {
      assert Bits(input, 8) + Zeros(0) == Bits(input, 8) && Bits(writer, 5) + Byte(buffer)[..0] == Bits(writer, 5);
      PrefixThenEncoding(writer, before, input, 0);
    } else {
      LastSymbol(buffer, n);
      WriteSymbol(writer, Shr(buffer, 3));
      Assoc(Bits(writer, 5), Byte(buffer)[..n], Zeros(5 - n));
      Assoc(Bits(before, 5), Bits(input, 8), Zeros(5 - n));
      PrefixThenEncoding(writer + [Shr(buffer, 3)], before, input, 5 - n);
    }
  }

  lemma PrefixGrows(input: seq<u8>, bytes: seq<u8>, i: nat)
    requires i < |bytes|
    ensures input + bytes[..i] + [bytes[i]] == input + bytes[..i + 1]
  {
    assert bytes[..i] + [bytes[i]] == bytes[..i + 1];
  }

  class BytesToBase32 {
    var writer: seq<u5>
    var buffer: u8
    var bufferBits: nat

    ghost predicate Holds(before: seq<u5>, input: seq<u8>)
      reads this
    {
      Spells(writer, buffer, bufferBits, before, input)
    }

    constructor (writer: seq<u5>)
      ensures this.writer == writer && Holds(writer, [])
    {
      this.writer, buffer, bufferBits := writer, 0, 0;
      new;
      ZeroBits(8);
    }

    method Flush(ghost before: seq<u5>, ghost input: seq<u8>)
      requires Holds(before, input)
      modifies this
      ensures Holds(before, input) && bufferBits < 5
    {
      if bufferBits >= 5 {
        FlushStep(writer, buffer, bufferBits, before, input);
        writer := writer + [Shr(buffer - buffer % 8, 3)];
        buffer, bufferBits := Shl(buffer, 5) % 256, bufferBits - 5;
      }
    }

    method AppendU8(byte: u8, ghost before: seq<u5>, ghost input: seq<u8>)
      requires Holds(before, input)
      modifies this
      ensures Holds(before, input + [byte])
    {
      Flush(before, input);
      CombineStep(writer, buffer, bufferBits, byte, before, input);
      writer := writer + [BitOr(Shr(buffer, 3), Shr(byte, 3 + bufferBits))];
      buffer, bufferBits := Shl(byte, 5 - bufferBits) % 256, 3 + bufferBits;
    }

    method Append(bytes: seq<u8>, ghost before: seq<u5>, ghost input: seq<u8>)
      requires Holds(before, input)
      modifies this
      ensures Holds(before, input + bytes)
    {
      assert input + bytes[..0] == input;
      for i := 0 to |bytes|
        invariant Holds(before, input + bytes[..i])
      {
        AppendU8(bytes[i], before, input + bytes[..i]);
        PrefixGrows(input, bytes, i);
      }
      assert bytes[..|bytes|] == bytes;
    }

    method Finalize(ghost before: seq<u5>, ghost input: seq<u8>)
      requires Holds(before, input)
      modifies this
      ensures writer == before + ToBase32(input)
    {
      Flush(before, input);
      FinalStep(writer, buffer, bufferBits, before, input);
      if bufferBits != 0 {
        writer := writer + [Shr(buffer, 3)];
      }
    }
  }

  lemma Regroup<T>(w: seq<T>, top: seq<T>, sym: seq<T>, rest: seq<T>, byte: seq<T>, before: seq<T>, input: seq<T>)
    requires w + top == before + input && sym + rest == top + byte
    ensures w + sym + rest == before + (input + byte)
  {
    Assoc(w, sym, rest);
    Assoc(w, top, byte);
    Assoc(before, input, byte);
  }

  lemma MaskThenShift(x: u8)
    ensures Shr(x - x % 8, 3) == Shr(x, 3)
  {
    ShrByThree(x);
    ShrByThree(x - x % 8);
  }

  lemma ShrByThree(x: nat)
    ensures Shr(x, 3) == x / 8
  {
    assert Shr(x, 3) == Shr(x / 2 / 2, 1) == Shr(x / 2 / 2 / 2, 0);
  }

  lemma PaddingUnique(symbols: nat, n: nat, pad: nat)
    requires pad < 5 && 5 * symbols == 8 * n + pad
    ensures pad == Padding(n)
  {
  }

  lemma PrefixThenEncoding(out: seq<u5>, before: seq<u5>, input: seq<u8>, pad: nat)
    requires pad < 5 && Bits(out, 5) == Bits(before, 5) + (Bits(input, 8) + Zeros(pad))
    ensures out == before + ToBase32(input)
  {
    var enc := ToBase32(input);
    assert |Bits(out, 5)| == |Bits(before, 5)| + |Bits(input, 8)| + pad;
    PaddingUnique(|out| - |before|, |input|, pad);
    assert Bits(out, 5) == Bits(before + enc, 5) by {
      EncodingBits(input);
      BitsConcat(before, enc, 5);
    }
    SymbolsAreWords(out);
    SymbolsAreWords(before + enc);
    BitsInjective(out, before + enc, 5);
  }
}
