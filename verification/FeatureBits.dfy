/**
 The shifting loops that write a feature vector as 5-bit symbols and read it back. Flags are bytes
 with the lowest bits first; symbols have the highest first. Both loops only ever or bits into
 positions that are still zero, so that what they build is one and the same number.
 */
module FeatureBits {
  import opened Prelude
  import opened Base32
  import opened Integers
  import opened DataPart

  // ---------- Or is addition where the bits are disjoint ----------

  lemma {:induction false} OrZero(y: nat)
    ensures BitOr(0, y) == y && BitOr(y, 0) == y
    decreases y
  {
    if y > 0 { OrZero(y / 2); }
  }

  lemma {:induction false} OrAdds(low: nat, high: nat, p: nat)
    requires low < Pow2(p) && high % Pow2(p) == 0
    ensures BitOr(low, high) == low + high == BitOr(high, low)
    decreases p
  {
    if p == 0 {
      OrZero(high);
    } else if low > 0 || high > 0 {
      HalfMultiple(high, Pow2(p - 1));
      OrAdds(low / 2, high / 2, p - 1);
    }
  }

  lemma HalfMultiple(x: nat, m: nat)
    requires m > 0 && x % (2 * m) == 0
    ensures x % 2 == 0 && x / 2 % m == 0
  {
    var q := x / (2 * m);
    assert x == 2 * m * q == 2 * (m * q);
    DivUnique(m * q, m, q, 0);
  }

  // ---------- Changing one digit ----------

  lemma {:induction false} ValueUpdate(ds: seq<nat>, base: nat, i: nat, y: nat)
    requires i < |ds| && y >= ds[i]
    ensures Value(ds[i := y], base) == Value(ds, base) + (y - ds[i]) * Power(base, |ds| - 1 - i)
    decreases |ds|
  {
    var k := |ds| - 1;
    if i == k {
      assert ds[i := y][..k] == ds[..k];
    } else {
      ValueUpdate(ds[..k], base, i, y);
      assert ds[i := y][..k] == ds[..k][i := y];
      Distribute(Value(ds[..k], base), y - ds[i], Power(base, k - 1 - i), base);
    }
  }

  lemma Distribute(v: nat, x: nat, p: nat, base: nat)
    ensures (v + x * p) * base == v * base + x * (base * p)
  {
    assert (v + x * p) * base == v * base + x * p * base;
    assert x * p * base == x * (p * base);
  }

  lemma {:induction false} ValueLead(d: nat, ds: seq<nat>, base: nat)
    ensures Value([d] + ds, base) == d * Power(base, |ds|) + Value(ds, base)
    decreases |ds|
  {
    if ds == [] {
      assert [d][..0] == [] && [d] + ds == [d];
    } else {
      var k := |ds| - 1;
      ValueLead(d, ds[..k], base);
      assert ([d] + ds)[..|ds|] == [d] + ds[..k];
      Distribute(Value(ds[..k], base), d, Power(base, k), base);
    }
  }

  // ---------- Powers of two, in fives and eights ----------

  lemma {:induction false} Pow2Adds(a: nat, b: nat)
    ensures Pow2(a + b) == Pow2(a) * Pow2(b)
    decreases a
  {
    if a > 0 {
      Pow2Adds(a - 1, b);
      assert 2 * (Pow2(a - 1) * Pow2(b)) == 2 * Pow2(a - 1) * Pow2(b);
    }
  }

  lemma {:induction false} PowerIsPow2(width: nat, k: nat)
    ensures Power(Pow2(width), k) == Pow2(width * k)
    decreases k
  {
    if k > 0 {
      PowerIsPow2(width, k - 1);
      assert width * k == width + width * (k - 1);
      Pow2Adds(width, width * (k - 1));
    }
  }

  lemma SmallPowers()
    ensures Pow2(0) == 1 && Pow2(1) == 2 && Pow2(2) == 4 && Pow2(3) == 8 && Pow2(4) == 16
    ensures Pow2(5) == 32 && Pow2(6) == 64 && Pow2(7) == 128 && Pow2(8) == 256
  {
    assert Pow2(1) == 2 * Pow2(0);
    assert Pow2(2) == 2 * Pow2(1);
    assert Pow2(3) == 2 * Pow2(2);
    assert Pow2(4) == 2 * Pow2(3);
    assert Pow2(5) == 2 * Pow2(4);
    assert Pow2(6) == 2 * Pow2(5);
    assert Pow2(7) == 2 * Pow2(6);
    assert Pow2(8) == 2 * Pow2(7);
  }

  // ---------- Writing ----------

  lemma ScaledSum(k: nat, q: nat, r: nat, m: nat)
    ensures (k * q + r) * m == m * k * q + r * m
  {
    assert (k * q + r) * m == k * q * m + r * m;
    assert k * q * m == m * k * q;
  }

  lemma ScaledBelow(r: nat, k: nat, m: nat)
    requires r < k
    ensures r * m + m <= m * k
  {
    assert m * k - (r * m + m) == m * (k - r - 1);
    assert m * (k - r - 1) >= 0;
  }

  /** A shifted number cut at a bit above the shift. */
  lemma CutShifted(x: nat, m: nat, k: nat, cut: nat)
    requires m > 0 && k > 0 && m * k == cut > 0
    ensures x * m / cut == x / k && x * m % cut % m == 0 && x * m % cut + m <= cut
  {
    var q, r := x / k, x % k;
    ScaledSum(k, q, r, m);
    ScaledBelow(r, k, m);
    DivUnique(x * m, cut, q, r * m);
    DivUnique(r * m, m, r, 0);
  }

  lemma ThreePieces(chunk: nat)
    requires chunk < 32768
    ensures chunk == chunk % 32 + 32 * (chunk / 32 % 32) + 1024 * (chunk / 1024 % 32)
    ensures chunk / 1024 == chunk / 32 / 32
  {
  }

  /** The shifted byte in pieces of five bits: what it adds, and how far up it reaches. */
  ghost predicate Pieces(chunk: nat, p: nat)
    requires p < 5
  {
    var c0, c1, c2 := chunk % 32, chunk / 32 % 32, chunk / 1024 % 32;
    && c0 % Pow2(p) == 0 && c0 + Pow2(p) <= 32 && chunk == c0 + 32 * c1 + 1024 * c2
    && (p < 2 ==> c1 < Pow2(p + 3)) && (p <= 2 ==> c2 == 0) && (p >= 2 ==> c2 < Pow2(p - 2))
  }

  lemma PiecesWhen(chunk: nat, p: nat, top: nat)
    requires p < 5 && top == chunk / 32 && chunk % 32 % Pow2(p) == 0 && chunk % 32 + Pow2(p) <= 32
    requires if p == 0 then top < 8 else if p == 1 then top < 16 else if p == 2 then top < 32
             else if p == 3 then top < 64 else top < 128
    ensures Pieces(chunk, p)
  {
    SmallPowers();
    ThreePieces(chunk);
  }

  lemma BytePieces(byte: u8, p: nat)
    requires p < 5
    ensures Pieces(byte * Pow2(p), p)
  {
    SmallPowers();
    var k := if p == 0 then 32 else if p == 1 then 16 else if p == 2 then 8 else if p == 3 then 4 else 2;
    CutShifted(byte, Pow2(p), k, 32);
    PiecesWhen(byte * Pow2(p), p, byte * Pow2(p) / 32);
  }

  /** The symbols hold nothing at or above bit `p` of the symbol `q` places from the end. */
  ghost predicate FilledTo(res: seq<nat>, q: nat, p: nat) {
    && Below(res, 32)
    && (forall j :: 0 <= j < |res| - 1 - q ==> res[j] == 0)
    && (q < |res| ==> res[|res| - 1 - q] < Pow2(p))
  }

  /** One round of the writing loop, for a byte already shifted. */
  function OrChunk(res: seq<nat>, q: nat, chunk: nat): (r: seq<nat>)
    requires q < |res|
    ensures |r| == |res|
  {
    var at := |res| - q - 1;
    var r0 := res[at := BitOr(res[at], chunk % 32)];
    var r1 := if at > 0 then r0[at - 1 := BitOr(r0[at - 1], chunk / 32 % 32)] else r0;
    if at > 1 then r1[at - 2 := BitOr(r1[at - 2], chunk / 1024 % 32)] else r1
  }

  /** There is room for eight more bits. */
  predicate Room(res: seq<nat>, q: nat, p: nat) { p < 5 && 5 * q + p + 8 <= 5 * |res| }

  /** What it comes to when the bits are still free. */
  lemma OrChunkSets(res: seq<nat>, q: nat, p: nat, chunk: nat)
    requires Room(res, q, p) && FilledTo(res, q, p) && Pieces(chunk, p)
    ensures var at := |res| - q - 1;
      && at >= 1 && (at == 1 ==> chunk / 1024 % 32 == 0)
      && OrChunk(res, q, chunk) ==
         (if at > 1
          then res[at := res[at] + chunk % 32][at - 1 := chunk / 32 % 32][at - 2 := chunk / 1024 % 32]
          else res[at := res[at] + chunk % 32][at - 1 := chunk / 32 % 32])
  {
    OrAdds(res[|res| - q - 1], chunk % 32, p);
    OrZero(chunk / 32 % 32);
    OrZero(chunk / 1024 % 32);
  }

  lemma OrChunkFills(res: seq<nat>, q: nat, p: nat, chunk: nat)
    requires Room(res, q, p) && FilledTo(res, q, p) && Pieces(chunk, p)
    ensures FilledTo(OrChunk(res, q, chunk), (5 * q + p + 8) / 5, (5 * q + p + 8) % 5)
  {
    OrChunkSets(res, q, p, chunk);
    SmallPowers();
    if p < 2 {
      assert (5 * q + p + 8) / 5 == q + 1 && (5 * q + p + 8) % 5 == p + 3;
    } else {
      assert (5 * q + p + 8) / 5 == q + 2 && (5 * q + p + 8) % 5 == p - 2;
    }
  }

  /** Three neighbouring digits, by their place. */
  ghost function Weigh(c0: nat, c1: nat, c2: nat, q: nat): nat {
    c0 * Power(32, q) + c1 * Power(32, q + 1) + c2 * Power(32, q + 2)
  }

  lemma ThreeUpdates(res: seq<nat>, q: nat, c0: nat, c1: nat, c2: nat)
    requires q + 2 <= |res| && res[|res| - q - 2] == 0
    requires q + 3 <= |res| ==> res[|res| - q - 3] == 0
    requires q + 2 == |res| ==> c2 == 0
    ensures var at := |res| - q - 1; var r1 := res[at := res[at] + c0][at - 1 := c1];
      Value(if at > 1 then r1[at - 2 := c2] else r1, 32) == Value(res, 32) + Weigh(c0, c1, c2, q)
  {
    var at := |res| - q - 1;
    var r0 := res[at := res[at] + c0];
    var r1 := r0[at - 1 := c1];
    ValueUpdate(res, 32, at, res[at] + c0);
    ValueUpdate(r0, 32, at - 1, c1);
    if at > 1 { ValueUpdate(r1, 32, at - 2, c2); }
  }

  lemma PiecesWeigh(chunk: nat, c0: nat, c1: nat, c2: nat, q: nat)
    requires chunk == c0 + 32 * c1 + 1024 * c2
    ensures Weigh(c0, c1, c2, q) == chunk * Power(32, q)
  {
    var w := Power(32, q);
    assert Power(32, q + 1) == 32 * w && Power(32, q + 2) == 32 * Power(32, q + 1);
    assert (c0 + 32 * c1 + 1024 * c2) * w == c0 * w + c1 * (32 * w) + c2 * (1024 * w);
  }

  lemma OrChunkAdds(res: seq<nat>, q: nat, p: nat, chunk: nat)
    requires Room(res, q, p) && FilledTo(res, q, p) && Pieces(chunk, p)
    ensures Value(OrChunk(res, q, chunk), 32) == Value(res, 32) + chunk * Power(32, q)
  {
    var c0, c1, c2 := chunk % 32, chunk / 32 % 32, chunk / 1024 % 32;
    OrChunkSets(res, q, p, chunk);
    ThreeUpdates(res, q, c0, c1, c2);
    PiecesWeigh(chunk, c0, c1, c2, q);
  }

  /** One round of the writing loop. */
  function OrByte(res: seq<nat>, i: nat, byte: u8): (r: seq<nat>)
    requires 8 * i + 8 <= 5 * |res|
    ensures |r| == |res|
  {
    OrChunk(res, 8 * i / 5, byte * Pow2(8 * i % 5))
  }

  lemma ByteWeight(byte: nat, i: nat)
    ensures byte * Pow2(8 * i % 5) * Power(32, 8 * i / 5) == byte * Power(256, i)
  {
    var q, p := 8 * i / 5, 8 * i % 5;
    assert Power(32, q) == Pow2(5 * q) && Power(256, i) == Pow2(8 * i) by {
      SmallPowers();
      PowerIsPow2(5, q);
      PowerIsPow2(8, i);
    }
    assert p + 5 * q == 8 * i;
    Pow2Adds(p, 5 * q);
    Regrouped(byte, Pow2(p), Pow2(5 * q));
  }

  lemma Regrouped(a: nat, b: nat, c: nat)
    ensures a * b * c == a * (b * c)
  {
  }

  /** Drops the leading zeros. */
  function Trimmed(ds: seq<nat>): seq<nat> { if ds != [] && ds[0] == 0 then Trimmed(ds[1..]) else ds }

  lemma {:induction false} TrimmedIsDigits(ds: seq<nat>, base: nat)
    requires base >= 2 && Below(ds, base)
    ensures Trimmed(ds) == Digits(Value(ds, base), base)
    decreases |ds|
  {
    if ds != [] && ds[0] == 0 {
      ValueLead(0, ds[1..], base);
      assert ds == [0] + ds[1..];
      TrimmedIsDigits(ds[1..], base);
    } else {
      DigitsOfValue(ds, base);
    }
  }

  lemma ReverseNext(flags: seq<u8>, i: nat)
    requires i < |flags|
    ensures Value(Reverse(flags[..i + 1]), 256) == flags[i] * Power(256, i) + Value(Reverse(flags[..i]), 256)
  {
    assert flags[..i + 1] == flags[..i] + [flags[i]];
    ReverseSnoc(flags[..i], flags[i]);
    ValueLead(flags[i], Reverse(flags[..i]), 256);
  }

  /** What the writing loop has built after `i` bytes. */
  ghost predicate Holds(res: seq<nat>, flags: seq<u8>, i: nat)
    requires i <= |flags|
  {
    FilledTo(res, 8 * i / 5, 8 * i % 5) && Value(res, 32) == Value(Reverse(flags[..i]), 256)
  }

  lemma HoldsNext(res: seq<nat>, flags: seq<u8>, i: nat)
    requires i < |flags| && 8 * |flags| <= 5 * |res| && Holds(res, flags, i)
    ensures Holds(OrByte(res, i, flags[i]), flags, i + 1)
  {
    var q, p := 8 * i / 5, 8 * i % 5;
    assert 5 * q + p + 8 == 8 * (i + 1);
    BytePieces(flags[i], p);
    OrChunkFills(res, q, p, flags[i] * Pow2(p));
    OrChunkAdds(res, q, p, flags[i] * Pow2(p));
    ByteWeight(flags[i], i);
    ReverseNext(flags, i);
  }

  lemma HoldsNothing(n: nat, flags: seq<u8>)
    ensures Holds(ZeroDigits(n), flags, 0)
  {
    LeadingZeros(n, [], 32);
    assert ZeroDigits(n) + [] == ZeroDigits(n) && Pow2(0) == 1;
    assert Reverse(flags[..0]) == [];
  }

  /** `InvoiceFeatures::write_base32`. */
  method WriteFeatures(flags: seq<u8>) returns (symbols: seq<nat>)
    ensures symbols == FeatureSymbols(flags)
  {
    var res := ZeroDigits((|flags| * 8 + 4) / 5);
    HoldsNothing(|res|, flags);
    for i := 0 to |flags|
      invariant |res| == (|flags| * 8 + 4) / 5 && Holds(res, flags, i)
    {
      HoldsNext(res, flags, i);
      res := OrByte(res, i, flags[i]);
    }
    assert flags[..|flags|] == flags;
    TrimmedIsDigits(res, 32);
    ghost var all := res;
    while res != [] && res[0] == 0
      invariant Trimmed(res) == Trimmed(all)
    {
      res := res[1..];
    }
    symbols := res;
  }

  // ---------- Reading ----------

  /** A shifted symbol in two bytes: the low one, and how far it reaches into the next. */
  ghost predicate TwoPieces(x: nat, pos: nat)
    requires pos < 8
  {
    && x % 256 % Pow2(pos) == 0
    && (if pos <= 3 then x == x % 256 < Pow2(pos + 5) && x / 256 == 0 else x / 256 < Pow2(pos - 3))
  }

  lemma SymbolPieces(digit: u5, pos: nat)
    requires pos < 8
    ensures TwoPieces(digit * Pow2(pos), pos) && digit / Pow2(8 - pos) == digit * Pow2(pos) / 256
  {
    SmallPowers();
    Pow2Adds(pos, 8 - pos);
    CutShifted(digit, Pow2(pos), Pow2(8 - pos), 256);
    if pos <= 3 { SymbolIsLow(digit, pos); } else { SymbolTop(digit, pos); }
  }

  lemma SymbolIsLow(digit: u5, pos: nat)
    requires pos <= 3
    ensures digit * Pow2(pos) < Pow2(pos + 5) <= 256
  {
    SmallPowers();
  }

  lemma SymbolTop(digit: u5, pos: nat)
    requires 4 <= pos < 8
    ensures digit / Pow2(8 - pos) < Pow2(pos - 3)
  {
    SmallPowers();
  }

  /** The bytes, lowest first, hold nothing below bit `pos` of byte `b`. */
  ghost predicate EmptyTo(res: seq<nat>, b: nat, pos: nat) {
    && Below(res, 256)
    && (forall j :: 0 <= j < b && j < |res| ==> res[j] == 0)
    && (b < |res| ==> res[b] % Pow2(pos) == 0)
  }

  /** One round of the reading loop, for a symbol already shifted; `high` is what the source shifts down. */
  function OrPair(res: seq<nat>, b: nat, low: nat, high: nat): (r: seq<nat>)
    requires b < |res|
    ensures |r| == |res|
  {
    var r0 := res[b := BitOr(res[b], low)];
    if b != |res| - 1 then r0[b + 1 := BitOr(r0[b + 1], high)] else r0
  }

  /** The symbol lies just below what is filled already. */
  ghost predicate Below5(res: seq<nat>, b: nat, pos: nat) {
    pos < 8 && 8 * b + pos + 5 <= 8 * |res| && EmptyTo(res, (8 * b + pos + 5) / 8, (8 * b + pos + 5) % 8)
  }

  /** Where the filled part starts. */
  lemma Above5(res: seq<nat>, b: nat, pos: nat)
    requires Below5(res, b, pos)
    ensures b < |res|
    ensures pos <= 3 ==> res[b] % Pow2(pos + 5) == 0
    ensures pos > 3 ==> res[b] == 0 && b + 1 < |res| && res[b + 1] % Pow2(pos - 3) == 0
  {
    if pos <= 2 {
      assert (8 * b + pos + 5) / 8 == b && (8 * b + pos + 5) % 8 == pos + 5;
    } else {
      assert (8 * b + pos + 5) / 8 == b + 1 && (8 * b + pos + 5) % 8 == pos - 3;
      SmallPowers();
    }
  }

  lemma OrPairSets(res: seq<nat>, b: nat, pos: nat, x: nat)
    requires Below5(res, b, pos) && TwoPieces(x, pos)
    ensures b < |res| && (b == |res| - 1 ==> x / 256 == 0)
    ensures OrPair(res, b, x % 256, x / 256) ==
      if b != |res| - 1 then res[b := res[b] + x % 256][b + 1 := res[b + 1] + x / 256] else res[b := res[b] + x % 256]
  {
    Above5(res, b, pos);
    if pos <= 3 {
      OrAdds(x % 256, res[b], pos + 5);
      if b + 1 < |res| { OrZero(res[b + 1]); }
    } else {
      OrZero(x % 256);
      OrAdds(x / 256, res[b + 1], pos - 3);
    }
  }

  lemma StillBytes(r: nat, add: nat, w: nat)
    requires r < 256 && w in {2, 4, 8, 16, 32, 64, 128, 256} && r % w == 0 && add < w
    ensures r + add < 256
  {
  }

  lemma StillMultiple(r: nat, add: nat, w: nat, v: nat)
    requires v in {1, 2, 4, 8} && w == 32 * v && r % w == 0 && add % v == 0
    ensures (r + add) % v == 0
  {
  }

  lemma OrPairEmpties(res: seq<nat>, b: nat, pos: nat, x: nat)
    requires Below5(res, b, pos) && TwoPieces(x, pos)
    ensures b < |res| && EmptyTo(OrPair(res, b, x % 256, x / 256), b, pos)
  {
    SmallPowers();
    Above5(res, b, pos);
    OrPairSets(res, b, pos, x);
    if pos <= 3 {
      StillBytes(res[b], x % 256, Pow2(pos + 5));
      StillMultiple(res[b], x % 256, Pow2(pos + 5), Pow2(pos));
    } else {
      StillBytes(res[b + 1], x / 256, Pow2(pos - 3));
    }
  }

  /** The number that bytes with the lowest first stand for. */
  function ValueLow(res: seq<nat>): nat { Value(Reverse(res), 256) }

  lemma ValueLowUpdate(res: seq<nat>, b: nat, y: nat)
    requires b < |res| && y >= res[b]
    ensures ValueLow(res[b := y]) == ValueLow(res) + (y - res[b]) * Power(256, b)
  {
    assert Reverse(res[b := y]) == Reverse(res)[|res| - 1 - b := y];
    ValueUpdate(Reverse(res), 256, |res| - 1 - b, y);
  }

  lemma PairWeighs(x: nat, b: nat)
    ensures x % 256 * Power(256, b) + x / 256 * Power(256, b + 1) == x * Power(256, b)
  {
    var w, low, high := Power(256, b), x % 256, x / 256;
    assert Power(256, b + 1) == 256 * w && x == low + 256 * high;
    assert (low + 256 * high) * w == low * w + high * (256 * w);
  }

  lemma OrPairAdds(res: seq<nat>, b: nat, pos: nat, x: nat)
    requires Below5(res, b, pos) && TwoPieces(x, pos)
    ensures b < |res| && ValueLow(OrPair(res, b, x % 256, x / 256)) == ValueLow(res) + x * Power(256, b)
  {
    OrPairSets(res, b, pos, x);
    var r0 := res[b := res[b] + x % 256];
    ValueLowUpdate(res, b, res[b] + x % 256);
    if b != |res| - 1 { ValueLowUpdate(r0, b + 1, res[b + 1] + x / 256); }
    PairWeighs(x, b);
  }

  lemma SymbolWeight(digit: nat, k: nat)
    ensures digit * Pow2(5 * k % 8) * Power(256, 5 * k / 8) == digit * Power(32, k)
  {
    var b, pos := 5 * k / 8, 5 * k % 8;
    assert Power(256, b) == Pow2(8 * b) && Power(32, k) == Pow2(5 * k) by {
      SmallPowers();
      PowerIsPow2(8, b);
      PowerIsPow2(5, k);
    }
    assert pos + 8 * b == 5 * k;
    Pow2Adds(pos, 8 * b);
    Regrouped(digit, Pow2(pos), Pow2(8 * b));
  }

  /** One round of the reading loop, for the symbol `k` places from the end. */
  function OrSymbol(res: seq<nat>, k: nat, digit: u5): (r: seq<nat>)
    requires 5 * k + 5 <= 8 * |res|
    ensures |r| == |res|
  {
    var b, pos := 5 * k / 8, 5 * k % 8;
    OrPair(res, b, digit * Pow2(pos) % 256, digit / Pow2(8 - pos) % 256)
  }

  /** What the reading loop has built with `k` symbols still to read. */
  ghost predicate HasRead(res: seq<nat>, syms: seq<u5>, k: nat)
    requires k <= |syms|
  {
    && EmptyTo(res, 5 * k / 8, 5 * k % 8)
    && ValueLow(res) + Value(syms[|syms| - k..], 32) == Value(syms, 32)
  }

  lemma HasReadNext(res: seq<nat>, syms: seq<u5>, k: nat)
    requires k < |syms| && 5 * |syms| <= 8 * |res| && HasRead(res, syms, k + 1)
    ensures HasRead(OrSymbol(res, k, syms[|syms| - 1 - k]), syms, k)
  {
    var digit := syms[|syms| - 1 - k];
    OrSymbolFits(res, k, digit);
    assert syms[|syms| - (k + 1)..] == [digit] + syms[|syms| - k..];
    ValueLead(digit, syms[|syms| - k..], 32);
  }

  lemma OrSymbolFits(res: seq<nat>, k: nat, digit: u5)
    requires 5 * k + 5 <= 8 * |res| && EmptyTo(res, 5 * (k + 1) / 8, 5 * (k + 1) % 8)
    ensures EmptyTo(OrSymbol(res, k, digit), 5 * k / 8, 5 * k % 8)
    ensures ValueLow(OrSymbol(res, k, digit)) == ValueLow(res) + digit * Power(32, k)
  {
    var b, pos := 5 * k / 8, 5 * k % 8;
    assert 8 * b + pos + 5 == 5 * (k + 1);
    SymbolPieces(digit, pos);
    assert digit / Pow2(8 - pos) % 256 == digit * Pow2(pos) / 256 by { SmallQuotient(digit, Pow2(8 - pos)); }
    OrPairEmpties(res, b, pos, digit * Pow2(pos));
    OrPairAdds(res, b, pos, digit * Pow2(pos));
    SymbolWeight(digit, k);
  }

  lemma SmallQuotient(digit: u5, d: nat)
    requires d > 0
    ensures digit / d % 256 == digit / d
  {
    assert 0 <= digit / d <= digit;
  }

  lemma HasReadNothing(n: nat, syms: seq<u5>)
    requires 5 * |syms| <= 8 * n
    ensures HasRead(ZeroDigits(n), syms, |syms|)
  {
    LeadingZeros(n, [], 256);
    assert Reverse(ZeroDigits(n)) == ZeroDigits(n) && ZeroDigits(n) + [] == ZeroDigits(n);
    assert syms[0..] == syms;
    ZeroIsMultiple(Pow2(5 * |syms| % 8));
  }

  lemma ZeroIsMultiple(d: nat)
    requires d > 0
    ensures 0 % d == 0
  {
  }

  /** `InvoiceFeatures::from_base32`. */
  method ReadFeatures(syms: seq<u5>) returns (flags: seq<nat>)
    ensures flags == FeatureFlags(syms)
  {
    var res := ZeroDigits((|syms| * 5 + 7) / 8);
    HasReadNothing(|res|, syms);
    for i := 0 to |syms|
      invariant |res| == (|syms| * 5 + 7) / 8 && HasRead(res, syms, |syms| - i)
    {
      HasReadNext(res, syms, |syms| - i - 1);
      res := OrSymbol(res, |syms| - i - 1, syms[i]);
    }
    assert syms[|syms|..] == [];
    flags := TrimHigh(res);
    ReadsBack(res, syms);
  }

  lemma ReadsBack(res: seq<nat>, syms: seq<u5>)
    requires Below(res, 256) && ValueLow(res) == Value(syms, 32)
    ensures Reverse(Trimmed(Reverse(res))) == FeatureFlags(syms)
  {
    TrimmedIsDigits(Reverse(res), 256);
  }

  /** Drops the highest bytes while they are zero. */
  method TrimHigh(all: seq<nat>) returns (res: seq<nat>)
    ensures res == Reverse(Trimmed(Reverse(all)))
  {
    res := all;
    while res != [] && res[|res| - 1] == 0
      invariant Trimmed(Reverse(res)) == Trimmed(Reverse(all))
    {
      TrimLast(res);
      res := res[..|res| - 1];
    }
    assert res != [] ==> Reverse(res)[0] != 0;
    ReverseTwice(res);
  }

  lemma TrimLast(res: seq<nat>)
    requires res != [] && res[|res| - 1] == 0
    ensures Trimmed(Reverse(res)) == Trimmed(Reverse(res[..|res| - 1]))
  {
    assert Reverse(res)[1..] == Reverse(res[..|res| - 1]) && Reverse(res)[0] == 0;
  }
}
