/** The byte format of gossip updates, written out, and the decoder shown to be its inverse. */
module GossipFormat {
  import opened Prelude
  import opened Integers
  import opened RapidGossip

  ghost predicate Fits(v: nat, n: nat) { v < Power(256, n) }

  lemma Widths()
    ensures Power(256, 1) == 0x100 && Power(256, 2) == 0x1_0000 && Power(256, 4) == 0x1_0000_0000
      && Power(256, 8) == U64
  {
    assert Power(256, 2) == 256 * Power(256, 1);
    assert Power(256, 3) == 256 * Power(256, 2);
    assert Power(256, 4) == 256 * Power(256, 3);
    assert Power(256, 5) == 256 * Power(256, 4);
    assert Power(256, 6) == 256 * Power(256, 5);
    assert Power(256, 7) == 256 * Power(256, 6);
    assert Power(256, 8) == 256 * Power(256, 7);
  }

  lemma ReadWritten(v: nat, n: nat, rest: Stream)
    requires Fits(v, n)
    ensures ReadInt(Fixed(v, 256, n) + rest, n) == Ok((v, rest))
  {
    var s := Fixed(v, 256, n) + rest;
    assert s[..n] == Fixed(v, 256, n) && s[n..] == rest;
  }

  lemma {:induction false} ValueInjective(a: seq<nat>, b: seq<nat>)
    requires |a| == |b| && Below(a, 256) && Below(b, 256) && Value(a, 256) == Value(b, 256)
    ensures a == b
  {
    if a != [] {
      var m := |a| - 1;
      ValueInjective(a[..m], b[..m]);
      assert a == a[..m] + [a[m]] && b == b[..m] + [b[m]];
    }
  }

  lemma WrittenWhatWasRead(s: Stream, n: nat)
    requires Below(s, 256) && ReadInt(s, n).Ok?
    ensures Fits(ReadInt(s, n).value.0, n) && s == Fixed(ReadInt(s, n).value.0, 256, n) + ReadInt(s, n).value.1
  {
    ValueBound(s[..n], 256);
    ValueInjective(s[..n], Fixed(Value(s[..n], 256), 256, n));
    assert s == s[..n] + s[n..];
  }

  // ---------- BigSize ----------

  ghost function WriteBigSize(x: nat): Stream
    requires x < U64
  {
    Widths();
    if x <= 0xFC then Fixed(x, 256, 1)
    else if x <= 0xFFFF then Fixed(0xFD, 256, 1) + Fixed(x, 256, 2)
    else if x <= 0xFFFF_FFFF then Fixed(0xFE, 256, 1) + Fixed(x, 256, 4)
    else Fixed(0xFF, 256, 1) + Fixed(x, 256, 8)
  }

  lemma ReadTagged(tag: nat, x: nat, n: nat, rest: Stream)
    requires Fits(tag, 1) && Fits(x, n)
    ensures var s := Fixed(tag, 256, 1) + Fixed(x, 256, n) + rest;
      ReadInt(s, 1) == Ok((tag, Fixed(x, 256, n) + rest)) && ReadInt(Fixed(x, 256, n) + rest, n) == Ok((x, rest))
  {
    ReadWritten(tag, 1, Fixed(x, 256, n) + rest);
    ReadWritten(x, n, rest);
    assert Fixed(tag, 256, 1) + Fixed(x, 256, n) + rest == Fixed(tag, 256, 1) + (Fixed(x, 256, n) + rest);
  }

  lemma BigSizeReads(x: nat, rest: Stream)
    requires x < U64
    ensures ReadBigSize(WriteBigSize(x) + rest) == Ok((x, rest))
  {
    Widths();
    if x <= 0xFC { ReadWritten(x, 1, rest); }
    else if x <= 0xFFFF { ReadTagged(0xFD, x, 2, rest); }
    else if x <= 0xFFFF_FFFF { ReadTagged(0xFE, x, 4, rest); }
    else { ReadTagged(0xFF, x, 8, rest); }
  }

  /** The reader accepts exactly what the writer writes, so every number has one accepted form. */
  lemma BigSizeIff(s: Stream, x: nat, rest: Stream)
    requires Below(s, 256) && x < U64
    ensures ReadBigSize(s) == Ok((x, rest)) <==> s == WriteBigSize(x) + rest
  {
    BigSizeReads(x, rest);
    if ReadBigSize(s) == Ok((x, rest)) { BigSizeIsWritten(s, x, rest); }
  }

  lemma BigSizeIsWritten(s: Stream, x: nat, rest: Stream)
    requires Below(s, 256) && x < U64 && ReadBigSize(s) == Ok((x, rest))
    ensures s == WriteBigSize(x) + rest
  {
    Widths();
    WrittenWhatWasRead(s, 1);
    var t := ReadInt(s, 1).value;
    assert Below(t.1, 256);
    var n := if t.0 == 0xFD then 2 else if t.0 == 0xFE then 4 else if t.0 == 0xFF then 8 else 0;
    if n > 0 {
      WrittenWhatWasRead(t.1, n);
      Assoc(Fixed(t.0, 256, 1), Fixed(x, 256, n), rest);
    }
  }

  // ---------- Update fields ----------

  ghost predicate FieldsFit(f: Fields) {
    Fits(f.cltv, 2) && Fits(f.htlcMinimum, 8) && Fits(f.feeBase, 4) && Fits(f.feeProportional, 4) && Fits(Maximum(f), 8)
    && f.htlcMaximum != Some(U64 - 1)
  }

  /** An absent maximum is written as the largest number. */
  function Maximum(f: Fields): nat { if f.htlcMaximum.None? then U64 - 1 else f.htlcMaximum.value }

  ghost function WriteMasked(present: bool, v: nat, n: nat): Stream
    requires Fits(v, n)
  {
    if present then Fixed(v, 256, n) else []
  }

  ghost function WriteFields(flags: nat, f: Fields): Stream
    requires FieldsFit(f)
  {
    WriteMasked(Bit(flags, 64), f.cltv, 2) + (WriteMasked(Bit(flags, 32), f.htlcMinimum, 8) +
    (WriteMasked(Bit(flags, 16), f.feeBase, 4) + (WriteMasked(Bit(flags, 8), f.feeProportional, 4) +
    WriteMasked(Bit(flags, 4), Maximum(f), 8))))
  }

  /** The given fields where the mask has a bit, the base elsewhere. */
  function Overlay(flags: nat, f: Fields, base: Fields): Fields {
    Fields(if Bit(flags, 64) then f.cltv else base.cltv, if Bit(flags, 32) then f.htlcMinimum else base.htlcMinimum,
           if Bit(flags, 4) then f.htlcMaximum else base.htlcMaximum,
           if Bit(flags, 16) then f.feeBase else base.feeBase,
           if Bit(flags, 8) then f.feeProportional else base.feeProportional)
  }

  lemma ReadMaskedWritten(present: bool, v: nat, n: nat, base: nat, s: Stream, rest: Stream)
    requires Fits(v, n) && s == WriteMasked(present, v, n) + rest
    ensures ReadMasked(s, present, n, base) == Ok((if present then v else base, rest))
  {
    if present { ReadWritten(v, n, rest); } else { assert s == rest; }
  }

  lemma FieldsRegroup(a: Stream, b: Stream, c: Stream, d: Stream, e: Stream, rest: Stream)
    ensures a + (b + (c + (d + e))) + rest == a + (b + (c + (d + (e + rest))))
  {
    Assoc(a, b + (c + (d + e)), rest);
    Assoc(b, c + (d + e), rest);
    Assoc(c, d + e, rest);
    Assoc(d, e, rest);
  }

  lemma FieldsInOrder(
    flags: nat, base: Fields, f: Fields, maximum: nat, s0: Stream, s1: Stream, s2: Stream, s3: Stream, s4: Stream,
    rest: Stream)
    requires ReadMasked(s0, Bit(flags, 64), 2, base.cltv) == Ok((f.cltv, s1))
    requires ReadMasked(s1, Bit(flags, 32), 8, base.htlcMinimum) == Ok((f.htlcMinimum, s2))
    requires ReadMasked(s2, Bit(flags, 16), 4, base.feeBase) == Ok((f.feeBase, s3))
    requires ReadMasked(s3, Bit(flags, 8), 4, base.feeProportional) == Ok((f.feeProportional, s4))
    requires ReadMasked(s4, Bit(flags, 4), 8, 0) == Ok((maximum, rest))
    requires f.htlcMaximum == if Bit(flags, 4) then MaximumOf(maximum) else base.htlcMaximum
    ensures ReadFields(s0, flags, base) == Ok((f, rest))
  {
  }

  /** The decoder reads each masked field where the format puts it. */
  lemma FieldsRoundTrip(flags: nat, f: Fields, base: Fields, rest: Stream)
    requires FieldsFit(f)
    ensures ReadFields(WriteFields(flags, f) + rest, flags, base) == Ok((Overlay(flags, f, base), rest))
  {
    var s4 := WriteMasked(Bit(flags, 4), Maximum(f), 8) + rest;
    var s3 := WriteMasked(Bit(flags, 8), f.feeProportional, 4) + s4;
    var s2 := WriteMasked(Bit(flags, 16), f.feeBase, 4) + s3;
    var s1 := WriteMasked(Bit(flags, 32), f.htlcMinimum, 8) + s2;
    var s0 := WriteMasked(Bit(flags, 64), f.cltv, 2) + s1;
    FieldsRegroup(WriteMasked(Bit(flags, 64), f.cltv, 2), WriteMasked(Bit(flags, 32), f.htlcMinimum, 8),
                  WriteMasked(Bit(flags, 16), f.feeBase, 4), WriteMasked(Bit(flags, 8), f.feeProportional, 4),
                  WriteMasked(Bit(flags, 4), Maximum(f), 8), rest);
    ReadMaskedWritten(Bit(flags, 64), f.cltv, 2, base.cltv, s0, s1);
    ReadMaskedWritten(Bit(flags, 32), f.htlcMinimum, 8, base.htlcMinimum, s1, s2);
    ReadMaskedWritten(Bit(flags, 16), f.feeBase, 4, base.feeBase, s2, s3);
    ReadMaskedWritten(Bit(flags, 8), f.feeProportional, 4, base.feeProportional, s3, s4);
    ReadMaskedWritten(Bit(flags, 4), Maximum(f), 8, 0, s4, rest);
    FieldsInOrder(flags, base, Overlay(flags, f, base), if Bit(flags, 4) then Maximum(f) else 0,
                  s0, s1, s2, s3, s4, rest);
  }

  ghost function WriteItem(delta: nat, flags: nat, f: Fields): Stream
    requires delta < U64 && Fits(flags, 1) && FieldsFit(f)
  {
    WriteBigSize(delta) + (Fixed(flags, 256, 1) + WriteFields(flags, f))
  }

  lemma ItemInOrder(
    env: Env, x: Context, c: Cursor, delta: nat, flags: nat, f: Fields, base: Fields, s1: Stream, s2: Stream,
    rest: Stream)
    requires c.previous + delta < U64 && ReadBigSize(c.rest) == Ok((delta, s1)) && ReadInt(s1, 1) == Ok((flags, s2))
    requires BaseOf(x, c.graph, c.previous + delta, flags) == Ok(base) && ReadFields(s2, flags, base) == Ok((f, rest))
    ensures var u := Update(c.previous + delta, x.timestamp, flags % 4, f);
      var h := UpdateChannel(c.graph, u, env.clockAccepts(c.done));
      ApplyUpdate(env, x, c) ==
      if h.Err? then Err(h.error)
        else Ok(Next(Cursor(c.done + 1, c.previous + delta, h.value, rest), Item(delta, flags, u)))
  {
  }

  /** A written update is decoded to its channel id, its flags and its fields laid over the base. */
  lemma ItemRoundTrip(env: Env, x: Context, c: Cursor, delta: nat, flags: nat, f: Fields, base: Fields, rest: Stream)
    requires c.previous + delta < U64 && Fits(flags, 1) && FieldsFit(f) && c.rest == WriteItem(delta, flags, f) + rest
    requires BaseOf(x, c.graph, c.previous + delta, flags) == Ok(base)
    ensures var u := Update(c.previous + delta, x.timestamp, flags % 4, Overlay(flags, f, base));
      var h := UpdateChannel(c.graph, u, env.clockAccepts(c.done));
      ApplyUpdate(env, x, c) ==
      if h.Err? then Err(h.error)
        else Ok(Next(Cursor(c.done + 1, c.previous + delta, h.value, rest), Item(delta, flags, u)))
  {
    var s1, s2 := ItemReads(c.rest, delta, flags, f, base, rest);
    ItemInOrder(env, x, c, delta, flags, Overlay(flags, f, base), base, s1, s2, rest);
  }

  lemma ItemReads(s: Stream, delta: nat, flags: nat, f: Fields, base: Fields, rest: Stream)
    returns (s1: Stream, s2: Stream)
    requires delta < U64 && Fits(flags, 1) && FieldsFit(f) && s == WriteItem(delta, flags, f) + rest
    ensures ReadBigSize(s) == Ok((delta, s1)) && ReadInt(s1, 1) == Ok((flags, s2))
    ensures ReadFields(s2, flags, base) == Ok((Overlay(flags, f, base), rest))
  {
    s2 := WriteFields(flags, f) + rest;
    s1 := Fixed(flags, 256, 1) + s2;
    Assoc(WriteBigSize(delta), Fixed(flags, 256, 1) + WriteFields(flags, f), rest);
    Assoc(Fixed(flags, 256, 1), WriteFields(flags, f), rest);
    BigSizeReads(delta, s1);
    ReadWritten(flags, 1, s2);
    FieldsRoundTrip(flags, f, base, rest);
  }
}
