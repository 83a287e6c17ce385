/**
 The reader of the data part against the format of BOLT 11, in its own numbers: what each tag,
 length and layout means, and what is skipped or refused.
 */
module DataFormat {
  import opened Prelude
  import opened Base32
  import opened Integers
  import opened DataPart
  import opened DataPartLaws

  // ---------- Framing ----------

  /** A field: its tag, the two symbols of its length, and its payload. */
  function Field(tag: u5, payload: seq<u5>): seq<u5>
    requires |payload| < 1024
  {
    [tag, |payload| / 32, |payload| % 32] + payload
  }

  lemma LengthOf(a: u5, b: u5)
    ensures Value([a, b], 32) == 32 * a + b
  {
    assert [a, b][..1] == [a] && [a][..0] == [];
    assert Value([a], 32) == a;
  }

  lemma FieldIsFramed(tag: u5, payload: seq<u5>)
    requires |payload| < 1024
    ensures var f := Field(tag, payload); Framed(f) && f[0] == tag && f[3..] == payload
  {
    var f := Field(tag, payload);
    assert f[1..3] == [|payload| / 32, |payload| % 32];
    LengthOf(|payload| / 32, |payload| % 32);
  }

  /** What the reader makes of one field, given what it makes of its payload. */
  function Alone(field: seq<u5>, r: Parsed<TaggedField>): Parsed<seq<RawTaggedField>> {
    match r
    case Ok(f) => Ok([KnownSemantics(f)])
    case Err(Skip) => Ok([UnknownSemantics(field)])
    case Err(InvalidLength) => Ok([UnknownSemantics(field)])
    case Err(e) => Err(e)
  }

  /** One field, read on its own. */
  lemma FieldReads(env: Env, tag: u5, payload: seq<u5>, r: Parsed<TaggedField>)
    requires |payload| < 1024 && ParsePayload(env, tag, payload) == r
    ensures ParseTagged(env, Field(tag, payload)) == Alone(Field(tag, payload), r)
  {
    var f := Field(tag, payload);
    FieldIsFramed(tag, payload);
    ReadChunkFirst(env, f, []);
    assert f + [] == f && ParseTagged(env, []) == Ok([]);
    if ParseRaw(env, f).Ok? { assert [ParseRaw(env, f).value] + [] == [ParseRaw(env, f).value]; }
  }

  lemma FieldReadsAt(env: Env, tag: u5, a: u5, b: u5, payload: seq<u5>, r: Parsed<TaggedField>)
    requires |payload| == 32 * a + b && ParsePayload(env, tag, payload) == r
    ensures ParseTagged(env, [tag, a, b] + payload) == Alone([tag, a, b] + payload, r)
  {
    assert Field(tag, payload) == [tag, a, b] + payload;
    FieldReads(env, tag, payload, r);
  }

  /** A field whose length promises more than there is ends the reading. */
  lemma TruncatedField(env: Env, tag: u5, a: u5, b: u5, payload: seq<u5>)
    requires |payload| < 32 * a + b
    ensures ParseTagged(env, [tag, a, b] + payload) == Err(UnexpectedEndOfTaggedFields)
  {
    var data := [tag, a, b] + payload;
    assert data[1..3] == [a, b];
    LengthOf(a, b);
  }

  lemma BytesRead(bytes: seq<u8>)
    ensures ParseBytes(ToBase32(bytes)) == Ok(bytes) && |ToBase32(bytes)| == (8 * |bytes| + 4) / 5
  {
    DecodeEncoded(bytes);
  }

  // ---------- Fields of fixed length ----------

  lemma PaymentHashField(env: Env, h: seq<u8>)
    requires |h| == 32
    ensures ParseTagged(env, [1, 1, 20] + ToBase32(h)) == Ok([KnownSemantics(PaymentHash(h))])
  {
    BytesRead(h);
    FieldReadsAt(env, 1, 1, 20, ToBase32(h), Ok(PaymentHash(h)));
  }

  lemma DescriptionHashField(env: Env, h: seq<u8>)
    requires |h| == 32
    ensures ParseTagged(env, [23, 1, 20] + ToBase32(h)) == Ok([KnownSemantics(DescriptionHash(h))])
  {
    BytesRead(h);
    FieldReadsAt(env, 23, 1, 20, ToBase32(h), Ok(DescriptionHash(h)));
  }

  lemma PaymentSecretField(env: Env, s: seq<u8>)
    requires |s| == 32
    ensures ParseTagged(env, [16, 1, 20] + ToBase32(s)) == Ok([KnownSemantics(PaymentSecret(s))])
  {
    BytesRead(s);
    FieldReadsAt(env, 16, 1, 20, ToBase32(s), Ok(PaymentSecret(s)));
  }

  lemma PayeePubKeyField(env: Env, k: seq<u8>)
    requires |k| == 33
    ensures ParseTagged(env, [19, 1, 21] + ToBase32(k)) ==
      if env.isPubKey(k) then Ok([KnownSemantics(PayeePubKey(k))]) else Err(MalformedKey)
  {
    var r := if env.isPubKey(k) then Ok(PayeePubKey(k)) else Err(MalformedKey);
    KeyReads(env, k);
    FieldReadsAt(env, 19, 1, 21, ToBase32(k), r);
  }

  lemma KeyReads(env: Env, k: seq<u8>)
    requires |k| == 33
    ensures |ToBase32(k)| == 53
    ensures ParsePayload(env, 19, ToBase32(k)) == if env.isPubKey(k) then Ok(PayeePubKey(k)) else Err(MalformedKey)
  {
    BytesRead(k);
    assert ParsePayload(env, 19, ToBase32(k)) == Lift(ParsePubKey(env, ToBase32(k)), key => PayeePubKey(key));
  }

  /** Hashes, secrets and keys of another length are skipped and kept. */
  lemma OtherLengthsAreSkipped(env: Env, tag: u5, payload: seq<u5>)
    requires |payload| < 1024
    requires (tag in {1, 16, 23} && |payload| != 52) || (tag == 19 && |payload| != 53)
    ensures ParseTagged(env, Field(tag, payload)) == Ok([UnknownSemantics(Field(tag, payload))])
  {
    FieldReads(env, tag, payload, ParsePayload(env, tag, payload));
  }

  /** So are all tags but ten. */
  lemma OtherTagsAreSkipped(env: Env, tag: u5, payload: seq<u5>)
    requires |payload| < 1024 && tag !in {1, 3, 5, 6, 9, 13, 16, 19, 23, 24}
    ensures ParseTagged(env, Field(tag, payload)) == Ok([UnknownSemantics(Field(tag, payload))])
  {
    FieldReads(env, tag, payload, ParsePayload(env, tag, payload));
  }

  /** Bytes must be spelled with fewer than five padding bits, all zero. */
  lemma BadPaddingIsRefused(env: Env, tag: u5, payload: seq<u5>)
    requires |payload| < 1024 && forall b: seq<u8> :: ToBase32(b) != payload
    requires tag in {3, 13} || (tag in {1, 16, 23} && |payload| == 52) || (tag == 19 && |payload| == 53)
    ensures ParseTagged(env, Field(tag, payload)) == Err(InvalidPadding)
  {
    if FromBase32(payload).Some? { EncodeDecoded(payload); }
    FieldReads(env, tag, payload, ParsePayload(env, tag, payload));
  }

  // ---------- Text and numbers ----------

  lemma DescriptionField(env: Env, text: seq<u8>)
    requires |text| <= 639
    ensures |ToBase32(text)| < 1024 && ParseTagged(env, Field(13, ToBase32(text))) ==
      if env.isUtf8(text) then Ok([KnownSemantics(Description(text))]) else Err(DescriptionDecodeError)
  {
    BytesRead(text);
    FieldReads(env, 13, ToBase32(text),
               if env.isUtf8(text) then Ok(Description(text)) else Err(DescriptionDecodeError));
  }

  /** An expiry time in seconds, with or without leading zeros. */
  lemma ExpiryTimeField(env: Env, syms: seq<u5>)
    requires |syms| < 1024
    ensures ParseTagged(env, Field(6, syms)) ==
      if Value(syms, 32) < 0x1_0000_0000_0000_0000 then Ok([KnownSemantics(ExpiryTime(Value(syms, 32), 0))])
      else Err(IntegerOverflow)
  {
    ParseIntBeIff(syms, 32, U64 - 1);
    FieldReads(env, 6, syms,
               if Value(syms, 32) < U64 then Ok(ExpiryTime(Value(syms, 32), 0)) else Err(IntegerOverflow));
  }

  lemma MinFinalCltvExpiryField(env: Env, syms: seq<u5>)
    requires |syms| < 1024
    ensures ParseTagged(env, Field(24, syms)) ==
      if Value(syms, 32) < 0x1_0000_0000_0000_0000 then Ok([KnownSemantics(MinFinalCltvExpiry(Value(syms, 32)))])
      else Err(IntegerOverflow)
  {
    ParseIntBeIff(syms, 32, U64 - 1);
    FieldReads(env, 24, syms,
               if Value(syms, 32) < U64 then Ok(MinFinalCltvExpiry(Value(syms, 32))) else Err(IntegerOverflow));
  }

  /** Feature bits: one number, its lowest byte first, with no zero byte at the top. */
  lemma FeaturesField(env: Env, syms: seq<u5>, flags: seq<u8>)
    requires |syms| < 1024
    requires Value(Reverse(flags), 256) == Value(syms, 32) && (flags != [] ==> flags[|flags| - 1] != 0)
    ensures ParseTagged(env, Field(5, syms)) == Ok([KnownSemantics(Features(flags))])
  {
    FlagsRead(syms, flags);
    assert ParsePayload(env, 5, syms) == Ok(Features(FeatureFlags(syms)));
    FieldReads(env, 5, syms, Ok(Features(flags)));
  }

  lemma FlagsRead(syms: seq<u5>, flags: seq<u8>)
    requires Value(Reverse(flags), 256) == Value(syms, 32) && (flags != [] ==> flags[|flags| - 1] != 0)
    ensures FeatureFlags(syms) == flags
  {
    DigitsOfValue(Reverse(flags), 256);
    ReverseTwice(flags);
  }

  // ---------- Fallback addresses ----------

  /** What a version and its bytes mean. */
  function FallbackOf(version: u5, bytes: seq<u8>): Parsed<TaggedField> {
    if version <= 16 then
      if 2 <= |bytes| <= 40 then Ok(FallbackAddress(SegWitProgram(version, bytes))) else Err(InvalidSegWitProgramLength)
    else if version == 17 then
      if |bytes| == 20 then Ok(FallbackAddress(PubKeyHash(bytes))) else Err(InvalidPubKeyHashLength)
    else if version == 18 then
      if |bytes| == 20 then Ok(FallbackAddress(ScriptHash(bytes))) else Err(InvalidScriptHashLength)
    else Err(Skip)
  }

  lemma FallbackReads(env: Env, version: u5, bytes: seq<u8>)
    ensures ParsePayload(env, 9, [version] + ToBase32(bytes)) == FallbackOf(version, bytes)
  {
    var payload := [version] + ToBase32(bytes);
    BytesRead(bytes);
    assert payload[1..] == ToBase32(bytes) && payload[0] == version;
    assert ParsePayload(env, 9, payload) == Lift(ParseFallback(payload), a => FallbackAddress(a));
  }

  /** Witness programs, key hashes, script hashes; other versions are skipped, other lengths refused. */
  lemma FallbackField(env: Env, version: u5, bytes: seq<u8>)
    requires |bytes| <= 638
    ensures var payload := [version] + ToBase32(bytes);
      |payload| < 1024 && ParseTagged(env, Field(9, payload)) == Alone(Field(9, payload), FallbackOf(version, bytes))
  {
    BytesRead(bytes);
    FallbackReads(env, version, bytes);
    FieldReads(env, 9, [version] + ToBase32(bytes), FallbackOf(version, bytes));
  }

  lemma HashFallback(env: Env, version: u5, h: seq<u8>)
    requires |h| == 20
    ensures ParseTagged(env, [9, 1, 1, version] + ToBase32(h)) ==
      Alone([9, 1, 1, version] + ToBase32(h), FallbackOf(version, h))
  {
    var payload := [version] + ToBase32(h);
    assert |payload| == 33 by { BytesRead(h); }
    FallbackField(env, version, h);
    assert Field(9, payload) == [9, 1, 1, version] + ToBase32(h);
  }

  lemma PubKeyHashField(env: Env, h: seq<u8>)
    requires |h| == 20
    ensures ParseTagged(env, [9, 1, 1, 17] + ToBase32(h)) == Ok([KnownSemantics(FallbackAddress(PubKeyHash(h)))])
  {
    HashFallback(env, 17, h);
  }

  lemma ScriptHashField(env: Env, h: seq<u8>)
    requires |h| == 20
    ensures ParseTagged(env, [9, 1, 1, 18] + ToBase32(h)) == Ok([KnownSemantics(FallbackAddress(ScriptHash(h)))])
  {
    HashFallback(env, 18, h);
  }

  // ---------- Routes ----------

  /** A hop in 51 bytes: key, channel id, base fee, proportional fee and expiry delta. */
  function HopAt(b: seq<u8>): RouteHop
    requires |b| == 51
  {
    RouteHop(b[0..33], Value(b[33..41], 256), Value(b[41..45], 256), Value(b[45..49], 256), Value(b[49..51], 256),
             None, None)
  }

  ghost predicate KeysAreValid(env: Env, b: seq<u8>) {
    forall i :: 0 <= i < |b| / 51 ==> env.isPubKey(b[51 * i..51 * i + 33])
  }

  lemma {:induction false} HopsRead(env: Env, b: seq<u8>)
    requires |b| % 51 == 0 && KeysAreValid(env, b)
    ensures ParseHops(env, b).Ok? && |ParseHops(env, b).value| == |b| / 51
    ensures forall i :: 0 <= i < |b| / 51 ==> ParseHops(env, b).value[i] == HopAt(b[51 * i..51 * i + 51])
    decreases |b|
  {
    if b != [] {
      var rest := b[51..];
      forall i | 0 <= i < |rest| / 51 ensures env.isPubKey(rest[51 * i..51 * i + 33]) {
        assert rest[51 * i..51 * i + 33] == b[51 * (i + 1)..51 * (i + 1) + 33];
      }
      HopsRead(env, rest);
      FirstHopReads(env, b[..51]);
      assert b[..51][0..33] == b[51 * 0..51 * 0 + 33] == b[..51][..33];
      forall i | 0 <= i < |b| / 51 ensures ParseHops(env, b).value[i] == HopAt(b[51 * i..51 * i + 51]) {
        if i > 0 { assert rest[51 * (i - 1)..51 * (i - 1) + 51] == b[51 * i..51 * i + 51]; }
      }
    }
  }

  lemma FirstHopReads(env: Env, b: seq<u8>)
    requires |b| == 51
    ensures ParseHop(env, b) == if env.isPubKey(b[0..33]) then Ok(HopAt(b)) else Err(MalformedKey)
  {
    assert b[..33] == b[0..33];
  }

  /** One key that is none spoils the route. */
  lemma {:induction false} BadKeyIsRefused(env: Env, b: seq<u8>, i: nat)
    requires |b| % 51 == 0 && i < |b| / 51 && !env.isPubKey(b[51 * i..51 * i + 33])
    ensures ParseHops(env, b) == Err(MalformedKey)
    decreases |b|
  {
    FirstHopReads(env, b[..51]);
    if i == 0 {
      assert b[..51][0..33] == b[51 * 0..51 * 0 + 33];
    } else {
      assert b[51..][51 * (i - 1)..51 * (i - 1) + 33] == b[51 * i..51 * i + 33];
      BadKeyIsRefused(env, b[51..], i - 1);
    }
  }

  /** The hops of a route, one after the other. */
  function HopsOf(b: seq<u8>): seq<RouteHop> {
    seq(|b| / 51, i requires 0 <= i < |b| / 51 => HopAt(b[51 * i..51 * i + 51]))
  }

  lemma HopsAre(env: Env, b: seq<u8>)
    requires |b| % 51 == 0 && KeysAreValid(env, b)
    ensures ParseHops(env, b) == Ok(HopsOf(b))
  {
    HopsRead(env, b);
    assert ParseHops(env, b).value == HopsOf(b);
  }

  lemma RouteReads(env: Env, b: seq<u8>)
    requires |b| % 51 == 0 && KeysAreValid(env, b)
    ensures ParseRoute(env, ToBase32(b)) == Ok(HopsOf(b))
  {
    BytesRead(b);
    HopsAre(env, b);
  }

  lemma PartialHopIsRefused(env: Env, b: seq<u8>)
    requires |b| % 51 != 0
    ensures ParseRoute(env, ToBase32(b)) == Err(UnexpectedEndOfTaggedFields)
  {
    BytesRead(b);
  }

  /** Anything that is not a whole number of hops is refused. */
  lemma PrivateRouteField(env: Env, b: seq<u8>)
    requires |b| <= 639
    ensures |ToBase32(b)| < 1024
    ensures |b| % 51 != 0 ==> ParseTagged(env, Field(3, ToBase32(b))) == Err(UnexpectedEndOfTaggedFields)
    ensures |b| % 51 == 0 && KeysAreValid(env, b) ==>
      ParseTagged(env, Field(3, ToBase32(b))) == Ok([KnownSemantics(PrivateRoute(HopsOf(b)))])
  {
    BytesRead(b);
    var syms := ToBase32(b);
    assert ParsePayload(env, 3, syms) == Lift(ParseRoute(env, syms), hs => PrivateRoute(hs));
    FieldReads(env, 3, syms, ParsePayload(env, 3, syms));
    if |b| % 51 != 0 { PartialHopIsRefused(env, b); } else if KeysAreValid(env, b) { RouteReads(env, b); }
  }

  // ---------- The whole data part ----------

  /** Seven symbols of seconds since 1970, then the fields. */
  lemma DataPartReads(env: Env, stamp: seq<u5>, fields: seq<u5>)
    requires |stamp| == 7
    ensures ParseDataPart(env, stamp + fields) ==
      match ParseTagged(env, fields)
      case Err(e) => Err(e)
      case Ok(fs) => Ok(RawDataPart(Timestamp(Value(stamp, 32), 0), fs))
  {
    assert (stamp + fields)[..7] == stamp && (stamp + fields)[7..] == fields;
  }
}
