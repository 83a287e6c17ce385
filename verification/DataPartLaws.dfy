/**
 Writing and reading the data part undo each other: exactly on normal forms, and reading anything
 only ever produces normal forms.
 */
module DataPartLaws {
  import opened Prelude
  import opened Base32
  import opened Integers
  import opened DataPart

  // ---------- Normal forms ----------

  ghost predicate NormalFlags(flags: seq<u8>) { flags != [] ==> flags[|flags| - 1] != 0 }

  ghost predicate NormalHops(hops: seq<RouteHop>) {
    forall i :: 0 <= i < |hops| ==> hops[i].htlcMinimum.None? && hops[i].htlcMaximum.None?
  }

  ghost predicate NormalField(f: TaggedField) {
    match f
    case ExpiryTime(_, n) => n == 0
    case FallbackAddress(a) => a.SegWitProgram? ==> a.version <= 16 && 2 <= |a.program| <= 40
    case PrivateRoute(hops) => NormalHops(hops)
    case Features(flags) => NormalFlags(flags) && |FeatureSymbols(flags)| < 1024
    case _ => true
  }

  /** A complete field: tag, length, and that many symbols. */
  ghost predicate Framed(chunk: seq<u5>) { |chunk| >= 3 && |chunk| == 3 + Value(chunk[1..3], 32) }

  ghost predicate Skipped(env: Env, chunk: seq<u5>)
    requires |chunk| >= 3
  {
    ParsePayload(env, chunk[0], chunk[3..]) in {Err(Skip), Err(InvalidLength)}
  }

  ghost predicate NormalRaw(env: Env, f: RawTaggedField) {
    match f
    case KnownSemantics(k) => NormalField(k)
    case UnknownSemantics(c) => Framed(c) && Skipped(env, c)
  }

  ghost predicate Normal(env: Env, d: RawDataPart) {
    d.timestamp.nanos == 0 && forall i :: 0 <= i < |d.fields| ==> NormalRaw(env, d.fields[i])
  }

  // ---------- Reading produces normal forms, no longer than what was read ----------

  lemma BytesBack(syms: seq<u5>)
    requires ParseBytes(syms).Ok?
    ensures ToBase32(ParseBytes(syms).value) == syms && |ParseBytes(syms).value| == |syms| * 5 / 8
  {
    EncodeDecoded(syms);
  }

  lemma U64Back(syms: seq<u5>)
    requires ParseU64(syms).Ok?
    ensures ParseU64(syms).value < U64 && |Digits(ParseU64(syms).value, 32)| <= |syms|
  {
    ParseIntBeIff(syms, 32, U64 - 1);
    ShortestDigits(syms, 32);
  }

  lemma FlagsOf(n: nat)
    ensures NormalFlags(Reverse(Digits(n, 256)))
    ensures Value(Reverse(Reverse(Digits(n, 256))), 256) == n
  {
    ReverseTwice(Digits(n, 256));
    ValueOfDigits(n, 256);
    if n > 0 { DigitsLead(n, 256); }
  }

  lemma FlagsBack(syms: seq<u5>)
    ensures NormalFlags(FeatureFlags(syms)) && |FeatureSymbols(FeatureFlags(syms))| <= |syms|
  {
    FlagsOf(Value(syms, 32));
    ShortestDigits(syms, 32);
  }

  lemma {:induction false} HopsBack(env: Env, b: seq<u8>)
    requires |b| % 51 == 0 && ParseHops(env, b).Ok?
    ensures var hops := ParseHops(env, b).value;
      && |b| == 51 * |hops| && NormalHops(hops) && forall i :: 0 <= i < |hops| ==> TypedHop(env, hops[i])
    decreases |b|
  {
    if b != [] {
      HopsBack(env, b[51..]);
      var hops, rest := ParseHops(env, b).value, ParseHops(env, b[51..]).value;
      forall i | 0 < i < |hops| ensures hops[i] == rest[i - 1] {}
    }
  }

  lemma RouteBack(env: Env, syms: seq<u5>)
    requires ParseRoute(env, syms).Ok? && |syms| <= 1023
    ensures var hops := ParseRoute(env, syms).value;
      && |hops| <= 12 && NormalHops(hops) && (forall i :: 0 <= i < |hops| ==> TypedHop(env, hops[i]))
      && |ToBase32(RouteBytes(hops))| == |syms|
  {
    BytesBack(syms);
    HopsBack(env, ParseBytes(syms).value);
  }

  ghost predicate Settled(env: Env, f: TaggedField, len: nat) {
    Typed(env, f) && NormalField(f) && |Payload(env, f)| <= len
  }

  lemma ParsedBytes(env: Env, tag: u5, syms: seq<u5>)
    requires |syms| <= 1023 && ParsePayload(env, tag, syms).Ok?
    requires tag in {TAG_PAYMENT_HASH, TAG_DESCRIPTION_HASH, TAG_PAYMENT_SECRET, TAG_PAYEE_PUB_KEY, TAG_DESCRIPTION}
    ensures Settled(env, ParsePayload(env, tag, syms).value, |syms|)
  {
    BytesBack(syms);
  }

  lemma ParsedInts(env: Env, tag: u5, syms: seq<u5>)
    requires ParsePayload(env, tag, syms).Ok? && tag in {TAG_EXPIRY_TIME, TAG_MIN_FINAL_CLTV_EXPIRY}
    ensures Settled(env, ParsePayload(env, tag, syms).value, |syms|)
  {
    U64Back(syms);
  }

  lemma ParsedFallback(env: Env, syms: seq<u5>)
    requires ParsePayload(env, TAG_FALLBACK, syms).Ok?
    ensures Settled(env, ParsePayload(env, TAG_FALLBACK, syms).value, |syms|)
  {
    BytesBack(syms[1..]);
  }

  lemma ParsedRoute(env: Env, syms: seq<u5>)
    requires |syms| <= 1023 && ParsePayload(env, TAG_PRIVATE_ROUTE, syms).Ok?
    ensures Settled(env, ParsePayload(env, TAG_PRIVATE_ROUTE, syms).value, |syms|)
  {
    RouteBack(env, syms);
  }

  lemma ParsedFeatures(env: Env, syms: seq<u5>)
    requires |syms| <= 1023
    ensures Settled(env, Features(FeatureFlags(syms)), |syms|)
  {
    FlagsBack(syms);
  }

  /** Whatever payload was read, the value is well typed, in normal form, and writes back no longer than it was. */
  lemma ParsedPayload(env: Env, tag: u5, syms: seq<u5>)
    requires |syms| <= 1023 && ParsePayload(env, tag, syms).Ok?
    ensures Settled(env, ParsePayload(env, tag, syms).value, |syms|)
  {
    if tag in {TAG_PAYMENT_HASH, TAG_DESCRIPTION_HASH, TAG_PAYMENT_SECRET, TAG_PAYEE_PUB_KEY, TAG_DESCRIPTION} {
      ParsedBytes(env, tag, syms);
    } else if tag in {TAG_EXPIRY_TIME, TAG_MIN_FINAL_CLTV_EXPIRY} {
      ParsedInts(env, tag, syms);
    } else if tag == TAG_FALLBACK {
      ParsedFallback(env, syms);
    } else if tag == TAG_PRIVATE_ROUTE {
      ParsedRoute(env, syms);
    } else {
      ParsedFeatures(env, syms);
    }
  }

  lemma ParsedChunk(env: Env, chunk: seq<u5>)
    requires Framed(chunk) && ParseRaw(env, chunk).Ok?
    ensures var f := ParseRaw(env, chunk).value;
      && TypedRaw(env, f) && NormalRaw(env, f)
      && EncodeRaw(env, f).Some? && |EncodeRaw(env, f).value| <= |chunk|
  {
    ValueBound(chunk[1..3], 32);
    PowerValues();
    if ParsePayload(env, chunk[0], chunk[3..]).Ok? {
      ParsedPayload(env, chunk[0], chunk[3..]);
      HeaderMatchesPayload(env, ParsePayload(env, chunk[0], chunk[3..]).value);
    }
  }

  // ---------- Writing a normal form and reading it gives it back ----------

  lemma ReadBackFlags(flags: seq<u8>)
    requires NormalFlags(flags)
    ensures FeatureFlags(FeatureSymbols(flags)) == flags
  {
    var n := Value(Reverse(flags), 256);
    ValueOfDigits(n, 32);
    DigitsOfValue(Reverse(flags), 256);
    ReverseTwice(flags);
  }

  lemma ReadBackHop(env: Env, h: RouteHop)
    requires TypedHop(env, h) && h.htlcMinimum.None? && h.htlcMaximum.None?
    ensures |HopBytes(h)| == 51 && ParseHop(env, HopBytes(h)) == Ok(h)
  {
    PowerValues();
    var b := HopBytes(h);
    assert b[..33] == h.node;
    assert b[33..41] == Be(h.scid, 8);
    assert b[41..45] == Be(h.feeBase, 4);
    assert b[45..49] == Be(h.feeProportional, 4);
    assert b[49..51] == Be(h.cltvDelta, 2);
  }

  lemma ParseHopFirst(env: Env, first: seq<u8>, rest: seq<u8>)
    requires |first| == 51 && |rest| % 51 == 0
    ensures |first + rest| % 51 == 0
    ensures ParseHop(env, first).Ok? && ParseHops(env, rest).Ok? ==>
      ParseHops(env, first + rest) == Ok([ParseHop(env, first).value] + ParseHops(env, rest).value)
  {
    var b := first + rest;
    assert b[..51] == first && b[51..] == rest;
  }

  lemma {:induction false} ReadBackHops(env: Env, hops: seq<RouteHop>)
    requires (forall i :: 0 <= i < |hops| ==> TypedHop(env, hops[i])) && NormalHops(hops)
    ensures HopsFit(hops) && |RouteBytes(hops)| % 51 == 0
    ensures ParseHops(env, RouteBytes(hops)) == Ok(hops)
    decreases |hops|
  {
    if hops != [] {
      ReadBackHop(env, hops[0]);
      ReadBackHops(env, hops[1..]);
      ParseHopFirst(env, HopBytes(hops[0]), RouteBytes(hops[1..]));
      assert hops == [hops[0]] + hops[1..];
    }
  }

  lemma ReadBackU64(n: nat)
    requires n < U64
    ensures ParseU64(Digits(n, 32)) == Ok(n)
  {
    ValueOfDigits(n, 32);
    ParseIntBeIff(Digits(n, 32), 32, U64 - 1);
  }

  lemma ReadBackFallback(env: Env, a: Fallback)
    requires Typed(env, FallbackAddress(a)) && NormalField(FallbackAddress(a))
    ensures ParseFallback(Payload(env, FallbackAddress(a))) == Ok(a)
  {
    var bytes := if a.SegWitProgram? then a.program else a.hash;
    DecodeEncoded(bytes);
    assert Payload(env, FallbackAddress(a))[1..] == ToBase32(bytes);
  }

  lemma ReadBackBytes(env: Env, f: TaggedField, b: seq<u8>)
    requires Typed(env, f)
      && f in {PaymentHash(b), Description(b), PayeePubKey(b), DescriptionHash(b), PaymentSecret(b)}
    ensures ParsePayload(env, Tag(f), Payload(env, f)) == Ok(f)
  {
    DecodeEncoded(b);
  }

  lemma ReadBackRoute(env: Env, hops: seq<RouteHop>)
    requires Typed(env, PrivateRoute(hops)) && NormalHops(hops)
    ensures ParseRoute(env, Payload(env, PrivateRoute(hops))) == Ok(hops)
  {
    ReadBackHops(env, hops);
    DecodeEncoded(RouteBytes(hops));
  }

  lemma ReadBackExpiry(env: Env, seconds: nat)
    requires seconds < U64
    ensures ParsePayload(env, TAG_EXPIRY_TIME, Digits(seconds, 32)) == Ok(ExpiryTime(seconds, 0))
  {
    ReadBackU64(seconds);
  }

  lemma ReadBackCltv(env: Env, blocks: nat)
    requires blocks < U64
    ensures ParsePayload(env, TAG_MIN_FINAL_CLTV_EXPIRY, Digits(blocks, 32)) == Ok(MinFinalCltvExpiry(blocks))
  {
    ReadBackU64(blocks);
  }

  lemma ReadBackAddress(env: Env, a: Fallback)
    requires Typed(env, FallbackAddress(a)) && NormalField(FallbackAddress(a))
    ensures ParsePayload(env, TAG_FALLBACK, Payload(env, FallbackAddress(a))) == Ok(FallbackAddress(a))
  {
    ReadBackFallback(env, a);
  }

  lemma ReadBackPrivateRoute(env: Env, hops: seq<RouteHop>)
    requires Typed(env, PrivateRoute(hops)) && NormalHops(hops)
    ensures ParsePayload(env, TAG_PRIVATE_ROUTE, Payload(env, PrivateRoute(hops))) == Ok(PrivateRoute(hops))
  {
    ReadBackRoute(env, hops);
  }

  lemma ReadBackFeatures(env: Env, flags: seq<u8>)
    requires NormalFlags(flags)
    ensures ParsePayload(env, TAG_FEATURES, FeatureSymbols(flags)) == Ok(Features(flags))
  {
    ReadBackFlags(flags);
  }

  /** Every normal field's payload reads back as the field. */
  lemma ReadBackPayload(env: Env, f: TaggedField)
    requires Typed(env, f) && NormalField(f)
    ensures ParsePayload(env, Tag(f), Payload(env, f)) == Ok(f)
  {
    match f
    case PaymentHash(h) => ReadBackBytes(env, f, h);
    case Description(t) => ReadBackBytes(env, f, t);
    case PayeePubKey(k) => ReadBackBytes(env, f, k);
    case DescriptionHash(h) => ReadBackBytes(env, f, h);
    case PaymentSecret(s) => ReadBackBytes(env, f, s);
    case ExpiryTime(seconds, _) => ReadBackExpiry(env, seconds);
    case MinFinalCltvExpiry(blocks) => ReadBackCltv(env, blocks);
    case FallbackAddress(a) => ReadBackAddress(env, a);
    case PrivateRoute(hops) => ReadBackPrivateRoute(env, hops);
    case Features(flags) => ReadBackFeatures(env, flags);
  }

  lemma NormalFits(env: Env, f: TaggedField)
    requires Typed(env, f) && NormalField(f)
    ensures DeclaredLen(f) < 1024
  {
    if f.ExpiryTime? { EncodedSizeIsDigits(f.seconds); }
    if f.MinFinalCltvExpiry? { EncodedSizeIsDigits(f.blocks); }
  }

  /** A normal field writes one complete chunk, and that chunk reads back as the field. */
  lemma ReadBackChunk(env: Env, f: RawTaggedField)
    requires TypedRaw(env, f) && NormalRaw(env, f)
    ensures EncodeRaw(env, f).Some? && Framed(EncodeRaw(env, f).value)
      && ParseRaw(env, EncodeRaw(env, f).value) == Ok(f)
  {
    if f.KnownSemantics? {
      NormalFits(env, f.field);
      HeaderMatchesPayload(env, f.field);
      ReadBackPayload(env, f.field);
      var h, e := Header(Tag(f.field), DeclaredLen(f.field)).value, EncodeRaw(env, f).value;
      assert e[1..3] == h[1..3] && e[0] == Tag(f.field) && e[3..] == Payload(env, f.field);
    }
  }

  // ---------- Chunk by chunk ----------

  /** The reader is compositional: a complete chunk in front is read on its own. */
  lemma ReadChunkFirst(env: Env, chunk: seq<u5>, rest: seq<u5>)
    requires Framed(chunk)
    ensures ParseTagged(env, chunk + rest) ==
      match ParseRaw(env, chunk)
      case Err(e) => Err(e)
      case Ok(f) => (match ParseTagged(env, rest) case Err(e) => Err(e) case Ok(fs) => Ok([f] + fs))
  {
    var data := chunk + rest;
    assert data[1..3] == chunk[1..3];
    assert data[..|chunk|] == chunk && data[|chunk|..] == rest;
  }

  ghost function Concat(pieces: seq<seq<u5>>): seq<u5> {
    if pieces == [] then [] else pieces[0] + Concat(pieces[1..])
  }

  ghost predicate Reads(env: Env, chunks: seq<seq<u5>>, fs: seq<RawTaggedField>) {
    |chunks| == |fs| && forall i :: 0 <= i < |fs| ==> Framed(chunks[i]) && ParseRaw(env, chunks[i]) == Ok(fs[i])
  }

  lemma FirstChunk(env: Env, data: seq<u5>) returns (first: seq<u5>, rest: seq<u5>)
    requires data != [] && ParseTagged(env, data).Ok?
    ensures data == first + rest && Framed(first) && ParseRaw(env, first).Ok? && ParseTagged(env, rest).Ok?
    ensures ParseTagged(env, data).value == [ParseRaw(env, first).value] + ParseTagged(env, rest).value
  {
    var last := 3 + ParseLen(data[1..3]);
    first, rest := data[..last], data[last..];
    assert first[1..3] == data[1..3];
  }

  /** Successful reading splits the input into one complete chunk per field. */
  lemma {:induction false} SplitIntoChunks(env: Env, data: seq<u5>) returns (chunks: seq<seq<u5>>)
    requires ParseTagged(env, data).Ok?
    ensures Concat(chunks) == data && Reads(env, chunks, ParseTagged(env, data).value)
    decreases |data|
  {
    if data == [] { return []; }
    var first, rest := FirstChunk(env, data);
    var others := SplitIntoChunks(env, rest);
    chunks := [first] + others;
    assert chunks[1..] == others;
  }

  lemma {:induction false} ReadChunks(env: Env, chunks: seq<seq<u5>>, fs: seq<RawTaggedField>)
    requires Reads(env, chunks, fs)
    ensures ParseTagged(env, Concat(chunks)) == Ok(fs)
    decreases |chunks|
  {
    if chunks != [] {
      ReadChunkFirst(env, chunks[0], Concat(chunks[1..]));
      ReadChunks(env, chunks[1..], fs[1..]);
      assert fs == [fs[0]] + fs[1..];
    }
  }

  ghost predicate Writes(env: Env, fs: seq<RawTaggedField>, pieces: seq<seq<u5>>)
    requires forall i :: 0 <= i < |fs| ==> TypedRaw(env, fs[i])
  {
    |pieces| == |fs| && forall i :: 0 <= i < |fs| ==> EncodeRaw(env, fs[i]) == Some(pieces[i])
  }

  lemma {:induction false} WritePieces(env: Env, fs: seq<RawTaggedField>) returns (pieces: seq<seq<u5>>)
    requires forall i :: 0 <= i < |fs| ==> TypedRaw(env, fs[i])
    requires EncodeFields(env, fs).Some?
    ensures Writes(env, fs, pieces) && Concat(pieces) == EncodeFields(env, fs).value
    decreases |fs|
  {
    if fs == [] { return []; }
    var rest := WritePieces(env, fs[1..]);
    pieces := [EncodeRaw(env, fs[0]).value] + rest;
    forall i | 0 <= i < |fs| ensures EncodeRaw(env, fs[i]) == Some(pieces[i]) {
      if i > 0 { assert fs[i] == fs[1..][i - 1] && pieces[i] == rest[i - 1]; }
    }
    assert pieces[1..] == rest;
  }

  lemma {:induction false} WritableFields(env: Env, fs: seq<RawTaggedField>)
    requires forall i :: 0 <= i < |fs| ==> TypedRaw(env, fs[i]) && EncodeRaw(env, fs[i]).Some?
    ensures EncodeFields(env, fs).Some?
    decreases |fs|
  {
    if fs != [] { WritableFields(env, fs[1..]); }
  }

  // ---------- The laws ----------

  /** A normal data part survives writing and reading unchanged, whatever the number and order of its fields. */
  lemma NormalRoundTrips(env: Env, d: RawDataPart)
    requires TypedDataPart(env, d) && Normal(env, d)
    ensures EncodeDataPart(env, d).Some? && ParseDataPart(env, EncodeDataPart(env, d).value) == Ok(d)
  {
    forall i | 0 <= i < |d.fields|
      ensures EncodeRaw(env, d.fields[i]).Some? && Framed(EncodeRaw(env, d.fields[i]).value)
      ensures ParseRaw(env, EncodeRaw(env, d.fields[i]).value) == Ok(d.fields[i])
    {
      ReadBackChunk(env, d.fields[i]);
    }
    WritableFields(env, d.fields);
    var pieces := WritePieces(env, d.fields);
    ReadChunks(env, pieces, d.fields);
    PowerValues();
    var data, head := EncodeDataPart(env, d).value, Fixed(d.timestamp.seconds, 32, 7);
    assert data[..7] == head && data[7..] == Concat(pieces);
  }

  /** Everything read is well typed and normal. */
  lemma ReadIsNormal(env: Env, data: seq<u5>)
    requires ParseDataPart(env, data).Ok?
    ensures TypedDataPart(env, ParseDataPart(env, data).value) && Normal(env, ParseDataPart(env, data).value)
  {
    var d := ParseDataPart(env, data).value;
    var chunks := SplitIntoChunks(env, data[7..]);
    forall i | 0 <= i < |d.fields| ensures TypedRaw(env, d.fields[i]) && NormalRaw(env, d.fields[i]) {
      ParsedChunk(env, chunks[i]);
    }
  }

  /** Re-encoding loses no meaning, even if the original used leading zeros or unknown fields. */
  lemma ReencodingKeepsMeaning(env: Env, data: seq<u5>)
    requires ParseDataPart(env, data).Ok?
    ensures var d := ParseDataPart(env, data).value;
      && TypedDataPart(env, d) && EncodeDataPart(env, d).Some?
      && ParseDataPart(env, EncodeDataPart(env, d).value) == Ok(d)
  {
    ReadIsNormal(env, data);
    NormalRoundTrips(env, ParseDataPart(env, data).value);
  }

  /** Exactly the normal data parts survive writing and reading. */
  lemma RoundTripsIffNormal(env: Env, d: RawDataPart)
    requires TypedDataPart(env, d)
    ensures (EncodeDataPart(env, d).Some? && ParseDataPart(env, EncodeDataPart(env, d).value) == Ok(d)) <==>
      Normal(env, d)
  {
    if Normal(env, d) {
      NormalRoundTrips(env, d);
    } else if EncodeDataPart(env, d).Some? && ParseDataPart(env, EncodeDataPart(env, d).value) == Ok(d) {
      ReadIsNormal(env, EncodeDataPart(env, d).value);
    }
  }

  /** Reading the re-encoding of what was read never needs more symbols than the original did. */
  lemma ReencodingIsNoLonger(env: Env, data: seq<u5>)
    requires ParseDataPart(env, data).Ok?
    ensures var d := ParseDataPart(env, data).value;
      TypedDataPart(env, d) && EncodeDataPart(env, d).Some? && |EncodeDataPart(env, d).value| <= |data|
  {
    ReencodingKeepsMeaning(env, data);
    var d := ParseDataPart(env, data).value;
    var chunks := SplitIntoChunks(env, data[7..]);
    var pieces := WritePieces(env, d.fields);
    forall i | 0 <= i < |d.fields| ensures |pieces[i]| <= |chunks[i]| { ParsedChunk(env, chunks[i]); }
    ShorterPieces(pieces, chunks);
  }

  lemma {:induction false} ShorterPieces(a: seq<seq<u5>>, b: seq<seq<u5>>)
    requires |a| == |b| && forall i :: 0 <= i < |a| ==> |a[i]| <= |b[i]|
    ensures |Concat(a)| <= |Concat(b)|
    decreases |a|
  {
    if a != [] { ShorterPieces(a[1..], b[1..]); }
  }
}
