/**
 The data part of a BOLT 11 invoice: a timestamp and a list of length-prefixed tagged fields.
 Public keys and text are byte strings; which byte strings are valid keys and valid UTF-8 is
 decided by foreign code and left to `Env`.
 */
module DataPart {
  import opened Prelude
  import opened Base32
  import opened Integers

  datatype Env = Env(isUtf8: seq<u8> -> bool, isPubKey: seq<u8> -> bool)

  datatype Fallback =
    | SegWitProgram(version: u5, program: seq<u8>)
    | PubKeyHash(hash: seq<u8>)
    | ScriptHash(hash: seq<u8>)

  datatype RouteHop = RouteHop(
    node: seq<u8>, scid: nat, feeBase: nat, feeProportional: nat, cltvDelta: nat,
    htlcMinimum: Option<nat>, htlcMaximum: Option<nat>)

  datatype TaggedField =
    | PaymentHash(hash: seq<u8>)
    | Description(text: seq<u8>)
    | PayeePubKey(key: seq<u8>)
    | DescriptionHash(hash: seq<u8>)
    | ExpiryTime(seconds: nat, nanos: nat)
    | MinFinalCltvExpiry(blocks: nat)
    | FallbackAddress(address: Fallback)
    | PrivateRoute(hops: seq<RouteHop>)
    | PaymentSecret(secret: seq<u8>)
    | Features(flags: seq<u8>)

  datatype RawTaggedField = KnownSemantics(field: TaggedField) | UnknownSemantics(content: seq<u5>)

  datatype Timestamp = Timestamp(seconds: nat, nanos: nat)

  datatype RawDataPart = RawDataPart(timestamp: Timestamp, fields: seq<RawTaggedField>)

  const TAG_PAYMENT_HASH: u5 := 1
  const TAG_PRIVATE_ROUTE: u5 := 3
  const TAG_FEATURES: u5 := 5
  const TAG_EXPIRY_TIME: u5 := 6
  const TAG_FALLBACK: u5 := 9
  const TAG_DESCRIPTION: u5 := 13
  const TAG_PAYMENT_SECRET: u5 := 16
  const TAG_PAYEE_PUB_KEY: u5 := 19
  const TAG_DESCRIPTION_HASH: u5 := 23
  const TAG_MIN_FINAL_CLTV_EXPIRY: u5 := 24

  const U32: nat := 0x1_0000_0000
  const U16: nat := 0x1_0000
  const MAX_TIMESTAMP: nat := 0x7_FFFF_FFFF
  const NANOS: nat := 1_000_000_000

  // ---------- What the program's types guarantee ----------

  ghost predicate TypedHop(env: Env, h: RouteHop) {
    && |h.node| == 33 && env.isPubKey(h.node)
    && h.scid < U64 && h.feeBase < U32 && h.feeProportional < U32 && h.cltvDelta < U16
  }

  ghost predicate Typed(env: Env, f: TaggedField) {
    match f
    case PaymentHash(h) => |h| == 32
    case Description(t) => |t| <= 639 && env.isUtf8(t)
    case PayeePubKey(k) => |k| == 33 && env.isPubKey(k)
    case DescriptionHash(h) => |h| == 32
    case ExpiryTime(s, n) => s < U64 && n < NANOS
    case MinFinalCltvExpiry(b) => b < U64
    case FallbackAddress(a) => !a.SegWitProgram? ==> |a.hash| == 20
    case PrivateRoute(hops) => |hops| <= 12 && forall i :: 0 <= i < |hops| ==> TypedHop(env, hops[i])
    case PaymentSecret(s) => |s| == 32
    case Features(_) => true
  }

  ghost predicate TypedRaw(env: Env, f: RawTaggedField) { f.KnownSemantics? ==> Typed(env, f.field) }

  ghost predicate TypedDataPart(env: Env, d: RawDataPart) {
    && d.timestamp.seconds <= MAX_TIMESTAMP && d.timestamp.nanos < NANOS
    && forall i :: 0 <= i < |d.fields| ==> TypedRaw(env, d.fields[i])
  }

  // ---------- Writing ----------

  /** Feature bits, little-endian in memory, are written as one number with the leading zero symbols trimmed. */
  function FeatureSymbols(flags: seq<u8>): seq<u5> { Digits(Value(Reverse(flags), 256), 32) }

  lemma PowerValues()
    ensures Power(256, 8) == U64 && Power(256, 4) == U32 && Power(256, 2) == U16
    ensures Power(32, 7) == MAX_TIMESTAMP + 1 && Power(32, 2) == 1024
  {
    assert Power(256, 4) == 0x1_0000 * Power(256, 2);
    assert Power(256, 6) == 0x1_0000 * Power(256, 4);
    assert Power(256, 8) == 0x1_0000 * Power(256, 6);
    assert Power(32, 4) == 1024 * Power(32, 2);
    assert Power(32, 6) == 1024 * Power(32, 4);
  }

  /** An integer in exactly `len` bytes. */
  function Be(n: nat, len: nat): (bytes: seq<u8>)
    requires n < Power(256, len)
    ensures |bytes| == len && Value(bytes, 256) == n
  {
    Fixed(n, 256, len)
  }

  function HopBytes(h: RouteHop): (bytes: seq<u8>)
    requires h.scid < U64 && h.feeBase < U32 && h.feeProportional < U32 && h.cltvDelta < U16
    ensures |bytes| == |h.node| + 18
  {
    PowerValues();
    h.node + Be(h.scid, 8) + Be(h.feeBase, 4) + Be(h.feeProportional, 4) + Be(h.cltvDelta, 2)
  }

  ghost predicate HopsFit(hops: seq<RouteHop>) {
    forall i :: 0 <= i < |hops| ==>
      |hops[i].node| == 33 && hops[i].scid < U64 && hops[i].feeBase < U32 && hops[i].feeProportional < U32
        && hops[i].cltvDelta < U16
  }

  function RouteBytes(hops: seq<RouteHop>): (bytes: seq<u8>)
    requires HopsFit(hops)
    ensures |bytes| == 51 * |hops|
  {
    if hops == [] then [] else HopBytes(hops[0]) + RouteBytes(hops[1..])
  }

  function Tag(f: TaggedField): u5 {
    match f
    case PaymentHash(_) => TAG_PAYMENT_HASH
    case Description(_) => TAG_DESCRIPTION
    case PayeePubKey(_) => TAG_PAYEE_PUB_KEY
    case DescriptionHash(_) => TAG_DESCRIPTION_HASH
    case ExpiryTime(_, _) => TAG_EXPIRY_TIME
    case MinFinalCltvExpiry(_) => TAG_MIN_FINAL_CLTV_EXPIRY
    case FallbackAddress(_) => TAG_FALLBACK
    case PrivateRoute(_) => TAG_PRIVATE_ROUTE
    case PaymentSecret(_) => TAG_PAYMENT_SECRET
    case Features(_) => TAG_FEATURES
  }

  /** The `write_base32` of each field's payload. */
  function Payload(env: Env, f: TaggedField): seq<u5>
    requires Typed(env, f)
  {
    match f
    case PaymentHash(h) => ToBase32(h)
    case Description(t) => ToBase32(t)
    case PayeePubKey(k) => ToBase32(k)
    case DescriptionHash(h) => ToBase32(h)
    case ExpiryTime(s, _) => Digits(s, 32)
    case MinFinalCltvExpiry(b) => Digits(b, 32)
    case FallbackAddress(a) =>
      (match a
       case SegWitProgram(v, p) => [v] + ToBase32(p)
       case PubKeyHash(h) => [17] + ToBase32(h)
       case ScriptHash(h) => [18] + ToBase32(h))
    case PrivateRoute(hops) => ToBase32(RouteBytes(hops))
    case PaymentSecret(s) => ToBase32(s)
    case Features(flags) => FeatureSymbols(flags)
  }

  /** The `base32_len` of each field's payload, computed without writing it. */
  function DeclaredLen(f: TaggedField): nat {
    match f
    case PaymentHash(h) => Base32Size(|h|)
    case Description(t) => Base32Size(|t|)
    case PayeePubKey(_) => Base32Size(33)
    case DescriptionHash(h) => Base32Size(|h|)
    case ExpiryTime(s, _) => EncodedSize(s)
    case MinFinalCltvExpiry(b) => EncodedSize(b)
    case FallbackAddress(a) => if a.SegWitProgram? then Base32Size(|a.program|) + 1 else 33
    case PrivateRoute(hops) => Base32Size(|hops| * 51)
    case PaymentSecret(_) => 52
    case Features(flags) => |FeatureSymbols(flags)|
  }

  /** The length written in a field's header is the length of the payload that follows it. */
  lemma HeaderMatchesPayload(env: Env, f: TaggedField)
    requires Typed(env, f)
    ensures DeclaredLen(f) == |Payload(env, f)|
  {
    if f.ExpiryTime? { EncodedSizeIsDigits(f.seconds); }
    if f.MinFinalCltvExpiry? { EncodedSizeIsDigits(f.blocks); }
  }

  /** Tag and length; None is the panic on payloads of 1024 symbols or more. */
  function Header(tag: u5, len: nat): (r: Option<seq<u5>>)
    ensures r.Some? <==> len < 1024
    ensures r.Some? ==> |r.value| == 3 && r.value[0] == tag && Value(r.value[1..3], 32) == len
  {
    if len >= 1024 then None
    else
      PowerValues();
      var digits: seq<u5> := Fixed(len, 32, 2);
      var h := [tag] + digits;
      assert h[1..3] == digits;
      Some(h)
  }

  function EncodeField(env: Env, f: TaggedField): (r: Option<seq<u5>>)
    requires Typed(env, f)
    ensures r.Some? <==> DeclaredLen(f) < 1024
    ensures r.Some? ==> |r.value| == 3 + |Payload(env, f)|
  {
    match Header(Tag(f), DeclaredLen(f))
    case None => None
    case Some(h) => Some(h + Payload(env, f))
  }

  function EncodeRaw(env: Env, f: RawTaggedField): Option<seq<u5>>
    requires TypedRaw(env, f)
  {
    match f
    case KnownSemantics(k) => EncodeField(env, k)
    case UnknownSemantics(c) => Some(c)
  }

  function EncodeFields(env: Env, fs: seq<RawTaggedField>): Option<seq<u5>>
    requires forall i :: 0 <= i < |fs| ==> TypedRaw(env, fs[i])
  {
    if fs == [] then Some([])
    else match EncodeRaw(env, fs[0])
      case None => None
      case Some(e) =>
        match EncodeFields(env, fs[1..])
        case None => None
        case Some(rest) => Some(e + rest)
  }

  function EncodeDataPart(env: Env, d: RawDataPart): Option<seq<u5>>
    requires TypedDataPart(env, d)
  {
    PowerValues();
    match EncodeFields(env, d.fields)
    case None => None
    case Some(rest) => Some(Fixed(d.timestamp.seconds, 32, 7) + rest)
  }

  // ---------- Reading ----------

  datatype ParseError =
    | TooShortDataPart
    | UnexpectedEndOfTaggedFields
    | InvalidPadding
    | InvalidLength
    | DescriptionDecodeError
    | MalformedKey
    | IntegerOverflow
    | InvalidSegWitProgramLength
    | InvalidPubKeyHashLength
    | InvalidScriptHashLength
    | Skip

  datatype Parsed<+T> = Ok(value: T) | Err(error: ParseError)

  function ParseBytes(syms: seq<u5>): Parsed<seq<u8>> {
    match FromBase32(syms)
    case None => Err(InvalidPadding)
    case Some(b) => Ok(b)
  }

  function ParseHash(syms: seq<u5>): Parsed<seq<u8>> {
    if |syms| != 52 then Err(Skip) else ParseBytes(syms)
  }

  function ParseDescription(env: Env, syms: seq<u5>): Parsed<seq<u8>> {
    match ParseBytes(syms)
    case Err(e) => Err(e)
    case Ok(b) => if env.isUtf8(b) then Ok(b) else Err(DescriptionDecodeError)
  }

  function ParsePubKey(env: Env, syms: seq<u5>): Parsed<seq<u8>> {
    if |syms| != 53 then Err(Skip)
    else match ParseBytes(syms)
      case Err(e) => Err(e)
      case Ok(b) => if env.isPubKey(b) then Ok(b) else Err(MalformedKey)
  }

  function ParseU64(syms: seq<u5>): Parsed<nat> {
    match ParseIntBe(syms, 32, U64 - 1)
    case Some(n) => Ok(n)
    case None => Err(IntegerOverflow)
  }

  function ParseFallback(syms: seq<u5>): Parsed<Fallback> {
    if |syms| < 1 then Err(UnexpectedEndOfTaggedFields)
    else match ParseBytes(syms[1..])
      case Err(e) => Err(e)
      case Ok(b) =>
        var v := syms[0];
        if v <= 16 then
          if |b| < 2 || |b| > 40 then Err(InvalidSegWitProgramLength) else Ok(SegWitProgram(v, b))
        else if v == 17 then
          if |b| != 20 then Err(InvalidPubKeyHashLength) else Ok(PubKeyHash(b))
        else if v == 18 then
          if |b| != 20 then Err(InvalidScriptHashLength) else Ok(ScriptHash(b))
        else Err(Skip)
  }

  /** A fixed-width integer whose type is as wide as its bytes: the overflow check cannot fail. */
  function ParseFixed(bytes: seq<u8>, bound: nat): (n: nat)
    requires Power(256, |bytes|) == bound
    ensures n < bound && n == Value(bytes, 256)
  {
    ValueBound(bytes, 256);
    ParseIntBeIff(bytes, 256, bound - 1);
    ParseIntBe(bytes, 256, bound - 1).value
  }

  function ParseHop(env: Env, b: seq<u8>): Parsed<RouteHop>
    requires |b| == 51
  {
    PowerValues();
    if !env.isPubKey(b[..33]) then Err(MalformedKey)
    else Ok(RouteHop(b[..33], ParseFixed(b[33..41], U64), ParseFixed(b[41..45], U32), ParseFixed(b[45..49], U32),
                     ParseFixed(b[49..51], U16), None, None))
  }

  function ParseHops(env: Env, b: seq<u8>): Parsed<seq<RouteHop>>
    requires |b| % 51 == 0
    decreases |b|
  {
    if b == [] then Ok([])
    else match ParseHop(env, b[..51])
      case Err(e) => Err(e)
      case Ok(h) =>
        match ParseHops(env, b[51..])
        case Err(e) => Err(e)
        case Ok(rest) => Ok([h] + rest)
  }

  function ParseRoute(env: Env, syms: seq<u5>): Parsed<seq<RouteHop>> {
    match ParseBytes(syms)
    case Err(e) => Err(e)
    case Ok(b) => if |b| % 51 != 0 then Err(UnexpectedEndOfTaggedFields) else ParseHops(env, b)
  }

  function ParseSecret(syms: seq<u5>): Parsed<seq<u8>> {
    if |syms| != 52 then Err(InvalidLength) else ParseBytes(syms)
  }

  /** Feature bits are read as one number, with the high zero bytes trimmed. */
  function FeatureFlags(syms: seq<u5>): seq<u8> { Reverse(Digits(Value(syms, 32), 256)) }

  function Lift<T, U>(r: Parsed<T>, f: T -> U): Parsed<U> {
    match r
    case Err(e) => Err(e)
    case Ok(v) => Ok(f(v))
  }

  /** `TaggedField::from_base32` on a field's tag and payload. */
  function ParsePayload(env: Env, tag: u5, syms: seq<u5>): Parsed<TaggedField> {
    if tag == TAG_PAYMENT_HASH then Lift(ParseHash(syms), h => PaymentHash(h))
    else if tag == TAG_DESCRIPTION then Lift(ParseDescription(env, syms), t => Description(t))
    else if tag == TAG_PAYEE_PUB_KEY then Lift(ParsePubKey(env, syms), k => PayeePubKey(k))
    else if tag == TAG_DESCRIPTION_HASH then Lift(ParseHash(syms), h => DescriptionHash(h))
    else if tag == TAG_EXPIRY_TIME then Lift(ParseU64(syms), s => ExpiryTime(s, 0))
    else if tag == TAG_MIN_FINAL_CLTV_EXPIRY then Lift(ParseU64(syms), b => MinFinalCltvExpiry(b))
    else if tag == TAG_FALLBACK then Lift(ParseFallback(syms), a => FallbackAddress(a))
    else if tag == TAG_PRIVATE_ROUTE then Lift(ParseRoute(env, syms), hs => PrivateRoute(hs))
    else if tag == TAG_PAYMENT_SECRET then Lift(ParseSecret(syms), s => PaymentSecret(s))
    else if tag == TAG_FEATURES then Ok(Features(FeatureFlags(syms)))
    else Err(Skip)
  }

  /** One complete field; fields the reader must skip are kept as they are. */
  function ParseRaw(env: Env, chunk: seq<u5>): Parsed<RawTaggedField>
    requires |chunk| >= 3
  {
    match ParsePayload(env, chunk[0], chunk[3..])
    case Ok(f) => Ok(KnownSemantics(f))
    case Err(Skip) => Ok(UnknownSemantics(chunk))
    case Err(InvalidLength) => Ok(UnknownSemantics(chunk))
    case Err(e) => Err(e)
  }

  /** The two length symbols; they always fit. */
  function ParseLen(syms: seq<u5>): (n: nat)
    requires |syms| == 2
    ensures n < 1024 && n == Value(syms, 32)
  {
    PowerValues();
    ValueBound(syms, 32);
    ParseIntBeIff(syms, 32, U64 - 1);
    ParseIntBe(syms, 32, U64 - 1).value
  }

  /** The seven timestamp symbols; they are always in range. */
  function ParseTimestamp(syms: seq<u5>): (t: Timestamp)
    requires |syms| == 7
    ensures t.seconds <= MAX_TIMESTAMP && t == Timestamp(Value(syms, 32), 0)
  {
    PowerValues();
    ValueBound(syms, 32);
    ParseIntBeIff(syms, 32, U64 - 1);
    Timestamp(ParseIntBe(syms, 32, U64 - 1).value, 0)
  }

  /** `parse_tagged_parts`. */
  function ParseTagged(env: Env, data: seq<u5>): Parsed<seq<RawTaggedField>>
    decreases |data|
  {
    if data == [] then Ok([])
    else if |data| < 3 then Err(UnexpectedEndOfTaggedFields)
    else
      var last := 3 + ParseLen(data[1..3]);
      if |data| < last then Err(UnexpectedEndOfTaggedFields)
      else match ParseRaw(env, data[..last])
        case Err(e) => Err(e)
        case Ok(f) =>
          match ParseTagged(env, data[last..])
          case Err(e) => Err(e)
          case Ok(rest) => Ok([f] + rest)
  }

  function ParseDataPart(env: Env, data: seq<u5>): Parsed<RawDataPart> {
    if |data| < 7 then Err(TooShortDataPart)
    else match ParseTagged(env, data[7..])
      case Err(e) => Err(e)
      case Ok(fs) => Ok(RawDataPart(ParseTimestamp(data[..7]), fs))
  }

  // ---------- The writing and reading loops ----------

  lemma {:induction false} RouteBytesSnoc(hops: seq<RouteHop>, h: RouteHop)
    requires HopsFit(hops) && HopsFit([h])
    ensures var one := [h]; HopsFit(hops + [h]) && RouteBytes(hops + [h]) == RouteBytes(hops) + HopBytes(one[0])
    decreases |hops|
  {
    var all := hops + [h];
    assert h == [h][0];
    if hops != [] {
      assert all[1..] == hops[1..] + [h];
      RouteBytesSnoc(hops[1..], h);
      Assoc(HopBytes(hops[0]), RouteBytes(hops[1..]), HopBytes(h));
    }
  }

  lemma RouteBytesNext(hops: seq<RouteHop>, i: nat)
    requires HopsFit(hops) && i < |hops|
    ensures HopsFit(hops[..i]) && HopsFit(hops[..i + 1])
      && RouteBytes(hops[..i + 1]) == RouteBytes(hops[..i]) + HopBytes(hops[i])
  {
    assert hops[..i + 1] == hops[..i] + [hops[i]];
    RouteBytesSnoc(hops[..i], hops[i]);
  }

  /** Appends one hop, field by field, to a conversion that has consumed `input` so far. */
  method AppendHop(c: BytesToBase32, h: RouteHop, ghost before: seq<u5>, ghost input: seq<u8>)
    requires c.Holds(before, input)
    requires h.scid < U64 && h.feeBase < U32 && h.feeProportional < U32 && h.cltvDelta < U16
    modifies c
    ensures c.Holds(before, input + HopBytes(h))
  {
    PowerValues();
    var scid, base, prop, delta := Be(h.scid, 8), Be(h.feeBase, 4), Be(h.feeProportional, 4), Be(h.cltvDelta, 2);
    c.Append(h.node, before, input);
    c.Append(scid, before, input + h.node);
    c.Append(base, before, input + h.node + scid);
    c.Append(prop, before, input + h.node + scid + base);
    c.Append(delta, before, input + h.node + scid + base + prop);
    FivePieces(input, h.node, scid, base, prop, delta);
  }

  lemma FivePieces<T>(x: seq<T>, a: seq<T>, b: seq<T>, c: seq<T>, d: seq<T>, e: seq<T>)
    ensures x + a + b + c + d + e == x + (a + b + c + d + e)
  {
    Assoc(x, a, b);
    Assoc(x, a + b, c);
    Assoc(x, a + b + c, d);
    Assoc(x, a + b + c + d, e);
  }

  /** `PrivateRoute::write_base32`: one converter for the whole route, so padding is added once, at the end. */
  method WriteRoute(writer: seq<u5>, hops: seq<RouteHop>) returns (out: seq<u5>)
    requires HopsFit(hops)
    ensures out == writer + ToBase32(RouteBytes(hops))
  {
    var c := new BytesToBase32(writer);
    assert hops[..0] == [];
    for i := 0 to |hops|
      invariant HopsFit(hops[..i]) && c.Holds(writer, RouteBytes(hops[..i]))
    {
      RouteBytesNext(hops, i);
      AppendHop(c, hops[i], writer, RouteBytes(hops[..i]));
    }
    assert hops[..|hops|] == hops;
    c.Finalize(writer, RouteBytes(hops));
    out := c.writer;
  }

  function Prepend<T>(xs: seq<T>, r: Parsed<seq<T>>): Parsed<seq<T>> {
    match r
    case Err(e) => Err(e)
    case Ok(ys) => Ok(xs + ys)
  }

  lemma PrependTwice<T>(xs: seq<T>, x: T, r: Parsed<seq<T>>)
    ensures Prepend(xs, Prepend([x], r)) == Prepend(xs + [x], r)
  {
    if r.Ok? { Assoc(xs, [x], r.value); }
  }

  lemma PrependNothing<T>(r: Parsed<seq<T>>)
    ensures Prepend([], r) == r
  {
    if r.Ok? { assert [] + r.value == r.value; }
  }

  /** The loop of `PrivateRoute::from_base32` over a shrinking slice. */
  method ParseRouteHops(env: Env, bytes: seq<u8>) returns (r: Parsed<seq<RouteHop>>)
    requires |bytes| % 51 == 0
    ensures r == ParseHops(env, bytes)
  {
    var hops, rest := [], bytes;
    PrependNothing(ParseHops(env, bytes));
    while rest != []
      invariant |rest| % 51 == 0
      invariant ParseHops(env, bytes) == Prepend(hops, ParseHops(env, rest))
      decreases |rest|
    {
      var hop := ParseHop(env, rest[..51]);
      if hop.Err? { return Err(hop.error); }
      PrependTwice(hops, hop.value, ParseHops(env, rest[51..]));
      hops, rest := hops + [hop.value], rest[51..];
    }
    assert hops + [] == hops;
    r := Ok(hops);
  }

  /** The loop of `parse_tagged_parts` over a shrinking slice. */
  method ParseTaggedParts(env: Env, data: seq<u5>) returns (r: Parsed<seq<RawTaggedField>>)
    ensures r == ParseTagged(env, data)
  {
    var parts, rest := [], data;
    PrependNothing(ParseTagged(env, data));
    while rest != []
      invariant ParseTagged(env, data) == Prepend(parts, ParseTagged(env, rest))
      decreases |rest|
    {
      if |rest| < 3 { return Err(UnexpectedEndOfTaggedFields); }
      var last := 3 + ParseLen(rest[1..3]);
      if |rest| < last { return Err(UnexpectedEndOfTaggedFields); }
      var field := ParseRaw(env, rest[..last]);
      if field.Err? { return Err(field.error); }
      PrependTwice(parts, field.value, ParseTagged(env, rest[last..]));
      parts, rest := parts + [field.value], rest[last..];
    }
    assert parts + [] == parts;
    r := Ok(parts);
  }
}
