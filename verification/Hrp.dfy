/**
 The human-readable part of a BOLT 11 invoice: "ln", a currency code, and optionally an amount
 with an SI prefix. The parser is a state machine over ASCII characters that collects three ranges.
 */
module Hrp {
  import opened Prelude
  import opened Integers

  datatype HrpError = MalformedHRP | UnknownSiPrefix | UnknownCurrency | ParseAmountError | IntegerOverflow

  datatype Result<+T> = Ok(value: T) | Err(error: HrpError)

  // ---------- The state machine ----------

  datatype States = Start | ParseL | ParseN | ParseCurrencyPrefix | ParseAmountNumber | ParseAmountSiPrefix

  /** The source asks for any Unicode digit; on ASCII text, all that bech32 admits, it is one of ten. */
  predicate IsNumeric(c: char) { '0' <= c <= '9' }

  predicate Ascii(s: string) { forall i :: 0 <= i < |s| ==> s[i] < 128 as char }

  predicate IsSiLetter(c: char) { c in {'m', 'u', 'n', 'p'} }

  function NextState(s: States, c: char): Result<States> {
    match s
    case Start => if c == 'l' then Ok(ParseL) else Err(MalformedHRP)
    case ParseL => if c == 'n' then Ok(ParseN) else Err(MalformedHRP)
    case ParseN => Ok(if !IsNumeric(c) then ParseCurrencyPrefix else ParseAmountNumber)
    case ParseCurrencyPrefix => Ok(if !IsNumeric(c) then ParseCurrencyPrefix else ParseAmountNumber)
    case ParseAmountNumber =>
      if IsNumeric(c) then Ok(ParseAmountNumber)
      else if IsSiLetter(c) then Ok(ParseAmountSiPrefix)
      else Err(UnknownSiPrefix)
    case ParseAmountSiPrefix => Err(MalformedHRP)
  }

  predicate IsFinal(s: States) { !(s == ParseL || s == ParseN) }

  datatype Range = Range(start: nat, end: nat)

  function UpdateRange(r: Option<Range>, position: nat): Option<Range> {
    match r
    case None => Some(Range(position, position + 1))
    case Some(r) => Some(Range(r.start, r.end + 1))
  }

  /** The machine's fields, as a value. */
  datatype Machine = Machine(
    state: States, position: nat, currency: Option<Range>, amount: Option<Range>, si: Option<Range>)

  const INITIAL := Machine(Start, 0, None, None, None)

  function StepTo(m: Machine, c: char): Result<Machine> {
    match NextState(m.state, c)
    case Err(e) => Err(e)
    case Ok(s) =>
      Ok(Machine(s, m.position + 1,
                 if s == ParseCurrencyPrefix then UpdateRange(m.currency, m.position) else m.currency,
                 if s == ParseAmountNumber then UpdateRange(m.amount, m.position) else m.amount,
                 if s == ParseAmountSiPrefix then UpdateRange(m.si, m.position) else m.si))
  }

  function Run(m: Machine, input: string): Result<Machine>
    decreases |input|
  {
    if input == "" then Ok(m)
    else match StepTo(m, input[0])
      case Err(e) => Err(e)
      case Ok(n) => Run(n, input[1..])
  }

  class StateMachine {
    var state: States
    var position: nat
    var currencyPrefix: Option<Range>
    var amountNumber: Option<Range>
    var amountSiPrefix: Option<Range>

    ghost function View(): Machine
      reads this
    {
      Machine(state, position, currencyPrefix, amountNumber, amountSiPrefix)
    }

    constructor ()
      ensures View() == INITIAL
    {
      state, position := Start, 0;
      currencyPrefix, amountNumber, amountSiPrefix := None, None, None;
    }

    method Step(c: char) returns (error: Option<HrpError>)
      modifies this
      ensures error.None? ==> StepTo(old(View()), c) == Ok(View())
      ensures error.Some? ==> StepTo(old(View()), c) == Err(error.value) && View() == old(View())
    {
      var next := NextState(state, c);
      if next.Err? { return Some(next.error); }
      match next.value {
        case ParseCurrencyPrefix => currencyPrefix := UpdateRange(currencyPrefix, position);
        case ParseAmountNumber => amountNumber := UpdateRange(amountNumber, position);
        case ParseAmountSiPrefix => amountSiPrefix := UpdateRange(amountSiPrefix, position);
        case _ =>
      }
      position := position + 1;
      state := next.value;
      error := None;
    }
  }

  datatype Parts = Parts(currency: string, amount: string, si: string)

  function Slice(input: string, r: Option<Range>): string {
    if r.Some? && r.value.start <= r.value.end <= |input| then input[r.value.start..r.value.end] else ""
  }

  /** `parse_hrp`, as a function. */
  function SplitHrp(input: string): Result<Parts>
    requires Ascii(input)
  {
    match Run(INITIAL, input)
    case Err(e) => Err(e)
    case Ok(m) =>
      if !IsFinal(m.state) then Err(MalformedHRP)
      else Ok(Parts(Slice(input, m.currency), Slice(input, m.amount), Slice(input, m.si)))
  }

  /** `parse_hrp`: steps the machine over the input. */
  method ParseHrp(input: string) returns (r: Result<Parts>)
    requires Ascii(input)
    ensures r == SplitHrp(input)
  {
    var sm := new StateMachine();
    for i := 0 to |input|
      invariant Run(INITIAL, input) == Run(sm.View(), input[i..])
    {
      assert input[i..][1..] == input[i + 1..];
      var error := sm.Step(input[i]);
      if error.Some? { return Err(error.value); }
    }
    if !IsFinal(sm.state) { return Err(MalformedHRP); }
    r := Ok(Parts(Slice(input, sm.currencyPrefix), Slice(input, sm.amountNumber), Slice(input, sm.amountSiPrefix)));
  }

  // ---------- The language it accepts ----------

  predicate AllNumeric(s: string) { forall i :: 0 <= i < |s| ==> IsNumeric(s[i]) }
  predicate NoneNumeric(s: string) { forall i :: 0 <= i < |s| ==> !IsNumeric(s[i]) }

  /** What an accepted input consists of. */
  predicate WellSplit(p: Parts) {
    && NoneNumeric(p.currency) && AllNumeric(p.amount)
    && (p.si == "" || (|p.si| == 1 && IsSiLetter(p.si[0]) && p.amount != ""))
    && (p.currency != "" || p.amount != "")
  }

  function Join(p: Parts): string { "ln" + p.currency + p.amount + p.si }

  /** The range a machine holds after collecting `n` characters from position `at`. */
  function Collected(at: nat, n: nat): Option<Range> { if n == 0 then None else Some(Range(at, at + n)) }

  /** The machine after reading "ln", then `c` currency characters, `a` digits and `s` prefix letters. */
  function After(c: nat, a: nat, s: nat): Machine {
    Machine(if s > 0 then ParseAmountSiPrefix
            else if a > 0 then ParseAmountNumber
            else if c > 0 then ParseCurrencyPrefix
            else ParseN,
            2 + c + a + s, Collected(2, c), Collected(2 + c, a), Collected(2 + c + a, s))
  }

  lemma {:induction false} RunCurrency(c: nat, cs: string, rest: string)
    requires NoneNumeric(cs)
    ensures Run(After(c, 0, 0), cs + rest) == Run(After(c + |cs|, 0, 0), rest)
    decreases |cs|
  {
    if cs == "" {
      assert cs + rest == rest;
    } else {
      assert (cs + rest)[1..] == cs[1..] + rest;
      assert StepTo(After(c, 0, 0), cs[0]) == Ok(After(c + 1, 0, 0));
      RunCurrency(c + 1, cs[1..], rest);
    }
  }

  lemma {:induction false} RunAmount(c: nat, a: nat, ds: string, rest: string)
    requires AllNumeric(ds)
    ensures Run(After(c, a, 0), ds + rest) == Run(After(c, a + |ds|, 0), rest)
    decreases |ds|
  {
    if ds == "" {
      assert ds + rest == rest;
    } else {
      assert (ds + rest)[1..] == ds[1..] + rest;
      assert StepTo(After(c, a, 0), ds[0]) == Ok(After(c, a + 1, 0));
      RunAmount(c, a + 1, ds[1..], rest);
    }
  }

  lemma RunStart(rest: string)
    ensures Run(INITIAL, "ln" + rest) == Run(After(0, 0, 0), rest)
  {
    var input := "ln" + rest;
    assert input[0] == 'l' && input[1..][0] == 'n' && input[1..][1..] == rest;
    assert Run(INITIAL, input) == Run(StepTo(INITIAL, 'l').value, input[1..]);
  }

  lemma RunSi(c: nat, a: nat, s: string)
    requires a > 0 && |s| == 1 && IsSiLetter(s[0])
    ensures Run(After(c, a, 0), s) == Ok(After(c, a, 1))
  {
    assert StepTo(After(c, a, 0), s[0]) == Ok(After(c, a, 1));
    assert s[1..] == "";
  }

  lemma RunJoined(p: Parts)
    requires WellSplit(p)
    ensures Run(INITIAL, Join(p)) == Ok(After(|p.currency|, |p.amount|, |p.si|))
  {
    var tail := p.amount + p.si;
    assert Join(p) == "ln" + (p.currency + tail);
    RunStart(p.currency + tail);
    RunCurrency(0, p.currency, tail);
    RunAmount(|p.currency|, 0, p.amount, p.si);
    if p.si != "" { RunSi(|p.currency|, |p.amount|, p.si); }
  }

  lemma SliceMiddle(a: string, b: string, c: string)
    ensures Slice(a + b + c, Collected(|a|, |b|)) == b
  {
    assert (a + b + c)[|a|..|a| + |b|] == b;
  }

  lemma SlicesJoined(p: Parts)
    ensures Slice(Join(p), Collected(2, |p.currency|)) == p.currency
    ensures Slice(Join(p), Collected(2 + |p.currency|, |p.amount|)) == p.amount
    ensures Slice(Join(p), Collected(2 + |p.currency| + |p.amount|, |p.si|)) == p.si
  {
    SliceMiddle("ln", p.currency, p.amount + p.si);
    assert "ln" + p.currency + (p.amount + p.si) == Join(p);
    SliceMiddle("ln" + p.currency, p.amount, p.si);
    SliceMiddle("ln" + p.currency + p.amount, p.si, "");
    assert Join(p) + "" == Join(p);
  }

  lemma JoinIsAscii(p: Parts)
    requires WellSplit(p) && Ascii(p.currency)
    ensures Ascii(Join(p))
  {
    assert Ascii(p.amount) && Ascii(p.si) && Ascii("ln");
    assert Ascii("ln" + p.currency) && Ascii("ln" + p.currency + p.amount);
  }

  /** Every well-split ASCII text is accepted, and split where it was joined. */
  lemma AcceptsJoined(p: Parts)
    requires WellSplit(p) && Ascii(p.currency)
    ensures Ascii(Join(p)) && SplitHrp(Join(p)) == Ok(p)
  {
    JoinIsAscii(p);
    RunJoined(p);
    SlicesJoined(p);
  }

  /** A machine that has read `read` in full. */
  ghost predicate HasRead(m: Machine, read: string, p: Parts) {
    && m == After(|p.currency|, |p.amount|, |p.si|) && read == Join(p)
    && NoneNumeric(p.currency) && AllNumeric(p.amount)
    && (p.si == "" || (|p.si| == 1 && IsSiLetter(p.si[0]) && p.amount != ""))
  }

  lemma StepReads(m: Machine, read: string, p: Parts, ch: char) returns (q: Parts)
    requires HasRead(m, read, p) && StepTo(m, ch).Ok?
    ensures HasRead(StepTo(m, ch).value, read + [ch], q)
  {
    var n := StepTo(m, ch).value;
    if n.state == ParseCurrencyPrefix {
      q := p.(currency := p.currency + [ch]);
      assert p.amount == "" && p.si == "";
    } else if n.state == ParseAmountNumber {
      q := p.(amount := p.amount + [ch]);
      assert p.si == "";
    } else {
      q := p.(si := p.si + [ch]);
    }
    assert read + [ch] == Join(q);
  }

  lemma {:induction false} RunReads(m: Machine, read: string, p: Parts, rest: string) returns (q: Parts)
    requires HasRead(m, read, p) && Run(m, rest).Ok?
    ensures HasRead(Run(m, rest).value, read + rest, q)
    decreases |rest|
  {
    if rest == "" {
      assert read + rest == read;
      q := p;
    } else {
      var p1 := StepReads(m, read, p, rest[0]);
      q := RunReads(StepTo(m, rest[0]).value, read + [rest[0]], p1, rest[1..]);
      assert read + [rest[0]] + rest[1..] == read + rest;
    }
  }

  lemma StartsWithLn(input: string)
    requires Run(INITIAL, input).Ok? && input != "" && IsFinal(Run(INITIAL, input).value.state)
    ensures |input| > 2 && input[..2] == "ln"
  {
    assert StepTo(INITIAL, input[0]).Ok? && input[0] == 'l';
    var m := StepTo(INITIAL, input[0]).value;
    assert Run(INITIAL, input) == Run(m, input[1..]);
    if |input| > 1 {
      assert input[1..][0] == input[1] && StepTo(m, input[1]).Ok?;
      assert Run(m, input[1..]) == Run(StepTo(m, input[1]).value, input[1..][1..]);
    }
  }

  lemma CurrencyIsAscii(p: Parts)
    requires Ascii(Join(p))
    ensures Ascii(p.currency)
  {
    forall i | 0 <= i < |p.currency| ensures p.currency[i] < 128 as char { assert Join(p)[2 + i] == p.currency[i]; }
  }

  /** On every accepted non-empty input the three ranges are contiguous and, after "ln", cover it. */
  lemma AcceptedIsJoined(input: string)
    requires Ascii(input) && input != "" && SplitHrp(input).Ok?
    ensures WellSplit(SplitHrp(input).value) && Join(SplitHrp(input).value) == input
  {
    StartsWithLn(input);
    var rest := input[2..];
    assert input == "ln" + rest;
    RunStart(rest);
    var q := RunReads(After(0, 0, 0), "ln", Parts("", "", ""), rest);
    assert WellSplit(q);
    CurrencyIsAscii(q);
    AcceptsJoined(q);
  }

  /** The accepted language: exactly the joins of well-split parts, and the empty string. */
  lemma AcceptsIff(input: string, p: Parts)
    requires Ascii(input)
    ensures SplitHrp(input) == Ok(p) <==>
      (WellSplit(p) && input == Join(p)) || (input == "" && p == Parts("", "", ""))
  {
    if input != "" && SplitHrp(input).Ok? { AcceptedIsJoined(input); }
    if WellSplit(p) && input == Join(p) {
      CurrencyIsAscii(p);
      AcceptsJoined(p);
    }
  }

  // ---------- Currencies, prefixes and amounts ----------

  datatype Currency = Bitcoin | BitcoinTestnet | Regtest | Simnet | Signet

  function CurrencyCode(c: Currency): string {
    match c
    case Bitcoin => "bc"
    case BitcoinTestnet => "tb"
    case Regtest => "bcrt"
    case Simnet => "sb"
    case Signet => "tbs"
  }

  function ParseCurrency(s: string): Result<Currency> {
    if s == "bc" then Ok(Bitcoin)
    else if s == "tb" then Ok(BitcoinTestnet)
    else if s == "bcrt" then Ok(Regtest)
    else if s == "sb" then Ok(Simnet)
    else if s == "tbs" then Ok(Signet)
    else Err(UnknownCurrency)
  }

  datatype SiPrefix = Milli | Micro | Nano | Pico

  function Multiplier(p: SiPrefix): nat {
    match p
    case Milli => 1_000_000_000
    case Micro => 1_000_000
    case Nano => 1_000
    case Pico => 1
  }

  function SiLetter(p: SiPrefix): string {
    match p
    case Milli => "m"
    case Micro => "u"
    case Nano => "n"
    case Pico => "p"
  }

  function ParseSi(s: string): Result<SiPrefix> {
    if s == "m" then Ok(Milli)
    else if s == "u" then Ok(Micro)
    else if s == "n" then Ok(Nano)
    else if s == "p" then Ok(Pico)
    else Err(UnknownSiPrefix)
  }

  function DigitChar(d: nat): char
    requires d < 10
  {
    '0' + d as char
  }

  function CharDigit(c: char): nat
    requires IsNumeric(c)
  {
    (c - '0') as nat
  }

  function Decimal(n: nat): (s: string)
    ensures AllNumeric(s) && s != ""
  {
    if n == 0 then "0"
    else
      var ds := Digits(n, 10);
      assert ds != [];
      seq(|ds|, i requires 0 <= i < |ds| => DigitChar(ds[i]))
  }

  /** Parsing an unsigned 64-bit decimal that is known to consist of digits. */
  function ParseDecimal(s: string): Result<nat>
    requires AllNumeric(s)
  {
    match ParseIntBe(seq(|s|, i requires 0 <= i < |s| => CharDigit(s[i])), 10, U64 - 1)
    case None => Err(ParseAmountError)
    case Some(n) => Ok(n)
  }

  lemma DecimalRoundTrip(n: nat)
    ensures ParseDecimal(Decimal(n)) == if n < U64 then Ok(n) else Err(ParseAmountError)
  {
    var s := Decimal(n);
    var ds := seq(|s|, i requires 0 <= i < |s| => CharDigit(s[i]));
    ParseIntBeIff(ds, 10, U64 - 1);
    if n == 0 {
      assert ds == [0] && ds[..0] == [];
    } else {
      assert ds == Digits(n, 10);
      ValueOfDigits(n, 10);
    }
  }

  datatype RawHrp = RawHrp(currency: Currency, amount: Option<nat>, si: Option<SiPrefix>)

  function HrpParts(h: RawHrp): Parts {
    Parts(CurrencyCode(h.currency),
          if h.amount.Some? then Decimal(h.amount.value) else "",
          if h.si.Some? then SiLetter(h.si.value) else "")
  }

  /** `Display for RawHrp`. */
  function Print(h: RawHrp): (s: string)
    ensures Ascii(s)
  {
    assert Ascii("ln") && Ascii(CurrencyCode(h.currency)) && Ascii(HrpParts(h).amount) && Ascii(HrpParts(h).si);
    Join(HrpParts(h))
  }

  function ParseParts(p: Parts): Result<RawHrp>
    requires AllNumeric(p.amount)
  {
    match ParseCurrency(p.currency)
    case Err(e) => Err(e)
    case Ok(c) =>
      var amount := if p.amount != "" then Lift(ParseDecimal(p.amount)) else Ok(None);
      if amount.Err? then Err(amount.error)
      else if p.si == "" then Ok(RawHrp(c, amount.value, None))
      else match ParseSi(p.si)
        case Err(e) => Err(e)
        case Ok(si) =>
          if amount.value.Some? && amount.value.value * Multiplier(si) >= U64 then Err(IntegerOverflow)
          else Ok(RawHrp(c, amount.value, Some(si)))
  }

  function Lift(r: Result<nat>): Result<Option<nat>> {
    match r
    case Err(e) => Err(e)
    case Ok(n) => Ok(Some(n))
  }

  /** `RawHrp::from_str`. */
  function Parse(input: string): Result<RawHrp>
    requires Ascii(input)
  {
    match SplitHrp(input)
    case Err(e) => Err(e)
    case Ok(p) =>
      assert AllNumeric(p.amount) by { AcceptsIff(input, p); }
      ParseParts(p)
  }

  lemma PartsRoundTrip(h: RawHrp)
    requires h.amount.Some? ==> h.amount.value < U64
    ensures ParseParts(HrpParts(h)) ==
      if h.amount.Some? && h.si.Some? && h.amount.value * Multiplier(h.si.value) >= U64 then Err(IntegerOverflow)
      else Ok(h)
  {
    if h.amount.Some? { DecimalRoundTrip(h.amount.value); }
  }

  lemma LetteredCodeIsUnknown(c: Currency, si: SiPrefix)
    ensures var s := CurrencyCode(c) + SiLetter(si);
      NoneNumeric(s) && s != "" && ParseCurrency(s) == Err(UnknownCurrency)
  {
    var s := CurrencyCode(c) + SiLetter(si);
    assert s[|s| - 1] == SiLetter(si)[0];
  }

  /** A prefix without an amount is swallowed by the currency code, which no longer parses. */
  lemma PrefixAloneIsLost(h: RawHrp)
    requires h.amount.None? && h.si.Some?
    ensures Parse(Print(h)) == Err(UnknownCurrency)
  {
    var c, s := CurrencyCode(h.currency), SiLetter(h.si.value);
    var p := Parts(c + s, "", "");
    LetteredCodeIsUnknown(h.currency, h.si.value);
    assert Ascii(c) && Ascii(s);
    AcceptsJoined(p);
    JoinShift(c, s);
    assert Print(h) == Join(p);
  }

  lemma JoinShift(c: string, s: string)
    ensures Join(Parts(c, "", s)) == Join(Parts(c + s, "", ""))
  {
  }

  /** Printing then parsing is the identity exactly when a prefix comes with an amount whose product fits 64 bits. */
  lemma PrintParseIff(h: RawHrp)
    requires h.amount.Some? ==> h.amount.value < U64
    ensures Parse(Print(h)) == Ok(h) <==>
      (h.si.None? || (h.amount.Some? && h.amount.value * Multiplier(h.si.value) < U64))
  {
    if h.si.Some? && h.amount.None? {
      PrefixAloneIsLost(h);
    } else {
      assert WellSplit(HrpParts(h)) && Ascii(CurrencyCode(h.currency));
      AcceptsJoined(HrpParts(h));
      PartsRoundTrip(h);
    }
  }

  // ---------- Amounts, end to end ----------

  /**
   `InvoiceBuilder::amount_milli_satoshis`: the largest prefix that divides the pico amount; 64-bit
   arithmetic wraps.
   */
  function BuildAmount(currency: Currency, msat: nat): RawHrp {
    var pico := msat * 10 % U64;
    var si :=
      if pico % 1_000_000_000 == 0 then Milli
      else if pico % 1_000_000 == 0 then Micro
      else if pico % 1_000 == 0 then Nano
      else Pico;
    RawHrp(currency, Some(pico / Multiplier(si)), Some(si))
  }

  /** `amount_pico_btc`. */
  function AmountPicoBtc(h: RawHrp): Option<nat> {
    match h.amount
    case None => None
    case Some(v) => Some(v * (if h.si.Some? then Multiplier(h.si.value) else 1_000_000_000_000) % U64)
  }

  /** `check_amount`. */
  predicate WholeMillisatoshis(h: RawHrp) { AmountPicoBtc(h).Some? ==> AmountPicoBtc(h).value % 10 == 0 }

  /** `Invoice::amount_milli_satoshis`. */
  function AmountMsat(h: RawHrp): Option<nat> {
    match AmountPicoBtc(h)
    case None => None
    case Some(p) => Some(p / 10)
  }

  lemma BuiltAmountIsExact(currency: Currency, msat: nat)
    ensures var h := BuildAmount(currency, msat);
      h.amount.value * Multiplier(h.si.value) == msat * 10 % U64
  {
    var pico := msat * 10 % U64;
    var h := BuildAmount(currency, msat);
    match h.si.value
    case Milli => assert pico == pico / 1_000_000_000 * 1_000_000_000;
    case Micro => assert pico == pico / 1_000_000 * 1_000_000;
    case Nano => assert pico == pico / 1_000 * 1_000;
    case Pico =>
  }

  /**
   Building, printing, parsing and reading an amount gives the same amount back, and passes both
   the overflow and the whole-millisatoshi checks, exactly for amounts up to the 64-bit maximum
   divided by ten.
   */
  lemma AmountEndToEnd(currency: Currency, msat: nat)
    requires msat < U64
    ensures var h := BuildAmount(currency, msat);
      (Parse(Print(h)) == Ok(h) && WholeMillisatoshis(h) && AmountMsat(h) == Some(msat)) <==> msat <= (U64 - 1) / 10
  {
    BuiltAmountReads(currency, msat);
    BuiltAmountParses(currency, msat);
    WrappedTenth(msat);
  }

  lemma BuiltAmountReads(currency: Currency, msat: nat)
    ensures AmountPicoBtc(BuildAmount(currency, msat)) == Some(msat * 10 % U64)
  {
    BuiltAmountIsExact(currency, msat);
    assert msat * 10 % U64 % U64 == msat * 10 % U64;
  }

  lemma BuiltAmountParses(currency: Currency, msat: nat)
    ensures Parse(Print(BuildAmount(currency, msat))) == Ok(BuildAmount(currency, msat))
  {
    var h := BuildAmount(currency, msat);
    BuiltAmountIsExact(currency, msat);
    assert h.amount.value < U64 by { assert msat * 10 % U64 < U64; }
    PrintParseIff(h);
  }

  lemma WrappedTenth(msat: nat)
    requires msat < U64
    ensures msat <= (U64 - 1) / 10 ==> msat * 10 % U64 == msat * 10
    ensures msat * 10 % U64 % 10 == 0 && msat <= (U64 - 1) / 10 ==> msat * 10 % U64 / 10 == msat
    ensures msat <= (U64 - 1) / 10 ==> msat * 10 % U64 % 10 == 0
    ensures msat > (U64 - 1) / 10 ==> msat * 10 % U64 / 10 < msat
  {
  }

  /** The prefix chosen gives the smallest amount among all prefixes that divide it. */
  lemma PrefixIsOptimal(currency: Currency, msat: nat, other: SiPrefix)
    requires msat * 10 % U64 % Multiplier(other) == 0
    ensures BuildAmount(currency, msat).amount.value <= msat * 10 % U64 / Multiplier(other)
  {
    var pico := msat * 10 % U64;
    match other
    case Milli =>
    case Micro => assert pico % 1_000_000_000 == 0 ==> pico / 1_000_000_000 <= pico / 1_000_000;
    case Nano =>
    case Pico =>
  }

  lemma ParsedProductFits(input: string)
    requires Ascii(input) && Parse(input).Ok?
    ensures var h := Parse(input).value; h.amount.Some? ==>
      h.amount.value < U64 && (h.si.Some? ==> h.amount.value * Multiplier(h.si.value) < U64)
  {
    var p := SplitHrp(input).value;
    AcceptsIff(input, p);
    if p.amount != "" {
      ParseIntBeIff(seq(|p.amount|, i requires 0 <= i < |p.amount| => CharDigit(p.amount[i])), 10, U64 - 1);
    }
  }

  /**
   The overflow check runs only when there is a prefix: the amount read from a parsed part is exact
   exactly when there is one, or the number of whole bitcoins is at most 18446744.
   */
  lemma ParsedAmountExactIff(input: string)
    requires Ascii(input) && Parse(input).Ok? && Parse(input).value.amount.Some?
    ensures var h := Parse(input).value;
      (AmountPicoBtc(h) == Some(h.amount.value * (if h.si.Some? then Multiplier(h.si.value) else 1_000_000_000_000)))
      <==> h.si.Some? || h.amount.value <= 18446744
  {
    ParsedProductFits(input);
    var h := Parse(input).value;
    if h.si.None? { assert h.amount.value * 1_000_000_000_000 < U64 <==> h.amount.value <= 18446744; }
  }

  /** Every larger number of whole bitcoins is accepted and read back as another amount. */
  lemma UncheckedAmountWraps(currency: Currency, v: nat)
    requires 18446744 < v < U64
    ensures var h := RawHrp(currency, Some(v), None);
      Parse(Print(h)) == Ok(h) && AmountPicoBtc(h) != Some(v * 1_000_000_000_000)
  {
    PrintParseIff(RawHrp(currency, Some(v), None));
  }

  // ---------- The text, in its own letters and numbers ----------

  /** A number written in decimal digits. */
  function DecimalValue(s: string): nat
    requires AllNumeric(s)
  {
    if s == "" then 0 else 10 * DecimalValue(s[..|s| - 1]) + (s[|s| - 1] as int - 48)
  }

  function CharDigits(s: string): seq<nat>
    requires AllNumeric(s)
  {
    seq(|s|, i requires 0 <= i < |s| => CharDigit(s[i]))
  }

  lemma {:induction false} DecimalIsPositional(s: string)
    requires AllNumeric(s)
    ensures Value(CharDigits(s), 10) == DecimalValue(s)
  {
    if s != "" {
      var front := s[..|s| - 1];
      DecimalIsPositional(front);
      assert CharDigits(s)[..|s| - 1] == CharDigits(front);
    }
  }

  lemma DigitsParse(s: string)
    requires AllNumeric(s)
    ensures ParseDecimal(s) ==
      if DecimalValue(s) < 0x1_0000_0000_0000_0000 then Ok(DecimalValue(s)) else Err(ParseAmountError)
  {
    DecimalIsPositional(s);
    ParseIntBeIff(CharDigits(s), 10, U64 - 1);
    assert CharDigits(s) == seq(|s|, i requires 0 <= i < |s| => CharDigit(s[i]));
  }

  /** The five networks. */
  predicate Names(code: string, c: Currency) {
    (code, c) in {("bc", Bitcoin), ("tb", BitcoinTestnet), ("bcrt", Regtest), ("sb", Simnet), ("tbs", Signet)}
  }

  lemma CodeParses(code: string, c: Currency)
    requires Names(code, c)
    ensures ParseCurrency(code) == Ok(c) && NoneNumeric(code) && Ascii(code) && code != ""
  {
  }

  /** Any other code is refused. */
  lemma OtherCodesAreRefused(code: string)
    requires Ascii(code) && NoneNumeric(code) && code !in {"", "bc", "tb", "bcrt", "sb", "tbs"}
    ensures Ascii("ln" + code) && Parse("ln" + code) == Err(UnknownCurrency)
  {
    var p := Parts(code, "", "");
    AcceptsJoined(p);
    assert Join(p) == "ln" + code;
  }

  /** A part without an amount names its network. */
  lemma NetworkAlone(code: string, c: Currency)
    requires Names(code, c)
    ensures Ascii("ln" + code) && Parse("ln" + code) == Ok(RawHrp(c, None, None))
  {
    var p := Parts(code, "", "");
    CodeParses(code, c);
    AcceptsJoined(p);
    assert Join(p) == "ln" + code;
  }

  /** Thousandths, millionths, billionths and trillionths of a bitcoin, in pico-bitcoin. */
  predicate Scales(letter: string, si: SiPrefix, pico: nat) {
    (letter, si, pico) in
      {("m", Milli, 1_000_000_000), ("u", Micro, 1_000_000), ("n", Nano, 1_000), ("p", Pico, 1)}
  }

  lemma LetterParses(letter: string, si: SiPrefix, pico: nat)
    requires Scales(letter, si, pico)
    ensures ParseSi(letter) == Ok(si) && Multiplier(si) == pico && |letter| == 1 && IsSiLetter(letter[0])
  {
  }

  lemma LetteredParts(p: Parts, c: Currency, v: nat, si: SiPrefix)
    requires AllNumeric(p.amount) && p.amount != "" && |p.si| == 1
    requires ParseCurrency(p.currency) == Ok(c) && ParseDecimal(p.amount) == Ok(v) && ParseSi(p.si) == Ok(si)
    ensures ParseParts(p) ==
      if v * Multiplier(si) < U64 then Ok(RawHrp(c, Some(v), Some(si))) else Err(IntegerOverflow)
  {
  }

  lemma JoinedParses(p: Parts)
    requires WellSplit(p) && Ascii(p.currency)
    ensures Ascii(Join(p)) && Parse(Join(p)) == ParseParts(p)
  {
    AcceptsJoined(p);
  }

  lemma ScaledAmount(c: Currency, v: nat, si: SiPrefix)
    requires v * Multiplier(si) < U64
    ensures AmountPicoBtc(RawHrp(c, Some(v), Some(si))) == Some(v * Multiplier(si))
  {
  }

  /** What a part with an amount and a letter is read as, `v` of the unit `si` in pico-bitcoin. */
  ghost predicate ReadsAs(text: string, c: Currency, v: nat, si: SiPrefix, pico: nat) {
    && Ascii(text)
    && (if v * pico < 0x1_0000_0000_0000_0000 then
          && Parse(text) == Ok(RawHrp(c, Some(v), Some(si)))
          && AmountPicoBtc(RawHrp(c, Some(v), Some(si))) == Some(v * pico)
        else Parse(text) == Err(IntegerOverflow))
  }

  lemma LetteredReads(p: Parts, c: Currency, v: nat, si: SiPrefix)
    requires WellSplit(p) && Ascii(p.currency) && p.amount != "" && |p.si| == 1
    requires ParseCurrency(p.currency) == Ok(c) && ParseDecimal(p.amount) == Ok(v) && ParseSi(p.si) == Ok(si)
    ensures ReadsAs(Join(p), c, v, si, Multiplier(si))
  {
    JoinedParses(p);
    LetteredParts(p, c, v, si);
    if v * Multiplier(si) < U64 { ScaledAmount(c, v, si); }
  }

  /** An amount with a letter is that many of its unit, if that fits 64 bits, and is refused otherwise. */
  lemma LetteredAmount(code: string, c: Currency, digits: string, letter: string, si: SiPrefix, pico: nat)
    requires Names(code, c) && AllNumeric(digits) && digits != "" && Scales(letter, si, pico)
    requires DecimalValue(digits) < 0x1_0000_0000_0000_0000
    ensures ReadsAs("ln" + code + digits + letter, c, DecimalValue(digits), si, pico)
  {
    CodeParses(code, c);
    DigitsParse(digits);
    LetterParses(letter, si, pico);
    LetteredReads(Parts(code, digits, letter), c, DecimalValue(digits), si);
  }

  /** What a part with an amount alone is read as, `v` whole bitcoins. */
  ghost predicate ReadsWhole(text: string, c: Currency, v: nat) {
    && Ascii(text)
    && Parse(text) == Ok(RawHrp(c, Some(v), None))
    && AmountPicoBtc(RawHrp(c, Some(v), None)) == Some(v * 1_000_000_000_000)
  }

  lemma PlainReads(p: Parts, c: Currency, v: nat)
    requires WellSplit(p) && Ascii(p.currency) && p.amount != "" && p.si == "" && v <= 18446744
    requires ParseCurrency(p.currency) == Ok(c) && ParseDecimal(p.amount) == Ok(v)
    ensures ReadsWhole(Join(p), c, v)
  {
    JoinedParses(p);
  }

  /** An amount without one is in whole bitcoins. */
  lemma PlainAmount(code: string, c: Currency, digits: string)
    requires Names(code, c) && AllNumeric(digits) && digits != "" && DecimalValue(digits) <= 18446744
    ensures ReadsWhole("ln" + code + digits, c, DecimalValue(digits))
  {
    var p := Parts(code, digits, "");
    CodeParses(code, c);
    DigitsParse(digits);
    PlainReads(p, c, DecimalValue(digits));
    assert Join(p) == "ln" + code + digits;
  }
}
