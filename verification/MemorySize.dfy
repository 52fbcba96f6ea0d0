/** Printing and parsing memory sizes (src/worker/worker.rs, src/config/mod.rs). */
module MemorySize {
  import opened Common
  import opened Text

  datatype Unit = Unit(suffix: string, size: nat)

  const KIB := Unit("KiB", 0x400)
  const MIB := Unit("MiB", 0x10_0000)
  const GIB := Unit("GiB", 0x4000_0000)
  const TIB := Unit("TiB", 0x100_0000_0000)
  const MB := Unit("MB", 1_000_000)
  const GB := Unit("GB", 1_000_000_000)
  const TB := Unit("TB", 1_000_000_000_000)

  const PRINTED := [TIB, GIB, MIB, KIB]
  const PARSED := [TIB, GIB, MIB, KIB, TB, GB, MB]

  datatype MemoryError = NotAnInteger(suffix: string) | OutOfRange | UnknownUnit

  // ---------------------------------------------------------------------------------------------
  // The two scans
  // ---------------------------------------------------------------------------------------------

  predicate Fits(u: Unit, bytes: nat) {
    u.size > 0 && bytes >= u.size && bytes % u.size == 0
  }

  function FormatWith(units: seq<Unit>, bytes: nat): string {
    if units == [] then Decimal(bytes) + "B"
    else if Fits(units[0], bytes) then Decimal(bytes / units[0].size) + units[0].suffix
    else FormatWith(units[1..], bytes)
  }

  function Format(bytes: nat): string {
    FormatWith(PRINTED, bytes)
  }

  predicate EndsWith(s: string, suffix: string) {
    |suffix| <= |s| && s[|s| - |suffix|..] == suffix
  }

  function ParseUnit(u: Unit, value: string): Result<nat, MemoryError>
    requires EndsWith(value, u.suffix)
  {
    match ParseU64(Trim(value[..|value| - |u.suffix|]))
    case None => Err(NotAnInteger(u.suffix))
    case Some(n) => if n * u.size > U64_MAX then Err(OutOfRange) else Ok(n * u.size)
  }

  function ParseWith(units: seq<Unit>, value: string): Result<nat, MemoryError> {
    if units == [] then Err(UnknownUnit)
    else if EndsWith(value, units[0].suffix) then ParseUnit(units[0], value)
    else ParseWith(units[1..], value)
  }

  function Parse(text: string): Result<nat, MemoryError> {
    ParseWith(PARSED, Trim(text))
  }

  // ---------------------------------------------------------------------------------------------
  // The order of the table does not matter
  // ---------------------------------------------------------------------------------------------

  /** No unit's suffix ends another unit's suffix. */
  predicate Distinguishable(units: seq<Unit>) {
    forall u, v :: u in units && v in units && EndsWith(u.suffix, v.suffix) ==> u == v
  }

  /** A suffix has two or three characters; the longer ones have an `i` in the middle, which starts none. */
  lemma SuffixShape(u: Unit)
    requires u in PARSED
    ensures |u.suffix| == 2 || (|u.suffix| == 3 && u.suffix[1] == 'i')
    ensures u.suffix[0] != 'i'
  {
  }

  /** Length and first character tell the units apart. */
  lemma SuffixTells(u: Unit, v: Unit)
    requires u in PARSED && v in PARSED && |u.suffix| == |v.suffix| && u.suffix != [] && u.suffix[0] == v.suffix[0]
    ensures u == v
  {
  }

  lemma ParsedIsDistinguishable()
    ensures Distinguishable(PARSED)
  {
    forall u, v | u in PARSED && v in PARSED && EndsWith(u.suffix, v.suffix)
      ensures u == v
    {
      SuffixShape(u);
      SuffixShape(v);
      var n := |u.suffix| - |v.suffix|;
      assert u.suffix[n] == u.suffix[n..][0];
      SuffixTells(u, v);
    }
  }

  lemma BothEnd(s: string, a: string, b: string)
    requires EndsWith(s, a) && EndsWith(s, b) && |b| <= |a|
    ensures EndsWith(a, b)
  {
    assert a[|a| - |b|..] == s[|s| - |b|..];
  }

  /** Some unit of the table ends the text. */
  predicate Ends(units: seq<Unit>, u: Unit, value: string) {
    u in units && EndsWith(value, u.suffix)
  }

  lemma {:induction false} ScanFinds(units: seq<Unit>, value: string)
    requires Distinguishable(units)
    ensures forall u :: Ends(units, u, value) ==> ParseWith(units, value) == ParseUnit(u, value)
    ensures (forall u :: !Ends(units, u, value)) ==> ParseWith(units, value) == Err(UnknownUnit)
  {
    if units != [] {
      var first := units[0];
      assert units == [first] + units[1..];
      if EndsWith(value, first.suffix) {
        assert Ends(units, first, value);
        forall u | Ends(units, u, value) ensures u == first {
          if |u.suffix| <= |first.suffix| {
            BothEnd(value, first.suffix, u.suffix);
          } else {
            BothEnd(value, u.suffix, first.suffix);
          }
        }
      } else {
        ScanFinds(units[1..], value);
        assert forall u :: Ends(units, u, value) <==> Ends(units[1..], u, value);
      }
    }
  }

  lemma SameUnitsParseAlike(units: seq<Unit>, units': seq<Unit>, value: string)
    requires Distinguishable(units) && forall u :: u in units <==> u in units'
    ensures ParseWith(units', value) == ParseWith(units, value)
  {
    ScanFinds(units, value);
    ScanFinds(units', value);
    assert forall u :: Ends(units, u, value) <==> Ends(units', u, value);
  }

  /** Whatever order the table is written in, every text parses the same. */
  lemma TableOrderIsIrrelevant(units: seq<Unit>, value: string)
    requires multiset(units) == multiset(PARSED)
    ensures ParseWith(units, value) == ParseWith(PARSED, value)
  {
    forall u ensures u in units <==> u in PARSED {
      assert u in multiset(units) <==> u in multiset(PARSED);
    }
    ParsedIsDistinguishable();
    SameUnitsParseAlike(PARSED, units, value);
  }

  // ---------------------------------------------------------------------------------------------
  // Round trip
  // ---------------------------------------------------------------------------------------------

  /** A size prints with the first unit of the table that fits it. */
  lemma {:induction false} FormatFirstFit(units: seq<Unit>, bytes: nat, i: nat)
    requires i < |units| && Fits(units[i], bytes) && forall k :: 0 <= k < i ==> !Fits(units[k], bytes)
    ensures FormatWith(units, bytes) == Decimal(bytes / units[i].size) + units[i].suffix
  {
    if i > 0 {
      FormatFirstFit(units[1..], bytes, i - 1);
    }
  }

  /** A size that no unit fits prints in bytes. */
  lemma {:induction false} FormatNoFit(units: seq<Unit>, bytes: nat)
    requires forall k :: 0 <= k < |units| ==> !Fits(units[k], bytes)
    ensures FormatWith(units, bytes) == Decimal(bytes) + "B"
  {
    if units != [] {
      FormatNoFit(units[1..], bytes);
    }
  }

  /** A numeral followed by a unit of the table parses to the product. */
  lemma NumeralWithUnit(n: nat, u: Unit)
    requires u in PARSED && n * u.size <= U64_MAX && n <= U64_MAX
    ensures Parse(Decimal(n) + u.suffix) == Ok(n * u.size)
  {
    var text := Decimal(n) + u.suffix;
    DecimalFacts(n);
    assert u.suffix[|u.suffix| - 1] == 'B';
    TrimNothing(text);
    assert text[|text| - |u.suffix|..] == u.suffix;
    assert text[..|text| - |u.suffix|] == Decimal(n);
    TrimNothing(Decimal(n));
    ParseDecimal(n);
    ParsedIsDistinguishable();
    ScanFinds(PARSED, text);
    assert Ends(PARSED, u, text);
  }

  lemma ProductGrows(q: nat, size: nat)
    requires size > 0
    ensures q <= q * size
  {
    if q > 0 {
      ProductGrows(q - 1, size);
      assert q * size == (q - 1) * size + size;
    }
  }

  lemma Quotient(bytes: nat, size: nat)
    requires size > 0 && bytes % size == 0
    ensures bytes / size * size == bytes && bytes / size <= bytes
  {
    assert bytes == size * (bytes / size) + bytes % size;
    ProductGrows(bytes / size, size);
  }

  lemma MultipleOfKiB(q: nat, c: nat)
    ensures q * (c * 0x400) % 0x400 == 0
  {
    assert q * (c * 0x400) == (q * c) * 0x400;
  }

  lemma FittingIsMultiple(u: Unit, bytes: nat)
    requires u in PRINTED && Fits(u, bytes)
    ensures bytes > 0 && bytes % 0x400 == 0
  {
    var c := if u == KIB then 1 else if u == MIB then 0x400 else if u == GIB then 0x10_0000 else 0x4000_0000;
    assert u.size == c * 0x400;
    Quotient(bytes, u.size);
    MultipleOfKiB(bytes / u.size, c);
  }

  lemma NotEnding(text: string, s: string)
    requires 2 <= |s| && 2 <= |text| && text[|text| - 2] != s[|s| - 2]
    ensures !EndsWith(text, s)
  {
    assert |s| <= |text| ==> text[|text| - |s|..][|s| - 2] == text[|text| - 2];
  }

  lemma PlainBytesAreRejected(bytes: nat)
    ensures Parse(Decimal(bytes) + "B") == Err(UnknownUnit)
  {
    var text := Decimal(bytes) + "B";
    DecimalFacts(bytes);
    TrimNothing(text);
    var n := |text| - 2;
    assert IsDigit(text[n]);
    forall u | u in PARSED ensures !EndsWith(text, u.suffix) {
      NotEnding(text, u.suffix);
    }
    ParsedIsDistinguishable();
    ScanFinds(PARSED, text);
  }

  /** A printed size parses back exactly when it is a positive multiple of 1024; otherwise it is rejected. */
  lemma RoundTripExactly(bytes: nat)
    requires bytes <= U64_MAX
    ensures Parse(Format(bytes)) == if bytes > 0 && bytes % 0x400 == 0 then Ok(bytes) else Err(UnknownUnit)
  {
    if bytes > 0 && bytes % 0x400 == 0 {
      assert Fits(PRINTED[3], bytes);
      var i := if Fits(PRINTED[0], bytes) then 0 else if Fits(PRINTED[1], bytes) then 1
               else if Fits(PRINTED[2], bytes) then 2 else 3;
      FormatFirstFit(PRINTED, bytes, i);
      Quotient(bytes, PRINTED[i].size);
      assert PRINTED[i] in PARSED;
      NumeralWithUnit(bytes / PRINTED[i].size, PRINTED[i]);
    } else {
      forall i | 0 <= i < |PRINTED| ensures !Fits(PRINTED[i], bytes) {
        if Fits(PRINTED[i], bytes) {
          FittingIsMultiple(PRINTED[i], bytes);
        }
      }
      FormatNoFit(PRINTED, bytes);
      PlainBytesAreRejected(bytes);
    }
  }

  // ---------------------------------------------------------------------------------------------
  // What is accepted, with which size
  // ---------------------------------------------------------------------------------------------

  /** A size, or the error for one that a u64 cannot hold. */
  function InRange(bytes: nat): Result<nat, MemoryError> {
    if bytes > U64_MAX then Err(OutOfRange) else Ok(bytes)
  }

  lemma UnitFound(value: string, u: Unit)
    requires u in PARSED && EndsWith(value, u.suffix)
    ensures ParseWith(PARSED, value) == ParseUnit(u, value)
  {
    ParsedIsDistinguishable();
    ScanFinds(PARSED, value);
    assert Ends(PARSED, u, value);
  }

  lemma UnitParses(text: string, u: Unit)
    ensures EndsWith(text + u.suffix, u.suffix)
    ensures ParseUnit(u, text + u.suffix) ==
      match ParseU64(Trim(text)) case None => Err(NotAnInteger(u.suffix)) case Some(n) => InRange(n * u.size)
  {
    var value := text + u.suffix;
    assert value[|value| - |u.suffix|..] == u.suffix;
    assert value[..|value| - |u.suffix|] == text;
  }

  /** Any text before a unit: white space around it and before the unit does not matter. */
  lemma TextWithUnit(pre: string, text: string, u: Unit, post: string)
    requires u in PARSED && Blank(pre) && Blank(post) && (text != [] ==> !IsWhitespace(text[0]))
    ensures Parse(pre + (text + u.suffix) + post) ==
      match ParseU64(Trim(text)) case None => Err(NotAnInteger(u.suffix)) case Some(n) => InRange(n * u.size)
  {
    SuffixVisible(u);
    TrimAround(pre, text + u.suffix, post);
    UnitParses(text, u);
    UnitFound(text + u.suffix, u);
  }

  lemma SuffixVisible(u: Unit)
    requires u in PARSED
    ensures u.suffix != [] && !IsWhitespace(u.suffix[0]) && !IsWhitespace(u.suffix[|u.suffix| - 1])
  {
  }

  lemma NumeralIsVisible(n: nat, gap: string)
    requires Blank(gap)
    ensures Decimal(n) + gap != [] && !IsWhitespace((Decimal(n) + gap)[0]) && Trim(Decimal(n) + gap) == Decimal(n)
  {
    DecimalFacts(n);
    var digits := Decimal(n);
    assert IsDigit(digits[0]) && IsDigit(digits[|digits| - 1]);
    TrimBack(digits, gap);
    TrimNothing(digits);
  }

  /** A numeral, white space if any, and a unit. */
  lemma NumeralGapUnit(pre: string, n: nat, gap: string, u: Unit, post: string)
    requires u in PARSED && Blank(pre) && Blank(gap) && Blank(post) && n <= U64_MAX
    ensures Parse(pre + (Decimal(n) + gap + u.suffix) + post) == InRange(n * u.size)
  {
    NumeralIsVisible(n, gap);
    TextWithUnit(pre, Decimal(n) + gap, u, post);
    ParseDecimal(n);
  }

  /** The seven units and their sizes. */
  lemma UnitSizes(pre: string, n: nat, gap: string, post: string)
    requires Blank(pre) && Blank(gap) && Blank(post) && n <= U64_MAX
    ensures Parse(pre + (Decimal(n) + gap + "KiB") + post) == InRange(n * 1024)
    ensures Parse(pre + (Decimal(n) + gap + "MiB") + post) == InRange(n * (1024 * 1024))
    ensures Parse(pre + (Decimal(n) + gap + "GiB") + post) == InRange(n * (1024 * 1024 * 1024))
    ensures Parse(pre + (Decimal(n) + gap + "TiB") + post) == InRange(n * (1024 * 1024 * 1024 * 1024))
    ensures Parse(pre + (Decimal(n) + gap + "MB") + post) == InRange(n * 1_000_000)
    ensures Parse(pre + (Decimal(n) + gap + "GB") + post) == InRange(n * 1_000_000_000)
    ensures Parse(pre + (Decimal(n) + gap + "TB") + post) == InRange(n * 1_000_000_000_000)
  {
    NumeralGapUnit(pre, n, gap, PARSED[0], post);
    NumeralGapUnit(pre, n, gap, PARSED[1], post);
    NumeralGapUnit(pre, n, gap, PARSED[2], post);
    NumeralGapUnit(pre, n, gap, PARSED[3], post);
    NumeralGapUnit(pre, n, gap, PARSED[4], post);
    NumeralGapUnit(pre, n, gap, PARSED[5], post);
    NumeralGapUnit(pre, n, gap, PARSED[6], post);
  }

  lemma UnknownExactlyWhen(units: seq<Unit>, value: string)
    requires Distinguishable(units)
    ensures ParseWith(units, value) == Err(UnknownUnit) <==>
      forall i :: 0 <= i < |units| ==> !EndsWith(value, units[i].suffix)
  {
    ScanFinds(units, value);
    if i :| 0 <= i < |units| && EndsWith(value, units[i].suffix) {
      assert Ends(units, units[i], value);
    } else {
      forall u ensures !Ends(units, u, value) {
      }
    }
  }

  /** A text is rejected for its unit exactly when it ends in none of the seven of `UnitSizes`. */
  lemma UnknownUnitExactlyWhen(text: string)
    ensures |PARSED| == 7
    ensures Parse(text) == Err(UnknownUnit) <==>
      forall i :: 0 <= i < |PARSED| ==> !EndsWith(Trim(text), PARSED[i].suffix)
  {
    ParsedIsDistinguishable();
    UnknownExactlyWhen(PARSED, Trim(text));
  }

  /** A size prints in the largest unit that divides it, and in bytes if none does. */
  lemma FormatUsesLargestUnit(bytes: nat)
    ensures Format(bytes) ==
      if bytes == 0 then "0B"
      else if bytes % (1024 * 1024 * 1024 * 1024) == 0 then Decimal(bytes / (1024 * 1024 * 1024 * 1024)) + "TiB"
      else if bytes % (1024 * 1024 * 1024) == 0 then Decimal(bytes / (1024 * 1024 * 1024)) + "GiB"
      else if bytes % (1024 * 1024) == 0 then Decimal(bytes / (1024 * 1024)) + "MiB"
      else if bytes % 1024 == 0 then Decimal(bytes / 1024) + "KiB"
      else Decimal(bytes) + "B"
  {
    var i := if Fits(PRINTED[0], bytes) then 0 else if Fits(PRINTED[1], bytes) then 1
             else if Fits(PRINTED[2], bytes) then 2 else if Fits(PRINTED[3], bytes) then 3 else 4;
    if i < 4 {
      FormatFirstFit(PRINTED, bytes, i);
    } else {
      FormatNoFit(PRINTED, bytes);
    }
  }
}
