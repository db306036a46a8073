/** Sizes in bytes: parsing them with a unit and printing them with the largest exact one. */
module Units {
  import opened Common
  import opened Text

  const KILOBYTE: nat := 1024
  const MEGABYTE: nat := 1024 * 1024
  const GIGABYTE: nat := 1024 * 1024 * 1024

  datatype ParseError = NoUnit | BadNumber | BadUnit

  predicate IsLetter(c: char) { 'a' <= c <= 'z' || 'A' <= c <= 'Z' }

  predicate IsSpace(c: char) { c == ' ' || c == '\t' || c == '\n' || c == '\r' || c as int == 11 || c as int == 12 }

  /** `strings.IndexFunc` with letters; the length when there is none. */
  function IndexLetter(s: string): (i: nat)
    ensures i <= |s| && (i < |s| ==> IsLetter(s[i])) && forall j :: 0 <= j < i ==> !IsLetter(s[j])
  {
    if s == "" || IsLetter(s[0]) then 0 else 1 + IndexLetter(s[1..])
  }

  function TrimSpace(s: string): string
    decreases |s|
  {
    if s != "" && IsSpace(s[0]) then TrimSpace(s[1..])
    else if s != "" && IsSpace(s[|s| - 1]) then TrimSpace(s[..|s| - 1])
    else s
  }

  function Upper(s: string): string {
    if s == "" then ""
    else [if 'a' <= s[0] <= 'z' then ((s[0] as int) - 32) as char else s[0]] + Upper(s[1..])
  }

  function NumberValue(s: string): nat
    requires forall i :: 0 <= i < |s| ==> IsDigit(s[i])
  {
    if s == "" then 0
    else
      assert IsDigit(s[|s| - 1]);
      10 * NumberValue(s[..|s| - 1]) + DigitValue(s[|s| - 1])
  }

  /** `strconv.ParseUint` with base 10 and 64 bits. */
  function ParseUint(s: string): Result<nat, ParseError> {
    if s == "" || exists i :: 0 <= i < |s| && !IsDigit(s[i]) then Err(BadNumber)
    else if NumberValue(s) >= U64 then Err(BadNumber)
    else Ok(NumberValue(s))
  }

  function UnitFactor(unit: string): Result<nat, ParseError> {
    var u := Upper(unit);
    if u in ["G", "GB", "GIB"] then Ok(GIGABYTE)
    else if u in ["M", "MB", "MIB"] then Ok(MEGABYTE)
    else if u in ["K", "KB", "KIB"] then Ok(KILOBYTE)
    else if u == "B" then Ok(1)
    else Err(BadUnit)
  }

  /** `ParseByteSize`: the product is taken modulo 2^64. */
  function ParseByteSize(s: string): Result<nat, ParseError> {
    var i := IndexLetter(s);
    if i == |s| then Err(NoUnit)
    else
      var bytes := ParseUint(TrimSpace(s[..i]));
      if bytes.Err? then Err(bytes.error)
      else
        var factor := UnitFactor(TrimSpace(s[i..]));
        if factor.Err? then Err(factor.error) else Ok((bytes.value * factor.value) % U64)
  }

  datatype Unit = G | M | K | B

  function Factor(u: Unit): nat {
    match u case G => GIGABYTE case M => MEGABYTE case K => KILOBYTE case B => 1
  }

  function UnitName(u: Unit): string {
    match u case G => "GB" case M => "MB" case K => "KB" case B => "B"
  }

  function PrintedUnit(size: nat): Unit {
    if size % GIGABYTE == 0 then G
    else if size % MEGABYTE == 0 then M
    else if size % KILOBYTE == 0 then K
    else B
  }

  /** `ByteSize.String`. */
  function Print(size: nat): string {
    if size % GIGABYTE == 0 then Decimal(size / GIGABYTE) + " GB"
    else if size % MEGABYTE == 0 then Decimal(size / MEGABYTE) + " MB"
    else if size % KILOBYTE == 0 then Decimal(size / KILOBYTE) + " KB"
    else Decimal(size) + " B"
  }

  // ---------------------------------------------------------------- decimal numbers

  lemma {:induction false} ValueOfDecimal(n: nat)
    ensures NumberValue(Decimal(n)) == n
  {
    if n < 10 {
      assert [Digit(n)][..0] == "";
    } else {
      ValueOfDecimal(n / 10);
      var s := Decimal(n / 10) + [Digit(n % 10)];
      assert s[..|s| - 1] == Decimal(n / 10);
    }
  }

  lemma ParseOfDecimal(n: nat)
    ensures ParseUint(Decimal(n)) == if n < U64 then Ok(n) else Err(BadNumber)
  {
    hide Decimal, NumberValue;
    ValueOfDecimal(n);
  }

  lemma TrimOfTight(s: string)
    requires s != "" && !IsSpace(s[0]) && !IsSpace(s[|s| - 1])
    ensures TrimSpace(s) == s && TrimSpace(s + " ") == s
  {
    assert (s + " ")[0] == s[0] && (s + " ")[..|s|] == s && (s + " ")[|s|] == ' ';
  }

  lemma LetterAfter(number: string, unit: string)
    requires forall i :: 0 <= i < |number| ==> !IsLetter(number[i])
    requires unit != "" && IsLetter(unit[0])
    ensures IndexLetter(number + unit) == |number|
  {
    var i := IndexLetter(number + unit);
    assert (number + unit)[|number|] == unit[0];
    assert i >= |number| by {
      assert forall j :: 0 <= j < |number| ==> (number + unit)[j] == number[j];
    }
  }

  lemma NamesOfUnits(u: Unit)
    ensures UnitFactor(UnitName(u)) == Ok(Factor(u))
    ensures UnitName(u) != "" && IsLetter(UnitName(u)[0]) && TrimSpace(UnitName(u)) == UnitName(u)
  {
    hide UnitFactor, TrimSpace;
    match u
    case G => GigabyteIsKnown(); TrimOfTight("GB");
    case M => MegabyteIsKnown(); TrimOfTight("MB");
    case K => KilobyteIsKnown(); TrimOfTight("KB");
    case B => ByteIsKnown(); TrimOfTight("B");
  }

  /** A text that begins differently is none of three. */
  lemma NoneOf(s: string, first: char, a: string, b: string, c: string)
    requires s != "" && s[0] != first
    requires a != "" && b != "" && c != "" && a[0] == b[0] == c[0] == first
    ensures s !in [a, b, c]
  {
  }

  lemma GigabyteIsKnown()
    ensures UnitFactor("GB") == Ok(GIGABYTE)
  {
    UpperNames();
    hide Upper;
    assert ["G", "GB", "GIB"][1] == "GB";
  }

  lemma MegabyteIsKnown()
    ensures UnitFactor("MB") == Ok(MEGABYTE)
  {
    UpperNames();
    hide Upper;
    NoneOf("MB", 'G', "G", "GB", "GIB");
    assert ["M", "MB", "MIB"][1] == "MB";
  }

  lemma KilobyteIsKnown()
    ensures UnitFactor("KB") == Ok(KILOBYTE)
  {
    UpperNames();
    hide Upper;
    NoneOf("KB", 'G', "G", "GB", "GIB");
    NoneOf("KB", 'M', "M", "MB", "MIB");
    assert ["K", "KB", "KIB"][1] == "KB";
  }

  lemma ByteIsKnown()
    ensures UnitFactor("B") == Ok(1)
  {
    UpperNames();
    hide Upper;
    NoneOf("B", 'G', "G", "GB", "GIB");
    NoneOf("B", 'M', "M", "MB", "MIB");
    NoneOf("B", 'K', "K", "KB", "KIB");
  }

  lemma UpperNames()
    ensures Upper("B") == "B" && Upper("KB") == "KB" && Upper("MB") == "MB" && Upper("GB") == "GB"
  {
    assert "B"[1..] == "" && Upper("B") == "B";
    assert "KB"[1..] == "B" && Upper("KB") == "KB";
    assert "MB"[1..] == "B" && Upper("MB") == "MB";
    assert "GB"[1..] == "B" && Upper("GB") == "GB";
  }

  /** Parsing a number with a unit: the number must fit 64 bits, the product wraps around. */
  lemma ParseOfNumberAndUnit(n: nat, u: Unit)
    ensures ParseByteSize(Decimal(n) + " " + UnitName(u)) == if n < U64 then Ok((n * Factor(u)) % U64) else Err(BadNumber)
  {
    hide Decimal, UnitName, UnitFactor, TrimSpace, ParseUint, IndexLetter;
    var number, unit := Decimal(n) + " ", UnitName(u);
    var s := number + unit;
    NamesOfUnits(u);
    LetterAfter(number, unit);
    assert s[..|number|] == number && s[|number|..] == unit;
    TrimOfTight(Decimal(n));
    ParseOfDecimal(n);
  }

  /** A unit in any mixture of upper and lower case. */
  predicate Spelled(unit: string, name: string) {
    |unit| == |name| && forall i :: 0 <= i < |unit| ==> unit[i] == name[i] || unit[i] as int == name[i] as int + 32
  }

  predicate Capitals(name: string) { forall i :: 0 <= i < |name| ==> 'A' <= name[i] <= 'Z' }

  lemma {:induction false} UpperIff(unit: string, name: string)
    requires Capitals(name)
    ensures Upper(unit) == name <==> Spelled(unit, name)
    decreases |unit|
  {
    if unit != "" && name != "" {
      UpperIff(unit[1..], name[1..]);
      assert Upper(unit) == name <==> Upper(unit)[0] == name[0] && Upper(unit)[1..] == name[1..];
      assert Spelled(unit, name) <==> (unit[0] == name[0] || unit[0] as int == name[0] as int + 32) && Spelled(unit[1..], name[1..]) by {
        SpelledFirst(unit, name);
      }
    }
  }

  lemma SpelledFirst(unit: string, name: string)
    requires unit != "" && name != ""
    ensures Spelled(unit, name) <==>
      (unit[0] == name[0] || unit[0] as int == name[0] as int + 32) && Spelled(unit[1..], name[1..])
  {
    if Spelled(unit[1..], name[1..]) && |unit| == |name| {
      assert forall i :: 1 <= i < |unit| ==> unit[i] == unit[1..][i - 1] && name[i] == name[1..][i - 1];
    }
  }

  /** The factors of all units. */
  lemma UnitsInFull(unit: string)
    ensures UnitFactor(unit) ==
      if Spelled(unit, "G") || Spelled(unit, "GB") || Spelled(unit, "GIB") then Ok(1_073_741_824)
      else if Spelled(unit, "M") || Spelled(unit, "MB") || Spelled(unit, "MIB") then Ok(1_048_576)
      else if Spelled(unit, "K") || Spelled(unit, "KB") || Spelled(unit, "KIB") then Ok(1024)
      else if Spelled(unit, "B") then Ok(1)
      else Err(BadUnit)
  {
    hide Upper, Spelled;
    UpperIff(unit, "G");
    UpperIff(unit, "GB");
    UpperIff(unit, "GIB");
    UpperIff(unit, "M");
    UpperIff(unit, "MB");
    UpperIff(unit, "MIB");
    UpperIff(unit, "K");
    UpperIff(unit, "KB");
    UpperIff(unit, "KIB");
    UpperIff(unit, "B");
  }

  lemma TrimOfLetters(unit: string)
    requires unit != "" && forall i :: 0 <= i < |unit| ==> IsLetter(unit[i])
    ensures TrimSpace(unit) == unit
  {
    TrimOfTight(unit);
  }

  /** What any text made of a number, an optional space and letters means: exactly ten spellings are units,
      in any case, and all other letters are rejected. */
  lemma EverySpelling(n: nat, spaced: bool, unit: string)
    requires unit != "" && forall i :: 0 <= i < |unit| ==> IsLetter(unit[i])
    ensures ParseByteSize(Decimal(n) + (if spaced then " " else "") + unit) ==
      if n >= 18_446_744_073_709_551_616 then Err(BadNumber)
      else if Spelled(unit, "G") || Spelled(unit, "GB") || Spelled(unit, "GIB") then Ok((n * 1_073_741_824) % 18_446_744_073_709_551_616)
      else if Spelled(unit, "M") || Spelled(unit, "MB") || Spelled(unit, "MIB") then Ok((n * 1_048_576) % 18_446_744_073_709_551_616)
      else if Spelled(unit, "K") || Spelled(unit, "KB") || Spelled(unit, "KIB") then Ok((n * 1024) % 18_446_744_073_709_551_616)
      else if Spelled(unit, "B") then Ok(n)
      else Err(BadUnit)
  {
    hide Decimal, UnitFactor, TrimSpace, ParseUint, IndexLetter, Spelled;
    var number := Decimal(n) + if spaced then " " else "";
    LetterAfter(number, unit);
    assert (number + unit)[..|number|] == number && (number + unit)[|number|..] == unit;
    assert Decimal(n) + "" == Decimal(n);
    TrimOfTight(Decimal(n));
    ParseOfDecimal(n);
    TrimOfLetters(unit);
    UnitsInFull(unit);
  }

  // ---------------------------------------------------------------- round trip

  lemma PrintInWords(size: nat)
    ensures var u := PrintedUnit(size); size % Factor(u) == 0 && Print(size) == Decimal(size / Factor(u)) + " " + UnitName(u)
  {
    hide Decimal;
    var d := Decimal(size / Factor(PrintedUnit(size)));
    assert d + " " + "GB" == d + " GB" && d + " " + "MB" == d + " MB" && d + " " + "KB" == d + " KB" && d + " " + "B" == d + " B";
  }

  /** Every 64-bit size survives printing and parsing, with no overflow on the way. */
  lemma RoundTrip(size: nat)
    requires size < U64
    ensures ParseByteSize(Print(size)) == Ok(size)
    ensures var u := PrintedUnit(size); (size / Factor(u)) * Factor(u) == size
  {
    hide Decimal, Print, ParseByteSize, UnitName;
    var u := PrintedUnit(size);
    PrintInWords(size);
    ParseOfNumberAndUnit(size / Factor(u), u);
  }

  /** The printed unit is the largest that divides the size. */
  lemma LargestExactUnit(size: nat, u: Unit)
    ensures size % Factor(u) == 0 <==> Factor(u) <= Factor(PrintedUnit(size))
  {
    GigabytesAreMegabytes(size);
    MegabytesAreKilobytes(size);
  }

  lemma GigabytesAreMegabytes(size: nat)
    ensures size % GIGABYTE == 0 ==> size % MEGABYTE == 0
  {
    if size % GIGABYTE == 0 {
      var q := size / GIGABYTE;
      assert size == GIGABYTE * q;
      WholeMegabytes(1024 * q);
    }
  }

  lemma WholeMegabytes(n: nat)
    ensures (MEGABYTE * n) % MEGABYTE == 0
  {
  }

  lemma MegabytesAreKilobytes(size: nat)
    ensures size % MEGABYTE == 0 ==> size % KILOBYTE == 0
  {
    if size % MEGABYTE == 0 {
      var q := size / MEGABYTE;
      assert size == MEGABYTE * q;
      WholeKilobytes(1024 * q);
    }
  }

  lemma WholeKilobytes(n: nat)
    ensures (KILOBYTE * n) % KILOBYTE == 0
  {
  }

  /** Parsing gives the meant size exactly when it fits 64 bits: nothing checks the product. */
  lemma ParsedIsMeantIff(n: nat, u: Unit)
    requires n < U64
    ensures ParseByteSize(Decimal(n) + " " + UnitName(u)) == Ok(n * Factor(u)) <==> n * Factor(u) < U64
  {
    hide Decimal, ParseByteSize, UnitName;
    ParseOfNumberAndUnit(n, u);
  }

  /** The smallest number of gigabytes that is too large is read as nothing at all. */
  lemma TooManyGigabytes()
    ensures ParseByteSize(Decimal(0x4_0000_0000) + " " + UnitName(G)) == Ok(0)
  {
    hide Decimal, ParseByteSize, UnitName;
    ParseOfNumberAndUnit(0x4_0000_0000, G);
  }
}
