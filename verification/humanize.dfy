/**
 * The number humanizer: the decimal (1000^k) and binary (1024^k) prefix tables, the choice of
 * a prefix for a 64-bit value by truncating division, and the custom formatter that picks a
 * table from the format letter. The numeric text (a value rounded to three decimals and
 * printed as "0.000") is floating-point formatting and is passed in as `numberText`.
 */
module Humanize {
  import opened Wrappers

  /** A signed 64-bit integer (C# `long`). */
  type Int64 = x: int | -0x8000_0000_0000_0000 <= x < 0x8000_0000_0000_0000

  /** The `Integer` of a prefix: a positive `long`. */
  type PositiveInt64 = x: int | 1 <= x < 0x8000_0000_0000_0000 witness 1

  /** The two tables a caller can ask for. */
  datatype Multiple = Decimal | Binary

  /** A named multiple: "kilo", "k", 1000. */
  datatype BinaryPrefix = BinaryPrefix(name: string, symbol: string, integer: PositiveInt64)

  /** The decimal prefixes, largest first. */
  const DecimalPrefixes: seq<BinaryPrefix> := [
    BinaryPrefix("exa", "E", 1_000_000_000_000_000_000),
    BinaryPrefix("peta", "P", 1_000_000_000_000_000),
    BinaryPrefix("tera", "T", 1_000_000_000_000),
    BinaryPrefix("giga", "G", 1_000_000_000),
    BinaryPrefix("mega", "M", 1_000_000),
    BinaryPrefix("kilo", "k", 1000)
  ]

  /** The binary prefixes, largest first. */
  const BinaryPrefixes: seq<BinaryPrefix> := [
    BinaryPrefix("exbi", "Ei", 1_152_921_504_606_846_976),
    BinaryPrefix("pebi", "Pi", 1_125_899_906_842_624),
    BinaryPrefix("tebi", "Ti", 1_099_511_627_776),
    BinaryPrefix("gibi", "Gi", 1_073_741_824),
    BinaryPrefix("mebi", "Mi", 1_048_576),
    BinaryPrefix("kibi", "Ki", 1024)
  ]

  /** `BinaryPrefix.None`: the fallback, with an empty name and symbol. */
  const NoPrefix: BinaryPrefix := BinaryPrefix("", "", 1)

  /** The `_multiples` dictionary: which table each `Multiple` names. */
  function Table(multiple: Multiple): (r: seq<BinaryPrefix>)
    ensures |r| == 6 && r[5].integer == Base(multiple)
  {
    match multiple
    case Decimal => DecimalPrefixes
    case Binary => BinaryPrefixes
  }

  /** The ratio between neighbouring entries of a table. */
  function Base(multiple: Multiple): nat {
    match multiple
    case Decimal => 1000
    case Binary => 1024
  }

  function Pow(b: nat, e: nat): nat {
    if e == 0 then 1 else b * Pow(b, e - 1)
  }

  /**
   * The shape of both tables: six entries, the k-th from the end worth Base^k, each entry
   * Base times the next (so strictly descending), with the symbols the source lists.
   */
  lemma TableShape(multiple: Multiple)
    ensures |Table(multiple)| == 6
    ensures forall i :: 0 <= i < 6 ==> Table(multiple)[i].integer == Pow(Base(multiple), 6 - i)
    ensures forall i :: 0 <= i < 5 ==> Table(multiple)[i].integer == Base(multiple) * Table(multiple)[i + 1].integer
    ensures forall i, j :: 0 <= i < j < 6 ==> Table(multiple)[i].integer > Table(multiple)[j].integer
    ensures multiple == Decimal ==>
      seq(6, i requires 0 <= i < 6 => Table(multiple)[i].symbol) == ["E", "P", "T", "G", "M", "k"]
    ensures multiple == Binary ==>
      seq(6, i requires 0 <= i < 6 => Table(multiple)[i].symbol) == ["Ei", "Pi", "Ti", "Gi", "Mi", "Ki"]
  {
    var b := Base(multiple);
    assert Pow(b, 1) == b;
    assert Pow(b, 2) == b * b;
    assert Pow(b, 3) == b * b * b;
    assert Pow(b, 4) == b * b * b * b;
    assert Pow(b, 5) == b * b * b * b * b;
    assert Pow(b, 6) == b * b * b * b * b * b;
  }

  /** `NoPrefix` is in neither table. */
  lemma NoPrefixNotInTables(multiple: Multiple)
    ensures NoPrefix !in Table(multiple)
  {
    TableShape(multiple);
  }

  /** C#'s `/` on `long`: the quotient truncated toward zero. */
  function TruncDiv(a: int, b: PositiveInt64): (q: int)
    ensures 0 <= a ==> 0 <= q && q * b <= a < (q + 1) * b
    ensures a < 0 ==> q <= 0 && (q - 1) * b < a <= q * b
  {
    if 0 <= a then a / b else -((-a) / b)
  }

  /** The test of `FirstOrDefault`: the value divided by the prefix is at least one. */
  predicate Fits(p: BinaryPrefix, value: Int64) {
    0 < TruncDiv(value, p.integer)
  }

  /** A prefix fits exactly when it is not above the value (so never for zero or a negative value). */
  lemma FitsIffNotAbove(p: BinaryPrefix, value: Int64)
    ensures Fits(p, value) <==> p.integer <= value
  {
    var q := TruncDiv(value, p.integer);
    if 0 <= value && q == 0 {
      assert value < p.integer;
    }
  }

  /** `FirstOrDefault(p => 0 < value / p.Integer)` from position `from`: the index of the first fitting entry. */
  function FirstFit(table: seq<BinaryPrefix>, value: Int64, from: nat): (r: Option<nat>)
    requires from <= |table|
    ensures r.Some? ==> from <= r.value < |table| && Fits(table[r.value], value)
    ensures forall j :: from <= j < |table| && (r.None? || j < r.value) ==> !Fits(table[j], value)
    decreases |table| - from
  {
    if from == |table| then None
    else if Fits(table[from], value) then Some(from)
    else FirstFit(table, value, from + 1)
  }

  /** The prefix `ToString(value, multiple)` divides by: the first fitting entry, or `NoPrefix`. */
  function ChoosePrefix(value: Int64, multiple: Multiple): (r: BinaryPrefix)
    ensures r == NoPrefix || r in Table(multiple)
  {
    match FirstFit(Table(multiple), value, 0)
    case Some(i) => Table(multiple)[i]
    case None => NoPrefix
  }

  /**
   * For a descending table, the first fitting entry is the largest entry not above the value;
   * when there is none (values below the smallest entry: below 1000 or 1024, zero, every
   * negative value) the choice is `NoPrefix`.
   */
  lemma ChoosesLargestNotAbove(value: Int64, multiple: Multiple)
    ensures var p := ChoosePrefix(value, multiple);
      p != NoPrefix ==>
        (p in Table(multiple) && p.integer <= value &&
         forall q :: q in Table(multiple) && q.integer <= value ==> q.integer <= p.integer)
    ensures ChoosePrefix(value, multiple) == NoPrefix <==> value < Table(multiple)[5].integer
  {
    var t := Table(multiple);
    TableShape(multiple);
    NoPrefixNotInTables(multiple);
    forall j | 0 <= j < |t| ensures Fits(t[j], value) <==> t[j].integer <= value {
      FitsIffNotAbove(t[j], value);
    }
    var r := FirstFit(t, value, 0);
    if r.Some? {
      var i := r.value;
      forall q | q in t && q.integer <= value ensures q.integer <= t[i].integer {
        var j :| 0 <= j < |t| && t[j] == q;
      }
      assert i <= 5;
    }
  }

  /** Every `long` is below Base times the table's largest entry. */
  lemma Int64BelowCeiling(value: Int64, multiple: Multiple)
    ensures value < Base(multiple) * Table(multiple)[0].integer
  {
  }

  /**
   * When a real prefix is chosen, the value divided by it is at least one and below the
   * table's base (1000 or 1024), for every 64-bit value.
   */
  lemma QuotientInRange(value: Int64, multiple: Multiple)
    requires ChoosePrefix(value, multiple) != NoPrefix
    ensures var p := ChoosePrefix(value, multiple);
      1 <= TruncDiv(value, p.integer) < Base(multiple)
  {
    var t := Table(multiple);
    TableShape(multiple);
    var i := FirstFit(t, value, 0).value;
    var p := t[i];
    var q := TruncDiv(value, p.integer);
    var ceiling := if i == 0 then Base(multiple) * t[0].integer else t[i - 1].integer;
    if i == 0 {
      Int64BelowCeiling(value, multiple);
    } else {
      assert !Fits(t[i - 1], value);
      FitsIffNotAbove(t[i - 1], value);
    }
    assert value < Base(multiple) * p.integer;
    assert q * p.integer <= value;
  }

  /**
   * `ToString(value, multiple)`: the value divided by the chosen prefix, as numeric text,
   * followed by the prefix's symbol.
   */
  function ToString(value: Int64, multiple: Multiple, numberText: (Int64, PositiveInt64) -> string): (s: string)
    ensures var p := ChoosePrefix(value, multiple);
      |p.symbol| <= |s| && s[|s| - |p.symbol|..] == p.symbol &&
      s[..|s| - |p.symbol|] == numberText(value, p.integer)
  {
    var bp := ChoosePrefix(value, multiple);
    numberText(value, bp.integer) + bp.symbol
  }

  /**
   * The two values the tests check: 1000 is "1.000k" in decimal and "1000.000" (no prefix)
   * in binary; 1024 is "1.024k" in decimal and "1.000Ki" in binary.
   */
  lemma KnownValues(numberText: (Int64, PositiveInt64) -> string)
    ensures ChoosePrefix(1000, Decimal).symbol == "k" && ChoosePrefix(1000, Binary) == NoPrefix
    ensures ChoosePrefix(1024, Decimal).symbol == "k" && ChoosePrefix(1024, Binary).symbol == "Ki"
    ensures ToString(1000, Decimal, numberText) == numberText(1000, 1000) + "k"
    ensures ToString(1000, Binary, numberText) == numberText(1000, 1)
    ensures ToString(1024, Decimal, numberText) == numberText(1024, 1000) + "k"
    ensures ToString(1024, Binary, numberText) == numberText(1024, 1024) + "Ki"
  {
    ChoosesLargestNotAbove(1000, Decimal);
    ChoosesLargestNotAbove(1000, Binary);
    ChoosesLargestNotAbove(1024, Decimal);
    ChoosesLargestNotAbove(1024, Binary);
  }

  // ---------------------------------------------------------------- the custom formatter

  /** Object identity: two references are the same object exactly when they are equal. */
  type ObjectRef = nat

  /** A HumanizeNumberFormatter object (it has no state of its own). */
  datatype HumanizeNumberFormatter = HumanizeNumberFormatter(self: ObjectRef)

  /** The name of the `ICustomFormatter` interface type. */
  const ICustomFormatter: string := "System.ICustomFormatter"

  /** IFormatProvider.GetFormat: the formatter itself when asked for ICustomFormatter, null otherwise. */
  function GetFormat(formatter: HumanizeNumberFormatter, formatType: string): (r: Option<ObjectRef>)
    ensures r.Some? <==> formatType == ICustomFormatter
    ensures r.Some? ==> r.value == formatter.self
  {
    if formatType == ICustomFormatter then Some(formatter.self) else None
  }

  /** What `Convert.ToInt64(arg)` does with the argument: a value, or the exception it throws. */
  datatype Conversion = Converted(number: Int64) | ConversionThrows(kind: string)

  /** The argument to format: `arg as string` (null unless it is a string) and its conversion. */
  datatype Arg = Arg(asString: Option<string>, toInt64: Conversion)

  /** What Format returns (a string or null), or the exception it lets out. */
  datatype FormatResult = Returned(text: Option<string>) | Throws(kind: string)

  /**
   * ICustomFormatter.Format: null unless the provider is this formatter; then the argument is
   * converted to a `long` (an exception there escapes); a null format means "B"; "D" picks the
   * decimal table, "B" the binary one, and any other format returns the argument as a string.
   */
  function Format(formatter: HumanizeNumberFormatter, format: Option<string>, arg: Arg,
                  formatProvider: Option<ObjectRef>, numberText: (Int64, PositiveInt64) -> string): (r: FormatResult)
    ensures formatProvider != Some(formatter.self) ==> r == Returned(None)
    ensures formatProvider == Some(formatter.self) && arg.toInt64.ConversionThrows? ==>
      r == Throws(arg.toInt64.kind)
    ensures formatProvider == Some(formatter.self) && arg.toInt64.Converted? ==>
      var n := arg.toInt64.number;
      var letter := if format.None? then "B" else format.value;
      r == Returned(if letter == "D" then Some(ToString(n, Decimal, numberText))
                    else if letter == "B" then Some(ToString(n, Binary, numberText))
                    else arg.asString)
  {
    if formatProvider != Some(formatter.self) then Returned(None)
    else
      match arg.toInt64
      case ConversionThrows(kind) => Throws(kind)
      case Converted(number) =>
        match if format.None? then "B" else format.value
        case "D" => Returned(Some(ToString(number, Decimal, numberText)))
        case "B" => Returned(Some(ToString(number, Binary, numberText)))
        case _ => Returned(arg.asString)
  }

  /**
   * `string.Format(formatter, "{0:D}", n)` and friends: the provider the formatter hands out
   * for ICustomFormatter is itself, so Format accepts it; "D" gives the decimal rendering, "B"
   * and the default format (no letter) the binary one, and the text ends with the symbol of
   * the prefix chosen for `n`.
   */
  lemma FormatThroughProvider(formatter: HumanizeNumberFormatter, n: Int64, letter: Option<string>,
                              numberText: (Int64, PositiveInt64) -> string)
    requires letter in {None, Some("D"), Some("B")}
    ensures var provider := GetFormat(formatter, ICustomFormatter);
      var multiple := if letter == Some("D") then Decimal else Binary;
      var r := Format(formatter, letter, Arg(None, Converted(n)), provider, numberText);
      r.Returned? && r.text == Some(ToString(n, multiple, numberText)) &&
      var sym := ChoosePrefix(n, multiple).symbol;
      |sym| <= |r.text.value| && r.text.value[|r.text.value| - |sym|..] == sym
  {
  }

  /** Any provider other than the formatter itself (null included) gets null, whatever the format. */
  lemma ForeignProviderGetsNull(formatter: HumanizeNumberFormatter, format: Option<string>, arg: Arg,
                                other: Option<ObjectRef>, numberText: (Int64, PositiveInt64) -> string)
    requires other != GetFormat(formatter, ICustomFormatter)
    ensures Format(formatter, format, arg, other, numberText) == Returned(None)
  {
  }
}
