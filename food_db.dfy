/**
 * The per-row part of loading the food-composition table: every macro cell
 * that is not a number becomes 0, and each row gets the display label
 * "<name> (<whole kcal> kcal/100g)" that the page's food picker shows and
 * that the add button uses to find the row again.
 */
module FoodDb {
  import opened Wrappers
  import opened Tenths

  /** A cell of a macro column after pandas' numeric coercion: a number, or NaN. */
  datatype Cell = Number(tenths: int) | NotANumber

  /** A table row with the renamed columns, before cleaning. */
  datatype RawRow = RawRow(name: string, kcal: Cell, prot: Cell, carb: Cell, fat: Cell, fibre: Cell)

  /** A cleaned row: per-100 g amounts in tenths, and its label. */
  datatype FoodRow = FoodRow(name: string, kcal: int, prot: int, carb: int, fat: int, fibre: int, displayLabel: string)

  /** to_numeric(errors='coerce').fillna(0): a non-number counts as zero. */
  function CleanCell(c: Cell): (v: int)
    ensures c.Number? ==> v == c.tenths
    ensures c.NotANumber? ==> v == 0
  {
    match c
    case Number(t) => t
    case NotANumber => 0
  }

  function DigitChar(d: int): (c: char)
    requires 0 <= d < 10
    ensures '0' <= c <= '9' && c as int - '0' as int == d
  {
    ('0' as int + d) as char
  }

  predicate IsDigit(c: char)
  {
    '0' <= c <= '9'
  }

  predicate AllDigits(s: string)
  {
    forall i :: 0 <= i < |s| ==> IsDigit(s[i])
  }

  /** Decimal digits of n, most significant first, with no leading zeros. */
  function NatToString(n: nat): (s: string)
    ensures |s| >= 1 && AllDigits(s)
    ensures |s| > 1 ==> s[0] != '0'
  {
    if n < 10 then [DigitChar(n)] else NatToString(n / 10) + [DigitChar(n % 10)]
  }

  /** Python's str of an int. */
  function IntToString(i: int): (r: string)
    ensures |r| > 0 && (r[0] == '-' <==> i < 0)
    ensures i < 0 ==> |r| > 1 && AllDigits(r[1..])
    ensures i >= 0 ==> AllDigits(r)
  {
    if i < 0 then "-" + NatToString(-i) else NatToString(i)
  }

  /** The value of a string of decimal digits. */
  function DigitsValue(s: string): nat
    requires AllDigits(s)
  {
    if s == [] then 0 else DigitsValue(s[..|s| - 1]) * 10 + (s[|s| - 1] as int - '0' as int)
  }

  /** Reads back what IntToString writes: an optional minus and at least one digit. */
  function ParseInt(s: string): Option<int>
  {
    if |s| > 1 && s[0] == '-' && AllDigits(s[1..]) then Some(-(DigitsValue(s[1..]) as int))
    else if |s| > 0 && AllDigits(s) then Some(DigitsValue(s))
    else None
  }

  lemma {:induction false} NatToStringValue(n: nat)
    ensures DigitsValue(NatToString(n)) == n
  {
    if n >= 10 {
      var prefix := NatToString(n / 10);
      var s := prefix + [DigitChar(n % 10)];
      assert s == NatToString(n);
      assert s[..|s| - 1] == prefix;
      NatToStringValue(n / 10);
      assert DigitsValue(s) == DigitsValue(prefix) * 10 + n % 10;
    }
  }

  /** IntToString loses nothing: ParseInt recovers the integer. */
  lemma IntToStringRoundTrip(i: int)
    ensures ParseInt(IntToString(i)) == Some(i)
  {
    if i < 0 {
      var digits := NatToString(-i);
      var s := "-" + digits;
      assert s == IntToString(i);
      assert |s| > 1 && s[0] == '-';
      assert s[1..] == digits;
      NatToStringValue(-i);
      assert ParseInt(s) == Some(-(DigitsValue(digits) as int));
    } else {
      var s := NatToString(i);
      assert s == IntToString(i);
      assert IsDigit(s[0]) && s[0] != '-';
      NatToStringValue(i);
      assert ParseInt(s) == Some(DigitsValue(s) as int);
    }
  }

  const LABEL_OPEN: string := " ("
  const LABEL_CLOSE: string := " kcal/100g)"

  /** The label of a food: its name, then its kcal per 100 g truncated to a whole number. */
  function Label(name: string, kcal: int): (r: string)
    ensures |r| >= |name| + |LABEL_OPEN| + 1 + |LABEL_CLOSE|
    ensures r[..|name|] == name
    ensures r[|name|..|name| + |LABEL_OPEN|] == LABEL_OPEN
    ensures r[|r| - |LABEL_CLOSE|..] == LABEL_CLOSE
  {
    name + LABEL_OPEN + IntToString(TruncTenths(kcal)) + LABEL_CLOSE
  }

  /** The text between the opening bracket and " kcal/100g)" of a label for `name`. */
  function LabelKcalText(name: string, text: string): string
    requires |text| >= |name| + |LABEL_OPEN| + |LABEL_CLOSE|
  {
    text[|name| + |LABEL_OPEN|..|text| - |LABEL_CLOSE|]
  }

  /** The whole kcal shown in a label can be read back from it. */
  lemma LabelShowsTruncatedKcal(name: string, kcal: int)
    ensures ParseInt(LabelKcalText(name, Label(name, kcal))) == Some(TruncTenths(kcal))
  {
    var k := IntToString(TruncTenths(kcal));
    assert LabelKcalText(name, Label(name, kcal)) == k;
    IntToStringRoundTrip(TruncTenths(kcal));
  }

  /** Two foods of the same name share a label exactly when their whole kcal agree. */
  lemma LabelsOfOneName(name: string, kcal1: int, kcal2: int)
    ensures Label(name, kcal1) == Label(name, kcal2) <==> TruncTenths(kcal1) == TruncTenths(kcal2)
  {
    if Label(name, kcal1) == Label(name, kcal2) {
      LabelShowsTruncatedKcal(name, kcal1);
      LabelShowsTruncatedKcal(name, kcal2);
    }
  }

  /** One row of load_food_db after its cleaning steps. */
  function CleanRow(raw: RawRow): (r: FoodRow)
    ensures r.name == raw.name
    ensures r.kcal == CleanCell(raw.kcal) && r.prot == CleanCell(raw.prot) && r.carb == CleanCell(raw.carb)
    ensures r.fat == CleanCell(raw.fat) && r.fibre == CleanCell(raw.fibre)
    ensures r.displayLabel == Label(raw.name, r.kcal)
  {
    var kcal := CleanCell(raw.kcal);
    FoodRow(raw.name, kcal, CleanCell(raw.prot), CleanCell(raw.carb), CleanCell(raw.fat), CleanCell(raw.fibre),
            Label(raw.name, kcal))
  }

  /** The cleaned table: one cleaned row per raw row, in order. */
  function CleanTable(raws: seq<RawRow>): (rows: seq<FoodRow>)
    ensures |rows| == |raws|
    ensures forall i :: 0 <= i < |raws| ==> rows[i] == CleanRow(raws[i])
  {
    seq(|raws|, i requires 0 <= i < |raws| => CleanRow(raws[i]))
  }

  /**
   * The position of the first row carrying `wanted` at or after `from`:
   * df[df["Etichetta"] == wanted].iloc[0], with None where no row matches.
   */
  function FirstWithLabel(rows: seq<FoodRow>, wanted: string, from: nat): (r: Option<nat>)
    requires from <= |rows|
    ensures r.Some? ==> from <= r.value < |rows| && rows[r.value].displayLabel == wanted
    ensures r.Some? ==> forall j :: from <= j < r.value ==> rows[j].displayLabel != wanted
    ensures r.None? <==> forall j :: from <= j < |rows| ==> rows[j].displayLabel != wanted
    decreases |rows| - from
  {
    if from == |rows| then None
    else if rows[from].displayLabel == wanted then Some(from)
    else FirstWithLabel(rows, wanted, from + 1)
  }
}
