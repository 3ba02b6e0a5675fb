/** Row normalisation, the body of `getSheetData`: turns the fetched cell
    range (header row first) into payment records, looking cells up by
    header name, coercing the amount and dropping rows without a room. */
module RowNormalizer {
  import opened Wrappers
  import opened JsText
  import opened Seqs
  import opened DataSource

  /** One cleaned row: `{ ROOM, PAID, AMOUNT, YEAR }`. */
  datatype PaymentRecord = PaymentRecord(room: string, paid: string, amount: real, year: string)

  /** The header row, each name trimmed and upper-cased. */
  function NormalizeHeaders(raw: seq<string>): seq<string> {
    seq(|raw|, i requires 0 <= i < |raw| => ToUpper(Trim(raw[i])))
  }

  /** A header row already in upper case and trimmed is left as it is. */
  lemma CanonicalHeaders(raw: seq<string>)
    requires forall i :: 0 <= i < |raw| ==> IsUpper(raw[i]) && Trimmed(raw[i])
    ensures NormalizeHeaders(raw) == raw
  {
    forall i | 0 <= i < |raw|
      ensures ToUpper(Trim(raw[i])) == raw[i]
    {
      CanonicalUnchanged(raw[i]);
    }
  }

  /** `headers.indexOf(key)`: the first position holding `key`, or -1. */
  function IndexOf(headers: seq<string>, key: string): (r: int)
    ensures -1 <= r < |headers|
    ensures r == -1 <==> key !in headers
    ensures r >= 0 ==> headers[r] == key && key !in headers[..r]
  {
    if headers == [] then -1
    else if headers[0] == key then 0
    else
      var k := IndexOf(headers[1..], key);
      if k == -1 then -1 else
        assert headers[1..][..k] == headers[1..k + 1];
        k + 1
  }

  /** The row has a truthy cell under the column headed `key`: the header
      exists, the row reaches that column, and the cell is not empty. */
  predicate HasCell(headers: seq<string>, row: seq<string>, key: string) {
    var i := IndexOf(headers, key);
    i != -1 && i < |row| && row[i] != ""
  }

  function CellUnder(headers: seq<string>, row: seq<string>, key: string): string
    requires HasCell(headers, row, key)
  {
    row[IndexOf(headers, key)]
  }

  /** `getVal(row, keys, default)`: the trimmed cell under the first key that
      has a truthy cell in this row; `default` when no key has one. */
  function GetVal(headers: seq<string>, row: seq<string>, keys: seq<string>, default: string): string {
    if keys == [] then default
    else if HasCell(headers, row, keys[0]) then Trim(CellUnder(headers, row, keys[0]))
    else GetVal(headers, row, keys[1..], default)
  }

  /** `getVal` answers with the default when no key has a truthy cell. */
  lemma {:induction false} GetValDefault(headers: seq<string>, row: seq<string>, keys: seq<string>, default: string)
    requires forall j :: 0 <= j < |keys| ==> !HasCell(headers, row, keys[j])
    ensures GetVal(headers, row, keys, default) == default
  {
    if keys != [] {
      assert !HasCell(headers, row, keys[0]);
      GetValDefault(headers, row, keys[1..], default);
    }
  }

  /** `getVal` answers from the first key with a truthy cell. */
  lemma {:induction false} GetValFirstMatch(headers: seq<string>, row: seq<string>, keys: seq<string>, default: string, j: nat)
    requires j < |keys| && HasCell(headers, row, keys[j])
    requires forall i :: 0 <= i < j ==> !HasCell(headers, row, keys[i])
    ensures GetVal(headers, row, keys, default) == Trim(CellUnder(headers, row, keys[j]))
  {
    if j > 0 {
      assert !HasCell(headers, row, keys[0]);
      var rest := keys[1..];
      assert rest[j - 1] == keys[j];
      assert forall i :: 0 <= i < j - 1 ==> rest[i] == keys[i + 1];
      GetValFirstMatch(headers, row, rest, default, j - 1);
    }
  }

  /** The end of the run of decimal digits that starts at `i`. */
  function DigitRun(s: string, i: nat): (j: nat)
    requires i <= |s|
    ensures i <= j <= |s|
    decreases |s| - i
  {
    if i < |s| && IsDigit(s[i]) then DigitRun(s, i + 1) else i
  }

  /** The run is all digits and cannot be extended. */
  lemma {:induction false} DigitRunShape(s: string, i: nat)
    requires i <= |s|
    ensures var j := DigitRun(s, i);
      AllDigits(s[i..j]) && (j == |s| || !IsDigit(s[j]))
    decreases |s| - i
  {
    if i < |s| && IsDigit(s[i]) {
      DigitRunShape(s, i + 1);
      var j := DigitRun(s, i);
      assert s[i..j] == [s[i]] + s[i + 1..j];
    }
  }

  /** `x * 10^e`, for an exponent of either sign. */
  function Scale(x: real, e: int): real
    decreases if e < 0 then -e else e
  {
    if e == 0 then x
    else if e > 0 then Scale(x, e - 1) * 10.0
    else Scale(x, e + 1) / 10.0
  }

  /** The value of the digits after a decimal point: "25" is 0.25. */
  function FractionValue(digits: string): real {
    if digits == [] then 0.0
    else (DigitValue(digits[0]) as real + FractionValue(digits[1..])) / 10.0
  }

  /** The exponent part that starts at `k` (`e`/`E`, an optional sign, at
      least one digit), or 0 when there is none there. */
  function ExponentAt(t: string, k: nat): int
    requires k <= |t|
  {
    if k < |t| && (t[k] == 'e' || t[k] == 'E') then
      var m := if k + 1 < |t| && (t[k + 1] == '+' || t[k + 1] == '-') then k + 2 else k + 1;
      var n := DigitRun(t, m);
      if n == m then 0
      else if t[k + 1] == '-' then -DigitsValue(t[m..n])
      else DigitsValue(t[m..n])
    else 0
  }

  /** The parts of the numeric prefix `parseFloat` reads: the sign, the
      digits before and after the decimal point, and the exponent. */
  datatype Numeral = Numeral(negative: bool, whole: string, fraction: string, exponent: int)

  /** Reads the longest prefix of `t` of the form sign, digits, optional
      fraction, optional exponent; `None` when neither the integer nor the
      fraction part has a digit. */
  function ScanNumeral(t: string): Option<Numeral> {
    var i := if t != [] && (t[0] == '+' || t[0] == '-') then 1 else 0;
    var j := DigitRun(t, i);
    var k := if j < |t| && t[j] == '.' then DigitRun(t, j + 1) else j;
    var fraction := if k == j then [] else t[j + 1..k];
    if j == i && fraction == [] then None
    else Some(Numeral(i == 1 && t[0] == '-', t[i..j], fraction, ExponentAt(t, k)))
  }

  function NumeralValue(n: Numeral): real {
    var mantissa := DigitsValue(n.whole) as real + FractionValue(n.fraction);
    var magnitude := Scale(mantissa, n.exponent);
    if n.negative then -magnitude else magnitude
  }

  /** `parseFloat(s)`: leading whitespace skipped, then the numeric prefix;
      `None` stands for NaN. */
  function ParseFloat(s: string): Option<real> {
    match ScanNumeral(TrimStart(s))
    case None => None
    case Some(n) => Some(NumeralValue(n))
  }

  /** `parseFloat(s) || 0.0`: NaN (and zero) become 0; nothing is thrown. */
  function ParseAmount(s: string): real {
    match ParseFloat(s)
    case Some(v) => v
    case None => 0.0
  }

  /** A text with no decimal digit at all, such as "N/A", is an amount of 0. */
  lemma AmountWithoutDigits(s: string)
    requires forall i :: 0 <= i < |s| ==> !IsDigit(s[i])
    ensures ParseAmount(s) == 0.0
  {
    var t := TrimStart(s);
    TrimStartSuffix(s);
    assert forall i :: 0 <= i < |t| ==> !IsDigit(t[i]);
    var i := if t != [] && (t[0] == '+' || t[0] == '-') then 1 else 0;
    assert DigitRun(t, i) == i;
    if i < |t| && t[i] == '.' {
      assert DigitRun(t, i + 1) == i + 1;
    }
    assert ScanNumeral(t) == None;
  }

  lemma {:induction false} DigitRunToEnd(s: string, i: nat)
    requires i <= |s| && AllDigits(s[i..])
    ensures DigitRun(s, i) == |s|
    decreases |s| - i
  {
    if i < |s| {
      assert s[i] == s[i..][0];
      assert s[i + 1..] == s[i..][1..];
      DigitRunToEnd(s, i + 1);
    }
  }

  /** A non-empty run of digits scans as a whole number without fraction
      or exponent. */
  lemma ScanDigits(t: string)
    requires t != [] && AllDigits(t)
    ensures ScanNumeral(t) == Some(Numeral(false, t, [], 0))
  {
    assert IsDigit(t[0]);
    assert t[0..] == t;
    DigitRunToEnd(t, 0);
    assert t[0..|t|] == t;
    assert ExponentAt(t, |t|) == 0;
  }

  /** The decimal text of a whole number parses back to that number. */
  lemma AmountOfNatural(n: nat)
    ensures ParseAmount(NatToString(n)) == n as real
  {
    var t := NatToString(n);
    TrimStartPadded([], t);
    assert [] + t == t;
    ScanDigits(t);
    assert NumeralValue(Numeral(false, t, [], 0)) == DigitsValue(t) as real;
  }

  /** `getVal` with a single key. */
  lemma FieldVal(headers: seq<string>, row: seq<string>, key: string, default: string)
    ensures GetVal(headers, row, [key], default)
      == if HasCell(headers, row, key) then Trim(CellUnder(headers, row, key)) else default
  {
    if HasCell(headers, row, key) {
      GetValFirstMatch(headers, row, [key], default, 0);
    } else {
      GetValDefault(headers, row, [key], default);
    }
  }

  /** `getVal` applied to the fields of one row, with the amount coerced and
      the paid status upper-cased. */
  function NormalizeRow(headers: seq<string>, row: seq<string>): PaymentRecord {
    var amountStr := GetVal(headers, row, ["AMOUNT"], "0");
    PaymentRecord(
      GetVal(headers, row, ["ROOM"], ""),
      ToUpper(GetVal(headers, row, ["PAID"], "")),
      ParseAmount(amountStr),
      GetVal(headers, row, ["YEAR"], ""))
  }

  /** Each field of a record is the trimmed cell under its column when that
      cell is non-empty and the default otherwise; the amount is the parse
      of that text (0 when it does not parse), and the paid status is in
      upper case. */
  lemma NormalizeRowFields(headers: seq<string>, row: seq<string>)
    ensures var r := NormalizeRow(headers, row);
      && r.room == (if HasCell(headers, row, "ROOM") then Trim(CellUnder(headers, row, "ROOM")) else "")
      && r.year == (if HasCell(headers, row, "YEAR") then Trim(CellUnder(headers, row, "YEAR")) else "")
      && r.paid == ToUpper(if HasCell(headers, row, "PAID") then Trim(CellUnder(headers, row, "PAID")) else "")
      && r.amount == ParseAmount(if HasCell(headers, row, "AMOUNT") then Trim(CellUnder(headers, row, "AMOUNT")) else "0")
      && IsUpper(r.paid) && Trimmed(r.room) && Trimmed(r.year)
  {
    FieldVal(headers, row, "ROOM", "");
    FieldVal(headers, row, "PAID", "");
    FieldVal(headers, row, "AMOUNT", "0");
    FieldVal(headers, row, "YEAR", "");
    ToUpperIdempotent(GetVal(headers, row, ["PAID"], ""));
  }

  predicate HasRoom(r: PaymentRecord) {
    r.room != ""
  }

  function NormalizeRows(headers: seq<string>, rows: seq<seq<string>>): seq<PaymentRecord> {
    seq(|rows|, i requires 0 <= i < |rows| => NormalizeRow(headers, rows[i]))
  }

  /** The specification of the normalisation loop: fewer than two rows is
      an error; otherwise the data rows after the header are normalised and
      those without a room are dropped. */
  function Normalize(sheetName: string, values: seq<seq<string>>): (r: Result<seq<PaymentRecord>, Error>)
    ensures r.Failure? <==> |values| < 2
    ensures r.Failure? ==> r.error == NoData(sheetName)
    ensures r.Success? ==> |r.value| <= |values| - 1
    ensures r.Success? ==> forall i :: 0 <= i < |r.value| ==> HasRoom(r.value[i])
  {
    if |values| < 2 then Failure(NoData(sheetName))
    else Success(Filter(HasRoom, NormalizeRows(NormalizeHeaders(values[0]), values[1..])))
  }

  /** Cleaning keeps exactly the data rows whose room is non-empty, in
      their original order: the `j`-th record is the normalised data row
      `idx[j]`, the indices increase, and a data row is used exactly when its
      room is non-empty. */
  lemma CleanKeepsRoomRows(headers: seq<string>, dataRows: seq<seq<string>>)
    ensures var out := Filter(HasRoom, NormalizeRows(headers, dataRows));
      var idx := KeptIndices(HasRoom, NormalizeRows(headers, dataRows));
      && |idx| == |out|
      && (forall j :: 0 <= j < |out| ==> idx[j] < |dataRows| && out[j] == NormalizeRow(headers, dataRows[idx[j]]))
      && (forall j, k :: 0 <= j < k < |idx| ==> idx[j] < idx[k])
      && (forall i :: 0 <= i < |dataRows| ==> (i in idx <==> NormalizeRow(headers, dataRows[i]).room != ""))
  {
  }

  /** One turn of the normalisation loop: the record of the next row is
      appended exactly when it has a room. */
  lemma NormalizeStep(headers: seq<string>, rows: seq<seq<string>>, i: nat)
    requires i < |rows|
    ensures var rec := NormalizeRow(headers, rows[i]);
      Filter(HasRoom, NormalizeRows(headers, rows[..i + 1]))
        == Filter(HasRoom, NormalizeRows(headers, rows[..i])) + (if rec.room != "" then [rec] else [])
  {
    var recs := NormalizeRows(headers, rows[..i + 1]);
    assert recs[..i] == NormalizeRows(headers, rows[..i]);
  }

  /** The data source's answer for a sheet, `result.data.values || []`, or
      the failure that replaces it. */
  function SheetData(api: Option<SheetsApi>, sheetName: string): Result<seq<PaymentRecord>, Error> {
    if api.None? then Failure(ApiNotInitialized)
    else match api.value.valuesGet(sheetName + "!A1:M")
      case FetchFailed(message) => Failure(Transport(message))
      case Fetched(values) => Normalize(sheetName, values.GetOr([]))
  }

  /** The row loop of `getSheetData`: normalise each data row and push
      the record when its room is non-empty. */
  method CleanRows(headers: seq<string>, dataRows: seq<seq<string>>) returns (cleaned: seq<PaymentRecord>)
    ensures cleaned == Filter(HasRoom, NormalizeRows(headers, dataRows))
  {
    cleaned := [];
    for i := 0 to |dataRows|
      invariant cleaned == Filter(HasRoom, NormalizeRows(headers, dataRows[..i]))
    {
      var record := NormalizeRow(headers, dataRows[i]);
      if record.room != "" {
        cleaned := cleaned + [record];
      }
      NormalizeStep(headers, dataRows, i);
    }
    assert dataRows[..|dataRows|] == dataRows;
  }

  /** `getSheetData(sheetName)`: fetch columns A to M of the sheet, reject a
      range without a data row, then clean the rows after the header. */
  method GetSheetData(api: Option<SheetsApi>, sheetName: string) returns (r: Result<seq<PaymentRecord>, Error>)
    ensures r == SheetData(api, sheetName)
  {
    if api.None? {
      return Failure(ApiNotInitialized);
    }
    var result := api.value.valuesGet(sheetName + "!A1:M");
    if result.FetchFailed? {
      return Failure(Transport(result.message));
    }
    var values := result.values.GetOr([]);
    if |values| < 2 {
      return Failure(NoData(sheetName));
    }
    var headers := NormalizeHeaders(values[0]);
    var cleaned := CleanRows(headers, values[1..]);
    return Success(cleaned);
  }
}
