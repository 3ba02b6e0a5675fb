/** The report routes: each resolves the requested sheet, loads and cleans
    its rows, and computes its figures; any failure along the way is the
    route's answer. */
module ReportService {
  import opened Wrappers
  import opened DataSource
  import opened SheetCalendar
  import opened RowNormalizer
  import opened Aggregation

  /** The resolved sheet name and its cleaned records. */
  datatype Loaded = Loaded(sheet: string, data: seq<PaymentRecord>)

  /** What every report route does first: `resolveSheetName(req.query.sheet)`
      then `getSheetData(sheetName)`, the first failure ending the request. */
  function ReportInput(api: Option<SheetsApi>, query: Option<string>, month: MonthIndex, year: int): (r: Result<Loaded, Error>)
    ensures ResolveSheetName(query, month, year).Failure? ==> r == Failure(ResolveSheetName(query, month, year).error)
    ensures ResolveSheetName(query, month, year).Success? ==>
      var sheet := ResolveSheetName(query, month, year).value;
      && (SheetData(api, sheet).Failure? ==> r == Failure(SheetData(api, sheet).error))
      && (SheetData(api, sheet).Success? ==> r == Success(Loaded(sheet, SheetData(api, sheet).value)))
    ensures r.Success? ==>
      && ResolveSheetName(query, month, year) == Success(r.value.sheet)
      && SheetData(api, r.value.sheet) == Success(r.value.data)
      && (forall i :: 0 <= i < |r.value.data| ==> HasRoom(r.value.data[i]))
  {
    match ResolveSheetName(query, month, year)
    case Failure(e) => Failure(e)
    case Success(sheet) =>
      match SheetData(api, sheet)
      case Failure(e) => Failure(e)
      case Success(data) => Success(Loaded(sheet, data))
  }

  method Load(api: Option<SheetsApi>, query: Option<string>, month: MonthIndex, year: int) returns (r: Result<Loaded, Error>)
    ensures r == ReportInput(api, query, month, year)
  {
    var sheet :- ResolveSheetName(query, month, year);
    var data :- GetSheetData(api, sheet);
    return Success(Loaded(sheet, data));
  }

  /** `/summary`. */
  method SummaryRoute(api: Option<SheetsApi>, query: Option<string>, month: MonthIndex, year: int) returns (r: Result<SummaryView, Error>)
    ensures var input := ReportInput(api, query, month, year);
      && (r.Success? <==> input.Success?)
      && (r.Failure? ==> r.error == input.error)
      && (r.Success? ==> r.value == Summarize(input.value.sheet, input.value.data))
  {
    var input :- Load(api, query, month, year);
    return Success(Summarize(input.sheet, input.data));
  }

  /** The JSON body of `/roomwise` (`room_wise`) and of `/yearwise`
      (`year_wise`). */
  datatype GroupView = GroupView(sheet: string, buckets: map<string, Bucket>)

  /** `/roomwise`. */
  method RoomWiseRoute(api: Option<SheetsApi>, query: Option<string>, month: MonthIndex, year: int) returns (r: Result<GroupView, Error>)
    ensures var input := ReportInput(api, query, month, year);
      && (r.Success? <==> input.Success?)
      && (r.Failure? ==> r.error == input.error)
      && (r.Success? ==> r.value == GroupView(input.value.sheet, GroupBuckets(input.value.data, Room)))
  {
    var input :- Load(api, query, month, year);
    var roomSummary := RoomWise(input.data);
    return Success(GroupView(input.sheet, roomSummary));
  }

  /** `/yearwise`. */
  method YearWiseRoute(api: Option<SheetsApi>, query: Option<string>, month: MonthIndex, year: int) returns (r: Result<GroupView, Error>)
    ensures var input := ReportInput(api, query, month, year);
      && (r.Success? <==> input.Success?)
      && (r.Failure? ==> r.error == input.error)
      && (r.Success? ==> r.value == GroupView(input.value.sheet, GroupBuckets(input.value.data, Year)))
  {
    var input :- Load(api, query, month, year);
    var yearSummary := YearWise(input.data);
    return Success(GroupView(input.sheet, yearSummary));
  }

  /** The room report of a successful request adds up to its summary. */
  lemma RoomWiseReconcilesWithSummary(api: Option<SheetsApi>, query: Option<string>, month: MonthIndex, year: int)
    requires ReportInput(api, query, month, year).Success?
    ensures var input := ReportInput(api, query, month, year).value;
      var c := ColumnTotals(GroupBuckets(input.data, Room), KeyOrder(input.data, Room));
      var s := Summarize(input.sheet, input.data);
      && c.paidCount == s.paidCount && c.unpaidCount == s.unpaidCount
      && c.paidAmount == s.totalPaidAmount && c.expectedAmount == s.expectedTotal
      && c.pendingAmount >= s.pendingAmount
  {
    var input := ReportInput(api, query, month, year).value;
    RoomWiseMatchesSummary(input.sheet, input.data);
  }

  /** The keys of `Object.keys(data[0])`: the fields of a cleaned record in
      the order they are written. */
  const RecordColumns: seq<string> := ["ROOM", "PAID", "AMOUNT", "YEAR"]

  /** The JSON body of `/debug/sample`. */
  datatype SampleView = SampleView(
    sheet: string,
    sampleRows: seq<PaymentRecord>,
    paidDistribution: map<string, nat>,
    totalRows: nat,
    columns: seq<string>)

  /** `data.slice(0, 5)`. */
  function SampleRows(data: seq<PaymentRecord>): (rows: seq<PaymentRecord>)
    ensures |rows| <= 5 && |rows| <= |data|
    ensures |rows| == 5 || rows == data
    ensures forall i :: 0 <= i < |rows| ==> rows[i] == data[i]
  {
    if |data| <= 5 then data else data[..5]
  }

  /** `/debug/sample`: the first five records, the paid-status histogram,
      the row count and the record columns (none for an empty sheet). */
  method DebugSampleRoute(api: Option<SheetsApi>, query: Option<string>, month: MonthIndex, year: int) returns (r: Result<SampleView, Error>)
    ensures var input := ReportInput(api, query, month, year);
      && (r.Success? <==> input.Success?)
      && (r.Failure? ==> r.error == input.error)
      && (r.Success? ==>
            && r.value.sheet == input.value.sheet
            && r.value.sampleRows == SampleRows(input.value.data)
            && r.value.paidDistribution == Distribution(input.value.data)
            && r.value.totalRows == |input.value.data|
            && r.value.columns == (if |input.value.data| > 0 then RecordColumns else []))
  {
    var input :- Load(api, query, month, year);
    var data := input.data;
    var paidDist := PaidDistribution(data);
    var columns := if |data| > 0 then RecordColumns else [];
    return Success(SampleView(input.sheet, SampleRows(data), paidDist, |data|, columns));
  }
}
