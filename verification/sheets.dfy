/** The `/sheets` listing: the spreadsheet's tabs whose title is a valid
    sheet name, with the default (current month) sheet and the valid range. */
module SheetListing {
  import opened Wrappers
  import opened Seqs
  import opened DataSource
  import opened SheetCalendar

  const SpreadsheetId: string := "1xzJ_GRoB-EiEcULuUd9KslUhBet5XkCYZvQAtTey9Jc"
  const ValidRange: string := "JANUARY 2023 - DECEMBER 2025"

  /** `{ name: s.properties.title, id: s.properties.sheetId }`. */
  datatype SheetInfo = SheetInfo(name: string, id: int)

  function ToInfo(m: SheetMeta): SheetInfo {
    SheetInfo(m.title, m.sheetId)
  }

  /** `VALID_SHEETS.includes(s.name)`: an exact, case-sensitive match. */
  predicate Listed(s: SheetInfo) {
    s.name in ValidSheets()
  }

  function Infos(metas: seq<SheetMeta>): seq<SheetInfo> {
    seq(|metas|, i requires 0 <= i < |metas| => ToInfo(metas[i]))
  }

  /** `sheets.map(...).filter(...)`: the tabs with a valid title. */
  function AvailableSheets(metas: seq<SheetMeta>): (r: seq<SheetInfo>)
    ensures |r| <= |metas|
    ensures forall i :: 0 <= i < |r| ==> r[i].name in ValidSheets()
  {
    Filter(Listed, Infos(metas))
  }

  /** The listing keeps exactly the tabs with a valid title, in the
      spreadsheet's order and with their ids: the `j`-th entry is tab
      `idx[j]`, the indices increase, and a tab is listed exactly when its
      title is a valid sheet name. */
  lemma AvailableSheetsKeepOrder(metas: seq<SheetMeta>)
    ensures var out := AvailableSheets(metas);
      var idx := KeptIndices(Listed, Infos(metas));
      && |idx| == |out|
      && (forall j :: 0 <= j < |out| ==> idx[j] < |metas| && out[j] == SheetInfo(metas[idx[j]].title, metas[idx[j]].sheetId))
      && (forall j, k :: 0 <= j < k < |idx| ==> idx[j] < idx[k])
      && (forall i :: 0 <= i < |metas| ==> (i in idx <==> metas[i].title in ValidSheets()))
  {
    var infos := Infos(metas);
    var idx := KeptIndices(Listed, infos);
    forall i | 0 <= i < |metas|
      ensures i in idx <==> metas[i].title in ValidSheets()
    {
      assert Listed(infos[i]) == (metas[i].title in ValidSheets());
    }
  }

  /** A spreadsheet whose tabs all carry valid titles is listed whole. */
  lemma AllValidListed(metas: seq<SheetMeta>)
    requires forall i :: 0 <= i < |metas| ==> metas[i].title in ValidSheets()
    ensures |AvailableSheets(metas)| == |metas|
  {
    var infos := Infos(metas);
    assert forall i :: 0 <= i < |infos| ==> Listed(infos[i]);
    FilterKeepsAll(Listed, infos);
  }

  /** The JSON body of `/sheets`. */
  datatype SheetsView = SheetsView(
    spreadsheetId: string,
    defaultSheet: string,
    availableSheets: seq<SheetInfo>,
    validRange: string,
    totalSheets: nat)

  /** `/sheets`: fails when the client is missing or the metadata call
      fails; otherwise lists the valid tabs (none when the metadata has no
      `sheets` field) next to the current month's sheet, which is not checked
      against the valid range. */
  function ListSheets(api: Option<SheetsApi>, month: MonthIndex, year: int): (r: Result<SheetsView, Error>)
    ensures api.None? ==> r == Failure(ApiNotInitialized)
    ensures api.Some? && api.value.metadata.MetaFailed? ==> r == Failure(Transport(api.value.metadata.message))
    ensures api.Some? && api.value.metadata.Meta? <==> r.Success?
    ensures r.Success? ==>
      && r.value.availableSheets == AvailableSheets(api.value.metadata.sheets.GetOr([]))
      && r.value.totalSheets == |r.value.availableSheets|
      && r.value.defaultSheet == CurrentMonthSheet(month, year)
      && r.value.spreadsheetId == SpreadsheetId && r.value.validRange == ValidRange
  {
    if api.None? then Failure(ApiNotInitialized)
    else match api.value.metadata
      case MetaFailed(message) => Failure(Transport(message))
      case Meta(sheets) =>
        var availableSheets := AvailableSheets(sheets.GetOr([]));
        Success(SheetsView(SpreadsheetId, CurrentMonthSheet(month, year), availableSheets,
                           ValidRange, |availableSheets|))
  }
}
