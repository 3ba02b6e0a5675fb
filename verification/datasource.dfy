/** What the backend receives from the Google Sheets client. The client
    itself is outside the model: a data source is given as the answers it
    would return. */
module DataSource {
  import opened Wrappers

  /** The answer to `spreadsheets.values.get`: the `values` field of the
      response (absent for an empty range), or the error the call failed with. */
  datatype FetchResult =
    | Fetched(values: Option<seq<seq<string>>>)
    | FetchFailed(message: string)

  /** One entry of the spreadsheet's `sheets` metadata: its title and id. */
  datatype SheetMeta = SheetMeta(title: string, sheetId: int)

  /** The answer to `spreadsheets.get`: the `sheets` field (possibly absent),
      or the error the call failed with. */
  datatype MetaResult =
    | Meta(sheets: Option<seq<SheetMeta>>)
    | MetaFailed(message: string)

  /** An initialised Sheets client: the range fetch as a function of the A1
      range string, and the spreadsheet metadata. */
  datatype SheetsApi = SheetsApi(valuesGet: string -> FetchResult, metadata: MetaResult)
}
