/**
 * The "Export registrations" card. Its handler fetches every profile and,
 * when there is at least one, builds the CSV file and offers it for
 * download; otherwise it shows why not. `loading` is cleared on every path
 * and `exported` only ever goes from false to true.
 */
module ExportData {
  import opened Common
  import opened Profiles
  import opened Csv

  const FetchFallback := "Error fetching data"
  const NoData := "No data to export"
  const Unexpected := "An unexpected error occurred"

  class ExportCard {
    var loading: bool
    var error: Option<string>
    var exported: bool

    constructor ()
      ensures !loading && error.None? && !exported
    {
      loading := false;
      error := None;
      exported := false;
    }

    /**
     * `handleExport`. `fetch` is how the query ends (a throw stands for any
     * exception in the try block); `file` is the downloaded CSV text.
     */
    method HandleExport(fetch: Fetch, localeDate: string -> string) returns (file: Option<string>)
      modifies this
      ensures !loading
      ensures file.Some? <==> HasRows(fetch)
      ensures file.Some? ==> file.value == Content(fetch.data.value, localeDate) && error.None? && exported
      ensures file.None? ==> exported == old(exported)
      ensures fetch.FetchFailed? ==> error == Some(OrElse(fetch.message, FetchFallback))
      ensures fetch.Fetched? && !HasRows(fetch) ==> error == Some(NoData)
      ensures fetch.FetchThrew? ==> error == Some(Unexpected)
    {
      loading := true;
      error := None;
      file := None;
      match fetch {
        case FetchFailed(m) =>
          error := Some(OrElse(m, FetchFallback));
        case Fetched(data) =>
          if data.None? || |data.value| == 0 {
            error := Some(NoData);
          } else {
            file := Some(Content(data.value, localeDate));
            exported := true;
          }
        case FetchThrew =>
          error := Some(Unexpected);
      }
      loading := false;
    }
  }
}
