/** `useReports` (src/composables/useReports.ts): the year picker of the
    annual report and the report rows fetched for the selected year. */
module Reports {
  import opened Types
  import opened Session
  import opened Api
  import Routing

  /** One month of the annual report (`AnuualReports` in
      src/types/reports.ts); the API sends every figure as a string. */
  datatype AnnualReport = AnnualReport(finalBalance: string, month: string, income: string, outcome: string)

  /** The six selectable years: next year, this year and the four before. */
  function AvailableYears(currentYear: int): (years: seq<int>)
    ensures |years| == 6
    ensures years[0] == currentYear + 1 && years[5] == currentYear - 4
    ensures forall i :: 0 < i < |years| ==> years[i] == years[i - 1] - 1
    ensures currentYear in years
  {
    var years := seq(6, i => currentYear + 1 - i);
    assert years[1] == currentYear;
    years
  }

  /** The years are exactly the window from four years back to next year. */
  lemma AvailableYearsWindow(currentYear: int, y: int)
    ensures y in AvailableYears(currentYear) <==> currentYear - 4 <= y <= currentYear + 1
  {
    var years := AvailableYears(currentYear);
    if currentYear - 4 <= y <= currentYear + 1 {
      assert years[currentYear + 1 - y] == y;
    }
  }

  class ReportsView {
    /** The `wallet_id` route parameter, spliced into the request path. */
    const walletParam: string
    const availableYears: seq<int>
    var yearSelected: int
    var yearReport: seq<AnnualReport>

    /** The refs as `useReports` creates them; `currentYear` is the year of
        the clock when the view is set up. */
    constructor (walletParam: string, currentYear: int)
      ensures this.walletParam == walletParam
      ensures availableYears == AvailableYears(currentYear)
      ensures yearSelected == currentYear && yearReport == []
    {
      this.walletParam := walletParam;
      availableYears := AvailableYears(currentYear);
      yearSelected := currentYear;
      yearReport := [];
    }

    method HandleSelectYear(year: int)
      modifies this`yearSelected
      ensures yearSelected == year
    {
      yearSelected := year;
    }

    /** `getReports()`: `refresh` is the outcome of `useAPI`'s refresh and
        `response` the report rows for the year asked for, which is
        returned as `requested` when the request is made. */
    method GetReports(session: SessionStore, client: ApiClient, router: Routing.Router,
                      refresh: Response<RefreshReply>, response: Response<seq<AnnualReport>>)
      returns (requested: Option<int>)
      modifies this`yearReport, session, client, router
      ensures session.items == StoreAfterRefresh(old(session.items), refresh)
      ensures client.authorization == HeaderAfterRefresh(old(session.items), old(client.authorization), refresh)
      ensures router.path == RouteAfterRefresh(old(session.items), old(router.path), refresh)
      ensures requested.Some? <==> Refreshable(old(session.items), refresh)
      ensures requested.Some? ==> requested.value == yearSelected
      ensures yearReport == if requested.Some? && response.Ok? then response.data else old(yearReport)
    {
      var api := UseApi(session, client, router, refresh);
      if !api {
        return None;
      }
      requested := Some(yearSelected);
      match response {
        case Ok(rows) =>
          yearReport := rows;
        case Err(_) =>
      }
    }
  }
}
