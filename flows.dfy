/** The incremental run coordinator `cfpb_complaints_incremental_flow` and the
    per-company task `extract_and_load_complaints_task`. */
module CfpbFlows {
  import opened Wrappers
  import opened Dates
  import opened State
  import opened Pipeline

  /** The `status` tag of a per-company result. */
  datatype RunStatus = Success | Failed

  /** A per-company result: the task's success dictionary, or the dictionary the
      flow records when the task raised. */
  datatype RunResult =
    | SuccessResult(company: string, dateRange: DateRange, info: string)
    | FailedResult(company: string, error: string)
  {
    function Status(): RunStatus
    {
      if SuccessResult? then Success else Failed
    }
  }

  /** What a run returns: a skipped notice for an empty window, or the summary. */
  datatype Summary =
    | Skipped(message: string, lastDate: Date)
    | Completed(dateRange: DateRange, totalCompanies: nat, successful: nat, failed: nat,
                results: seq<RunResult>)

  const UpToDateMessage := "Already up to date"

  /** The window [dateMin, dateMax] holds no date. */
  predicate EmptyWindow(dateMin: Date, dateMax: Date)
  {
    Before(dateMax, dateMin)
  }

  /** The requests a non-empty run makes: one per company, in order, for the whole window. */
  function Requests(dateMin: Date, dateMax: Date, companies: seq<string>): seq<Call>
  {
    seq(|companies|, k requires 0 <= k < |companies| => Call(dateMin, dateMax, companies[k]))
  }

  /** Every request of the run returned normally. */
  predicate AllLoaded(outcomes: seq<Result<string>>)
  {
    forall k :: 0 <= k < |outcomes| ==> outcomes[k].Ok?
  }

  // ---------------------------------------------------------------------------
  // Specification functions

  /** The dictionary `extract_and_load_complaints_task` returns once the load returned. */
  function TaskSuccess(dateMin: Date, dateMax: Date, company: string, info: string): (r: RunResult)
    ensures r.Status() == Success && r.company == company
    ensures r.dateRange == DateRange(dateMin, dateMax) && r.info == info
  {
    SuccessResult(company, DateRange(dateMin, dateMax), info)
  }

  /** The result that one attempt for `company` leaves in `results`: the task's
      dictionary, or a failed entry carrying the exception's message. */
  function Attempt(dateMin: Date, dateMax: Date, company: string, o: Result<string>): (r: RunResult)
    ensures r.company == company
    ensures r.Status() == Success <==> o.Ok?
    ensures r.Status() == Success ==> r.dateRange == DateRange(dateMin, dateMax) && r.info == o.value
    ensures r.Status() == Failed ==> r.error == o.message
  {
    match o
    case Ok(info) => TaskSuccess(dateMin, dateMax, company, info)
    case Raised(e) => FailedResult(company, e)
  }

  /** The `results` list after the loop: one attempt per company, appended in order. */
  function Results(dateMin: Date, dateMax: Date, companies: seq<string>, outcomes: seq<Result<string>>)
    : (rs: seq<RunResult>)
    requires |outcomes| == |companies|
    ensures |rs| == |companies|
    decreases |companies|
  {
    if companies == [] then []
    else
      var n := |companies| - 1;
      Results(dateMin, dateMax, companies[..n], outcomes[..n])
        + [Attempt(dateMin, dateMax, companies[n], outcomes[n])]
  }

  /** The number of results tagged `status`, as `len([r for r in results if ...])`. */
  function Count(results: seq<RunResult>, status: RunStatus): (n: nat)
    ensures n <= |results|
    ensures n == |results| <==> forall k :: 0 <= k < |results| ==> results[k].Status() == status
  {
    if results == [] then 0
    else (if results[0].Status() == status then 1 else 0) + Count(results[1..], status)
  }

  /** The summary dictionary built after the loop. */
  function Summarize(dateMin: Date, dateMax: Date, totalCompanies: nat, results: seq<RunResult>): (s: Summary)
    ensures s.Completed? && s.dateRange == DateRange(dateMin, dateMax)
    ensures s.totalCompanies == totalCompanies && s.results == results
    ensures s.successful + s.failed == |results|
    ensures s.failed == 0 <==> forall k :: 0 <= k < |results| ==> results[k].Status() == Success
  {
    CountsAddUp(results);
    Completed(DateRange(dateMin, dateMax), totalCompanies, Count(results, Success),
              Count(results, Failed), results)
  }

  /** The watermark after the decision step: `date_max` when every company
      succeeded, else what it was. */
  function WatermarkAfter(before: Option<Date>, dateMax: Date, successful: nat, totalCompanies: nat)
    : (after: Option<Date>)
    ensures after == before || after == Some(dateMax)
    ensures after != before ==> successful == totalCompanies && after == Some(dateMax)
    ensures successful == totalCompanies ==> after == Some(dateMax)
  {
    if successful == totalCompanies then Some(dateMax) else before
  }

  // ---------------------------------------------------------------------------
  // Properties of the specification

  /** `results` has one entry per company, in order; entry i is the attempt for company i. */
  lemma {:induction false} ResultsOnePerCompany(dateMin: Date, dateMax: Date, companies: seq<string>,
                                                 outcomes: seq<Result<string>>)
    requires |outcomes| == |companies|
    ensures forall k :: 0 <= k < |companies| ==>
      Results(dateMin, dateMax, companies, outcomes)[k] == Attempt(dateMin, dateMax, companies[k], outcomes[k])
    decreases |companies|
  {
    if companies != [] {
      var n := |companies| - 1;
      ResultsOnePerCompany(dateMin, dateMax, companies[..n], outcomes[..n]);
    }
  }

  /** Appending one attempt to the loop's `results` is one more step of the fold. */
  lemma ResultsAppend(dateMin: Date, dateMax: Date, companies: seq<string>, outcomes: seq<Result<string>>,
                      company: string, o: Result<string>)
    requires |outcomes| == |companies|
    ensures Results(dateMin, dateMax, companies + [company], outcomes + [o])
            == Results(dateMin, dateMax, companies, outcomes) + [Attempt(dateMin, dateMax, company, o)]
  {
  }

  /** A failure for company j is recorded as a failed entry for company j, and it
      does not disturb any other entry: replacing the outcome of company j leaves
      every other result as it was. */
  lemma FailureIsolated(dateMin: Date, dateMax: Date, companies: seq<string>,
                        outcomes: seq<Result<string>>, j: nat, e: string)
    requires |outcomes| == |companies| && j < |companies|
    ensures var rs := Results(dateMin, dateMax, companies, outcomes[j := Raised(e)]);
      && |rs| == |companies|
      && rs[j] == FailedResult(companies[j], e)
      && forall k :: 0 <= k < |companies| && k != j ==>
           rs[k] == Results(dateMin, dateMax, companies, outcomes)[k]
  {
    ResultsOnePerCompany(dateMin, dateMax, companies, outcomes);
    ResultsOnePerCompany(dateMin, dateMax, companies, outcomes[j := Raised(e)]);
  }

  /** Every result is tagged either success or failed, so the two counts add up. */
  lemma {:induction false} CountsAddUp(results: seq<RunResult>)
    ensures Count(results, Success) + Count(results, Failed) == |results|
  {
    if results != [] {
      CountsAddUp(results[1..]);
    }
  }

  /** The number of successes equals the number of companies exactly when every
      request returned normally. */
  lemma AllSucceededIffAllLoaded(dateMin: Date, dateMax: Date, companies: seq<string>,
                                 outcomes: seq<Result<string>>)
    requires |outcomes| == |companies|
    ensures Count(Results(dateMin, dateMax, companies, outcomes), Success) == |companies|
            <==> AllLoaded(outcomes)
  {
    var rs := Results(dateMin, dateMax, companies, outcomes);
    ResultsOnePerCompany(dateMin, dateMax, companies, outcomes);
    assert forall k :: 0 <= k < |rs| ==> (rs[k].Status() == Success <==> outcomes[k].Ok?);
  }

  /** The summary of a non-empty run: `total_companies` is the number of companies,
      `successful + failed` equals it, and nothing failed exactly when every
      request returned normally. */
  lemma SummaryCountsAddUp(dateMin: Date, dateMax: Date, companies: seq<string>,
                           outcomes: seq<Result<string>>)
    requires |outcomes| == |companies|
    ensures var s := Summarize(dateMin, dateMax, |companies|, Results(dateMin, dateMax, companies, outcomes));
      && s.dateRange == DateRange(dateMin, dateMax)
      && s.totalCompanies == |companies| == |s.results|
      && s.successful + s.failed == s.totalCompanies
      && (s.failed == 0 <==> AllLoaded(outcomes))
  {
    var rs := Results(dateMin, dateMax, companies, outcomes);
    CountsAddUp(rs);
    AllSucceededIffAllLoaded(dateMin, dateMax, companies, outcomes);
  }

  /** The watermark becomes `date_max` when every company succeeded and otherwise
      keeps its previous value. */
  lemma WatermarkAdvancesIffAllLoaded(before: Option<Date>, dateMin: Date, dateMax: Date,
                                      companies: seq<string>, outcomes: seq<Result<string>>)
    requires |outcomes| == |companies|
    ensures var after := WatermarkAfter(before, dateMax,
                                        Count(Results(dateMin, dateMax, companies, outcomes), Success),
                                        |companies|);
      && (AllLoaded(outcomes) ==> after == Some(dateMax))
      && (!AllLoaded(outcomes) ==> after == before)
  {
    AllSucceededIffAllLoaded(dateMin, dateMax, companies, outcomes);
  }

  /** With no configured company, zero successes equal zero companies, so the
      watermark still advances. */
  lemma NoCompaniesStillAdvances(before: Option<Date>, dateMin: Date, dateMax: Date)
    ensures var s := Summarize(dateMin, dateMax, 0, Results(dateMin, dateMax, [], []));
      && s.results == [] && s.successful == 0 && s.failed == 0
      && WatermarkAfter(before, dateMax, s.successful, 0) == Some(dateMax)
  {
  }

  // ---------------------------------------------------------------------------
  // The task and the flow

  /** `extract_and_load_complaints_task`: one request to the collaborator; the
      success dictionary when it returns, the exception when it raises. */
  method ExtractAndLoadTask(loader: Loader, dateMin: Date, dateMax: Date, company: string)
    returns (r: Result<RunResult>)
    requires loader.Valid()
    modifies loader
    ensures loader.Valid()
    ensures |loader.log| == |old(loader.log)| + 1
    ensures loader.log[..|old(loader.log)|] == old(loader.log)
    ensures var last := loader.log[|old(loader.log)|];
      && last.call == Call(dateMin, dateMax, company)
      && r == match last.outcome
              case Ok(info) => Ok(TaskSuccess(dateMin, dateMax, company, info))
              case Raised(e) => Raised(e)
  {
    var info := loader.Run(Call(dateMin, dateMax, company));
    match info
    case Ok(i) => r := Ok(TaskSuccess(dateMin, dateMax, company, i));
    case Raised(e) => r := Raised(e);
  }

  /** `cfpb_complaints_incremental_flow` for the window [dateMin, dateMax] that
      `get_next_load_date` produced. An empty window is skipped without touching
      the collaborator or the store. Otherwise each company is requested once, in
      order, each failure is recorded and the loop goes on, and the watermark is
      written once, to `dateMax`, exactly when every company succeeded. */
  method IncrementalFlow(store: WatermarkStore, loader: Loader, companies: seq<string>,
                         dateMin: Date, dateMax: Date)
    returns (summary: Summary)
    requires loader.Valid()
    modifies store, loader
    ensures loader.Valid()
    ensures EmptyWindow(dateMin, dateMax) ==>
      && summary == Skipped(UpToDateMessage, dateMax)
      && loader.log == old(loader.log)
      && store.lastLoadedDate == old(store.lastLoadedDate)
      && store.writes == old(store.writes)
    ensures !EmptyWindow(dateMin, dateMax) ==>
      var start := |old(loader.log)|;
      && |loader.log| == start + |companies|
      && loader.log[..start] == old(loader.log)
      && Calls(loader.log[start..]) == Requests(dateMin, dateMax, companies)
      && var outcomes := Outcomes(loader.log[start..]);
      && summary == Summarize(dateMin, dateMax, |companies|, Results(dateMin, dateMax, companies, outcomes))
      && store.lastLoadedDate
         == WatermarkAfter(old(store.lastLoadedDate), dateMax, summary.successful, |companies|)
      && store.writes == old(store.writes) + (if summary.successful == |companies| then 1 else 0)
  {
    if EmptyWindow(dateMin, dateMax) {
      return Skipped(UpToDateMessage, dateMax);
    }

    ghost var start := |loader.log|;
    var results: seq<RunResult> := [];
    for i := 0 to |companies|
      invariant loader.Valid()
      invariant |loader.log| == start + i
      invariant loader.log[..start] == old(loader.log)
      invariant Calls(loader.log[start..]) == Requests(dateMin, dateMax, companies[..i])
      invariant results == Results(dateMin, dateMax, companies[..i], Outcomes(loader.log[start..]))
      invariant store.lastLoadedDate == old(store.lastLoadedDate) && store.writes == old(store.writes)
    {
      ghost var before := loader.log;
      var r := ExtractAndLoadTask(loader, dateMin, dateMax, companies[i]);
      var entry;
      match r {
        case Ok(result) => entry := result;
        case Raised(e) => entry := FailedResult(companies[i], e);
      }
      ghost var o := loader.log[start + i].outcome;
      assert entry == Attempt(dateMin, dateMax, companies[i], o);
      ResultsAppend(dateMin, dateMax, companies[..i], Outcomes(before[start..]), companies[i], o);
      assert companies[..i] + [companies[i]] == companies[..i + 1];
      assert loader.log[start..] == before[start..] + [loader.log[start + i]];
      LogAppend(before[start..], loader.log[start + i]);
      assert Requests(dateMin, dateMax, companies[..i + 1])
             == Requests(dateMin, dateMax, companies[..i]) + [Call(dateMin, dateMax, companies[i])];
      results := results + [entry];
    }
    assert companies[..|companies|] == companies;

    var successful := Count(results, Success);
    if successful == |companies| {
      store.UpdateLastLoadedDate(dateMax);
    }

    summary := Summarize(dateMin, dateMax, |companies|, results);
  }

  // ---------------------------------------------------------------------------
  // Scenarios: callers can work out a run's effects from the contracts alone

  /** Two companies, no earlier watermark, both loads return: two successes and
      the watermark becomes the window's end. */
  method ScenarioBothSucceed()
  {
    var store := new WatermarkStore(None);
    var loader := new Loader((c: Call, n: nat) => Ok("loaded"));
    var s := IncrementalFlow(store, loader, ["Acme Bank", "Beta Credit"], Date(2024, 1, 1), Date(2024, 1, 10));
    SummaryCountsAddUp(Date(2024, 1, 1), Date(2024, 1, 10), ["Acme Bank", "Beta Credit"],
                       Outcomes(loader.log));
    assert s.successful == 2 && s.failed == 0;
    assert store.lastLoadedDate == Some(Date(2024, 1, 10));
  }

  /** The watermark already holds today: the window (Jan 11, Jan 10) is empty,
      the run is skipped and nothing is requested or written. */
  method ScenarioUpToDate()
  {
    var store := new WatermarkStore(Some(Date(2024, 1, 10)));
    var loader := new Loader((c: Call, n: nat) => Ok("loaded"));
    var s := IncrementalFlow(store, loader, ["Acme Bank"], Date(2024, 1, 11), Date(2024, 1, 10));
    assert s == Skipped(UpToDateMessage, Date(2024, 1, 10));
    assert loader.log == [] && store.lastLoadedDate == Some(Date(2024, 1, 10));
  }

  /** One of two companies fails: one success, one failure, and the watermark
      stays where it was so that the next run retries the same window. */
  method ScenarioOneFails()
  {
    var store := new WatermarkStore(Some(Date(2024, 1, 5)));
    var loader := new Loader((c: Call, n: nat) =>
      if c.company == "Beta Credit" then Raised("502 Bad Gateway") else Ok("loaded"));
    var dateMin, dateMax := Date(2024, 1, 6), Date(2024, 1, 8);
    var companies := ["Acme Bank", "Beta Credit"];
    var s := IncrementalFlow(store, loader, companies, dateMin, dateMax);
    assert loader.log[0..] == loader.log;
    assert Calls(loader.log)[0] == Call(dateMin, dateMax, "Acme Bank");
    assert Calls(loader.log)[1] == Call(dateMin, dateMax, "Beta Credit");
    var outcomes := Outcomes(loader.log);
    assert outcomes == [Ok("loaded"), Raised("502 Bad Gateway")];
    ResultsOnePerCompany(dateMin, dateMax, companies, outcomes);
    var rs := Results(dateMin, dateMax, companies, outcomes);
    assert rs == [TaskSuccess(dateMin, dateMax, "Acme Bank", "loaded"), FailedResult("Beta Credit", "502 Bad Gateway")];
    assert rs[1..][1..] == [];
    assert s.successful == 1 && s.failed == 1;
    assert store.lastLoadedDate == Some(Date(2024, 1, 5));
  }
}
