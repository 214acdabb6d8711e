# CFPB complaints incremental flow — a Dafny model

This project models the run coordinator of a small extract-and-load pipeline. The pipeline pulls
consumer-complaint records for a configured list of companies and appends them to a local
database. It keeps one persisted watermark, the last date that was loaded completely.

One run of `cfpb_complaints_incremental_flow` gets a load window `(date_min, date_max)` and does this:

- It skips the run when the window is empty (`date_min` after `date_max`).
- Otherwise it calls the extract-and-load task once per company, in configured order.
- A company whose load raises an `Exception` gets a failed entry, and the loop goes on.
- It advances the watermark to `date_max` only when every company succeeded.
- It returns a summary with the total, successful and failed counts and the list of results.

Files and modules:

- `wrappers.dfy` (`Wrappers`): `Option`, and `Result` (`Ok(value)` or `Raised(message)`). `Result` stands for a call that returns or raises.
- `dates.dfy` (`Dates`): `Date` as (year, month, day) with lexicographic order `Before`. It stands for the `datetime` values the flow compares. `DateRange` stands for the string `"date_min to date_max"`.
- `state.dfy` (`State`): `WatermarkStore`, a class with the field `lastLoadedDate: Option<Date>`. It also has a ghost counter of writes.
- `pipeline.dfy` (`Pipeline`): the extract-and-load collaborator as a `Loader` object. Its behaviour is the oracle `respond`, which sees the request and the number of earlier requests. It logs every request with the outcome it got.
- `flows.dfy` (`CfpbFlows`): the task and the flow as methods, plus the specification functions the flow is proved against and the lemmas about them:
  - `Attempt`, `Results`, `Count`, `Summarize` and `WatermarkAfter` are the specification functions.
  - `Results` is a left fold that appends one entry per company, like the source's loop.
  - Three scenario methods derive concrete runs from the contracts alone: both companies succeed, the window is empty, and one company fails.

The flow method's contract states its whole effect:

- On an empty window: a `Skipped` summary, no request made, and the store unchanged.
- On a non-empty window: exactly one request per company, in order, for that window.
- The summary is `Summarize` of `Results` over the logged outcomes.
- The watermark is `WatermarkAfter`, and it is written once when every company succeeded and not at all otherwise.

The lemmas then turn this into the promised properties: one result per company, failure isolation, counts that add up, and advancement if and only if every load returned.

## Model

| member | source | states |
|---|---|---|
| `Dates.BeforeIsStrictTotalOrder` | src/orchestration/cfpb_flows.py:90-93 | The date order behind `date_min_obj > date_max_obj` is irreflexive, asymmetric, transitive and total, so every window is either empty or actionable. |
| `State.WatermarkStore.UpdateLastLoadedDate` | src/orchestration/cfpb_flows.py:129 | `update_last_loaded_date(d)` overwrites the watermark with `d` unconditionally and counts as exactly one write. |
| `Pipeline.Loader.Run` | src/orchestration/cfpb_flows.py:44-52 | One extract-and-load request is appended to the log with the outcome the collaborator gave it (load info or a raised message), and the log stays consistent with the collaborator. |
| `CfpbFlows.ExtractAndLoadTask` | src/orchestration/cfpb_flows.py:24-60 | The task makes exactly one request for (date_min, date_max, company). If it returns, the result has `status` success, names the company, has date range `date_min to date_max` and carries the info. If it raises, the same message is passed on. |
| `CfpbFlows.Attempt` | src/orchestration/cfpb_flows.py:108-124 | The entry for one company names that company. It is tagged success exactly when the load returned: then it carries the window and the info, otherwise the exception's message. |
| `CfpbFlows.TaskSuccess` | src/orchestration/cfpb_flows.py:55-60 | The task's success dictionary has status success, names the company, and carries the date range `date_min to date_max` and the load info. |
| `CfpbFlows.Results` | src/orchestration/cfpb_flows.py:106-124 | The results list has exactly as many entries as there are companies, whatever the outcomes. |
| `CfpbFlows.ResultsAppend` | src/orchestration/cfpb_flows.py:115-123 | Appending one more company's entry is one more step of the fold that defines the results list. |
| `CfpbFlows.ResultsOnePerCompany` | src/orchestration/cfpb_flows.py:106-124 | Entry i of the results is the attempt for company i with outcome i, so entries follow the configured order. |
| `CfpbFlows.FailureIsolated` | src/orchestration/cfpb_flows.py:107-124 | When company j's load raises, entry j is a failed entry with that message, the list keeps one entry per company, and every other company's entry is the same as before. |
| `CfpbFlows.Count` | src/orchestration/cfpb_flows.py:127 | The count of results with a given status is at most the number of results. It equals that number exactly when every result has that status. |
| `CfpbFlows.Summarize` | src/orchestration/cfpb_flows.py:137-143 | The summary dictionary has the run's date range, the given `total_companies` and the results list. `successful + failed` equals the number of results, and `failed` is 0 exactly when every result is a success. |
| `CfpbFlows.WatermarkAfter` | src/orchestration/cfpb_flows.py:126-129 | The watermark after the decision step is either its old value or `date_max`. It changes only when the successes equal `total_companies`, and then it is `date_max`. |
| `CfpbFlows.CountsAddUp` | src/orchestration/cfpb_flows.py:127-141 | Every result is tagged success or failed, so `successful + failed` equals the number of results. |
| `CfpbFlows.AllSucceededIffAllLoaded` | src/orchestration/cfpb_flows.py:127-128 | The number of successes equals the number of companies if and only if every company's load returned normally. |
| `CfpbFlows.SummaryCountsAddUp` | src/orchestration/cfpb_flows.py:137-143 | The summary has the run's date range and `total_companies` = number of companies = number of results, with `successful + failed = total_companies`. `failed` is 0 exactly when every load returned. |
| `CfpbFlows.WatermarkAdvancesIffAllLoaded` | src/orchestration/cfpb_flows.py:126-135 | When every load returned, the watermark after the run is `date_max`. Otherwise it is exactly its value before the run. |
| `CfpbFlows.NoCompaniesStillAdvances` | src/orchestration/cfpb_flows.py:127-129 | With an empty company list the summary is empty with zero counts, and the watermark still advances to `date_max`. |
| `CfpbFlows.IncrementalFlow` | src/orchestration/cfpb_flows.py:68-148 | Empty window: returns `Skipped("Already up to date", date_max)`, makes no request and leaves the store unchanged. Otherwise: exactly one request per company, in order, for the window. The summary is the fold over the logged outcomes. The watermark becomes `date_max` when successes equal the company count and is unchanged otherwise, with at most one write. |

## Left out

- The Prefect `@flow`/`@task` decorators, scheduling and `log_prints`: framework glue with no effect on the logic.
- The `logger` calls: observational output only.
- `get_next_load_date`, `get_last_loaded_date`, `reset_state` and the file persistence behind `update_last_loaded_date`: `src/utils/state.py` is not part of this model. The window is an input of `IncrementalFlow`, and the store is an abstract field.
- `Raised` stands only for exceptions derived from `Exception`, which the handler at src/orchestration/cfpb_flows.py:116 catches. A `BaseException` that is not an `Exception` (`KeyboardInterrupt`, `SystemExit`, a cancellation) escapes the task and aborts the run with no summary and no watermark write. That path is not modelled. On it the watermark is still not advanced.
- A failure while persisting the watermark is not modelled. The write always succeeds in the model.
- `create_pipeline`, `extract_complaints` and `pipeline.run`: the dlt/DuckDB and HTTP collaborator is not part of this model. It is the oracle `Loader.respond`, and the `database_path` argument that is only passed through to it is dropped.
- `datetime.strptime` parsing: dates are already-parsed values. A malformed date string, which would make the source raise before any company is touched, is not modelled.
- Exact string formatting (`str(info)`, `str(e)`, the f-string date range): these are abstract strings and a `DateRange` value.
- The contents of `COMPANIES` and `START_DATE` (`src/cfg/config.py` is not part of this model): the company list is a parameter, and it may be empty or hold duplicates, as in the source.
