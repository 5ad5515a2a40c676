# Smoke-test bookkeeping of the Smart Timetable & Attendance system

The repository ships six smoke-test scripts; five of them are modelled here, and test-chatbot.py is left out. Each modelled script probes the running services (frontend, backend, ML service, chatbot) over HTTP. It turns each answer into a verdict, keeps the verdicts in a store, and ends with a tally. This project models that bookkeeping in Dafny and proves what the scripts promise about it.

An HTTP call is not executed. Instead, its outcome is an input: either a `Response` or `Raised(error)`. A `Response` has a status code, headers, a text body and a parsed JSON body, which is absent when parsing fails.

| module | models |
|---|---|
| `Wrappers`, `Text`, `Http` | Option; the string operations the scripts use (`in`, `.lower()`, `.upper()`, `endswith`, `os.path.basename`); responses, and Python's `in` / `.get` / `[]` / `len` applied to a parsed JSON value |
| `Dict` | a Python dict: key/value pairs in insertion order, with `d[k] = v`, `k in d` and `d.get(k)` |
| `Tally` | `len([x for x in s if p(x)])`, the filtered listing, and the exact success rate `passed / total * 100` |
| `RecordLog` | the append-only result list and the `generate_report` counting shared by `EnhancedMLTester` and `SystemTester` |
| `IndustryReady` | `IndustryReadyTester`: it stores results in a dict of categories, and inside each category in a dict from test name to entry; also its report loop, recommendation tiers, and the security, frontend, ML, load and stress rules |
| `EnhancedMl` | the classification rules of `EnhancedMLTester` and its model-file sweep |
| `AllFunctionality` | the health and page sweeps of `SystemTester`, and its single-check rules |
| `Integration` | `IntegrationTester`: its probes, the flat `results` dict that `run_all_tests` fills, and the key-suffix counts behind the report and the exit status of `main` |
| `RoutineImage` | the two counting loops of the routine-image script, the three-way summary, and the final verdict |

Where the code and its description differ, the model follows the code:

- **Zero tests in the enhanced-ML and all-functionality reports.** The console line in `generate_report` divides by the number of results without a guard. With no results it raises before the report is saved, so the guarded `success_rate` is only reached when there is at least one result (`RecordLog.GenerateReport` is `None` exactly for an empty list).
- **`frontend_errors` only warns when the page contains both words.** It tests `"error" not in page or "exception" not in page`, so a page with only one of "error" and "exception" passes.
- **`in` on a JSON body follows Python, not key lookup.** On a dict it tests the keys. On a list it tests the elements, and on a string it tests substrings. On a number, boolean or null it raises `TypeError`. In `SystemTester` that `TypeError` is not a `RequestException`, so it ends the run (`Aborts`). A body that is not JSON fails to parse with an error that is caught (requests 2.27 or later), and the check is logged as FAIL.
- **A missing ML model file is FAIL, not WARN.** Only the optimised-timetable and predictions data files merely warn.
- **A routine query counts only once its image is saved.** The JPEG write comes before the increment, and an error from it is caught.
- **A non-routine query needs more than a JSON content type.** It counts only when the parsed body is a dict whose `response` value (or the default string) can be sliced for the preview line. That line is evaluated before the increment.

## Model

| member | source | states |
|---|---|---|
| RecordLog.ResultLog.constructor | test-enhanced-ml-features.py:20 | a fresh tester has no results |
| RecordLog.ResultLog.LogTest | test-enhanced-ml-features.py:22-30 | `log_test` appends one record (test, status, message, timestamp) at the end and leaves every earlier record unchanged; the same code is at test-all-functionality.py:23-31 |
| RecordLog.AppendKeeps | test-all-functionality.py:31 | appending a record keeps every earlier record at its index and puts the new one last |
| RecordLog.Listing | test-enhanced-ml-features.py:282-292 | the "Failed Tests" / "Warnings" listing holds exactly the records with that status, and as many as the count says |
| RecordLog.ListingSnoc | test-enhanced-ml-features.py:282-292 | the listing is in result order: a record appended to the results is listed last exactly when it has the status, after the earlier listing unchanged |
| RecordLog.ListingAppend | test-enhanced-ml-features.py:282-292 | the listing of two runs of results is the first run's listing followed by the second's |
| RecordLog.ListingMultiset | test-enhanced-ml-features.py:282-292 | each record with the status is listed exactly as many times as it was logged, and the listing is a sub-multiset of the results |
| RecordLog.CountsPartition | test-enhanced-ml-features.py:270-273 | since every call site logs PASS, FAIL or WARN, passed + failed + warnings = total |
| RecordLog.SystemTier | test-enhanced-ml-features.py:302-311 | the system-status tier is fully functional iff failed = 0, mostly functional iff 1 ≤ failed ≤ 2, and has issues iff failed > 2 (same tiers at test-all-functionality.py:263-272) |
| RecordLog.SystemTierOfResults | test-all-functionality.py:263-266 | the tier is "fully functional" exactly when no record failed |
| RecordLog.GenerateReport | test-enhanced-ml-features.py:270-324 | no report iff there are no results (unguarded divide at line 280); otherwise the summary counts equal the counts over the list, they add up to the total, the rate is passed·100/total, the failures and warnings listings each hold every record of their status and nothing else, as many as the count, and are `Listing` of the results (so in result order, with multiplicity), the tier follows the failure count, and `results` is the list in insertion order |
| RecordLog.CountStatus | test-enhanced-ml-features.py:271-273 | a status count never exceeds the number of results, and equals it iff every result has that status |
| Tally.SuccessRate | test-industry-ready.py:358 | the rate is 0 with no tests; otherwise rate·total = passed·100, and it lies in 0..100 when passed ≤ total |
| Tally.RateAtLeast | test-industry-ready.py:378-385 | a threshold on the rate is the integer comparison passed·100 ≥ threshold·total |
| Tally.RateMonotone | test-industry-ready.py:358 | more passes out of the same total never lower the rate |
| Tally.Count | test-enhanced-ml-features.py:271 | a comprehension count never exceeds the length of the list |
| Tally.Filter | test-enhanced-ml-features.py:284-286 | the filtered listing holds exactly the elements satisfying the condition, and as many as they count |
| Tally.FilterSnoc | test-enhanced-ml-features.py:284-286 | the comprehension keeps input order: an element appended to the input is appended to the listing exactly when it satisfies the condition |
| Tally.FilterAppend | test-enhanced-ml-features.py:284-286 | filtering a concatenation gives the two filtered listings one after the other |
| Tally.FilterMultiset | test-enhanced-ml-features.py:284-286 | the listing is a sub-multiset of the input and keeps every satisfying element with its full multiplicity |
| Tally.CountExclusive3 | test-industry-ready.py:351-356 | three exclusive conditions count each element at most once, and exactly once when one always holds |
| Tally.CountAll | test-routine-image.py:93 | the count equals the length iff every element satisfies the condition |
| Tally.CountNone | test-routine-image.py:90-91 | the count is 0 iff no element satisfies the condition |
| Tally.CountMonoEqual | test-integration.py:197-200 | counting a stronger condition gives as much iff, on the elements at hand, the weaker condition implies the stronger |
| Tally.CountAppend | test-integration.py:176-177 | counts over a concatenation add up |
| Dict.Put | test-industry-ready.py:45 | `d[k] = v` keeps the keys in place, replaces a present key's value where it stands, and appends a new key at the end |
| Dict.Get | test-industry-ready.py:43 | `d.get(k)` finds a value iff the key is present, and that pair is stored |
| Dict.PutGet | test-industry-ready.py:45-49 | after `d[k] = v`, looking up k gives v and every other key gives what it gave before |
| Dict.PutKeys | test-industry-ready.py:43-44 | the keys after `d[k] = v` are the old keys plus k |
| Dict.PutUnique | test-industry-ready.py:45 | assignment never repeats a key |
| Dict.PutPut | test-industry-ready.py:44-45 | assigning the same key twice keeps only the second value |
| Dict.GetIn | test-industry-ready.py:349 | in a dict without repeated keys, `get` finds every stored pair |
| IndustryReady.StoreLookup | test-industry-ready.py:43-49 | `log_test` leaves the new entry at [category][test_name] and every other (category, test name) pair as it was |
| IndustryReady.Lookup | test-industry-ready.py:45-49 | `test_results[category][test_name]` is found iff both keys are present, and then it is the pair stored in that category |
| IndustryReady.Store | test-industry-ready.py:43-49 | after `log_test` the category exists, created when missing, and [category][test_name] holds the new entry |
| IndustryReady.StoreWellFormed | test-industry-ready.py:43-49 | storing keeps both dict levels free of repeated keys |
| IndustryReady.InitialWellFormed | test-industry-ready.py:25-31 | the five initial categories are distinct |
| IndustryReady.IndustryReadyTester.constructor | test-industry-ready.py:25-31 | a fresh tester holds the five empty categories |
| IndustryReady.IndustryReadyTester.LogTest | test-industry-ready.py:34-49 | the new state is the stored dict; exactly this entry sits at [category][test_name], overwriting any earlier one; the category exists; every other entry is unchanged |
| IndustryReady.IndustryReadyTester.GenerateReport | test-industry-ready.py:339-396 | the total counts every stored entry, but only PASS, FAIL and WARNING raise their counters, so passed + failed + warnings ≤ total; the rate is exact and in 0..100; the recommendation follows the rate; the listing holds exactly the FAIL entries and only when failed > 0; the result is true iff rate ≥ 85, that is total > 0 and passed·100 ≥ 85·total |
| IndustryReady.TallyCategory | test-industry-ready.py:349-356 | the inner loop adds one to the total per entry, and one to the counter its status names, if any |
| IndustryReady.CategoryRowsNone | test-industry-ready.py:349 | before the first test of a category nothing is added |
| IndustryReady.CategoryRowsStep | test-industry-ready.py:349-350 | each further test adds its row at the end |
| IndustryReady.CategoryRowsMember | test-industry-ready.py:349 | the rows of a category are exactly its stored (test name, entry) pairs |
| IndustryReady.RowsMemberAt | test-industry-ready.py:348-349 | the rows visited are exactly the pairs stored under some category |
| IndustryReady.RowsAreStoredEntries | test-industry-ready.py:348-350 | a row is visited iff looking up its category and test name gives its entry, so `total_tests` counts every stored entry and nothing else |
| IndustryReady.StatusCountSnoc | test-industry-ready.py:351-356 | one more row adds one to the count of its status and nothing to the others |
| IndustryReady.StatusCountsBounded | test-industry-ready.py:343-356 | passed + failed + warnings ≤ total: EXCELLENT, GOOD and NEEDS_IMPROVEMENT entries count toward the total only |
| IndustryReady.FailedRows | test-industry-ready.py:387-392 | the "failed tests to fix" listing holds exactly the FAIL entries, never WARNING, as many as the failure count |
| IndustryReady.FailedRowsSnoc | test-industry-ready.py:387-392 | the listing is in visiting order: a row visited last is listed last exactly when it is FAIL, after the earlier listing unchanged |
| IndustryReady.FailedRowsAppend | test-industry-ready.py:387-392 | the failed rows of two runs of visits are listed run by run |
| IndustryReady.FailedRowsMultiset | test-industry-ready.py:387-392 | each FAIL row is listed exactly as many times as it was visited, and the listing is a sub-multiset of the visited rows |
| IndustryReady.Recommend | test-industry-ready.py:378-385 | the recommendation is EXCELLENT or GOOD iff rate ≥ 85 |
| IndustryReady.RecommendationTiers | test-industry-ready.py:378-385 | exactly one tier applies, cut at 95, 85 and 70 percent, in integer form |
| IndustryReady.CorsStatus | test-industry-ready.py:251-260 | CORS is FAIL iff the request raised, PASS iff a non-empty `access-control-allow-origin` header came back (whatever the status code), WARNING otherwise |
| IndustryReady.RateLimiting | test-industry-ready.py:262-276 | rate limiting is FAIL iff a request of the burst of five raised, PASS iff all five answered and 429 is among the codes, WARNING iff all answered without 429 |
| IndustryReady.FrontendContentStatus | test-industry-ready.py:228-231 | PASS iff the page contains "Smart TimeTracker Dashboard", else FAIL |
| IndustryReady.FrontendErrorsStatus | test-industry-ready.py:234-237 | WARNING iff the lower-cased page contains both "error" and "exception", else PASS |
| IndustryReady.FrontendChecks | test-industry-ready.py:222-243 | a 200 logs `frontend_content` and `frontend_errors` by the two rules; anything else logs one `frontend_accessibility` FAIL |
| IndustryReady.ChatChecks | test-industry-ready.py:118-150 | non-200 or raised gives one `chat_endpoint` FAIL; a 200 logs `chat_endpoint` PASS, then `image_response` PASS when the content type is an image, else `text_response` PASS when the JSON body has a `response` member, and `response_format` FAIL otherwise |
| IndustryReady.RoutineImageStatus | test-industry-ready.py:152-174 | PASS iff a 200 with an image content type; everything else FAIL |
| IndustryReady.Completed | test-industry-ready.py:83-89 | one response time is kept per request that did not raise, and the kept times are exactly those of such requests |
| IndustryReady.CompletedInOrder | test-industry-ready.py:88-89 | the kept times are in submission order: a completed request's time sits after those of the completed requests submitted before it |
| IndustryReady.ConcurrentLoadStatus | test-industry-ready.py:91-110 | `concurrent_load` is PASS iff at least one request completed, else FAIL |
| IndustryReady.StressWorker | test-industry-ready.py:314-324 | the worker returns true iff all 20 requests answer 200; it stops at the first one that does not, and every earlier one was a 200 |
| IndustryReady.StressTier | test-industry-ready.py:331-337 | PASS iff successes·100 ≥ 95·workers, WARNING iff between 80 and 95 percent, FAIL below 80 percent |
| IndustryReady.StressTierFiveWorkers | test-industry-ready.py:326-337 | with five workers: PASS iff all succeed, WARNING iff exactly four do, FAIL iff three or fewer do |
| EnhancedMl.ProcessingStatus | test-enhanced-ml-features.py:48-58 | PASS iff a 200 whose dict body has `status == "processing"`; everything else, raised included, is FAIL (also lines 82-92 and 116-126) |
| EnhancedMl.DataFileStatus | test-enhanced-ml-features.py:60-68 | a present data file is PASS, a missing one only WARN (also lines 95-102) |
| EnhancedMl.RiskSummaryStatus | test-enhanced-ml-features.py:139-149 | PASS iff a 200 whose dict body has both `risk_distribution` and `total_students`; else FAIL |
| EnhancedMl.StudentStatus | test-enhanced-ml-features.py:158-170 | PASS iff a 200 with both `student_id` and `attendance_rate`, WARN iff a 404, FAIL for every other case (raised, other codes, a 200 without both keys) |
| EnhancedMl.RoutineImageStatus | test-enhanced-ml-features.py:187-197 | PASS iff a 200 with an image content type; a 200 with another content type is WARN, not FAIL; FAIL iff not a 200 |
| EnhancedMl.KeyPresentStatus | test-enhanced-ml-features.py:210-220 | PASS iff a 200 whose body makes Python's `key in data` true; else FAIL; a dict body with the key always passes (also lines 252-262) |
| EnhancedMl.ModelFileTestJoin | test-enhanced-ml-features.py:235 | the test name of a file in `ml-service/src/` is "ML Model File: " followed by the file name alone |
| EnhancedMl.ModelFileTests | test-enhanced-ml-features.py:226-237 | the three model files are logged as "ML Model File: timetable_optimizer.py", "…attendance_predictor.py" and "…notification_system.py" |
| EnhancedMl.ModelFileRecord | test-enhanced-ml-features.py:234-237 | a model file's record is PASS iff the file exists and FAIL iff it does not |
| EnhancedMl.LogModelFile | test-enhanced-ml-features.py:233-237 | one pass of the loop appends exactly the file's record |
| EnhancedMl.LogModelFiles | test-enhanced-ml-features.py:232-239 | the loop appends one record per file, in order, keeping the earlier records |
| EnhancedMl.TestMlModelFiles | test-enhanced-ml-features.py:226-239 | exactly three records are appended, one per model file in order |
| AllFunctionality.FailureMessage | test-all-functionality.py:48-50 | a failed probe's message is "Connection error: " followed by the exception text, or "Status: " followed by decimal digits, with no leading zero, that denote the status code |
| AllFunctionality.MainEndpointStatus | test-all-functionality.py:56-64 | "Backend Main Endpoint" is PASS iff `GET /` gave a 200, else FAIL |
| AllFunctionality.HealthRecord | test-all-functionality.py:44-50 | a service's health record is PASS iff its status is 200, and FAIL otherwise |
| AllFunctionality.LogServiceHealth | test-all-functionality.py:42-50 | the sweep appends one record per service, in order, keeping the earlier records |
| AllFunctionality.TestServiceHealth | test-all-functionality.py:38-50 | exactly four records are appended, one per entry of `base_urls` in order |
| AllFunctionality.HealthSweepCounts | test-all-functionality.py:42-50 | after the sweep, the PASS count grows by the number of services that answered 200, the FAIL count by the rest, and warnings stay the same |
| AllFunctionality.StatusCounts | test-all-functionality.py:231-234 | records added one per outcome, PASS iff the outcome is a 200 and never WARN, raise the counts accordingly |
| AllFunctionality.PageRecord | test-all-functionality.py:149-156 | a page record is PASS iff the page answered 200, else FAIL |
| AllFunctionality.LogFrontendPages | test-all-functionality.py:148-156 | the sweep appends one record per page, in order, keeping the earlier records |
| AllFunctionality.TestFrontendPages | test-all-functionality.py:134-156 | exactly seven records are appended, one per page in order |
| AllFunctionality.KeyCheck | test-all-functionality.py:102-114 | PASS iff a 200 whose body makes `key in data` true; aborts the run iff `in` raises; never WARN (also lines 66-82 and 116-132) |
| AllFunctionality.DepartmentsCheck | test-all-functionality.py:88-100 | PASS iff a 200 whose body is a JSON list, else FAIL |
| AllFunctionality.ChatbotReplyCheck | test-all-functionality.py:162-196 | PASS iff a 200 with a dict body whose `response` has length > 10; FAIL iff the answer is a non-200, raised or unparsable, or its body lacks `response`, or that `response` has length ≤ 10; the run aborts iff `in` or `len` raises TypeError or a list or string body containing "response" is indexed by a string; never WARN |
| AllFunctionality.NavigationChecks | test-all-functionality.py:198-223 | after a 200, "External Links" is PASS iff the page has `target="_blank"` or `window.open`, and "Chatbot Integration" is PASS iff the lower-cased page mentions "chatbot" or "ai assistant"; both only warn otherwise; any other answer logs one failing "Navigation Test" |
| Integration.ServiceHealthy | test-integration.py:23-35 | healthy iff the request gave a 200; a raised request is unhealthy (also lines 110-122) |
| Integration.FieldLength | test-integration.py:43-68 | after a 200 with a dict body: the length of the field, or of the default when the key is absent; 0 when the status is not 200, the body is not JSON or not a dict, or the value has no length |
| Integration.ChatResponds | test-integration.py:70-86 | `chat_response` is true iff a 200 brings a dict whose `response` is non-empty |
| Integration.TestMlServiceEndpoints | test-integration.py:37-88 | the dict has `departments`, `chatbot_context` and `chat_response`, in that order, each with its default (0, 0, false) on failure |
| Integration.TestBackendEndpoints | test-integration.py:90-108 | the dict has one key, `health`, true iff `/health` gave a 200 |
| Integration.HealthKey | test-integration.py:132 | the key a health result is stored under ends in `_health` |
| Integration.IntegrationTester.constructor | test-integration.py:21 | a fresh tester has an empty `results` dict |
| Integration.IntegrationTester.RunAllTests | test-integration.py:124-146 | the new `results` is the old one after the health loop and the three assignments, and it is returned |
| Integration.RecordHealthStep | test-integration.py:130-132 | each service of the loop except frontend stores its health key |
| Integration.RecordHealthNone | test-integration.py:130 | before the loop nothing is stored |
| Integration.RecordHealthAll | test-integration.py:130-132 | after the last service the loop has walked all of `base_urls` |
| Integration.Health4 | test-integration.py:130-132 | over the four services, the loop writes one health key each for backend, ML service and chatbot, in order, and skips frontend |
| Integration.FreshHealth | test-integration.py:130-132 | on a fresh tester the health loop stores `backend_health`, `ml_service_health` and `chatbot_health`, in order |
| Integration.HealthKeys | test-integration.py:132 | every key the health loop stores ends in `_health` |
| Integration.RecordRestAppends | test-integration.py:136-144 | after the health loop, `ml_endpoints`, `backend_endpoints` and `chatbot_service` are each added once, at the end |
| Integration.FreshRun | test-integration.py:124-146 | a fresh run leaves the health entries followed by the two endpoint dicts and the chatbot check |
| Integration.Truthy | test-integration.py:155-177 | the falsy values are exactly `False`, `0` and the empty dict |
| Integration.TotalTests | test-integration.py:176 | `total_tests` never exceeds the number of keys |
| Integration.PassedTests | test-integration.py:177 | passed ≤ total, since passed counts a subset of the counted keys |
| Integration.HealthKeyCounted | test-integration.py:155-176 | a key ending in `_health` does not end in `_endpoints`, so it is counted as a test |
| Integration.HealthyServices | test-integration.py:155-156 | every healthy service is also a passed test |
| Integration.ExitCode | test-integration.py:200-205 | the exit status is 0 or 1 |
| Integration.ExitZeroIff | test-integration.py:197-205 | `main` exits 0 iff every key not ending in `_endpoints` has a truthy value |
| Integration.AppendCounts | test-integration.py:176-177 | total and passed over a concatenation add up |
| Integration.FreshHealthCounts | test-integration.py:176-177 | the three health entries of a fresh run all count, and they pass by their health |
| Integration.TailCounts | test-integration.py:176-177 | of the last three entries only `chatbot_service` counts |
| Integration.FreshRunVerdict | test-integration.py:197-205 | after a fresh run, total is 4 and passed is the number of healthy checks; `main` exits 0 iff backend, ML service and chatbot answer `/health` with 200 and the chatbot's `/` does too |
| Integration.HealthyAppend | test-integration.py:155 | the healthy-services count over a concatenation adds up |
| Integration.FreshHealthHealthy | test-integration.py:155-156 | the fresh health entries count as healthy exactly when their service answered 200 |
| Integration.TailHealthy | test-integration.py:155 | none of the last three entries is counted as a healthy service |
| Integration.FreshHealthyServices | test-integration.py:155-156 | after a fresh run, "Healthy Services" is the number of the backend, ML service and chatbot whose `/health` gave 200, at most 3 |
| RoutineImage.ImageSucceeds | test-routine-image.py:45-60 | a routine query counts only after a 200 whose content type contains `image` and whose image was saved |
| RoutineImage.PreviewSlices | test-routine-image.py:131 | the preview can be taken only from a dict body; without `response` the default string always slices, with it iff the value is a string or a list |
| RoutineImage.TextSucceeds | test-routine-image.py:125-140 | a non-routine query counts only after a 200 with a JSON content type and a parsed dict body; with a `response` field it counts iff that field can be sliced; without one it always counts |
| RoutineImage.Summarize | test-routine-image.py:86-91 | the summary is all passed iff successful = total, partial iff 0 < successful < total, all failed iff successful = 0 |
| RoutineImage.SummaryOfAttempts | test-routine-image.py:86-93 | over the attempts: all passed iff every one succeeded, all failed iff none did, partial iff some did and some did not |
| RoutineImage.TestRoutineImageGeneration | test-routine-image.py:20-93 | the counter is the number of attempts with a 200, an image content type and a saved file; it is at most 5; the summary follows it; the result is true iff every attempt succeeded |
| RoutineImage.TestNonRoutineQueries | test-routine-image.py:102-147 | the counter is the number of queries that succeeded, at most 4, and the result is true iff all of them did |
| RoutineImage.RunTests | test-routine-image.py:154-175 | "all functionality working" is reported iff every routine query brought back a saved image and every other query a JSON answer |
| Text.Basename | test-enhanced-ml-features.py:235 | the base name is the whole last segment of the path: a suffix with no `/`, preceded by `/` or the start of the path |
| Text.BasenameJoin | test-enhanced-ml-features.py:235 | the base name of `dir + name` is `name` when `dir` ends in `/` and `name` holds none; `EnhancedMl.ModelFileTestJoin` applies it to the model-file paths |
| Text.NatToString | test-all-functionality.py:48 | `str` of a status code is a non-empty string of decimal digits, with no leading zero, that denotes the code |
| Http.Member | test-all-functionality.py:171 | Python's `in` raises exactly on a number, boolean or null; on a list it finds an element equal to the key |
| Http.GetOr | test-integration.py:47-61 | `.get` fails exactly on a body that is not a dict; it gives what `[]` gives when that succeeds, and the default otherwise |
| Http.Index | test-all-functionality.py:171 | `value[key]` succeeds iff `value` is a dict and `key in value` holds, giving one of its values |
| Http.Len | test-all-functionality.py:171 | `len` raises exactly on a number, boolean or null, and counts the keys of a dict |

## Left out

- Network calls, timeouts and exception classes: every request's outcome is an input (`Outcome`), and `requests` 2.27 or later is assumed, where a JSON decode error is a `RequestException`.
- Concurrency: the thread pools of `test_performance_under_load` and `run_stress_test` are not modelled; the per-request and per-worker results are inputs, in submission order.
- Latency: `time.time`, `statistics.mean`, min and max, the performance-metric printout, and the response-time benchmark tiers (EXCELLENT / GOOD / NEEDS_IMPROVEMENT over a float average); only the fact that such entries count toward the total is modelled.
- Float arithmetic: rates are exact rationals, and thresholds are proved in integer form; one-decimal rounding in printing is not modelled.
- Clocks, printing, emoji, `time.sleep` and `input()`: timestamps are inputs; console output is not modelled.
- File I/O: `json.dump` of the reports and `os.path.exists` (its answer is an input); the routine JPEG write is an input bool saying whether it succeeded.
- test-chatbot.py is not part of this model: it only probes and prints.
- IndustryReady: `test_service_connectivity`, `test_backend_api_endpoints` and `test_database_integrity` are not modelled. They are further probes of the same kind as the ones modelled, with their own body checks: `len(data.get('data', []))` in the backend probe, and the empty-list WARNING and `first_dept['id']` in the database probe. Leaving them out shortens the model; it changes nothing in the store or the report. `run_all_tests` and `main` of that script, which only call the probes, are not modelled either.
- Integration: the text lines of `generate_report` (department and data-source counts, emoji marks) are not modelled beyond the healthy-services and pass/total counts.
- Text: `.lower()` and `.upper()` map ASCII letters only; Unicode case mapping is not modelled.
- The `main` functions' `KeyboardInterrupt` handlers are not modelled.
- Single-check tests of `EnhancedMLTester`, `SystemTester` and `IndustryReadyTester` (the ML endpoint, data-file, student, routine-image, key, department, chatbot, CORS, rate-limit, frontend and chat checks) are modelled by the status rule they apply only. Their `log_test` call, with its test name and message, is modelled only for the service-health, frontend-page and model-file sweeps. `IndustryReadyTester.LogTest` is modelled as the store operation itself, not tied to the probe that calls it.
- AllFunctionality.HealthRecord: states only the status; the test name and message are fixed by the body.
- AllFunctionality.PageRecord: states only the status; the test name and message are fixed by the body.
- EnhancedMl.ModelFileRecord: states only the status; the test name and message are fixed by the body.
- IndustryReady.StressTier: requires at least one worker result; the source always has five, and Python would raise on none.
