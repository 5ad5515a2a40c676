/** `IndustryReadyTester`: results kept in a dict of categories, each a
    dict of test name to entry; the report tallies every stored entry; and
    the pure rules that decide the security, frontend, ML and stress
    checks. */
module IndustryReady {
  import opened Wrappers
  import opened Http
  import Text
  import Dict
  import Tally

  const PASS := "PASS"
  const FAIL := "FAIL"
  const WARNING := "WARNING"

  /** `{'status', 'details', 'timestamp'}`. The status is any string the
      caller passes; besides the three above the source also stores
      EXCELLENT, GOOD and NEEDS_IMPROVEMENT. */
  datatype Entry = Entry(status: string, details: string, timestamp: string)

  type Tests = Dict.Dict<string, Entry>
  type Results = Dict.Dict<string, Tests>

  /** No repeated key, at either level. */
  ghost predicate WellFormed(d: Results) {
    Dict.Unique(d) && forall i :: 0 <= i < |d| ==> Dict.Unique(d[i].1)
  }

  /** `self.test_results` as `__init__` sets it up. */
  const InitialResults: Results :=
    [("performance", []), ("reliability", []), ("functionality", []), ("security", []), ("ml_models", [])]

  /** `test_results[category][test_name]`, when both keys are present. */
  function Lookup(d: Results, category: string, testName: string): (r: Option<Entry>)
    ensures r.Some? <==> Dict.HasKey(d, category) && Dict.HasKey(Dict.Get(d, category).value, testName)
    ensures r.Some? ==> (testName, r.value) in Dict.Get(d, category).value
  {
    match Dict.Get(d, category)
    case None => None
    case Some(tests) => Dict.Get(tests, testName)
  }

  /** The dict after one `log_test(category, test_name, ...)`: the
      category is there, created when missing, and holds the new entry. */
  function Store(d: Results, category: string, testName: string, e: Entry): (r: Results)
    ensures Dict.HasKey(r, category)
    ensures Lookup(r, category, testName) == Some(e)
  {
    var tests := Dict.Put(Dict.Get(d, category).GetOr([]), testName, e);
    Dict.PutKeys(d, category, tests, category);
    Dict.PutGet(d, category, tests, category);
    Dict.PutGet(Dict.Get(d, category).GetOr([]), testName, e, testName);
    Dict.Put(d, category, tests)
  }

  /** `log_test` leaves exactly the new entry at [category][test_name] and
      every other (category, test name) as it was. */
  lemma StoreLookup(d: Results, category: string, testName: string, e: Entry, c: string, n: string)
    ensures Lookup(Store(d, category, testName, e), c, n)
         == if c == category && n == testName then Some(e) else Lookup(d, c, n)
  {
    var tests := Dict.Get(d, category).GetOr([]);
    Dict.PutGet(d, category, Dict.Put(tests, testName, e), c);
    Dict.PutGet(tests, testName, e, n);
  }

  lemma StoreWellFormed(d: Results, category: string, testName: string, e: Entry)
    requires WellFormed(d)
    ensures WellFormed(Store(d, category, testName, e))
  {
    var tests := Dict.Get(d, category).GetOr([]);
    var tests' := Dict.Put(tests, testName, e);
    var d' := Store(d, category, testName, e);
    Dict.PutUnique(d, category, tests');
    if Dict.HasKey(d, category) {
      var i :| 0 <= i < |d| && d[i].0 == category && d[i].1 == tests by {
        assert (category, tests) in d;
      }
      Dict.PutUnique(tests, testName, e);
    } else {
      Dict.PutUnique([], testName, e);
    }
    Dict.PutUnique(tests, testName, e) by {
      if !Dict.HasKey(d, category) {
        assert tests == [];
      } else {
        var j :| 0 <= j < |d| && d[j] == (category, tests);
      }
    }
    forall i | 0 <= i < |d'| ensures Dict.Unique(d'[i].1) {
      if i >= |d| {
        assert d' == d + [(category, tests')];
      }
    }
  }

  lemma InitialWellFormed()
    ensures WellFormed(InitialResults)
  {
    assert InitialResults[1..][1..][1..][1..][1..] == [];
  }

  /** `class IndustryReadyTester`: its `test_results` dict. */
  class IndustryReadyTester {
    var testResults: Results

    ghost predicate Valid()
      reads this
    {
      WellFormed(testResults)
    }

    constructor ()
      ensures Valid()
      ensures testResults == InitialResults
    {
      testResults := InitialResults;
      InitialWellFormed();
    }

    /** `log_test`: creates the category if missing, then sets
        [category][test_name], replacing an earlier entry with that key. */
    method LogTest(category: string, testName: string, status: string, details: string, timestamp: string)
      requires Valid()
      modifies this
      ensures Valid()
      ensures testResults == Store(old(testResults), category, testName, Entry(status, details, timestamp))
      ensures Lookup(testResults, category, testName) == Some(Entry(status, details, timestamp))
      ensures forall c, n :: c != category || n != testName ==>
                Lookup(testResults, c, n) == Lookup(old(testResults), c, n)
      ensures Dict.HasKey(testResults, category)
    {
      var e := Entry(status, details, timestamp);
      ghost var d := testResults;
      if !Dict.HasKey(testResults, category) {
        testResults := Dict.Put(testResults, category, []);
        Dict.PutGet(d, category, [], category);
      }
      var tests := Dict.Get(testResults, category).value;
      testResults := Dict.Put(testResults, category, Dict.Put(tests, testName, e));
      if !Dict.HasKey(d, category) {
        Dict.PutPut(d, category, [], Dict.Put(tests, testName, e));
      }
      StoreWellFormed(d, category, testName, e);
      forall c, n
        ensures Lookup(testResults, c, n) == if c == category && n == testName then Some(e) else Lookup(d, c, n)
      {
        StoreLookup(d, category, testName, e, c, n);
      }
    }

    /** `generate_report`: the doubly nested loop over `test_results`
        counts every stored entry in `total_tests` and only PASS, FAIL and
        WARNING in the three counters; the rest is derived from them. */
    method GenerateReport() returns (report: Report)
      ensures report.total == |Rows(testResults)|
      ensures report.passed == StatusCount(Rows(testResults), PASS)
      ensures report.failed == StatusCount(Rows(testResults), FAIL)
      ensures report.warnings == StatusCount(Rows(testResults), WARNING)
      ensures report.passed + report.failed + report.warnings <= report.total
      ensures report.successRate == Tally.SuccessRate(report.passed, report.total)
      ensures 0.0 <= report.successRate <= 100.0
      ensures report.recommendation == Recommend(report.successRate)
      ensures report.industryReady <==> report.successRate >= 85.0
      ensures report.industryReady <==> report.total > 0 && report.passed * 100 >= 85 * report.total
      ensures report.toFix == if report.failed > 0 then FailedRows(Rows(testResults)) else []
      ensures |report.toFix| == report.failed
    {
      var total, passed, failed, warnings := 0, 0, 0, 0;
      var i := 0;
      while i < |testResults|
        invariant 0 <= i <= |testResults|
        invariant total == |Rows(testResults[..i])|
        invariant passed == StatusCount(Rows(testResults[..i]), PASS)
        invariant failed == StatusCount(Rows(testResults[..i]), FAIL)
        invariant warnings == StatusCount(Rows(testResults[..i]), WARNING)
      {
        var category := testResults[i].0;
        var tests := testResults[i].1;
        total, passed, failed, warnings :=
          TallyCategory(category, tests, Rows(testResults[..i]), total, passed, failed, warnings);
        assert testResults[..i + 1][..i] == testResults[..i];
        i := i + 1;
      }
      assert testResults[..|testResults|] == testResults;
      StatusCountsBounded(Rows(testResults));
      var rate := Tally.SuccessRate(passed, total);
      if total > 0 {
        Tally.RateAtLeast(passed, total, 85);
      }
      var toFix := if failed > 0 then FailedRows(Rows(testResults)) else [];
      report := Report(total, passed, failed, warnings, rate, Recommend(rate), toFix, rate >= 85.0);
    }
  }

  /** The inner loop of `generate_report` over one category's tests: adds
      one to `total_tests` per entry and one to the counter its status
      names, if any. `done` are the rows counted before. */
  method TallyCategory(category: string, tests: Tests, ghost done: seq<Row>,
                       total0: nat, passed0: nat, failed0: nat, warnings0: nat)
    returns (total: nat, passed: nat, failed: nat, warnings: nat)
    requires total0 == |done|
    requires passed0 == StatusCount(done, PASS)
    requires failed0 == StatusCount(done, FAIL)
    requires warnings0 == StatusCount(done, WARNING)
    ensures total == |done + CategoryRows(category, tests)|
    ensures passed == StatusCount(done + CategoryRows(category, tests), PASS)
    ensures failed == StatusCount(done + CategoryRows(category, tests), FAIL)
    ensures warnings == StatusCount(done + CategoryRows(category, tests), WARNING)
  {
    total, passed, failed, warnings := total0, passed0, failed0, warnings0;
    var j := 0;
    CategoryRowsNone(category, tests, done);
    while j < |tests|
      invariant 0 <= j <= |tests|
      invariant total == |done + CategoryRows(category, tests[..j])|
      invariant passed == StatusCount(done + CategoryRows(category, tests[..j]), PASS)
      invariant failed == StatusCount(done + CategoryRows(category, tests[..j]), FAIL)
      invariant warnings == StatusCount(done + CategoryRows(category, tests[..j]), WARNING)
    {
      var status := tests[j].1.status;
      total := total + 1;
      if status == PASS {
        passed := passed + 1;
      } else if status == FAIL {
        failed := failed + 1;
      } else if status == WARNING {
        warnings := warnings + 1;
      }
      ghost var row := Row(category, tests[j].0, tests[j].1);
      ghost var before := done + CategoryRows(category, tests[..j]);
      CategoryRowsStep(category, tests, done, j);
      StatusCountSnoc(before, row, PASS);
      StatusCountSnoc(before, row, FAIL);
      StatusCountSnoc(before, row, WARNING);
      j := j + 1;
    }
    assert tests[..|tests|] == tests;
  }

  /** One stored entry with the keys that lead to it. */
  datatype Row = Row(category: string, testName: string, entry: Entry)

  /** The entries of one category, in insertion order. */
  function CategoryRows(category: string, tests: Tests): seq<Row> {
    if tests == [] then []
    else
      var last := tests[|tests| - 1];
      CategoryRows(category, tests[..|tests| - 1]) + [Row(category, last.0, last.1)]
  }

  lemma CategoryRowsNone(category: string, tests: Tests, done: seq<Row>)
    ensures done + CategoryRows(category, tests[..0]) == done
  {
    assert tests[..0] == [];
  }

  /** One more entry of a category adds its row at the end. */
  lemma CategoryRowsStep(category: string, tests: Tests, done: seq<Row>, j: nat)
    requires j < |tests|
    ensures done + CategoryRows(category, tests[..j + 1])
         == (done + CategoryRows(category, tests[..j])) + [Row(category, tests[j].0, tests[j].1)]
  {
    assert tests[..j + 1][..j] == tests[..j];
  }

  /** Every stored entry, in the order `generate_report` visits them. */
  function Rows(d: Results): seq<Row> {
    if d == [] then []
    else Rows(d[..|d| - 1]) + CategoryRows(d[|d| - 1].0, d[|d| - 1].1)
  }

  lemma {:induction false} CategoryRowsMember(category: string, tests: Tests, row: Row)
    ensures row in CategoryRows(category, tests) <==> row.category == category && (row.testName, row.entry) in tests
  {
    if tests != [] {
      var init := tests[..|tests| - 1];
      CategoryRowsMember(category, init, row);
      assert tests == init + [tests[|tests| - 1]];
    }
  }

  lemma {:induction false} RowsMemberAt(d: Results, row: Row)
    ensures row in Rows(d) <==> exists i :: 0 <= i < |d| && d[i].0 == row.category && (row.testName, row.entry) in d[i].1
  {
    if d != [] {
      var init := d[..|d| - 1];
      RowsMemberAt(init, row);
      CategoryRowsMember(d[|d| - 1].0, d[|d| - 1].1, row);
      assert forall i :: 0 <= i < |init| ==> init[i] == d[i];
    }
  }

  /** The rows the report visits are exactly the entries stored in the
      dict: `total_tests` counts every stored entry and nothing else. */
  lemma RowsAreStoredEntries(d: Results, row: Row)
    requires WellFormed(d)
    ensures row in Rows(d) <==> Lookup(d, row.category, row.testName) == Some(row.entry)
  {
    RowsMemberAt(d, row);
    if row in Rows(d) {
      var i :| 0 <= i < |d| && d[i].0 == row.category && (row.testName, row.entry) in d[i].1;
      assert d[i] in d;
      Dict.GetIn(d, d[i].0, d[i].1);
      Dict.GetIn(d[i].1, row.testName, row.entry);
    }
    if Lookup(d, row.category, row.testName) == Some(row.entry) {
      var tests := Dict.Get(d, row.category).value;
      assert (row.category, tests) in d;
      var i :| 0 <= i < |d| && d[i] == (row.category, tests);
    }
  }

  /** `result['status'] == status` counted over rows. */
  function StatusCount(rows: seq<Row>, status: string): nat {
    Tally.Count(rows, (r: Row) => r.entry.status == status)
  }

  lemma StatusCountSnoc(rows: seq<Row>, row: Row, status: string)
    ensures StatusCount(rows + [row], status) == StatusCount(rows, status) + (if row.entry.status == status then 1 else 0)
  {
    Tally.CountSnoc(rows, row, (r: Row) => r.entry.status == status);
  }

  /** An entry is counted under at most one of PASS, FAIL and WARNING, and
      entries with other statuses (EXCELLENT, GOOD, ...) count toward the
      total only. */
  lemma StatusCountsBounded(rows: seq<Row>)
    ensures StatusCount(rows, PASS) + StatusCount(rows, FAIL) + StatusCount(rows, WARNING) <= |rows|
  {
    Tally.CountExclusive3(rows, (r: Row) => r.entry.status == PASS,
                          (r: Row) => r.entry.status == FAIL, (r: Row) => r.entry.status == WARNING);
  }

  /** The "FAILED TESTS TO FIX" listing: the entries whose status is FAIL
      (never WARNING), in visiting order. */
  function FailedRows(rows: seq<Row>): (r: seq<Row>)
    ensures |r| == StatusCount(rows, FAIL)
    ensures forall i :: 0 <= i < |r| ==> r[i] in rows && r[i].entry.status == FAIL
    ensures forall i :: 0 <= i < |rows| && rows[i].entry.status == FAIL ==> rows[i] in r
  {
    Tally.Filter(rows, (r: Row) => r.entry.status == FAIL)
  }

  /** The listing follows the visiting order: a row visited after the
      others is listed last exactly when it failed. */
  lemma FailedRowsSnoc(rows: seq<Row>, x: Row)
    ensures FailedRows(rows + [x]) == FailedRows(rows) + (if x.entry.status == FAIL then [x] else [])
  {
    Tally.FilterSnoc(rows, x, (r: Row) => r.entry.status == FAIL);
  }

  /** The rows of two runs of visits are listed run by run. */
  lemma FailedRowsAppend(a: seq<Row>, b: seq<Row>)
    ensures FailedRows(a + b) == FailedRows(a) + FailedRows(b)
  {
    Tally.FilterAppend(a, b, (r: Row) => r.entry.status == FAIL);
  }

  /** A failed row is listed as many times as it was visited; nothing else
      is listed. */
  lemma FailedRowsMultiset(rows: seq<Row>)
    ensures multiset(FailedRows(rows)) <= multiset(rows)
    ensures forall x :: x in rows && x.entry.status == FAIL ==> multiset(FailedRows(rows))[x] == multiset(rows)[x]
  {
    Tally.FilterMultiset(rows, (r: Row) => r.entry.status == FAIL);
  }

  /** The recommendation printed under "RECOMMENDATIONS". */
  datatype Recommendation = Excellent | Good | Fair | Poor

  function Recommend(rate: real): (rec: Recommendation)
    ensures rate >= 85.0 <==> rec == Excellent || rec == Good
  {
    if rate >= 95.0 then Excellent
    else if rate >= 85.0 then Good
    else if rate >= 70.0 then Fair
    else Poor
  }

  /** The recommendation tiers in integer form: exactly one applies, cut
      at 95, 85 and 70 percent. */
  lemma RecommendationTiers(passed: nat, total: nat)
    requires total > 0
    ensures Recommend(Tally.SuccessRate(passed, total)) == Excellent <==> passed * 100 >= 95 * total
    ensures Recommend(Tally.SuccessRate(passed, total)) == Good <==> 85 * total <= passed * 100 < 95 * total
    ensures Recommend(Tally.SuccessRate(passed, total)) == Fair <==> 70 * total <= passed * 100 < 85 * total
    ensures Recommend(Tally.SuccessRate(passed, total)) == Poor <==> passed * 100 < 70 * total
  {
    Tally.RateAtLeast(passed, total, 95);
    Tally.RateAtLeast(passed, total, 85);
    Tally.RateAtLeast(passed, total, 70);
  }

  /** What `generate_report` prints, and its return value. */
  datatype Report = Report(total: nat, passed: nat, failed: nat, warnings: nat, successRate: real,
                           recommendation: Recommendation, toFix: seq<Row>, industryReady: bool)

  // ---------------------------------------------------------------
  // Rules of the individual checks

  /** `test_security_features`, CORS part: PASS when the response carries a
      non-empty `access-control-allow-origin` header (whatever its status
      code), WARNING when it does not, FAIL when the request raised. */
  function CorsStatus(o: Outcome): (status: string)
    ensures status == FAIL <==> o.Raised?
    ensures status == PASS <==> o.Responded? && Header(o.response, "access-control-allow-origin").GetOr("") != ""
    ensures status == PASS || status == FAIL || status == WARNING
  {
    match o
    case Raised(_) => FAIL
    case Responded(r) =>
      match Header(r, "access-control-allow-origin")
      case Some(h) => if h != "" then PASS else WARNING
      case None => WARNING
  }

  const BurstSize := 5

  /** `test_security_features`, rate-limit part: collects the status codes
      of a burst of requests; a raised request ends the burst with FAIL;
      PASS when 429 is among the codes, WARNING otherwise. The i-th outcome
      is what the i-th request would produce. */
  method RateLimiting(burst: seq<Outcome>) returns (status: string)
    requires |burst| == BurstSize
    ensures status == FAIL <==> exists i :: 0 <= i < |burst| && burst[i].Raised?
    ensures status == PASS <==> ((forall i :: 0 <= i < |burst| ==> burst[i].Responded?)
                              && exists i :: 0 <= i < |burst| && HasStatus(burst[i], TOO_MANY_REQUESTS))
    ensures status == WARNING <==> forall i :: 0 <= i < |burst| ==> burst[i].Responded? && !HasStatus(burst[i], TOO_MANY_REQUESTS)
  {
    var responses: seq<nat> := [];
    var i := 0;
    while i < |burst|
      invariant 0 <= i <= |burst|
      invariant |responses| == i
      invariant forall k :: 0 <= k < i ==> burst[k].Responded? && responses[k] == burst[k].response.status
    {
      if burst[i].Raised? {
        return FAIL;
      }
      responses := responses + [burst[i].response.status];
      i := i + 1;
    }
    if TOO_MANY_REQUESTS in responses {
      status := PASS;
    } else {
      status := WARNING;
    }
  }

  const DashboardTitle := "Smart TimeTracker Dashboard"

  /** `frontend_content`: PASS iff the page contains the dashboard title. */
  function FrontendContentStatus(content: string): (status: string)
    ensures status == PASS <==> Text.Contains(content, DashboardTitle)
    ensures status == PASS || status == FAIL
  {
    if Text.Contains(content, DashboardTitle) then PASS else FAIL
  }

  /** `frontend_errors`: the condition is `"error" not in page or
      "exception" not in page`, so the check warns only when the
      lower-cased page contains both words. */
  function FrontendErrorsStatus(content: string): (status: string)
    ensures status == WARNING <==> Text.Contains(Text.Lower(content), "error") && Text.Contains(Text.Lower(content), "exception")
    ensures status == PASS || status == WARNING
  {
    var page := Text.Lower(content);
    if !Text.Contains(page, "error") || !Text.Contains(page, "exception") then PASS else WARNING
  }

  /** `test_frontend_functionality`: the (test name, status) pairs it logs
      under 'functionality'. */
  function FrontendChecks(o: Outcome): (logged: seq<(string, string)>)
    ensures HasStatus(o, OK) ==> |logged| == 2 && logged[0].0 == "frontend_content" && logged[1].0 == "frontend_errors"
    ensures HasStatus(o, OK) ==> (logged[0].1 == FrontendContentStatus(o.response.text)
                               && logged[1].1 == FrontendErrorsStatus(o.response.text))
    ensures !HasStatus(o, OK) ==> logged == [("frontend_accessibility", FAIL)]
  {
    if HasStatus(o, OK) then
      [("frontend_content", FrontendContentStatus(o.response.text)),
       ("frontend_errors", FrontendErrorsStatus(o.response.text))]
    else [("frontend_accessibility", FAIL)]
  }

  /** `test_ml_model_functionality`, chat part: the (test name, status)
      pairs it logs under 'ml_models'. A 200 logs chat_endpoint PASS and
      then image_response PASS for an image content type, or else
      text_response PASS when the JSON body has a 'response' member, and
      response_format FAIL in every other case (bad JSON included). */
  function ChatChecks(o: Outcome): (logged: seq<(string, string)>)
    ensures !HasStatus(o, OK) ==> logged == [("chat_endpoint", FAIL)]
    ensures HasStatus(o, OK) ==> |logged| == 2 && logged[0] == ("chat_endpoint", PASS)
    ensures HasStatus(o, OK) ==> (logged[1].1 == PASS <==>
              Text.Contains(ContentType(o.response), "image")
              || (o.response.json.Some? && Member("response", o.response.json.value) == Some(true)))
    ensures HasStatus(o, OK) && Text.Contains(ContentType(o.response), "image")
            ==> logged[1] == ("image_response", PASS)
    ensures HasStatus(o, OK) && !Text.Contains(ContentType(o.response), "image")
            && o.response.json.Some? && Member("response", o.response.json.value) == Some(true)
            ==> logged[1] == ("text_response", PASS)
    ensures HasStatus(o, OK) && logged[1].1 != PASS ==> logged[1] == ("response_format", FAIL)
  {
    if !HasStatus(o, OK) then [("chat_endpoint", FAIL)]
    else
      var r := o.response;
      var second :=
        if Text.Contains(ContentType(r), "image") then ("image_response", PASS)
        else match r.json
          case None => ("response_format", FAIL)
          case Some(data) =>
            if Member("response", data) == Some(true) then ("text_response", PASS)
            else ("response_format", FAIL);
      [("chat_endpoint", PASS), second]
  }

  /** `routine_image_generation`: PASS iff a 200 with an image content type. */
  function RoutineImageStatus(o: Outcome): (status: string)
    ensures status == PASS <==> HasStatus(o, OK) && Text.Contains(ContentType(o.response), "image")
    ensures status == PASS || status == FAIL
  {
    if HasStatus(o, OK) && Text.Contains(ContentType(o.response), "image") then PASS else FAIL
  }

  /** A request of the load test that did not raise. */
  predicate Finished(sample: Option<real>) {
    sample.Some?
  }

  /** `test_performance_under_load`: the response times of the requests
      that did not raise (`None` filtered out), in submission order. */
  function Completed(samples: seq<Option<real>>): (times: seq<real>)
    ensures |times| == Tally.Count(samples, Finished)
    ensures forall x :: x in times <==> Some(x) in samples
  {
    if samples == [] then []
    else
      var init := samples[..|samples| - 1];
      var rest := Completed(init);
      assert forall o :: o in samples <==> o in init || o == samples[|samples| - 1];
      match samples[|samples| - 1]
      case Some(t) => rest + [t]
      case None => rest
  }

  /** The completed requests keep their order: the time of the i-th sample,
      when it completed, sits after those of the completed samples before it. */
  lemma {:induction false} CompletedInOrder(samples: seq<Option<real>>)
    ensures forall i :: 0 <= i < |samples| && samples[i].Some? ==>
              var k := Tally.Count(samples[..i], Finished);
              k < |Completed(samples)| && Completed(samples)[k] == samples[i].value
  {
    if samples != [] {
      var init := samples[..|samples| - 1];
      CompletedInOrder(init);
      forall i | 0 <= i < |samples| && samples[i].Some?
        ensures var k := Tally.Count(samples[..i], Finished);
                k < |Completed(samples)| && Completed(samples)[k] == samples[i].value
      {
        if i < |init| {
          assert samples[..i] == init[..i];
          assert init[i] == samples[i];
        } else {
          assert samples[..i] == init;
        }
      }
    }
  }

  /** `concurrent_load`: PASS iff at least one request completed. */
  function ConcurrentLoadStatus(samples: seq<Option<real>>): (status: string)
    ensures status == PASS <==> exists i :: 0 <= i < |samples| && samples[i].Some?
    ensures status == PASS || status == FAIL
  {
    var times := Completed(samples);
    if |times| > 0 then
      assert Some(times[0]) in samples;
      PASS
    else
      assert forall i :: 0 <= i < |samples| && samples[i].Some? ==> samples[i].value in times;
      FAIL
  }

  const StressRequests := 20
  const StressWorkers := 5

  /** `stress_worker`: issues its requests one after the other and returns
      False at the first one that raises or is not a 200. `attempts[i]` is
      what the i-th request would produce; `issued` is how many were made. */
  method StressWorker(attempts: seq<Outcome>) returns (ok: bool, issued: nat)
    requires |attempts| == StressRequests
    ensures 1 <= issued <= StressRequests
    ensures forall i :: 0 <= i < issued - 1 ==> HasStatus(attempts[i], OK)
    ensures !ok ==> !HasStatus(attempts[issued - 1], OK)
    ensures ok ==> issued == StressRequests
    ensures ok <==> forall i :: 0 <= i < |attempts| ==> HasStatus(attempts[i], OK)
  {
    var i := 0;
    while i < |attempts|
      invariant 0 <= i <= |attempts|
      invariant forall k :: 0 <= k < i ==> HasStatus(attempts[k], OK)
    {
      if !HasStatus(attempts[i], OK) {
        return false, i + 1;
      }
      i := i + 1;
    }
    return true, StressRequests;
  }

  /** `sum(results)`: the number of workers that returned True. */
  function Succeeded(results: seq<bool>): nat {
    Tally.Count(results, (b: bool) => b)
  }

  /** `run_stress_test` tier over the workers' results:
      `sum(results) / len(results) * 100`, PASS from 95, WARNING from 80. */
  function StressTier(results: seq<bool>): (status: string)
    requires |results| > 0
    ensures status == PASS <==> Succeeded(results) * 100 >= 95 * |results|
    ensures status == WARNING <==> 80 * |results| <= Succeeded(results) * 100 < 95 * |results|
    ensures status == FAIL <==> Succeeded(results) * 100 < 80 * |results|
  {
    var rate := Tally.SuccessRate(Succeeded(results), |results|);
    Tally.RateAtLeast(Succeeded(results), |results|, 95);
    Tally.RateAtLeast(Succeeded(results), |results|, 80);
    if rate >= 95.0 then PASS
    else if rate >= 80.0 then WARNING
    else FAIL
  }

  /** With the source's five workers: PASS iff all five succeed, WARNING
      iff exactly four do, FAIL otherwise. */
  lemma StressTierFiveWorkers(results: seq<bool>)
    requires |results| == StressWorkers
    ensures StressTier(results) == PASS <==> forall i :: 0 <= i < |results| ==> results[i]
    ensures StressTier(results) == WARNING <==> Succeeded(results) == 4
    ensures StressTier(results) == FAIL <==> Succeeded(results) <= 3
  {
    Tally.CountAll(results, (b: bool) => b);
  }
}
