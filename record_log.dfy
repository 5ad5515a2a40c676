/** The result list kept by `EnhancedMLTester` and `SystemTester`: their
    `log_test` and the counting part of their `generate_report` are the
    same code, so they are modelled once here. */
module RecordLog {
  import opened Wrappers
  import Tally

  /** The status strings every `log_test` call site passes. */
  datatype Status = Pass | Fail | Warn

  /** One stored result: `{'test', 'status', 'message', 'timestamp'}`. */
  datatype Record = Record(test: string, status: Status, message: string, timestamp: string)

  /** `self.results`, the list `log_test` appends to. */
  class ResultLog {
    var results: seq<Record>

    constructor ()
      ensures results == []
    {
      results := [];
    }

    /** `log_test`: appends exactly one record and leaves the earlier ones
        as they were. The timestamp is the clock reading, an input here. */
    method LogTest(testName: string, status: Status, message: string, timestamp: string)
      modifies this
      ensures results == old(results) + [Record(testName, status, message, timestamp)]
    {
      results := results + [Record(testName, status, message, timestamp)];
    }
  }

  /** Appending one record keeps every earlier record where it was. */
  lemma AppendKeeps(before: seq<Record>, prev: seq<Record>, r: Record)
    requires |before| <= |prev| && prev[..|before|] == before
    ensures (prev + [r])[..|before|] == before
    ensures forall k :: 0 <= k < |prev| ==> (prev + [r])[k] == prev[k]
    ensures (prev + [r])[|prev|] == r
  {
    assert (prev + [r])[..|before|] == prev[..|before|];
  }

  /** `len([r for r in results if r['status'] == s])`. */
  function CountStatus(rs: seq<Record>, s: Status): (n: nat)
    ensures n <= |rs|
    ensures n == |rs| <==> forall i :: 0 <= i < |rs| ==> rs[i].status == s
  {
    Tally.CountAll(rs, (r: Record) => r.status == s);
    Tally.Count(rs, (r: Record) => r.status == s)
  }

  /** `[r for r in results if r['status'] == s]`, the listing printed
      under "Failed Tests" / "Warnings". */
  function Listing(rs: seq<Record>, s: Status): (r: seq<Record>)
    ensures |r| == CountStatus(rs, s)
    ensures forall i :: 0 <= i < |r| ==> r[i] in rs && r[i].status == s
    ensures forall i :: 0 <= i < |rs| && rs[i].status == s ==> rs[i] in r
  {
    Tally.Filter(rs, (r: Record) => r.status == s)
  }

  /** The listing follows the record order: a record appended to the
      results is listed last exactly when it has the status. */
  lemma ListingSnoc(rs: seq<Record>, x: Record, s: Status)
    ensures Listing(rs + [x], s) == Listing(rs, s) + (if x.status == s then [x] else [])
  {
    Tally.FilterSnoc(rs, x, (r: Record) => r.status == s);
  }

  /** The listing of two runs of results is the first run's listing
      followed by the second's. */
  lemma ListingAppend(a: seq<Record>, b: seq<Record>, s: Status)
    ensures Listing(a + b, s) == Listing(a, s) + Listing(b, s)
  {
    Tally.FilterAppend(a, b, (r: Record) => r.status == s);
  }

  /** A record with the status is listed as many times as it was logged;
      nothing else is listed. */
  lemma ListingMultiset(rs: seq<Record>, s: Status)
    ensures multiset(Listing(rs, s)) <= multiset(rs)
    ensures forall x :: x in rs && x.status == s ==> multiset(Listing(rs, s))[x] == multiset(rs)[x]
  {
    Tally.FilterMultiset(rs, (r: Record) => r.status == s);
  }

  /** Since every status is one of the three, the three counts add up to
      the number of records. */
  lemma CountsPartition(rs: seq<Record>)
    ensures CountStatus(rs, Pass) + CountStatus(rs, Fail) + CountStatus(rs, Warn) == |rs|
  {
    Tally.CountExclusive3(rs, (r: Record) => r.status == Pass,
                          (r: Record) => r.status == Fail, (r: Record) => r.status == Warn);
  }

  /** The "System Status" line. */
  datatype SystemStatus = FullyFunctional | MostlyFunctional | HasIssues

  function SystemTier(failed: nat): (t: SystemStatus)
    ensures t == FullyFunctional <==> failed == 0
    ensures t == MostlyFunctional <==> 1 <= failed <= 2
    ensures t == HasIssues <==> failed > 2
  {
    if failed == 0 then FullyFunctional
    else if failed <= 2 then MostlyFunctional
    else HasIssues
  }

  /** The tier read off a result list: fully functional exactly when no
      record failed. */
  lemma SystemTierOfResults(rs: seq<Record>)
    ensures SystemTier(CountStatus(rs, Fail)) == FullyFunctional <==> forall i :: 0 <= i < |rs| ==> rs[i].status != Fail
  {
    Tally.CountNone(rs, (r: Record) => r.status == Fail);
  }

  /** The saved `summary` object. */
  datatype Summary = Summary(total: nat, passed: nat, failed: nat, warnings: nat, successRate: real)

  /** What `generate_report` prints and saves. */
  datatype Report = Report(summary: Summary, failures: seq<Record>, warnings: seq<Record>,
                           status: SystemStatus, results: seq<Record>)

  /** `generate_report`. The console line `passed_tests/total_tests*100`
      has no guard, so with no results it raises ZeroDivisionError before
      anything is saved (None); the saved `success_rate` is guarded but is
      only reached with at least one result, where it equals the printed
      rate. */
  function GenerateReport(rs: seq<Record>): (report: Option<Report>)
    ensures report.None? <==> rs == []
    ensures report.Some? ==>
      var r := report.value;
      && r.results == rs
      && r.summary.total == |rs|
      && r.summary.passed == CountStatus(rs, Pass)
      && r.summary.failed == CountStatus(rs, Fail)
      && r.summary.warnings == CountStatus(rs, Warn)
      && r.summary.passed + r.summary.failed + r.summary.warnings == r.summary.total
      && r.summary.successRate == Tally.SuccessRate(r.summary.passed, r.summary.total)
      && |r.failures| == r.summary.failed
      && (forall i :: 0 <= i < |r.failures| ==> r.failures[i] in rs && r.failures[i].status == Fail)
      && (forall i :: 0 <= i < |rs| && rs[i].status == Fail ==> rs[i] in r.failures)
      && |r.warnings| == r.summary.warnings
      && (forall i :: 0 <= i < |r.warnings| ==> r.warnings[i] in rs && r.warnings[i].status == Warn)
      && (forall i :: 0 <= i < |rs| && rs[i].status == Warn ==> rs[i] in r.warnings)
      && r.failures == Listing(rs, Fail)
      && r.warnings == Listing(rs, Warn)
      && r.status == SystemTier(r.summary.failed)
  {
    if rs == [] then None
    else
      var total := |rs|;
      var passed := CountStatus(rs, Pass);
      var failed := CountStatus(rs, Fail);
      var warnings := CountStatus(rs, Warn);
      assert passed + failed + warnings == total by { CountsPartition(rs); }
      var summary := Summary(total, passed, failed, warnings, Tally.SuccessRate(passed, total));
      Some(Report(summary, Listing(rs, Fail), Listing(rs, Warn), SystemTier(failed), rs))
  }
}
