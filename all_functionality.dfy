/** `SystemTester`: the health and page sweeps that append one record per
    probe, and the rules of the single checks. Its result list and report
    are `RecordLog`.

    Every probe here catches only `RequestException`. A body that is not
    JSON raises `JSONDecodeError`, which is one (so it is caught and logged
    as FAIL); a `TypeError` from `'response' in 5` or `len(5)` is not, and
    escapes to `main`, which exits with status 1 (`Aborts`). */
module AllFunctionality {
  import opened Wrappers
  import opened Http
  import Text
  import opened RecordLog
  import Tally

  /** `base_urls`, in order. */
  const BaseUrls: seq<(string, string)> := [
    ("frontend", "http://localhost:3000"),
    ("backend", "http://localhost:4000"),
    ("ml_service", "http://localhost:8000"),
    ("chatbot", "http://localhost:3001")
  ]

  /** The message of a failed probe: the status code, or the exception. */
  function FailureMessage(o: Outcome): (m: string)
    ensures o.Raised? ==> |m| >= 18 && m[..18] == "Connection error: " && m[18..] == o.error
    ensures o.Responded? ==>
              && |m| > 8 && m[..8] == "Status: "
              && (forall i :: 8 <= i < |m| ==> '0' <= m[i] <= '9')
              && (|m| > 9 ==> m[8] != '0')
              && Text.DigitsValue(m[8..]) == o.response.status
  {
    match o
    case Raised(e) => "Connection error: " + e
    case Responded(r) =>
      var digits := Text.NatToString(r.status);
      assert ("Status: " + digits)[8..] == digits;
      "Status: " + digits
  }

  /** "Backend Main Endpoint": PASS iff `GET /` on the backend gave a 200;
      a non-200 and a request exception both fail. */
  function MainEndpointStatus(o: Outcome): (s: Status)
    ensures s == Pass <==> HasStatus(o, OK)
    ensures s == Fail <==> !HasStatus(o, OK)
  {
    if HasStatus(o, OK) then Pass else Fail
  }

  /** The record `test_service_health` logs for one service. */
  function HealthRecord(service: string, url: string, o: Outcome, timestamp: string): (r: Record)
    ensures r.status == Pass <==> HasStatus(o, OK)
    ensures r.status == Pass || r.status == Fail
  {
    var name := Text.Upper(service) + " Health Check";
    if HasStatus(o, OK) then Record(name, Pass, "Service running on " + url, timestamp)
    else Record(name, Fail, FailureMessage(o), timestamp)
  }

  /** The loop of `test_service_health`: one record per service, in
      order. `outcomes[i]` is what `GET <url>/health` gives for the i-th
      service and `timestamps[i]` the clock reading at its `log_test`. */
  method LogServiceHealth(log: ResultLog, services: seq<(string, string)>, outcomes: seq<Outcome>, timestamps: seq<string>)
    requires |outcomes| == |services| && |timestamps| == |services|
    modifies log
    ensures |log.results| == |old(log.results)| + |services|
    ensures log.results[..|old(log.results)|] == old(log.results)
    ensures forall i :: 0 <= i < |services| ==>
              log.results[|old(log.results)| + i] == HealthRecord(services[i].0, services[i].1, outcomes[i], timestamps[i])
  {
    ghost var before := log.results;
    var i := 0;
    while i < |services|
      invariant 0 <= i <= |services|
      invariant |log.results| == |before| + i
      invariant log.results[..|before|] == before
      invariant forall k :: 0 <= k < i ==>
                  log.results[|before| + k] == HealthRecord(services[k].0, services[k].1, outcomes[k], timestamps[k])
    {
      var service := services[i].0;
      var url := services[i].1;
      var name := Text.Upper(service) + " Health Check";
      ghost var prev := log.results;
      if HasStatus(outcomes[i], OK) {
        log.LogTest(name, Pass, "Service running on " + url, timestamps[i]);
      } else {
        log.LogTest(name, Fail, FailureMessage(outcomes[i]), timestamps[i]);
      }
      AppendKeeps(before, prev, HealthRecord(service, url, outcomes[i], timestamps[i]));
      i := i + 1;
    }
  }

  /** `test_service_health`: the loop over `base_urls`. */
  method TestServiceHealth(log: ResultLog, outcomes: seq<Outcome>, timestamps: seq<string>)
    requires |outcomes| == |BaseUrls| && |timestamps| == |BaseUrls|
    modifies log
    ensures |log.results| == |old(log.results)| + |BaseUrls|
    ensures log.results[..|old(log.results)|] == old(log.results)
    ensures forall i :: 0 <= i < |BaseUrls| ==>
              log.results[|old(log.results)| + i] == HealthRecord(BaseUrls[i].0, BaseUrls[i].1, outcomes[i], timestamps[i])
  {
    LogServiceHealth(log, BaseUrls, outcomes, timestamps);
  }

  /** What a health sweep appends (`TestServiceHealth` walks `base_urls`):
      exactly one passing record per service that answered 200, a failing
      one for every other, and no warning. */
  lemma HealthSweepCounts(services: seq<(string, string)>, before: seq<Record>, outcomes: seq<Outcome>,
                          timestamps: seq<string>, after: seq<Record>)
    requires |outcomes| == |services| && |timestamps| == |services|
    requires |after| == |before| + |services| && after[..|before|] == before
    requires forall i :: 0 <= i < |services| ==>
               after[|before| + i] == HealthRecord(services[i].0, services[i].1, outcomes[i], timestamps[i])
    ensures CountStatus(after, Pass) == CountStatus(before, Pass) + Tally.Count(outcomes, (o: Outcome) => HasStatus(o, OK))
    ensures CountStatus(after, Fail) == CountStatus(before, Fail) + Tally.Count(outcomes, (o: Outcome) => !HasStatus(o, OK))
    ensures CountStatus(after, Warn) == CountStatus(before, Warn)
  {
    var added := after[|before|..];
    assert after == before + added;
    forall i | 0 <= i < |added|
      ensures added[i].status == Pass <==> HasStatus(outcomes[i], OK)
      ensures added[i].status != Warn
    {
      assert added[i] == after[|before| + i];
    }
    StatusCounts(before, added, outcomes);
  }

  /** Counting records appended one per outcome, each passing iff its
      outcome is a 200 and failing otherwise. */
  lemma StatusCounts(before: seq<Record>, added: seq<Record>, outcomes: seq<Outcome>)
    requires |added| == |outcomes|
    requires forall i :: 0 <= i < |added| ==> (added[i].status == Pass <==> HasStatus(outcomes[i], OK))
    requires forall i :: 0 <= i < |added| ==> added[i].status != Warn
    ensures CountStatus(before + added, Pass) == CountStatus(before, Pass) + Tally.Count(outcomes, (o: Outcome) => HasStatus(o, OK))
    ensures CountStatus(before + added, Fail) == CountStatus(before, Fail) + Tally.Count(outcomes, (o: Outcome) => !HasStatus(o, OK))
    ensures CountStatus(before + added, Warn) == CountStatus(before, Warn)
  {
    Tally.CountAppend(before, added, (r: Record) => r.status == Pass);
    Tally.CountAppend(before, added, (r: Record) => r.status == Fail);
    Tally.CountAppend(before, added, (r: Record) => r.status == Warn);
    Tally.CountCorrespond(added, outcomes, (r: Record) => r.status == Pass, (o: Outcome) => HasStatus(o, OK));
    Tally.CountCorrespond(added, outcomes, (r: Record) => r.status == Fail, (o: Outcome) => !HasStatus(o, OK));
    Tally.CountNone(added, (r: Record) => r.status == Warn);
  }

  /** `pages`: path and display name, in order. */
  const Pages: seq<(string, string)> := [
    ("/", "Home Page"),
    ("/features", "Features Page"),
    ("/ml-predictions", "ML Analytics Page"),
    ("/chatbot", "Chatbot Page"),
    ("/contact", "Contact Page"),
    ("/login", "Login Page"),
    ("/signup", "Signup Page")
  ]

  /** The record `test_frontend_pages` logs for one page. */
  function PageRecord(path: string, name: string, o: Outcome, timestamp: string): (r: Record)
    ensures r.status == Pass <==> HasStatus(o, OK)
    ensures r.status == Pass || r.status == Fail
  {
    if HasStatus(o, OK) then Record("Frontend " + name, Pass, "Page accessible at " + path, timestamp)
    else Record("Frontend " + name, Fail, FailureMessage(o), timestamp)
  }

  /** The loop of `test_frontend_pages`: exactly one record per page, in
      order. */
  method LogFrontendPages(log: ResultLog, pages: seq<(string, string)>, outcomes: seq<Outcome>, timestamps: seq<string>)
    requires |outcomes| == |pages| && |timestamps| == |pages|
    modifies log
    ensures |log.results| == |old(log.results)| + |pages|
    ensures log.results[..|old(log.results)|] == old(log.results)
    ensures forall i :: 0 <= i < |pages| ==>
              log.results[|old(log.results)| + i] == PageRecord(pages[i].0, pages[i].1, outcomes[i], timestamps[i])
  {
    ghost var before := log.results;
    for i := 0 to |pages|
      invariant |log.results| == |before| + i
      invariant log.results[..|before|] == before
      invariant forall k :: 0 <= k < i ==>
                  log.results[|before| + k] == PageRecord(pages[k].0, pages[k].1, outcomes[k], timestamps[k])
    {
      var path := pages[i].0;
      var name := pages[i].1;
      ghost var prev := log.results;
      if HasStatus(outcomes[i], OK) {
        log.LogTest("Frontend " + name, Pass, "Page accessible at " + path, timestamps[i]);
      } else {
        log.LogTest("Frontend " + name, Fail, FailureMessage(outcomes[i]), timestamps[i]);
      }
      AppendKeeps(before, prev, PageRecord(path, name, outcomes[i], timestamps[i]));
    }
  }

  /** `test_frontend_pages`: the loop over `pages`. */
  method TestFrontendPages(log: ResultLog, outcomes: seq<Outcome>, timestamps: seq<string>)
    requires |outcomes| == |Pages| && |timestamps| == |Pages|
    modifies log
    ensures |log.results| == |old(log.results)| + |Pages|
    ensures log.results[..|old(log.results)|] == old(log.results)
    ensures forall i :: 0 <= i < |Pages| ==>
              log.results[|old(log.results)| + i] == PageRecord(Pages[i].0, Pages[i].1, outcomes[i], timestamps[i])
  {
    LogFrontendPages(log, Pages, outcomes, timestamps);
  }

  /** What a single check does: log a record with this status, or raise an
      exception the probe does not catch, ending the run with exit status 1. */
  datatype CheckResult = Logs(status: Status) | Aborts

  /** "Backend Chatbot API", "ML Service Chatbot Context" and "ML Service
      Chatbot": `key in data` after a 200. */
  function KeyCheck(o: Outcome, key: string): (c: CheckResult)
    ensures c == Logs(Pass) <==> HasStatus(o, OK) && o.response.json.Some? && Member(key, o.response.json.value) == Some(true)
    ensures c == Aborts <==> HasStatus(o, OK) && o.response.json.Some? && Member(key, o.response.json.value).None?
    ensures c != Logs(Warn)
  {
    if !HasStatus(o, OK) then Logs(Fail)
    else match o.response.json
      case None => Logs(Fail)
      case Some(data) =>
        match Member(key, data)
        case None => Aborts
        case Some(found) => if found then Logs(Pass) else Logs(Fail)
  }

  /** "ML Service Departments": PASS iff a 200 whose body is a JSON list. */
  function DepartmentsCheck(o: Outcome): (s: Status)
    ensures s == Pass <==> HasStatus(o, OK) && o.response.json.Some? && o.response.json.value.JList?
    ensures s == Pass || s == Fail
  {
    if HasStatus(o, OK) && o.response.json.Some? && o.response.json.value.JList? then Pass else Fail
  }

  /** "ML RAG Chatbot" and "Backend Fallback Chatbot":
      `'response' in data and len(data['response']) > 10`. Only a dict
      body with a `response` string, list or dict longer than ten passes;
      a list or string body that contains "response" passes the `in` but
      raises TypeError on `data['response']`, as does `len` of a number. */
  function ChatbotReplyCheck(o: Outcome): (c: CheckResult)
    ensures c == Logs(Pass) <==> HasStatus(o, OK) && HasField(o.response, "response")
                                 && Len(o.response.json.value.fields["response"]).Some?
                                 && Len(o.response.json.value.fields["response"]).value > 10
    ensures c == Logs(Fail) <==> !HasStatus(o, OK) || o.response.json.None?
                                 || Member("response", o.response.json.value) == Some(false)
                                 || (HasField(o.response, "response")
                                     && Len(o.response.json.value.fields["response"]).Some?
                                     && Len(o.response.json.value.fields["response"]).value <= 10)
    ensures c == Aborts <==> HasStatus(o, OK) && o.response.json.Some?
                             && var data := o.response.json.value;
                                || data.JNull? || data.JBool? || data.JNumber?
                                || (!data.JObject? && Member("response", data) == Some(true))
                                || (HasField(o.response, "response") && Len(data.fields["response"]).None?)
    ensures c != Logs(Warn)
  {
    if !HasStatus(o, OK) then Logs(Fail)
    else match o.response.json
      case None => Logs(Fail)
      case Some(data) =>
        match Member("response", data)
        case None => Aborts
        case Some(found) =>
          if !found then Logs(Fail)
          else match Index(data, "response")
            case None => Aborts
            case Some(reply) =>
              match Len(reply)
              case None => Aborts
              case Some(n) => if n > 10 then Logs(Pass) else Logs(Fail)
  }

  /** `test_navigation_functionality`: the (test name, status) pairs it
      logs. After a 200, "External Links" passes iff the page has
      `target="_blank"` or `window.open`, and "Chatbot Integration" iff the
      lower-cased page mentions "chatbot" or "ai assistant"; both only
      warn otherwise. Any other outcome logs one failing "Navigation Test". */
  function NavigationChecks(o: Outcome): (logged: seq<(string, Status)>)
    ensures !HasStatus(o, OK) ==> logged == [("Navigation Test", Fail)]
    ensures HasStatus(o, OK) ==> |logged| == 2 && logged[0].0 == "External Links" && logged[1].0 == "Chatbot Integration"
    ensures HasStatus(o, OK) ==>
              (logged[0].1 == Pass <==> Text.Contains(o.response.text, "target=\"_blank\"")
                                        || Text.Contains(o.response.text, "window.open"))
    ensures HasStatus(o, OK) ==>
              (logged[1].1 == Pass <==> Text.Contains(Text.Lower(o.response.text), "chatbot")
                                        || Text.Contains(Text.Lower(o.response.text), "ai assistant"))
    ensures forall i :: 0 <= i < |logged| ==> (logged[i].1 == Fail <==> !HasStatus(o, OK))
  {
    if !HasStatus(o, OK) then [("Navigation Test", Fail)]
    else
      var content := o.response.text;
      var links := if Text.Contains(content, "target=\"_blank\"") || Text.Contains(content, "window.open") then Pass else Warn;
      var page := Text.Lower(content);
      var chatbot := if Text.Contains(page, "chatbot") || Text.Contains(page, "ai assistant") then Pass else Warn;
      [("External Links", links), ("Chatbot Integration", chatbot)]
  }
}
