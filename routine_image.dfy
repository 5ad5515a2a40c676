/** The routine-image script: five routine queries that should each bring
    back an image, four other queries that should each bring back JSON, a
    counter per sweep, and the verdicts drawn from the two counters. */
module RoutineImage {
  import opened Http
  import Text
  import Tally

  /** `routine_queries`, in order. */
  const RoutineQueries: seq<string> := [
    "What's my today's routine?",
    "Show me today's schedule",
    "What classes do I have today?",
    "Today's timetable",
    "My routine for today"
  ]

  /** `non_routine_queries`, in order. */
  const NonRoutineQueries: seq<string> := [
    "What is the attendance rate?",
    "How many students are enrolled?",
    "Show me the risk analysis",
    "What are the ML model metrics?"
  ]

  /** One routine query: what `POST /api/chat` gave, and whether writing
      the received image to `routine_test_<i>_<time>.jpg` succeeded (only
      attempted for an image answer). */
  datatype ImageAttempt = ImageAttempt(outcome: Outcome, saved: bool)

  /** A routine query counts when a 200 carries an image content type and
      the image is written out: the write comes before the increment, and
      an error from it is caught as a failure. A 200 with another content
      type is only a warning, but it does not count either. */
  predicate ImageSucceeds(a: ImageAttempt)
    ensures ImageSucceeds(a) ==>
              && a.outcome.Responded? && a.outcome.response.status == 200
              && Text.Contains(ContentType(a.outcome.response), "image")
              && a.saved
  {
    HasStatus(a.outcome, OK) && Text.Contains(ContentType(a.outcome.response), "image") && a.saved
  }

  /** `json_response.get('response', 'No response field')[:100]`, evaluated
      before a non-routine query is counted, succeeds: the body is a dict
      and the value found (or the default string) can be sliced. */
  predicate PreviewSlices(data: Json)
    ensures PreviewSlices(data) ==> data.JObject?
    ensures data.JObject? && "response" !in data.fields ==> PreviewSlices(data)
    ensures data.JObject? && "response" in data.fields ==>
              (PreviewSlices(data) <==> data.fields["response"].JString? || data.fields["response"].JList?)
  {
    match GetOr(data, "response", JString("No response field"))
    case None => false
    case Some(v) => v.JString? || v.JList?
  }

  /** A non-routine query counts when a 200 has a JSON content type, the
      body parses and the preview of its `response` can be taken; any
      exception on the way is caught and the query is not counted. */
  function TextSucceeds(o: Outcome): (ok: bool)
    ensures ok ==> HasStatus(o, OK) && Text.Contains(ContentType(o.response), "application/json")
    ensures ok ==> o.response.json.Some? && o.response.json.value.JObject?
    ensures HasStatus(o, OK) && Text.Contains(ContentType(o.response), "application/json")
            && o.response.json.Some? && o.response.json.value.JObject?
            && "response" !in o.response.json.value.fields
            ==> ok
    ensures HasStatus(o, OK) && HasField(o.response, "response")
            ==> (ok <==> Text.Contains(ContentType(o.response), "application/json")
                         && (o.response.json.value.fields["response"].JString?
                             || o.response.json.value.fields["response"].JList?))
  {
    HasStatus(o, OK) && Text.Contains(ContentType(o.response), "application/json")
    && o.response.json.Some? && PreviewSlices(o.response.json.value)
  }

  /** The closing line of the routine sweep. */
  datatype Summary = AllPassed | PartialSuccess | AllFailed

  /** The three-way summary: exactly one of all, some or none succeeded. */
  function Summarize(successful: nat, total: nat): (s: Summary)
    requires successful <= total
    ensures s == AllPassed <==> successful == total
    ensures s == PartialSuccess <==> 0 < successful < total
    ensures s == AllFailed <==> successful == 0 && total > 0
  {
    if successful == total then AllPassed
    else if successful > 0 then PartialSuccess
    else AllFailed
  }

  /** The summary says what happened to the individual attempts: all
      passed when every one succeeded, all failed when none did, partial
      otherwise. */
  lemma SummaryOfAttempts(attempts: seq<ImageAttempt>)
    requires |attempts| > 0
    ensures Summarize(Tally.Count(attempts, ImageSucceeds), |attempts|) == AllPassed
            <==> forall i :: 0 <= i < |attempts| ==> ImageSucceeds(attempts[i])
    ensures Summarize(Tally.Count(attempts, ImageSucceeds), |attempts|) == AllFailed
            <==> forall i :: 0 <= i < |attempts| ==> !ImageSucceeds(attempts[i])
    ensures Summarize(Tally.Count(attempts, ImageSucceeds), |attempts|) == PartialSuccess
            <==> (exists i :: 0 <= i < |attempts| && ImageSucceeds(attempts[i]))
                 && (exists j :: 0 <= j < |attempts| && !ImageSucceeds(attempts[j]))
  {
    Tally.CountAll(attempts, ImageSucceeds);
    Tally.CountNone(attempts, ImageSucceeds);
  }

  /** `test_routine_image_generation`: one attempt per routine query, in
      order; returns the counter, the summary and whether all succeeded. */
  method TestRoutineImageGeneration(attempts: seq<ImageAttempt>)
    returns (successful: nat, summary: Summary, allPassed: bool)
    requires |attempts| == |RoutineQueries|
    ensures successful == Tally.Count(attempts, ImageSucceeds)
    ensures successful <= |RoutineQueries|
    ensures summary == Summarize(successful, |RoutineQueries|)
    ensures allPassed <==> forall i :: 0 <= i < |attempts| ==> ImageSucceeds(attempts[i])
  {
    successful := 0;
    var total := |RoutineQueries|;
    for i := 0 to |attempts|
      invariant successful == Tally.Count(attempts[..i], ImageSucceeds)
    {
      if ImageSucceeds(attempts[i]) {
        successful := successful + 1;
      }
      assert attempts[..i + 1] == attempts[..i] + [attempts[i]];
      Tally.CountSnoc(attempts[..i], attempts[i], ImageSucceeds);
    }
    assert attempts[..|attempts|] == attempts;
    summary := Summarize(successful, total);
    allPassed := successful == total;
    Tally.CountAll(attempts, ImageSucceeds);
  }

  /** `test_non_routine_queries`: one outcome per query, in order; returns
      the counter and whether all four succeeded. */
  method TestNonRoutineQueries(outcomes: seq<Outcome>) returns (successful: nat, allPassed: bool)
    requires |outcomes| == |NonRoutineQueries|
    ensures successful == Tally.Count(outcomes, TextSucceeds)
    ensures successful <= |NonRoutineQueries|
    ensures allPassed <==> forall i :: 0 <= i < |outcomes| ==> TextSucceeds(outcomes[i])
  {
    successful := 0;
    var total := |NonRoutineQueries|;
    for i := 0 to |outcomes|
      invariant successful == Tally.Count(outcomes[..i], TextSucceeds)
    {
      if TextSucceeds(outcomes[i]) {
        successful := successful + 1;
      }
      assert outcomes[..i + 1] == outcomes[..i] + [outcomes[i]];
      Tally.CountSnoc(outcomes[..i], outcomes[i], TextSucceeds);
    }
    assert outcomes[..|outcomes|] == outcomes;
    allPassed := successful == total;
    Tally.CountAll(outcomes, TextSucceeds);
  }

  /** `main`: runs both sweeps and reports all functionality working
      exactly when every routine query brought back a saved image and every
      other query brought back a JSON answer. */
  method RunTests(attempts: seq<ImageAttempt>, outcomes: seq<Outcome>) returns (allWorking: bool)
    requires |attempts| == |RoutineQueries| && |outcomes| == |NonRoutineQueries|
    ensures allWorking <==> (forall i :: 0 <= i < |attempts| ==> ImageSucceeds(attempts[i]))
                            && (forall i :: 0 <= i < |outcomes| ==> TextSucceeds(outcomes[i]))
  {
    var _, _, routineSuccess := TestRoutineImageGeneration(attempts);
    var _, nonRoutineSuccess := TestNonRoutineQueries(outcomes);
    allWorking := routineSuccess && nonRoutineSuccess;
  }
}
