/** `EnhancedMLTester`: the rules that turn each endpoint's response into
    PASS, FAIL or WARN, and the model-file sweep that appends one record
    per file. Its result list and report are `RecordLog`. */
module EnhancedMl {
  import opened Wrappers
  import opened Http
  import Text
  import opened RecordLog

  /** The optimize-timetable, predict-attendance and send-notifications
      checks: `data.get('status') == 'processing'` after a 200. A body that
      is not JSON, or not a dict (no `.get`), raises and is caught as FAIL. */
  function ProcessingStatus(o: Outcome): (s: Status)
    ensures s == Pass <==> HasStatus(o, OK) && HasField(o.response, "status")
                           && o.response.json.value.fields["status"] == JString("processing")
    ensures s == Pass || s == Fail
  {
    if HasStatus(o, OK) && o.response.json.Some?
       && GetOr(o.response.json.value, "status", JNull) == Some(JString("processing"))
    then Pass
    else Fail
  }

  /** "Optimized Timetable File" and "Attendance Predictions File": a
      missing file is only a warning. */
  function DataFileStatus(found: bool): (s: Status)
    ensures s == Pass <==> found
    ensures s == Warn <==> !found
  {
    if found then Pass else Warn
  }

  /** The risk-summary check: both keys in the body, and the message then
      reads `data['total_students']`, which raises unless the body is a
      dict. So a list or string body that merely contains both words is
      FAIL too. */
  function RiskSummaryStatus(o: Outcome): (s: Status)
    ensures s == Pass <==> HasStatus(o, OK) && HasField(o.response, "risk_distribution")
                           && HasField(o.response, "total_students")
    ensures s == Pass || s == Fail
  {
    if !HasStatus(o, OK) then Fail
    else match o.response.json
      case None => Fail
      case Some(data) =>
        if Member("risk_distribution", data) == Some(true) && Member("total_students", data) == Some(true)
           && Index(data, "total_students").Some?
        then Pass
        else Fail
  }

  /** The single-student check: a 404 is a warning (the test student may
      not exist), a 200 passes only with a dict body holding both keys
      (the message indexes `data['student_id']`), anything else fails. */
  function StudentStatus(o: Outcome): (s: Status)
    ensures s == Pass <==> HasStatus(o, OK) && HasField(o.response, "student_id")
                           && HasField(o.response, "attendance_rate")
    ensures s == Warn <==> HasStatus(o, NOT_FOUND)
    ensures s == Fail <==> o.Raised? || (o.response.status != OK && o.response.status != NOT_FOUND)
                           || (o.response.status == OK && !(HasField(o.response, "student_id")
                                                          && HasField(o.response, "attendance_rate")))
  {
    if HasStatus(o, OK) then
      match o.response.json
      case None => Fail
      case Some(data) =>
        if Member("student_id", data) == Some(true) && Member("attendance_rate", data) == Some(true)
           && Index(data, "student_id").Some?
        then Pass
        else Fail
    else if HasStatus(o, NOT_FOUND) then Warn
    else Fail
  }

  /** "Chatbot Routine Image": a 200 without an image content type is a
      warning, not a failure; only a non-200 or an exception fails. */
  function RoutineImageStatus(o: Outcome): (s: Status)
    ensures s == Pass <==> HasStatus(o, OK) && Text.Contains(ContentType(o.response), "image")
    ensures s == Warn <==> HasStatus(o, OK) && !Text.Contains(ContentType(o.response), "image")
    ensures s == Fail <==> !HasStatus(o, OK)
  {
    if !HasStatus(o, OK) then Fail
    else if Text.Contains(ContentType(o.response), "image") then Pass
    else Warn
  }

  /** "Chatbot Attendance Query" (`'response' in data`) and "Chatbot Data
      Context" (`'data_sources' in data`): PASS iff Python's `in` holds on
      the parsed body; an unparsable body or one where `in` raises (a
      number, a boolean, null) is FAIL. */
  function KeyPresentStatus(o: Outcome, key: string): (s: Status)
    ensures s == Pass <==> HasStatus(o, OK) && o.response.json.Some? && Member(key, o.response.json.value) == Some(true)
    ensures s == Pass || s == Fail
    ensures HasStatus(o, OK) && HasField(o.response, key) ==> s == Pass
  {
    if HasStatus(o, OK) && o.response.json.Some? && Member(key, o.response.json.value) == Some(true) then Pass
    else Fail
  }

  /** The directory every model file sits in. */
  const ModelDir := "ml-service/src/"

  /** `model_files`, in order. */
  const ModelFiles: seq<string> := [
    ModelDir + "timetable_optimizer.py",
    ModelDir + "attendance_predictor.py",
    ModelDir + "notification_system.py"
  ]

  /** The test name logged for a model file. */
  function ModelFileTest(path: string): string {
    "ML Model File: " + Text.Basename(path)
  }

  /** The test name of a file in the model directory names the file alone. */
  lemma ModelFileTestJoin(name: string)
    requires '/' !in name
    ensures ModelFileTest(ModelDir + name) == "ML Model File: " + name
  {
    Text.BasenameJoin(ModelDir, name);
  }

  /** The three test names `test_ml_model_files` logs. */
  lemma ModelFileTests()
    ensures ModelFileTest(ModelFiles[0]) == "ML Model File: " + "timetable_optimizer.py"
    ensures ModelFileTest(ModelFiles[1]) == "ML Model File: " + "attendance_predictor.py"
    ensures ModelFileTest(ModelFiles[2]) == "ML Model File: " + "notification_system.py"
  {
    ModelFileTestJoin("timetable_optimizer.py");
    ModelFileTestJoin("attendance_predictor.py");
    ModelFileTestJoin("notification_system.py");
  }

  /** The record logged for one model file. A missing model file fails
      (unlike the data files, which only warn). */
  function ModelFileRecord(path: string, present: bool, timestamp: string): (r: Record)
    ensures r.status == Pass <==> present
    ensures r.status == Fail <==> !present
  {
    if present then Record(ModelFileTest(path), Pass, "File exists", timestamp)
    else Record(ModelFileTest(path), Fail, "File not found", timestamp)
  }

  /** One pass of the loop of `test_ml_model_files`: the file's record is
      appended. */
  method LogModelFile(log: ResultLog, path: string, present: bool, timestamp: string)
    modifies log
    ensures log.results == old(log.results) + [ModelFileRecord(path, present, timestamp)]
  {
    var name := ModelFileTest(path);
    if present {
      log.LogTest(name, Pass, "File exists", timestamp);
    } else {
      log.LogTest(name, Fail, "File not found", timestamp);
    }
  }

  /** The loop of `test_ml_model_files`: one record per file, in order.
      `present[i]` is what `os.path.exists` reports and `timestamps[i]`
      the clock reading at the i-th `log_test`. */
  method LogModelFiles(log: ResultLog, files: seq<string>, present: seq<bool>, timestamps: seq<string>)
    requires |present| == |files| && |timestamps| == |files|
    modifies log
    ensures |log.results| == |old(log.results)| + |files|
    ensures log.results[..|old(log.results)|] == old(log.results)
    ensures forall i :: 0 <= i < |files| ==>
              log.results[|old(log.results)| + i] == ModelFileRecord(files[i], present[i], timestamps[i])
  {
    ghost var before := log.results;
    var i := 0;
    while i < |files|
      invariant 0 <= i <= |files|
      invariant |log.results| == |before| + i
      invariant log.results[..|before|] == before
      invariant forall k :: 0 <= k < i ==>
                  log.results[|before| + k] == ModelFileRecord(files[k], present[k], timestamps[k])
    {
      ghost var prev := log.results;
      var r := ModelFileRecord(files[i], present[i], timestamps[i]);
      LogModelFile(log, files[i], present[i], timestamps[i]);
      AppendKeeps(before, prev, r);
      assert forall k :: |before| <= k < |prev| ==> log.results[k] == prev[k];
      i := i + 1;
    }
  }

  /** `test_ml_model_files`: the loop over `model_files`. */
  method TestMlModelFiles(log: ResultLog, present: seq<bool>, timestamps: seq<string>)
    requires |present| == |ModelFiles| && |timestamps| == |ModelFiles|
    modifies log
    ensures |log.results| == |old(log.results)| + |ModelFiles|
    ensures log.results[..|old(log.results)|] == old(log.results)
    ensures forall i :: 0 <= i < |ModelFiles| ==>
              log.results[|old(log.results)| + i] == ModelFileRecord(ModelFiles[i], present[i], timestamps[i])
  {
    LogModelFiles(log, ModelFiles, present, timestamps);
  }
}
