/** `IntegrationTester`: probes that return booleans and counts, the flat
    `results` dict `run_all_tests` fills, and the pass/total count behind
    the report's last line and the process exit code. */
module Integration {
  import opened Wrappers
  import opened Http
  import Text
  import Dict
  import Tally

  /** The values `results` holds: booleans, counts and nested dicts. */
  datatype Value = VBool(b: bool) | VInt(n: int) | VDict(d: Dict.Dict<string, Value>)

  /** Python truthiness of a value. */
  predicate Truthy(v: Value)
    ensures Truthy(v) <==> v != VBool(false) && v != VInt(0) && v != VDict([])
  {
    match v
    case VBool(b) => b
    case VInt(n) => n != 0
    case VDict(d) => d != []
  }

  /** `base_urls`, in order. */
  const BaseUrls: seq<(string, string)> := [
    ("frontend", "http://localhost:3000"),
    ("backend", "http://localhost:4000"),
    ("ml_service", "http://localhost:8000"),
    ("chatbot", "http://localhost:3001")
  ]

  /** `test_service_health` (on `<url>/health`) and `test_chatbot_service`
      (on the chatbot's `/`): True iff the request gave a 200. */
  function ServiceHealthy(o: Outcome): (healthy: bool)
    ensures healthy <==> o.Responded? && o.response.status == OK
    ensures o.Raised? ==> !healthy
  {
    HasStatus(o, OK)
  }

  /** `len(data.get(key, default))` after a 200: the length of the field,
      or of `default` when the dict has no such key. It is 0 when the status
      is not 200 or anything raises (the body is not JSON or not a dict, or
      the value has no length): the probes catch every `Exception`. */
  function FieldLength(o: Outcome, key: string, default: Json): (n: nat)
    ensures !HasStatus(o, OK) || o.response.json.None? ==> n == 0
    ensures HasStatus(o, OK) && HasField(o.response, key) && Len(o.response.json.value.fields[key]).Some?
            ==> n == Len(o.response.json.value.fields[key]).value
    ensures HasStatus(o, OK) && HasField(o.response, key) && Len(o.response.json.value.fields[key]).None?
            ==> n == 0
    ensures HasStatus(o, OK) && o.response.json.Some? && o.response.json.value.JObject?
            && key !in o.response.json.value.fields
            ==> n == if Len(default).Some? then Len(default).value else 0
    ensures HasStatus(o, OK) && o.response.json.Some? && !o.response.json.value.JObject? ==> n == 0
    ensures n > 0 ==> HasStatus(o, OK) && o.response.json.Some? && o.response.json.value.JObject?
  {
    if !HasStatus(o, OK) then 0
    else match o.response.json
      case None => 0
      case Some(data) =>
        match GetOr(data, key, default)
        case None => 0
        case Some(v) => Len(v).GetOr(0)
  }

  /** `chat_response`: `len(data.get('response', '')) > 0`, False on any
      failure. True exactly when a 200 brings a dict whose `response` is a
      non-empty string, list or dict. */
  function ChatResponds(o: Outcome): (ok: bool)
    ensures ok <==> HasStatus(o, OK) && HasField(o.response, "response")
                    && Len(o.response.json.value.fields["response"]).Some?
                    && Len(o.response.json.value.fields["response"]).value > 0
  {
    FieldLength(o, "response", JString("")) > 0
  }

  /** `test_ml_service_endpoints`: fills its dict one key at a time, every
      key getting a value on every path (0, 0 and False on failures). */
  method TestMlServiceEndpoints(departments: Outcome, context: Outcome, chat: Outcome)
    returns (results: Dict.Dict<string, Value>)
    ensures results == [("departments", VInt(FieldLength(departments, "departments", JList([])))),
                        ("chatbot_context", VInt(FieldLength(context, "available_data", JList([])))),
                        ("chat_response", VBool(ChatResponds(chat)))]
  {
    results := [];
    Dict.PutNew(results, "departments", VInt(FieldLength(departments, "departments", JList([]))));
    results := Dict.Put(results, "departments", VInt(FieldLength(departments, "departments", JList([]))));
    Dict.PutNew(results, "chatbot_context", VInt(FieldLength(context, "available_data", JList([]))));
    results := Dict.Put(results, "chatbot_context", VInt(FieldLength(context, "available_data", JList([]))));
    Dict.PutNew(results, "chat_response", VBool(ChatResponds(chat)));
    results := Dict.Put(results, "chat_response", VBool(ChatResponds(chat)));
  }

  /** `test_backend_endpoints`: one key, `health`, True iff `/health` gave
      a 200 (False on any exception). */
  method TestBackendEndpoints(health: Outcome) returns (results: Dict.Dict<string, Value>)
    ensures results == [("health", VBool(ServiceHealthy(health)))]
  {
    results := [];
    Dict.PutNew(results, "health", VBool(ServiceHealthy(health)));
    results := Dict.Put(results, "health", VBool(ServiceHealthy(health)));
  }

  /** The key `run_all_tests` stores a service's health under. */
  function HealthKey(service: string): (key: string)
    ensures Text.EndsWith(key, "_health")
  {
    service + "_health"
  }

  /** The dict after the health loop of `run_all_tests` has walked
      `services`: one `<name>_health` entry per service except frontend. */
  function RecordHealth(d: Dict.Dict<string, Value>, services: seq<(string, string)>, health: seq<Outcome>): Dict.Dict<string, Value>
    requires |health| == |services|
  {
    if services == [] then d
    else
      var n := |services| - 1;
      var d' := RecordHealth(d, services[..n], health[..n]);
      if services[n].0 != "frontend" then Dict.Put(d', HealthKey(services[n].0), VBool(ServiceHealthy(health[n])))
      else d'
  }

  /** The last three assignments of `run_all_tests`, after the health
      loop: the two endpoint dicts and the chatbot check. */
  function RecordRest(d: Dict.Dict<string, Value>, ml: Dict.Dict<string, Value>,
                      backend: Dict.Dict<string, Value>, chatbot: Outcome): Dict.Dict<string, Value>
  {
    var d2 := Dict.Put(d, "ml_endpoints", VDict(ml));
    var d3 := Dict.Put(d2, "backend_endpoints", VDict(backend));
    Dict.Put(d3, "chatbot_service", VBool(ServiceHealthy(chatbot)))
  }

  /** The dict after the whole of `run_all_tests`. */
  function AfterRun(d: Dict.Dict<string, Value>, health: seq<Outcome>, ml: Dict.Dict<string, Value>,
                    backend: Dict.Dict<string, Value>, chatbot: Outcome): Dict.Dict<string, Value>
    requires |health| == |BaseUrls|
  {
    RecordRest(RecordHealth(d, BaseUrls, health), ml, backend, chatbot)
  }

  /** `class IntegrationTester`: its `results` dict. */
  class IntegrationTester {
    var results: Dict.Dict<string, Value>

    constructor ()
      ensures results == []
    {
      results := [];
    }

    /** `run_all_tests`. `health[i]` is what the i-th service of
        `base_urls` answers on `/health` (the frontend's is never asked
        for); the other outcomes feed the ML, backend and chatbot probes.
        Returns the dict itself, as the source does. */
    method RunAllTests(health: seq<Outcome>, departments: Outcome, context: Outcome, chat: Outcome,
                       backendHealth: Outcome, chatbotRoot: Outcome)
      returns (r: Dict.Dict<string, Value>)
      requires |health| == |BaseUrls|
      modifies this
      ensures results == AfterRun(old(results), health,
                                  [("departments", VInt(FieldLength(departments, "departments", JList([])))),
                                   ("chatbot_context", VInt(FieldLength(context, "available_data", JList([])))),
                                   ("chat_response", VBool(ChatResponds(chat)))],
                                  [("health", VBool(ServiceHealthy(backendHealth)))], chatbotRoot)
      ensures r == results
    {
      ghost var start := results;
      for i := 0 to |BaseUrls|
        invariant results == RecordHealth(start, BaseUrls[..i], health[..i])
      {
        var service := BaseUrls[i].0;
        if service != "frontend" {
          results := Dict.Put(results, HealthKey(service), VBool(ServiceHealthy(health[i])));
        }
        RecordHealthStep(start, BaseUrls, health, i + 1);
      }
      RecordHealthAll(start, BaseUrls, health);
      var ml := TestMlServiceEndpoints(departments, context, chat);
      results := Dict.Put(results, "ml_endpoints", VDict(ml));
      var backend := TestBackendEndpoints(backendHealth);
      results := Dict.Put(results, "backend_endpoints", VDict(backend));
      results := Dict.Put(results, "chatbot_service", VBool(ServiceHealthy(chatbotRoot)));
      r := results;
    }
  }

  /** The health loop after its n-th service, from the loop after n - 1. */
  lemma RecordHealthStep(d: Dict.Dict<string, Value>, services: seq<(string, string)>, health: seq<Outcome>, n: nat)
    requires |health| == |services| && 0 < n <= |services|
    ensures RecordHealth(d, services[..n], health[..n])
         == if services[n - 1].0 != "frontend"
            then Dict.Put(RecordHealth(d, services[..n - 1], health[..n - 1]), HealthKey(services[n - 1].0), VBool(ServiceHealthy(health[n - 1])))
            else RecordHealth(d, services[..n - 1], health[..n - 1])
  {
    assert services[..n][..n - 1] == services[..n - 1];
    assert health[..n][..n - 1] == health[..n - 1];
  }

  /** Before the first service the loop has stored nothing. */
  lemma RecordHealthNone(d: Dict.Dict<string, Value>, services: seq<(string, string)>, health: seq<Outcome>)
    requires |health| == |services|
    ensures RecordHealth(d, services[..0], health[..0]) == d
  {
    assert services[..0] == [];
  }

  /** After the last service the loop has walked the whole list. */
  lemma RecordHealthAll(d: Dict.Dict<string, Value>, services: seq<(string, string)>, health: seq<Outcome>)
    requires |health| == |services|
    ensures RecordHealth(d, services[..|services|], health[..|health|]) == RecordHealth(d, services, health)
  {
    assert services[..|services|] == services;
    assert health[..|health|] == health;
  }

  /** The service names `base_urls` lists, in order. */
  predicate NamedAsBaseUrls(services: seq<(string, string)>) {
    |services| == 4 && services[0].0 == "frontend" && services[1].0 == "backend"
    && services[2].0 == "ml_service" && services[3].0 == "chatbot"
  }

  /** Proof step: the three health keys a fresh run stores, spelled out. */
  lemma HealthKeyNames()
    ensures HealthKey("backend") == "backend_health"
    ensures HealthKey("ml_service") == "ml_service_health"
    ensures HealthKey("chatbot") == "chatbot_health"
  {
  }

  /** Proof step: `Dict.PutNew` for the second health key of a fresh run. */
  lemma PutSecond(a: Value, b: Value)
    ensures Dict.Put([("backend_health", a)], "ml_service_health", b)
         == [("backend_health", a), ("ml_service_health", b)]
  {
    Dict.PutNew([("backend_health", a)], "ml_service_health", b);
  }

  /** Proof step: `Dict.PutNew` for the third health key of a fresh run. */
  lemma PutThird(a: Value, b: Value, c: Value)
    ensures Dict.Put([("backend_health", a), ("ml_service_health", b)], "chatbot_health", c)
         == [("backend_health", a), ("ml_service_health", b), ("chatbot_health", c)]
  {
    Dict.PutNew([("backend_health", a), ("ml_service_health", b)], "chatbot_health", c);
  }

  /** The health loop over frontend and backend, from an empty dict. */
  lemma Health2(services: seq<(string, string)>, health: seq<Outcome>)
    requires NamedAsBaseUrls(services) && |health| == 4
    ensures RecordHealth([], services[..2], health[..2]) == [("backend_health", VBool(ServiceHealthy(health[1])))]
  {
    RecordHealthNone([], services, health);
    RecordHealthStep([], services, health, 1);
    RecordHealthStep([], services, health, 2);
    HealthKeyNames();
  }

  /** ... and over the ML service. */
  lemma Health3(services: seq<(string, string)>, health: seq<Outcome>)
    requires NamedAsBaseUrls(services) && |health| == 4
    ensures RecordHealth([], services[..3], health[..3])
         == [("backend_health", VBool(ServiceHealthy(health[1]))), ("ml_service_health", VBool(ServiceHealthy(health[2])))]
  {
    Health2(services, health);
    RecordHealthStep([], services, health, 3);
    HealthKeyNames();
    PutSecond(VBool(ServiceHealthy(health[1])), VBool(ServiceHealthy(health[2])));
  }

  /** ... and over the chatbot. */
  lemma Health4(services: seq<(string, string)>, health: seq<Outcome>)
    requires NamedAsBaseUrls(services) && |health| == 4
    ensures RecordHealth([], services, health)
         == [("backend_health", VBool(ServiceHealthy(health[1]))),
             ("ml_service_health", VBool(ServiceHealthy(health[2]))),
             ("chatbot_health", VBool(ServiceHealthy(health[3])))]
  {
    Health3(services, health);
    RecordHealthStep([], services, health, 4);
    RecordHealthAll([], services, health);
    HealthKeyNames();
    PutThird(VBool(ServiceHealthy(health[1])), VBool(ServiceHealthy(health[2])), VBool(ServiceHealthy(health[3])));
  }

  /** On a fresh tester the health loop stores three entries, in order,
      and skips frontend. */
  lemma FreshHealth(health: seq<Outcome>)
    requires |health| == |BaseUrls|
    ensures RecordHealth([], BaseUrls, health)
         == [("backend_health", VBool(ServiceHealthy(health[1]))),
             ("ml_service_health", VBool(ServiceHealthy(health[2]))),
             ("chatbot_health", VBool(ServiceHealthy(health[3])))]
  {
    Health4(BaseUrls, health);
  }

  /** The dict holds only keys the health loop stores. */
  predicate HealthKeysOnly(d: Dict.Dict<string, Value>) {
    forall i :: 0 <= i < |d| ==> Text.EndsWith(d[i].0, "_health")
  }

  /** Every key the health loop stores ends in `_health`. */
  lemma {:induction false} HealthKeys(d: Dict.Dict<string, Value>, services: seq<(string, string)>, health: seq<Outcome>)
    requires |health| == |services|
    requires HealthKeysOnly(d)
    ensures HealthKeysOnly(RecordHealth(d, services, health))
  {
    if services != [] {
      var n := |services| - 1;
      HealthKeys(d, services[..n], health[..n]);
    }
  }

  /** A key whose last character differs from the suffix's does not end
      with it. */
  lemma LastCharMismatch(key: string, suffix: string)
    requires |key| > 0 && |suffix| > 0 && key[|key| - 1] != suffix[|suffix| - 1]
    ensures !Text.EndsWith(key, suffix)
  {
    assert |suffix| <= |key| ==> key[|key| - |suffix|..][|suffix| - 1] == key[|key| - 1];
  }

  /** Proof step: the three later keys of `results` are not health keys. */
  lemma NotHealthKeys()
    ensures !Text.EndsWith("ml_endpoints", "_health")
    ensures !Text.EndsWith("backend_endpoints", "_health")
    ensures !Text.EndsWith("chatbot_service", "_health")
  {
    LastCharMismatch("ml_endpoints", "_health");
    LastCharMismatch("backend_endpoints", "_health");
    LastCharMismatch("chatbot_service", "_health");
  }

  /** `results['ml_endpoints'] = ...` after the health loop appends. */
  lemma PutMlEndpoints(d: Dict.Dict<string, Value>, a: Value)
    requires HealthKeysOnly(d)
    ensures Dict.Put(d, "ml_endpoints", a) == d + [("ml_endpoints", a)]
  {
    NotHealthKeys();
    Dict.PutNew(d, "ml_endpoints", a);
  }

  /** `results['backend_endpoints'] = ...` then appends too. */
  lemma PutBackendEndpoints(d: Dict.Dict<string, Value>, a: Value, b: Value)
    requires HealthKeysOnly(d)
    ensures Dict.Put(d + [("ml_endpoints", a)], "backend_endpoints", b) == d + [("ml_endpoints", a), ("backend_endpoints", b)]
  {
    NotHealthKeys();
    assert "ml_endpoints" != "backend_endpoints";
    Dict.PutNew(d + [("ml_endpoints", a)], "backend_endpoints", b);
  }

  /** ... and so does `results['chatbot_service'] = ...`. */
  lemma PutChatbotService(d: Dict.Dict<string, Value>, a: Value, b: Value, c: Value)
    requires HealthKeysOnly(d)
    ensures Dict.Put(d + [("ml_endpoints", a), ("backend_endpoints", b)], "chatbot_service", c)
         == d + [("ml_endpoints", a), ("backend_endpoints", b), ("chatbot_service", c)]
  {
    NotHealthKeys();
    assert "ml_endpoints" != "chatbot_service" && "backend_endpoints" != "chatbot_service";
    Dict.PutNew(d + [("ml_endpoints", a), ("backend_endpoints", b)], "chatbot_service", c);
  }

  /** After a health loop, which stores only `_health` keys, the last three
      assignments each add a new key at the end. */
  lemma RecordRestAppends(d: Dict.Dict<string, Value>, ml: Dict.Dict<string, Value>, backend: Dict.Dict<string, Value>, chatbot: Outcome)
    requires HealthKeysOnly(d)
    ensures RecordRest(d, ml, backend, chatbot)
         == d + [("ml_endpoints", VDict(ml)), ("backend_endpoints", VDict(backend)),
                 ("chatbot_service", VBool(ServiceHealthy(chatbot)))]
  {
    PutMlEndpoints(d, VDict(ml));
    PutBackendEndpoints(d, VDict(ml), VDict(backend));
    PutChatbotService(d, VDict(ml), VDict(backend), VBool(ServiceHealthy(chatbot)));
  }

  /** On a fresh tester, `run_all_tests` leaves the health entries followed
      by the two endpoint dicts and the chatbot check, each key once. */
  lemma FreshRun(health: seq<Outcome>, ml: Dict.Dict<string, Value>, backend: Dict.Dict<string, Value>, chatbot: Outcome)
    requires |health| == |BaseUrls|
    ensures AfterRun([], health, ml, backend, chatbot)
         == RecordHealth([], BaseUrls, health)
            + [("ml_endpoints", VDict(ml)), ("backend_endpoints", VDict(backend)),
               ("chatbot_service", VBool(ServiceHealthy(chatbot)))]
  {
    HealthKeys([], BaseUrls, health);
    RecordRestAppends(RecordHealth([], BaseUrls, health), ml, backend, chatbot);
  }

  /** A key `generate_report` and `main` count: not ending in `_endpoints`. */
  predicate Counted(key: string) {
    !Text.EndsWith(key, "_endpoints")
  }

  /** `total_tests`. */
  function TotalTests(d: Dict.Dict<string, Value>): (n: nat)
    ensures n <= |d|
  {
    Tally.Count(d, (e: (string, Value)) => Counted(e.0))
  }

  /** `passed_tests`: passed tests are among the counted ones. */
  function PassedTests(d: Dict.Dict<string, Value>): (n: nat)
    ensures n <= TotalTests(d)
  {
    Tally.CountMono(d, (e: (string, Value)) => Counted(e.0) && Truthy(e.1), (e: (string, Value)) => Counted(e.0));
    Tally.Count(d, (e: (string, Value)) => Counted(e.0) && Truthy(e.1))
  }

  /** A `_health` key does not end in `_endpoints`. */
  lemma HealthKeyCounted(key: string)
    requires Text.EndsWith(key, "_health")
    ensures Counted(key)
  {
    assert key[|key| - 1] == key[|key| - 7..][6] == 'h';
    assert |key| >= 10 ==> key[|key| - 10..][9] == 'h';
  }

  /** `len(health_services)`: the `_health` keys with a truthy value, every
      one of them also a passed test. */
  function HealthyServices(d: Dict.Dict<string, Value>): (n: nat)
    ensures n <= PassedTests(d)
  {
    assert forall key :: Text.EndsWith(key, "_health") ==> Counted(key) by {
      forall key | Text.EndsWith(key, "_health") {
        HealthKeyCounted(key);
      }
    }
    Tally.CountMono(d, (e: (string, Value)) => Text.EndsWith(e.0, "_health") && Truthy(e.1),
                    (e: (string, Value)) => Counted(e.0) && Truthy(e.1));
    Tally.Count(d, (e: (string, Value)) => Text.EndsWith(e.0, "_health") && Truthy(e.1))
  }

  /** The `sys.exit` status of `main`. */
  function ExitCode(d: Dict.Dict<string, Value>): (code: int)
    ensures code == 0 || code == 1
  {
    if PassedTests(d) == TotalTests(d) then 0 else 1
  }

  /** `main` exits with 0 exactly when every counted entry is truthy. */
  lemma ExitZeroIff(d: Dict.Dict<string, Value>)
    ensures ExitCode(d) == 0 <==> forall i :: 0 <= i < |d| ==> Counted(d[i].0) ==> Truthy(d[i].1)
  {
    Tally.CountMonoEqual(d, (e: (string, Value)) => Counted(e.0) && Truthy(e.1), (e: (string, Value)) => Counted(e.0));
  }

  /** The counts over a concatenation add up. */
  lemma AppendCounts(a: Dict.Dict<string, Value>, b: Dict.Dict<string, Value>)
    ensures TotalTests(a + b) == TotalTests(a) + TotalTests(b)
    ensures PassedTests(a + b) == PassedTests(a) + PassedTests(b)
  {
    Tally.CountAppend(a, b, (e: (string, Value)) => Counted(e.0));
    Tally.CountAppend(a, b, (e: (string, Value)) => Counted(e.0) && Truthy(e.1));
  }

  lemma SnocCounts(d: Dict.Dict<string, Value>, e: (string, Value))
    ensures TotalTests(d + [e]) == TotalTests(d) + (if Counted(e.0) then 1 else 0)
    ensures PassedTests(d + [e]) == PassedTests(d) + (if Counted(e.0) && Truthy(e.1) then 1 else 0)
  {
    Tally.CountSnoc(d, e, (e: (string, Value)) => Counted(e.0));
    Tally.CountSnoc(d, e, (e: (string, Value)) => Counted(e.0) && Truthy(e.1));
  }

  function Bit(b: bool): nat {
    if b then 1 else 0
  }

  /** The counts over three entries. */
  lemma ThreeCounts(e1: (string, Value), e2: (string, Value), e3: (string, Value))
    ensures TotalTests([e1, e2, e3]) == Bit(Counted(e1.0)) + Bit(Counted(e2.0)) + Bit(Counted(e3.0))
    ensures PassedTests([e1, e2, e3])
         == Bit(Counted(e1.0) && Truthy(e1.1)) + Bit(Counted(e2.0) && Truthy(e2.1)) + Bit(Counted(e3.0) && Truthy(e3.1))
  {
    SnocCounts([], e1);
    assert [] + [e1] == [e1];
    SnocCounts([e1], e2);
    assert [e1] + [e2] == [e1, e2];
    SnocCounts([e1, e2], e3);
    assert [e1, e2] + [e3] == [e1, e2, e3];
  }

  /** Proof step: which of the keys a fresh run stores are counted. */
  lemma CountedKeys()
    ensures Counted("backend_health") && Counted("ml_service_health") && Counted("chatbot_health")
    ensures Counted("chatbot_service")
    ensures !Counted("ml_endpoints") && !Counted("backend_endpoints")
  {
    LastCharMismatch("backend_health", "_endpoints");
    LastCharMismatch("ml_service_health", "_endpoints");
    LastCharMismatch("chatbot_health", "_endpoints");
    LastCharMismatch("chatbot_service", "_endpoints");
    EndpointsKeys();
  }

  /** Proof step: the two endpoint keys end in `_endpoints`. */
  lemma EndpointsKeys()
    ensures Text.EndsWith("ml_endpoints", "_endpoints")
    ensures Text.EndsWith("backend_endpoints", "_endpoints")
  {
    assert "ml_endpoints"[|"ml_endpoints"| - 10..] == "_endpoints";
    assert "backend_endpoints"[|"backend_endpoints"| - 10..] == "_endpoints";
  }

  /** The three health entries of a fresh run all count. */
  lemma FreshHealthCounts(health: seq<Outcome>)
    requires |health| == |BaseUrls|
    ensures TotalTests(RecordHealth([], BaseUrls, health)) == 3
    ensures PassedTests(RecordHealth([], BaseUrls, health))
         == Bit(ServiceHealthy(health[1])) + Bit(ServiceHealthy(health[2])) + Bit(ServiceHealthy(health[3]))
  {
    FreshHealth(health);
    CountedKeys();
    ThreeCounts(("backend_health", VBool(ServiceHealthy(health[1]))),
                ("ml_service_health", VBool(ServiceHealthy(health[2]))),
                ("chatbot_health", VBool(ServiceHealthy(health[3]))));
  }

  /** Of the last three entries only the chatbot check counts. */
  lemma TailCounts(ml: Dict.Dict<string, Value>, backend: Dict.Dict<string, Value>, chatbot: bool)
    ensures TotalTests([("ml_endpoints", VDict(ml)), ("backend_endpoints", VDict(backend)), ("chatbot_service", VBool(chatbot))]) == 1
    ensures PassedTests([("ml_endpoints", VDict(ml)), ("backend_endpoints", VDict(backend)), ("chatbot_service", VBool(chatbot))]) == Bit(chatbot)
  {
    CountedKeys();
    ThreeCounts(("ml_endpoints", VDict(ml)), ("backend_endpoints", VDict(backend)), ("chatbot_service", VBool(chatbot)));
  }

  /** After a fresh run four tests are counted (three health checks and the
      chatbot check; the endpoint dicts never count), and `main` exits with
      0 exactly when the backend, ML service and chatbot all answer
      `/health` with a 200 and the chatbot's `/` does too. */
  lemma FreshRunVerdict(health: seq<Outcome>, ml: Dict.Dict<string, Value>, backend: Dict.Dict<string, Value>, chatbot: Outcome)
    requires |health| == |BaseUrls|
    ensures TotalTests(AfterRun([], health, ml, backend, chatbot)) == 4
    ensures PassedTests(AfterRun([], health, ml, backend, chatbot))
         == Bit(ServiceHealthy(health[1])) + Bit(ServiceHealthy(health[2])) + Bit(ServiceHealthy(health[3]))
            + Bit(ServiceHealthy(chatbot))
    ensures ExitCode(AfterRun([], health, ml, backend, chatbot)) == 0
            <==> ServiceHealthy(health[1]) && ServiceHealthy(health[2]) && ServiceHealthy(health[3]) && ServiceHealthy(chatbot)
  {
    FreshRun(health, ml, backend, chatbot);
    FreshHealthCounts(health);
    TailCounts(ml, backend, ServiceHealthy(chatbot));
    AppendCounts(RecordHealth([], BaseUrls, health),
                 [("ml_endpoints", VDict(ml)), ("backend_endpoints", VDict(backend)),
                  ("chatbot_service", VBool(ServiceHealthy(chatbot)))]);
  }
  /** `len(health_services)` over three entries. */
  lemma ThreeHealthy(e1: (string, Value), e2: (string, Value), e3: (string, Value))
    ensures HealthyServices([e1, e2, e3])
         == Bit(Text.EndsWith(e1.0, "_health") && Truthy(e1.1)) + Bit(Text.EndsWith(e2.0, "_health") && Truthy(e2.1))
            + Bit(Text.EndsWith(e3.0, "_health") && Truthy(e3.1))
  {
    var p := (e: (string, Value)) => Text.EndsWith(e.0, "_health") && Truthy(e.1);
    Tally.CountSnoc([], e1, p);
    assert [] + [e1] == [e1];
    Tally.CountSnoc([e1], e2, p);
    assert [e1] + [e2] == [e1, e2];
    Tally.CountSnoc([e1, e2], e3, p);
    assert [e1, e2] + [e3] == [e1, e2, e3];
  }

  /** The healthy count over a concatenation adds up. */
  lemma HealthyAppend(a: Dict.Dict<string, Value>, b: Dict.Dict<string, Value>)
    ensures HealthyServices(a + b) == HealthyServices(a) + HealthyServices(b)
  {
    Tally.CountAppend(a, b, (e: (string, Value)) => Text.EndsWith(e.0, "_health") && Truthy(e.1));
  }

  /** The three health entries of a fresh run count when healthy. */
  lemma FreshHealthHealthy(health: seq<Outcome>)
    requires |health| == |BaseUrls|
    ensures HealthyServices(RecordHealth([], BaseUrls, health))
         == Bit(ServiceHealthy(health[1])) + Bit(ServiceHealthy(health[2])) + Bit(ServiceHealthy(health[3]))
  {
    FreshHealth(health);
    HealthKeyNames();
    ThreeHealthy(("backend_health", VBool(ServiceHealthy(health[1]))),
                 ("ml_service_health", VBool(ServiceHealthy(health[2]))),
                 ("chatbot_health", VBool(ServiceHealthy(health[3]))));
  }

  /** None of the last three entries is a health entry. */
  lemma TailHealthy(ml: Dict.Dict<string, Value>, backend: Dict.Dict<string, Value>, chatbot: bool)
    ensures HealthyServices([("ml_endpoints", VDict(ml)), ("backend_endpoints", VDict(backend)), ("chatbot_service", VBool(chatbot))]) == 0
  {
    NotHealthKeys();
    ThreeHealthy(("ml_endpoints", VDict(ml)), ("backend_endpoints", VDict(backend)), ("chatbot_service", VBool(chatbot)));
  }

  /** The "Healthy Services" line of a fresh run counts the backend, the ML
      service and the chatbot whose `/health` gave a 200; the last three
      entries never end in `_health`. */
  lemma FreshHealthyServices(health: seq<Outcome>, ml: Dict.Dict<string, Value>, backend: Dict.Dict<string, Value>, chatbot: Outcome)
    requires |health| == |BaseUrls|
    ensures HealthyServices(AfterRun([], health, ml, backend, chatbot))
         == Bit(ServiceHealthy(health[1])) + Bit(ServiceHealthy(health[2])) + Bit(ServiceHealthy(health[3]))
    ensures HealthyServices(AfterRun([], health, ml, backend, chatbot)) <= 3
  {
    FreshRun(health, ml, backend, chatbot);
    FreshHealthHealthy(health);
    TailHealthy(ml, backend, ServiceHealthy(chatbot));
    HealthyAppend(RecordHealth([], BaseUrls, health),
                  [("ml_endpoints", VDict(ml)), ("backend_endpoints", VDict(backend)),
                   ("chatbot_service", VBool(ServiceHealthy(chatbot)))]);
  }
}
