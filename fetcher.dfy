/**
  * get_weather (weather_app.py:640-775): how a typed city name becomes weather
  * requests, which responses are accepted, and what each failure reports. The
  * weather service is a parameter; nothing here performs a request.
  */
module Fetcher {
  import opened Wrappers
  import opened PyJson
  import Cities
  import CityRows

  /** What one `requests.get(...)` call yields. */
  datatype Outcome =
      /** An HTTP answer; `body` is `response.json()`, None when the body is not JSON. */
    | Response(status: int, body: Option<Json>)
    | Timeout
      /** Any other `requests.exceptions.RequestException`. */
    | ConnectionFailure

  /**
    * The weather service: the outcome of the n-th request (counting from 0) that one
    * get_weather call sends, with query string q. The index lets the same query
    * meet different answers.
    */
  type Service = (nat, string) -> Outcome

  /** What get_weather shows the user besides its return value. */
  datatype Report =
    | NoReport
    | MissingFieldsWarning(fields: seq<string>)
    | InvalidKey
    | CityNotFound(city: string)
    | RequestFailed(status: int)
    | TimedOut
    | NetworkFailure
    | DecodeFailure

  /** The result of get_weather: its return value and report, or an exception that escapes it. */
  datatype Reply = Returned(data: Option<Json>, report: Report) | Raised

  /** A reply together with the queries sent, in order. */
  datatype Trace = Trace(reply: Reply, queries: seq<string>)

  /** `required_fields` of get_weather (weather_app.py:724 and 749). */
  const RequiredKeys: seq<string> := ["name", "main", "weather", "sys"]

  /** The warning get_weather shows for a 200 body it returns: the absent top-level keys, in order. */
  function ResponseReport(body: Json): (r: Report)
    requires SupportsIn(body)
    ensures r.NoReport? || r.MissingFieldsWarning?
    ensures r.NoReport? <==> forall k :: k in RequiredKeys ==> Has(body, k)
    ensures r.MissingFieldsWarning? ==>
      (forall k :: k in r.fields <==> k in RequiredKeys && !Has(body, k)) &&
      IsSubsequence(r.fields, RequiredKeys)
  {
    var missing := MissingKeys(body, RequiredKeys);
    if missing == [] then NoReport
    else
      assert missing[0] in missing;
      MissingFieldsWarning(missing)
  }

  /** An empty dict lacks every required key, so the warning names all four. */
  lemma EmptyBodyReport()
    ensures ResponseReport(EmptyObject) == MissingFieldsWarning(RequiredKeys)
  {
    NonePresent(EmptyObject, RequiredKeys);
  }

  /** A name without alternatives answered 200 with `{}`: the empty dict is returned, with the full warning. */
  lemma EmptyBodyReturned(city: string, service: Service)
    requires Cities.Alternatives(city).None?
    requires service(0, Cities.ResolveQuery(city)) == Response(200, Some(EmptyObject))
    ensures Fetch(city, service).reply == Returned(Some(EmptyObject), MissingFieldsWarning(RequiredKeys))
  {
    EmptyBodyReport();
    SingleRequestWithoutAlternatives(city, service);
  }

  /**
    * An attempt with an alternative spelling ends get_weather exactly when the
    * answer is 200 with a JSON body that supports `in`; anything else is swallowed
    * by the bare `except` (or falls through) and the next spelling is tried.
    */
  function Accepted(o: Outcome): (r: bool)
    ensures o.Timeout? || o.ConnectionFailure? ==> !r
    ensures o.Response? && o.status != 200 ==> !r
    ensures o.Response? && o.status == 200 && o.body.Some? ==> (r <==> SupportsIn(o.body.value))
    ensures r ==> o.Response? && o.body.Some?
  {
    o.Response? && o.status == 200 && o.body.Some? && SupportsIn(o.body.value)
  }

  /** The first index at or after `from` whose attempt is accepted. */
  function FirstAccepted(service: Service, names: seq<string>, from: nat): (r: Option<nat>)
    requires from <= |names|
    ensures r.Some? ==> from <= r.value < |names| && Accepted(service(r.value, names[r.value]))
    ensures forall i :: from <= i < (if r.Some? then r.value else |names|) ==> !Accepted(service(i, names[i]))
    decreases |names| - from
  {
    if from == |names| then None
    else if Accepted(service(from, names[from])) then Some(from)
    else FirstAccepted(service, names, from + 1)
  }

  /** How the last request's outcome is turned into get_weather's result (weather_app.py:743-775). */
  function FinalReply(city: string, o: Outcome): (r: Reply)
    ensures r.Returned? && r.data.Some? <==> Accepted(o)
    ensures Accepted(o) ==> r.data == o.body
    ensures r.Raised? <==> o.Response? && o.status == 200 && o.body.Some? && !SupportsIn(o.body.value)
    ensures Accepted(o) ==> r.report == ResponseReport(o.body.value)
    ensures o.Response? && o.status == 200 && o.body.None? ==> r == Returned(None, DecodeFailure)
    ensures o.Response? && o.status == 401 ==> r == Returned(None, InvalidKey)
    ensures o.Response? && o.status == 404 ==> r == Returned(None, CityNotFound(city))
    ensures o.Response? && o.status != 200 && o.status != 401 && o.status != 404 ==>
      r == Returned(None, RequestFailed(o.status))
    ensures o.Timeout? ==> r == Returned(None, TimedOut)
    ensures o.ConnectionFailure? ==> r == Returned(None, NetworkFailure)
  {
    match o
    case Timeout => Returned(None, TimedOut)
    case ConnectionFailure => Returned(None, NetworkFailure)
    case Response(status, body) =>
      if status == 200 then
        match body
        case None => Returned(None, DecodeFailure)
        case Some(data) => if SupportsIn(data) then Returned(Some(data), ResponseReport(data)) else Raised
      else if status == 401 then Returned(None, InvalidKey)
      else if status == 404 then Returned(None, CityNotFound(city))
      else Returned(None, RequestFailed(status))
  }

  /** The spellings tried before the final request: the alternatives row, or none. */
  function Candidates(city: string): seq<string>
  {
    Cities.Alternatives(city).GetOr([])
  }

  /**
    * The requests of get_weather for alternative spellings `names` and resolved query
    * `query`: the alternatives in order until one is accepted, and otherwise one final
    * request with the resolved query.
    */
  function Attempts(city: string, names: seq<string>, query: string, service: Service): (t: Trace)
    ensures 1 <= |t.queries| <= |names| + 1
    ensures t.queries == (names + [query])[..|t.queries|]
    ensures |t.queries| <= |names| ==>
      t.reply.Returned? && t.reply.data.Some? && Accepted(service(|t.queries| - 1, names[|t.queries| - 1]))
    ensures |t.queries| <= |names| ==> t.reply.data == service(|t.queries| - 1, names[|t.queries| - 1]).body
    ensures |t.queries| == |names| + 1 ==> t.reply == FinalReply(city, service(|names|, query))
  {
    match FirstAccepted(service, names, 0)
    case Some(k) =>
      var body := service(k, names[k]).body.value;
      assert (names + [query])[..k + 1] == names[..k + 1];
      Trace(Returned(Some(body), ResponseReport(body)), names[..k + 1])
    case None =>
      assert (names + [query])[..|names| + 1] == names + [query];
      Trace(FinalReply(city, service(|names|, query)), names + [query])
  }

  /** get_weather as a function of the typed name and the service. */
  function Fetch(city: string, service: Service): (t: Trace)
    ensures 1 <= |t.queries| <= 5
    ensures Cities.Alternatives(city).None? ==> t.queries == [Cities.ResolveQuery(city)]
    ensures t.reply.Raised? || t.reply.data.None? ==> t.queries[|t.queries| - 1] == Cities.ResolveQuery(city)
  {
    Attempts(city, Candidates(city), Cities.ResolveQuery(city), service)
  }

  /** get_weather: resolve the name, then send the requests. */
  method GetWeather(city: string, service: Service) returns (reply: Reply, ghost queries: seq<string>)
    ensures reply == Fetch(city, service).reply
    ensures queries == Fetch(city, service).queries
  {
    var query := Cities.ResolveQuery(city);
    var names: seq<string> := [];
    var alternatives := Cities.Alternatives(city);
    if alternatives.Some? {
      names := alternatives.value;
    }
    reply, queries := SendRequests(city, names, query, service);
  }

  /** The alternatives loop of get_weather and its final request; `queries` records the requests sent. */
  method SendRequests(city: string, names: seq<string>, query: string, service: Service)
    returns (reply: Reply, ghost queries: seq<string>)
    ensures reply == Attempts(city, names, query, service).reply
    ensures queries == Attempts(city, names, query, service).queries
  {
    queries := [];
    var i := 0;
    while i < |names|
      invariant 0 <= i <= |names|
      invariant queries == names[..i]
      invariant FirstAccepted(service, names, 0) == FirstAccepted(service, names, i)
    {
      var outcome := service(i, names[i]);
      queries := queries + [names[i]];
      assert queries == names[..i + 1];
      if outcome.Response? && outcome.status == 200 && outcome.body.Some? {
        var data := outcome.body.value;
        if SupportsIn(data) {
          assert FirstAccepted(service, names, i) == Some(i);
          reply := Returned(Some(data), ResponseReport(data));
          return;
        }
      }
      assert FirstAccepted(service, names, i) == FirstAccepted(service, names, i + 1);
      i := i + 1;
    }
    assert queries == names;
    assert FirstAccepted(service, names, 0) == None;
    var outcome := service(|names|, query);
    queries := queries + [query];
    reply := FinalReply(city, outcome);
  }

  /**
    * The queries sent are a prefix of the alternatives followed by the resolved query:
    * at least one request, at most one more than there are alternatives.
    */
  lemma QueriesFollowCandidates(city: string, service: Service)
    ensures var t := Fetch(city, service);
      1 <= |t.queries| <= |Candidates(city)| + 1 &&
      t.queries == (Candidates(city) + [Cities.ResolveQuery(city)])[..|t.queries|]
  {
    var names := Candidates(city);
    var all := names + [Cities.ResolveQuery(city)];
    match FirstAccepted(service, names, 0)
    case Some(k) =>
      assert all[..k + 1] == names[..k + 1];
    case None =>
      assert all[..|all|] == all;
  }

  /**
    * The first accepted alternative ends the lookup: nothing after it is sent, and
    * its body is returned, with a warning when top-level keys are absent.
    */
  lemma StopsAtFirstAccepted(city: string, service: Service, k: nat)
    requires k < |Candidates(city)|
    requires Accepted(service(k, Candidates(city)[k]))
    requires forall i :: 0 <= i < k ==> !Accepted(service(i, Candidates(city)[i]))
    ensures var body := service(k, Candidates(city)[k]).body.value;
      Fetch(city, service) == Trace(Returned(Some(body), ResponseReport(body)), Candidates(city)[..k + 1])
  {
    var r := FirstAccepted(service, Candidates(city), 0);
    assert r.Some? && r.value == k;
  }

  /**
    * A lookup that ends within the alternatives always returns a body; the attempts
    * before it were all not accepted, whatever their status code (401 included).
    */
  lemma AlternativesNeverFail(city: string, service: Service)
    requires |Fetch(city, service).queries| <= |Candidates(city)|
    ensures var t := Fetch(city, service);
      t.reply.Returned? && t.reply.data.Some? &&
      (t.reply.report.NoReport? || t.reply.report.MissingFieldsWarning?) &&
      Accepted(service(|t.queries| - 1, Candidates(city)[|t.queries| - 1])) &&
      forall i :: 0 <= i < |t.queries| - 1 ==> !Accepted(service(i, Candidates(city)[i]))
  {
    assert FirstAccepted(service, Candidates(city), 0).Some?;
  }

  /** A name without an alternatives row costs exactly one request, with the resolved query. */
  lemma SingleRequestWithoutAlternatives(city: string, service: Service)
    requires Cities.Alternatives(city).None?
    ensures var query := Cities.ResolveQuery(city);
      Fetch(city, service) == Trace(FinalReply(city, service(0, query)), [query])
  {
  }

  /** A service that answers every request with the same status code and body. */
  ghost predicate AnswersAlways(service: Service, o: Outcome)
  {
    forall n: nat, q: string :: service(n, q) == o
  }

  /**
    * An invalid API key stops nothing while alternatives remain: with 401 for every
    * request, a name with an alternatives row costs five requests, and only the last
    * one reports the key.
    */
  lemma InvalidKeyTriesEverySpelling(city: string, service: Service, body: Option<Json>)
    requires Cities.Alternatives(city).Some?
    requires AnswersAlways(service, Response(401, body))
    ensures Fetch(city, service) ==
      Trace(Returned(None, InvalidKey), Cities.Alternatives(city).value + [Cities.ResolveQuery(city)])
    ensures |Fetch(city, service).queries| == 5
  {
    var names := Candidates(city);
    assert service(|names|, Cities.ResolveQuery(city)) == Response(401, body);
  }

  /** The service gives every request for the same query the same answer. */
  ghost predicate Consistent(service: Service)
  {
    forall n: nat, m: nat, q: string :: service(n, q) == service(m, q)
  }

  /**
    * For a name with alternatives, the final request repeats one of them: a
    * consistent service that refused every alternative refuses it too, so the
    * lookup then never returns data.
    */
  lemma FinalRequestRepeatsAnAlternative(city: string, service: Service)
    requires Cities.Alternatives(city).Some?
    requires Consistent(service)
    requires FirstAccepted(service, Candidates(city), 0).None?
    ensures var reply := Fetch(city, service).reply;
      reply.Raised? || reply.data.None?
  {
    var names := Candidates(city);
    var query := Cities.ResolveQuery(city);
    CityRows.AlternativesRoundTrip(city);
    var j :| 0 <= j < |names| && names[j] == query;
    assert service(|names|, query) == service(j, names[j]);
  }

  /** 김포 answered 404 for "Gimpo-si,KR" and 200 for "Gimpo,KR": two requests, and the second body is returned. */
  lemma GimpoScenario(service: Service, body: Json)
    requires service(0, "Gimpo-si,KR") == Response(404, None)
    requires service(1, "Gimpo,KR") == Response(200, Some(body))
    requires body.JObj? && forall k :: k in RequiredKeys ==> k in body.fields
    ensures Fetch("김포", service) == Trace(Returned(Some(body), NoReport), ["Gimpo-si,KR", "Gimpo,KR"])
    ensures Cities.KoreanCityName("Gimpo") == "김포"
  {
    CityRows.GimpoRow();
    CityRows.GimpoTranslatesBack();
    var names := Candidates("김포");
    assert names == ["Gimpo-si,KR", "Gimpo,KR", "Gimpo-si", "Gimpo"];
    assert !Accepted(service(0, names[0]));
    StopsAtFirstAccepted("김포", service, 1);
  }

  /** 서울 has no alternatives row: one request, for "Seoul,KR". */
  lemma SeoulScenario(service: Service, body: Json)
    requires service(0, "Seoul,KR") == Response(200, Some(body))
    requires body.JObj? && forall k :: k in RequiredKeys ==> k in body.fields
    ensures Fetch("서울", service) == Trace(Returned(Some(body), NoReport), ["Seoul,KR"])
  {
    assert Cities.ResolveQuery("서울") == "Seoul,KR";
    assert Cities.Alternatives("서울").None?;
  }

  /** An unknown name is sent as typed; a 404 reports it as not found and returns nothing. */
  lemma UnknownCityScenario(service: Service, body: Option<Json>)
    requires service(0, "Nonexistent City") == Response(404, body)
    ensures Fetch("Nonexistent City", service) ==
      Trace(Returned(None, CityNotFound("Nonexistent City")), ["Nonexistent City"])
  {
    UnknownCityUnlisted();
    SingleRequestWithoutAlternatives("Nonexistent City", service);
  }

  /** "Nonexistent City" is in neither table. */
  lemma UnknownCityUnlisted()
    ensures Cities.ResolveQuery("Nonexistent City") == "Nonexistent City"
    ensures Cities.Alternatives("Nonexistent City").None?
  {
    assert Cities.KoreanCities("Nonexistent City").None?;
  }

  /** A body that lacks only `main` is warned about `main` alone. */
  lemma OnlyMainMissing(fields: map<string, Json>)
    requires "name" in fields && "main" !in fields && "weather" in fields && "sys" in fields
    ensures ResponseReport(JObj(fields)) == MissingFieldsWarning(["main"])
  {
    var j := JObj(fields);
    assert RequiredKeys[..1] == ["name"] && RequiredKeys[..2] == ["name", "main"];
    assert RequiredKeys[..3] == ["name", "main", "weather"];
    assert MissingKeys(j, ["name"]) == [];
    assert MissingKeys(j, ["name", "main"]) == ["main"];
    assert MissingKeys(j, ["name", "main", "weather"]) == ["main"];
    assert MissingKeys(j, RequiredKeys) == ["main"];
  }

  /** A 200 body without `main` is still returned; only a warning names the absent key. */
  lemma MissingMainScenario(city: string, service: Service, fields: map<string, Json>)
    requires Cities.Alternatives(city).None?
    requires service(0, Cities.ResolveQuery(city)) == Response(200, Some(JObj(fields)))
    requires "name" in fields && "main" !in fields && "weather" in fields && "sys" in fields
    ensures Fetch(city, service).reply == Returned(Some(JObj(fields)), MissingFieldsWarning(["main"]))
  {
    SingleRequestWithoutAlternatives(city, service);
    OnlyMainMissing(fields);
  }
}
