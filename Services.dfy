/** Service descriptors as `register_service` builds them: a dictionary from the keys
    "name", "endpoint", "method" and, optionally, "description" to strings. */
module Services {
  import opened Strings

  type ServiceEntry = map<string, string>

  datatype Option<T> = None | Some(value: T)

  /** The two `ValueError`s `register_service` raises. Each carries the argument it rejects. */
  datatype ConfigError =
    | EndpointWithoutSlash(endpoint: string)
    | UnsupportedMethod(httpMethod: string)

  datatype Registration = Accepted(entry: ServiceEntry) | Rejected(error: ConfigError)

  /** Membership in the list ["GET", "POST"], compared exactly. */
  predicate IsGetOrPost(m: string)
  {
    m == "GET" || m == "POST"
  }

  const RequiredKeys: set<string> := {"name", "endpoint", "method"}

  /** The checks and the record of one `register_service` call, without the append. */
  function NewService(name: string, endpoint: string, httpMethod: string, description: string): (r: Registration)
    ensures r.Accepted? <==> StartsWith(endpoint, "/") && IsGetOrPost(Upper(httpMethod))
    ensures !StartsWith(endpoint, "/") ==> r == Rejected(EndpointWithoutSlash(endpoint))
    ensures StartsWith(endpoint, "/") && !IsGetOrPost(Upper(httpMethod)) ==>
      r == Rejected(UnsupportedMethod(httpMethod))
    ensures r.Accepted? ==>
      r.entry.Keys == RequiredKeys + (if description == "" then {} else {"description"})
    ensures r.Accepted? ==>
      r.entry["name"] == name && r.entry["endpoint"] == endpoint && r.entry["method"] == Upper(httpMethod)
    ensures r.Accepted? && description != "" ==> r.entry["description"] == description
  {
    if !StartsWith(endpoint, "/") then
      Rejected(EndpointWithoutSlash(endpoint))
    else if !IsGetOrPost(Upper(httpMethod)) then
      Rejected(UnsupportedMethod(httpMethod))
    else
      var service := map["name" := name, "endpoint" := endpoint, "method" := Upper(httpMethod)];
      Accepted(if description != "" then service["description" := description] else service)
  }

  /** `svc` is a record that some successful `register_service` call stores. */
  ghost predicate Produced(svc: ServiceEntry)
  {
    exists name, endpoint, httpMethod, description ::
      NewService(name, endpoint, httpMethod, description) == Accepted(svc)
  }

  /** The stored method is already upper case: registering it again stores the same string. */
  lemma StoredMethodIsNormal(name: string, endpoint: string, httpMethod: string, description: string)
    requires NewService(name, endpoint, httpMethod, description).Accepted?
    ensures var e := NewService(name, endpoint, httpMethod, description).entry;
      Upper(e["method"]) == e["method"] && IsGetOrPost(e["method"])
  {
    UpperIdempotent(httpMethod);
  }

  /** The three registrations documented for `register_service`: each is accepted and
      stored with its description. */
  lemma AcceptedExamples()
    ensures NewService("logger.log", "/logger/log", "POST", "Send log message") ==
      Accepted(map["name" := "logger.log", "endpoint" := "/logger/log", "method" := "POST",
                   "description" := "Send log message"])
    ensures NewService("metrics.report", "/metrics/report", "POST", "Report metric value with tags") ==
      Accepted(map["name" := "metrics.report", "endpoint" := "/metrics/report", "method" := "POST",
                   "description" := "Report metric value with tags"])
    ensures NewService("metrics.dump", "/metrics/dump", "GET", "Dump all metrics") ==
      Accepted(map["name" := "metrics.dump", "endpoint" := "/metrics/dump", "method" := "GET",
                   "description" := "Dump all metrics"])
  {
    assert Upper("POST") == "POST";
    assert Upper("GET") == "GET";
  }

  /** The verb is compared without regard to case and stored upper-cased; with no
      description the record has only the three required keys. */
  lemma CaseAndDescriptionExamples()
    ensures NewService("metrics.report", "/metrics/report", "POST", "") ==
      Accepted(map["name" := "metrics.report", "endpoint" := "/metrics/report", "method" := "POST"])
    ensures NewService("metrics.dump", "/metrics/dump", "get", "") ==
      Accepted(map["name" := "metrics.dump", "endpoint" := "/metrics/dump", "method" := "GET"])
  {
    assert Upper("POST") == "POST";
    assert Upper("get") == "GET";
  }

  /** The two refusals: no leading slash (the empty endpoint included), and a verb other
      than GET or POST. */
  lemma RejectedExamples()
    ensures NewService("bad", "metrics/report", "POST", "") ==
      Rejected(EndpointWithoutSlash("metrics/report"))
    ensures NewService("bad", "", "GET", "") == Rejected(EndpointWithoutSlash(""))
    ensures NewService("bad", "/x", "PUT", "") == Rejected(UnsupportedMethod("PUT"))
  {
    assert Upper("PUT") == "PUT";
    assert "metrics/report"[..1] != "/" by { assert "metrics/report"[0] == 'm'; }
  }

  /** `upper` is not ASCII-only: the long s and the "st" ligature make "po\u017Ft" and
      "po\uFB05" acceptable verbs, stored as "POST". */
  lemma NonAsciiVerbExamples()
    ensures NewService("m", "/m", "po\U{017F}t", "") ==
      Accepted(map["name" := "m", "endpoint" := "/m", "method" := "POST"])
    ensures NewService("m", "/m", "po\U{FB05}", "") ==
      Accepted(map["name" := "m", "endpoint" := "/m", "method" := "POST"])
  {
    assert Upper("po\U{017F}t") == "POST";
    assert Upper("po\U{FB05}") == "POST";
  }
}
