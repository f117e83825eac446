/** `RemotePluginBase` and the handlers of `create_lifecycle_handlers`: one object holding
    the service list and the two lifecycle flags, each operation proved against the
    specification functions of Services, Validation and Lifecycle. */
module RemotePlugin {
  import opened Strings
  import opened Services
  import opened Metadata
  import opened Validation
  import opened Lifecycle

  class RemotePluginBase {
    const identity: Identity
    var services: seq<ServiceEntry>
    var loaded: bool
    var started: bool

    /** Every stored record came from a successful `RegisterService`. */
    ghost predicate Valid()
      reads this
    {
      forall i :: 0 <= i < |services| ==> Produced(services[i])
    }

    function State(): Flags
      reads this
    {
      Flags(loaded, started)
    }

    constructor (identity: Identity)
      ensures this.identity == identity
      ensures services == [] && State() == Initial
      ensures Valid()
    {
      this.identity := identity;
      services := [];
      loaded := false;
      started := false;
    }

    /** Check the endpoint, then the verb, then append the record. A rejected call
        leaves the list as it was. */
    method RegisterService(name: string, endpoint: string, httpMethod: string := "POST", description: string := "")
      returns (error: Option<ConfigError>)
      requires Valid()
      modifies this`services
      ensures Valid()
      ensures match NewService(name, endpoint, httpMethod, description)
        case Accepted(entry) => error == None && services == old(services) + [entry]
        case Rejected(e) => error == Some(e) && services == old(services)
    {
      if !StartsWith(endpoint, "/") {
        return Some(EndpointWithoutSlash(endpoint));
      }
      if Upper(httpMethod) != "GET" && Upper(httpMethod) != "POST" {
        return Some(UnsupportedMethod(httpMethod));
      }
      var service := map["name" := name, "endpoint" := endpoint, "method" := Upper(httpMethod)];
      if description != "" {
        service := service["description" := description];
      }
      assert NewService(name, endpoint, httpMethod, description) == Accepted(service);
      services := services + [service];
      error := None;
    }

    /** The discovery record: the fixed type and mode, the identity, and the current list. */
    function GetMetadata(): (m: PluginMetadata)
      reads this
      ensures m.kind == PluginType && m.mode == PluginMode
      ensures m.name == identity.name && m.version == identity.version
      ensures m.description == identity.description && m.author == identity.author
      ensures m.services == services
    {
      PluginMetadata(identity.name, PluginType, PluginMode, identity.version,
                     identity.description, identity.author, services)
    }

    /** Status "ok" and the two flags as they stand. */
    function Health(): (h: HealthReport)
      reads this
      ensures h.status == "ok" && h.loaded == loaded && h.started == started
    {
      HealthReport("ok", loaded, started)
    }

    /** Walk the identity, then every entry in order, collecting diagnostics. */
    method ValidateMetadata() returns (errors: seq<Diagnostic>)
      ensures errors == Diagnostics(identity, services)
    {
      errors := CheckIdentity(identity);
      var entries := services;
      assert entries[..0] == [] && ServiceDiagnostics([]) == [];
      var i := 0;
      while i < |entries|
        invariant 0 <= i <= |entries|
        invariant errors == Diagnostics(identity, entries[..i])
      {
        var found := CheckEntry(i, entries[i]);
        DiagnosticsAppend(identity, entries[..i], entries[i]);
        assert entries[..i + 1] == entries[..i] + [entries[i]];
        errors := errors + found;
        i := i + 1;
      }
      assert entries[..i] == entries;
    }

    /** A list built only through `RegisterService` draws no per-service diagnostic. */
    lemma ValidRegistryPasses()
      ensures Valid() ==> Diagnostics(identity, services) == IdentityDiagnostics(identity)
    {
      if Valid() {
        RegistryPassesValidation(identity, services);
      }
    }

    /** The two checks on the identity: the name, then the version. */
    static method CheckIdentity(id: Identity) returns (found: seq<Diagnostic>)
      ensures found == IdentityDiagnostics(id)
    {
      found := [];
      if id.name == "" || id.name == PlaceholderName {
        found := found + [NameNotSet];
      }
      if id.version != "" && CountChar('.', id.version) < 2 {
        found := found + [VersionNotXYZ(id.version)];
      }
    }

    /** The checks of the loop body on entry number `i`: the three keys, then the endpoint
        and the method of the keys that are there. */
    static method CheckEntry(i: nat, svc: ServiceEntry) returns (found: seq<Diagnostic>)
      ensures found == EntryDiagnostics(i, svc)
    {
      found := [];
      if "name" !in svc {
        found := found + [MissingKey(i, "name")];
      }
      if "endpoint" !in svc {
        found := found + [MissingKey(i, "endpoint")];
      }
      if "method" !in svc {
        found := found + [MissingKey(i, "method")];
      }
      if "endpoint" in svc && !StartsWith(svc["endpoint"], "/") {
        found := found + [EndpointNoSlash(i, svc["endpoint"])];
      }
      if "method" in svc && svc["method"] != "GET" && svc["method"] != "POST" {
        found := found + [MethodNotGetOrPost(i, svc["method"])];
      }
    }

    method MetadataHandler() returns (m: PluginMetadata)
      ensures m == GetMetadata()
    {
      m := GetMetadata();
    }

    method HealthHandler() returns (h: HealthReport)
      ensures h == Health()
    {
      h := Health();
    }

    /** Await `on_load`; only if it returns, set `loaded`. In every handler an `Exception`
        becomes an "error" answer, and any other exception leaves the handler with no answer. */
    method LoadHandler(onLoad: HookResult) returns (result: HandlerResult)
      modifies this`loaded
      ensures State() == Next(old(State()), Load, onLoad)
      ensures result == Reply(Load, onLoad)
      ensures GetMetadata() == old(GetMetadata())
      ensures Valid() == old(Valid())
    {
      match onLoad
      case Completed =>
        loaded := true;
        result := Answered(Response("ok", "plugin loaded"));
      case Raised(message) =>
        result := Answered(Response("error", message));
      case Escaped =>
        result := Propagated;
    }

    /** Await `on_start`; only if it returns, set `started`, whatever `loaded` is. */
    method StartHandler(onStart: HookResult) returns (result: HandlerResult)
      modifies this`started
      ensures State() == Next(old(State()), Start, onStart)
      ensures result == Reply(Start, onStart)
      ensures GetMetadata() == old(GetMetadata())
      ensures Valid() == old(Valid())
    {
      match onStart
      case Completed =>
        started := true;
        result := Answered(Response("ok", "plugin started"));
      case Raised(message) =>
        result := Answered(Response("error", message));
      case Escaped =>
        result := Propagated;
    }

    /** Await `on_stop`; only if it returns, clear `started`. */
    method StopHandler(onStop: HookResult) returns (result: HandlerResult)
      modifies this`started
      ensures State() == Next(old(State()), Stop, onStop)
      ensures result == Reply(Stop, onStop)
      ensures GetMetadata() == old(GetMetadata())
      ensures Valid() == old(Valid())
    {
      match onStop
      case Completed =>
        started := false;
        result := Answered(Response("ok", "plugin stopped"));
      case Raised(message) =>
        result := Answered(Response("error", message));
      case Escaped =>
        result := Propagated;
    }

    /** Await `on_unload`; only if it returns, clear both flags. A failure is reported as
        status "error" and leaves the flags as they were. */
    method UnloadHandler(onUnload: HookResult) returns (result: HandlerResult)
      modifies this`loaded, this`started
      ensures State() == Next(old(State()), Unload, onUnload)
      ensures result == Reply(Unload, onUnload)
      ensures GetMetadata() == old(GetMetadata())
      ensures Valid() == old(Valid())
    {
      match onUnload
      case Completed =>
        loaded := false;
        started := false;
        result := Answered(Response("ok", "plugin unloaded"));
      case Raised(message) =>
        result := Answered(Response("error", message));
      case Escaped =>
        result := Propagated;
    }
  }

  /** The plugin of the module's documentation, `remote_metrics` at version "0.1.0", which
      registers `metrics.report` in its constructor. This client adds the documented
      `metrics.dump` registration and two calls that are refused (no leading slash; the
      verb PUT): the list holds the two accepted records in call order, and validation
      finds nothing. */
  method MetricsPluginExample() returns (plugin: RemotePluginBase, errors: seq<Diagnostic>)
    ensures fresh(plugin)
    ensures |plugin.services| == 2
    ensures plugin.services[0] == map["name" := "metrics.report", "endpoint" := "/metrics/report", "method" := "POST"]
    ensures plugin.services[1] == map["name" := "metrics.dump", "endpoint" := "/metrics/dump", "method" := "GET",
                                      "description" := "Dump all metrics"]
    ensures errors == []
  {
    AcceptedExamples();
    CaseAndDescriptionExamples();
    RejectedExamples();
    plugin := new RemotePluginBase(Identity("remote_metrics", "0.1.0", "", ""));
    var e1 := plugin.RegisterService("metrics.report", "/metrics/report", "POST");
    var e2 := plugin.RegisterService("metrics.dump", "/metrics/dump", "GET", "Dump all metrics");
    var e3 := plugin.RegisterService("bad", "metrics/report", "POST");
    assert e3 == Some(EndpointWithoutSlash("metrics/report"));
    var e4 := plugin.RegisterService("bad", "/x", "PUT");
    assert e4 == Some(UnsupportedMethod("PUT"));
    errors := plugin.ValidateMetadata();
    plugin.ValidRegistryPasses();
    DocumentedIdentityExample();
  }
}
