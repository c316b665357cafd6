/**
  The compose summariser: `analyze_compose_content`. It reads a parsed compose
  document's `services`, `volumes` and `networks` and records, per service, a
  fixed set of fields, plus three "some service has ..." flags.
 */
module ComposeScan {
  import opened Wrappers
  import opened PyBuiltins
  import opened YamlValue

  /** The per-service record. Fields read with `.get` keep the raw value; presence-only fields are booleans. */
  datatype ServiceAnalysis = ServiceAnalysis(
    image: Yaml,
    build: Yaml,
    ports: Yaml,
    volumes: Yaml,
    environment: bool,
    dependsOn: Yaml,
    healthcheck: bool,
    securityOpt: bool,
    deploy: bool,
    restart: Yaml)

  datatype ComposeAnalysis = ComposeAnalysis(
    services: map<string, ServiceAnalysis>,
    volumes: set<string>,
    networks: set<string>,
    hasHealthchecks: bool,
    hasSecurityOpts: bool,
    hasResourceLimits: bool)

  /** The record of one service whose configuration is a mapping. */
  function ServiceRecord(cfg: map<string, Yaml>): ServiceAnalysis {
    ServiceAnalysis(
      Get(cfg, "image", YNull),
      Get(cfg, "build", YNull),
      Get(cfg, "ports", YList([])),
      Get(cfg, "volumes", YList([])),
      Truthy(Get(cfg, "environment", YNull)),
      Get(cfg, "depends_on", YList([])),
      Truthy(Get(cfg, "healthcheck", YNull)),
      Truthy(Get(cfg, "security_opt", YNull)),
      Truthy(Get(cfg, "deploy", YNull)),
      Get(cfg, "restart", YStr("no")))
  }

  /**
    `list(doc.get(key, {}).keys()) if doc.get(key) else []`: the names declared
    under `key`; a truthy value that is not a mapping has no `.keys()`.
   */
  function DeclaredNames(doc: map<string, Yaml>, key: string): Result<set<string>, Fault> {
    var v := Get(doc, key, YNull);
    if !Truthy(v) then Success({})
    else if v.YMap? then Success(v.entries.Keys)
    else Failure(AttributeError)
  }

  /**
    The summary of a parsed compose document. It fails with AttributeError when
    the document is not a mapping, when `volumes` or `networks` is truthy but not
    a mapping, when `services` is present but not a mapping, or when some
    service's configuration is not a mapping.
   */
  function ComposeSummary(doc: Yaml): Result<ComposeAnalysis, Fault> {
    if !doc.YMap? then Failure(AttributeError)
    else
      var volumes := DeclaredNames(doc.entries, "volumes");
      var networks := DeclaredNames(doc.entries, "networks");
      var services := Get(doc.entries, "services", YMap(map[]));
      if volumes.Failure? || networks.Failure? || !services.YMap? then Failure(AttributeError)
      else ServicesSummary(services.entries, volumes.value, networks.value)
  }

  /** The summary over the `services` mapping, or AttributeError when some service is not a mapping. */
  function ServicesSummary(svcs: map<string, Yaml>, volumes: set<string>, networks: set<string>)
    : Result<ComposeAnalysis, Fault>
  {
    if exists name :: name in svcs && !svcs[name].YMap? then Failure(AttributeError)
    else
      var records := map name | name in svcs :: ServiceRecord(svcs[name].entries);
      Success(ComposeAnalysis(
        records,
        volumes,
        networks,
        exists name :: name in records && records[name].healthcheck,
        exists name :: name in records && records[name].securityOpt,
        exists name :: name in records && records[name].deploy))
  }

  /** The loop over the services, proved to produce the declarative summary of them. */
  method SummariseServices(svcs: map<string, Yaml>, volumes: set<string>, networks: set<string>)
    returns (r: Result<ComposeAnalysis, Fault>)
    ensures r == ServicesSummary(svcs, volumes, networks)
  {
    var records: map<string, ServiceAnalysis> := map[];
    var hasHealthchecks, hasSecurityOpts, hasResourceLimits := false, false, false;
    var todo := svcs.Keys;
    ghost var done: set<string> := {};
    while todo != {}
      invariant todo !! done && todo + done == svcs.Keys
      invariant forall name :: name in done ==> svcs[name].YMap?
      invariant records.Keys == done
      invariant forall name :: name in done ==> records[name] == ServiceRecord(svcs[name].entries)
      invariant hasHealthchecks <==> exists name :: name in records && records[name].healthcheck
      invariant hasSecurityOpts <==> exists name :: name in records && records[name].securityOpt
      invariant hasResourceLimits <==> exists name :: name in records && records[name].deploy
      decreases todo
    {
      var name :| name in todo;
      var cfg := svcs[name];
      if !cfg.YMap? {
        assert name in svcs && !svcs[name].YMap?;
        return Failure(AttributeError);
      }
      var record := ServiceRecord(cfg.entries);
      if record.healthcheck {
        hasHealthchecks := true;
      }
      if record.securityOpt {
        hasSecurityOpts := true;
      }
      if record.deploy {
        hasResourceLimits := true;
      }
      records := records[name := record];
      todo := todo - {name};
      done := done + {name};
    }
    SummaryOfRecords(svcs, volumes, networks, records);
    r := Success(ComposeAnalysis(records, volumes, networks, hasHealthchecks, hasSecurityOpts, hasResourceLimits));
  }

  /** When every service is a mapping, the summary is built on their records. */
  lemma SummaryOfRecords(
    svcs: map<string, Yaml>, volumes: set<string>, networks: set<string>, records: map<string, ServiceAnalysis>)
    requires forall name :: name in svcs ==> svcs[name].YMap?
    requires records.Keys == svcs.Keys
    requires forall name :: name in svcs ==> records[name] == ServiceRecord(svcs[name].entries)
    ensures ServicesSummary(svcs, volumes, networks) == Success(ComposeAnalysis(
      records, volumes, networks,
      exists name :: name in records && records[name].healthcheck,
      exists name :: name in records && records[name].securityOpt,
      exists name :: name in records && records[name].deploy))
  {
    assert records == map name | name in svcs :: ServiceRecord(svcs[name].entries);
  }

  /** `analyze_compose_content`, proved to produce the declarative summary. */
  method AnalyzeComposeContent(doc: Yaml) returns (r: Result<ComposeAnalysis, Fault>)
    ensures r == ComposeSummary(doc)
  {
    if !doc.YMap? {
      return Failure(AttributeError);
    }
    var volumes := DeclaredNames(doc.entries, "volumes");
    var networks := DeclaredNames(doc.entries, "networks");
    if volumes.Failure? || networks.Failure? {
      return Failure(AttributeError);
    }
    var services := Get(doc.entries, "services", YMap(map[]));
    if !services.YMap? {
      return Failure(AttributeError);
    }
    r := SummariseServices(services.entries, volumes.value, networks.value);
  }

  /**
    What a successful summary says: every service is a mapping and has exactly
    one record, built from its own configuration; `restart` is `'no'` when the
    service does not set it; and each flag holds iff some service has a truthy
    value under its key. A document that is not a mapping is never summarised.
   */
  lemma ComposeSummaryProperties(doc: Yaml)
    ensures !doc.YMap? ==> ComposeSummary(doc) == Failure(AttributeError)
    ensures ComposeSummary(doc).Success? ==>
      var svcs := Get(doc.entries, "services", YMap(map[])).entries;
      var a := ComposeSummary(doc).value;
      && a.services.Keys == svcs.Keys
      && (forall name :: name in svcs ==> svcs[name].YMap? && a.services[name] == ServiceRecord(svcs[name].entries))
      && (forall name :: name in svcs && "restart" !in svcs[name].entries ==> a.services[name].restart == YStr("no"))
      && (a.hasHealthchecks <==>
            exists name :: name in svcs && Truthy(Get(svcs[name].entries, "healthcheck", YNull)))
      && (a.hasSecurityOpts <==>
            exists name :: name in svcs && Truthy(Get(svcs[name].entries, "security_opt", YNull)))
      && (a.hasResourceLimits <==>
            exists name :: name in svcs && Truthy(Get(svcs[name].entries, "deploy", YNull)))
  {
  }
}
