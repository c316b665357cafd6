/**
  The monitoring phase's path logic: four fixed paths are visited in order;
  a path whose name passes the Prometheus test is parsed and its
  `scrape_configs` counted, the Grafana dashboards file records the number of
  dashboard JSON files, and the Alertmanager and Jaeger entries keep their
  defaults.
 */
module MonitoringScan {
  import opened Wrappers
  import opened PyBuiltins
  import opened YamlValue
  import opened Artifacts

  datatype PrometheusStatus = PrometheusStatus(present: bool, scrapeConfigs: nat)
  datatype GrafanaStatus = GrafanaStatus(present: bool, dashboards: nat)
  datatype AlertmanagerStatus = AlertmanagerStatus(present: bool, routes: nat)
  datatype JaegerStatus = JaegerStatus(configured: bool)

  datatype MonitoringAnalysis = MonitoringAnalysis(
    prometheus: PrometheusStatus,
    grafana: GrafanaStatus,
    alertmanager: AlertmanagerStatus,
    jaeger: JaegerStatus)

  const Defaults := MonitoringAnalysis(
    PrometheusStatus(false, 0), GrafanaStatus(false, 0), AlertmanagerStatus(false, 0), JaegerStatus(false))

  /** The monitoring files, in the order the phase visits them. */
  const MonitoringPaths: seq<string> := [
    "monitoring/prometheus/prometheus.yml",
    "monitoring/grafana/dashboards/dashboards.yml",
    "monitoring/grafana/datasources/prometheus.yml",
    "monitoring/alertmanager/alertmanager.yml"
  ]

  datatype Branch = PrometheusBranch | DashboardsBranch | NoBranch

  /** The test on the path's text that picks what is done with an existing file. */
  function BranchOf(path: string): Branch {
    if Contains(path, "prometheus.yml") && Contains(path, "prometheus") then PrometheusBranch
    else if Contains(path, "dashboards.yml") then DashboardsBranch
    else NoBranch
  }

  /**
    Handle one monitoring file. `dashboardJson` is the number of `*.json`
    entries in the dashboards directory. A Prometheus-branch file is marked
    present as soon as its YAML parses; reading `scrape_configs` from a document
    that is not a mapping, or taking the length of a value that has none,
    then records an issue and leaves the count as it was.
   */
  function Visit(m: MonitoringAnalysis, path: string, f: FileState<Yaml>, dashboardJson: nat)
    : (MonitoringAnalysis, seq<Issue>)
  {
    if f.Missing? then (m, [])
    else
      match BranchOf(path)
      case PrometheusBranch =>
        if f.Unreadable? then (m, [PrometheusParseFailed])
        else
          var parsed := m.(prometheus := m.prometheus.(present := true));
          if !f.content.YMap? then (parsed, [PrometheusParseFailed])
          else
            var count := Len(Get(f.content.entries, "scrape_configs", YList([])));
            if count.Failure? then (parsed, [PrometheusParseFailed])
            else (parsed.(prometheus := parsed.prometheus.(scrapeConfigs := count.value)), [])
      case DashboardsBranch =>
        (m.(grafana := GrafanaStatus(true, dashboardJson)), [])
      case NoBranch =>
        (m, [])
  }

  /** A Prometheus-branch file whose `scrape_configs` can be counted. */
  predicate Countable(f: FileState<Yaml>) {
    f.Loaded? && f.content.YMap? && Len(Get(f.content.entries, "scrape_configs", YList([]))).Success?
  }

  /** The number of scrape configurations of a countable file. */
  function CountOf(f: FileState<Yaml>): nat
    requires Countable(f)
  {
    Len(Get(f.content.entries, "scrape_configs", YList([]))).value
  }

  /** The issues a Prometheus-branch visit of `f` records: one when the file exists but cannot be counted. */
  function PrometheusIssues(f: FileState<Yaml>): seq<Issue> {
    if !f.Missing? && !Countable(f) then [PrometheusParseFailed] else []
  }

  /** The whole loop: the analysis and the issues after visiting every path in order. */
  function Scan(paths: seq<string>, files: seq<FileState<Yaml>>, dashboardJson: nat)
    : (MonitoringAnalysis, seq<Issue>)
    requires |paths| == |files|
  {
    if paths == [] then (Defaults, [])
    else
      var n := |paths| - 1;
      var before := Scan(paths[..n], files[..n], dashboardJson);
      var after := Visit(before.0, paths[n], files[n], dashboardJson);
      (after.0, before.1 + after.1)
  }
}

/** What the monitoring scan guarantees for the four fixed paths. */
module MonitoringProperties {
  import opened Wrappers
  import opened PyBuiltins
  import opened YamlValue
  import opened Artifacts
  import opened MonitoringScan

  // The path lemmas take the path as a parameter equal to its text, which
  // keeps the verifier from evaluating the substring tests on literal text.

  lemma OccursGivesContains(s: string, t: string, i: nat)
    requires i + |t| <= |s| && s[i..i + |t|] == t
    ensures Contains(s, t)
  {
    assert OccursAt(s, t, i);
    ContainsIffOccurs(s, t);
  }

  lemma PrefixOccurs(s: string, u: string, t: string, i: nat)
    requires i + |u| <= |s| && s[i..i + |u|] == u && t <= u
    ensures Contains(s, t)
  {
    assert s[i..i + |t|] == u[..|t|] == t;
    OccursGivesContains(s, t, i);
  }

  /** The Prometheus config path passes the Prometheus test. */
  lemma PrometheusConfigBranch(p: string)
    requires p == "monitoring/prometheus/prometheus.yml"
    ensures BranchOf(p) == PrometheusBranch
  {
    PrometheusConfigName(p);
    PrometheusNamedAt(p, 22);
  }

  lemma PrometheusConfigName(p: string)
    requires p == "monitoring/prometheus/prometheus.yml"
    ensures p[22..36] == "prometheus.yml"
  {
  }

  /** A path with `prometheus.yml` at `i` contains that name and `prometheus`. */
  lemma PrometheusNamedAt(p: string, i: nat)
    requires i + 14 <= |p| && p[i..i + 14] == "prometheus.yml"
    ensures Contains(p, "prometheus.yml") && Contains(p, "prometheus")
  {
    OccursGivesContains(p, "prometheus.yml", i);
    PrefixOccurs(p, "prometheus.yml", "prometheus", i);
  }

  lemma NoLetterP(p: string)
    requires p == "monitoring/grafana/dashboards/dashboards.yml" || p == "monitoring/alertmanager/alertmanager.yml"
    ensures 'p' !in p
  {
  }

  /** The dashboards provisioning file takes the Grafana branch. */
  lemma DashboardsBranchPath(p: string)
    requires p == "monitoring/grafana/dashboards/dashboards.yml"
    ensures BranchOf(p) == DashboardsBranch
  {
    NoLetterP(p);
    NotContainedWithoutFirstChar(p, "prometheus.yml");
    DashboardsNamed(p);
  }

  lemma DashboardsNamed(p: string)
    requires p == "monitoring/grafana/dashboards/dashboards.yml"
    ensures Contains(p, "dashboards.yml")
  {
    assert p[30..44] == "dashboards.yml";
    OccursGivesContains(p, "dashboards.yml", 30);
  }

  /** The Grafana data-source file is also named `prometheus.yml`, so it passes the Prometheus test too. */
  lemma DatasourceBranch(p: string)
    requires p == "monitoring/grafana/datasources/prometheus.yml"
    ensures BranchOf(p) == PrometheusBranch
  {
    DatasourceName(p);
    PrometheusNamedAt(p, 31);
  }

  lemma DatasourceName(p: string)
    requires p == "monitoring/grafana/datasources/prometheus.yml"
    ensures p[31..45] == "prometheus.yml"
  {
  }

  lemma NoLetterD(p: string)
    requires p == "monitoring/alertmanager/alertmanager.yml"
    ensures 'd' !in p
  {
  }

  /** The Alertmanager file takes neither branch. */
  lemma AlertmanagerBranch(p: string)
    requires p == "monitoring/alertmanager/alertmanager.yml"
    ensures BranchOf(p) == NoBranch
  {
    NoLetterP(p);
    NotContainedWithoutFirstChar(p, "prometheus.yml");
    NoLetterD(p);
    NotContainedWithoutFirstChar(p, "dashboards.yml");
  }

  /** The phase visits the fixed paths through these branches. */
  lemma FixedBranches(ps: seq<string>)
    requires ps == MonitoringPaths
    ensures |ps| == 4
    ensures BranchOf(ps[0]) == PrometheusBranch && BranchOf(ps[1]) == DashboardsBranch
    ensures BranchOf(ps[2]) == PrometheusBranch && BranchOf(ps[3]) == NoBranch
  {
    PrometheusConfigBranch(ps[0]);
    DashboardsBranchPath(ps[1]);
    DatasourceBranch(ps[2]);
    AlertmanagerBranch(ps[3]);
  }

  /** No visit touches the Alertmanager or Jaeger entries, whatever the paths. */
  lemma {:induction false} PlaceholdersKeepDefaults(paths: seq<string>, files: seq<FileState<Yaml>>, dashboardJson: nat)
    requires |paths| == |files|
    ensures Scan(paths, files, dashboardJson).0.alertmanager == AlertmanagerStatus(false, 0)
    ensures Scan(paths, files, dashboardJson).0.jaeger == JaegerStatus(false)
  {
    if paths != [] {
      var n := |paths| - 1;
      PlaceholdersKeepDefaults(paths[..n], files[..n], dashboardJson);
    }
  }

  /** The four visits of a four-path scan, spelled out. */
  lemma FourVisits(ps: seq<string>, files: seq<FileState<Yaml>>, dashboardJson: nat)
    requires |ps| == |files| == 4
    ensures var m0 := Visit(Defaults, ps[0], files[0], dashboardJson);
      var m1 := Visit(m0.0, ps[1], files[1], dashboardJson);
      var m2 := Visit(m1.0, ps[2], files[2], dashboardJson);
      var m3 := Visit(m2.0, ps[3], files[3], dashboardJson);
      Scan(ps, files, dashboardJson) == (m3.0, m0.1 + m1.1 + m2.1 + m3.1)
  {
    var m0 := Visit(Defaults, ps[0], files[0], dashboardJson);
    var m1 := Visit(m0.0, ps[1], files[1], dashboardJson);
    var m2 := Visit(m1.0, ps[2], files[2], dashboardJson);
    assert ps[..1][..0] == [] && files[..1][..0] == [];
    assert [] + m0.1 == m0.1;
    assert Scan(ps[..1], files[..1], dashboardJson) == (m0.0, m0.1);
    assert ps[..2][..1] == ps[..1] && files[..2][..1] == files[..1];
    assert Scan(ps[..2], files[..2], dashboardJson) == (m1.0, m0.1 + m1.1);
    assert ps[..3][..2] == ps[..2] && files[..3][..2] == files[..2];
    assert Scan(ps[..3], files[..3], dashboardJson) == (m2.0, m0.1 + m1.1 + m2.1);
    assert ps[..3] == ps[..|ps| - 1] && files[..3] == files[..|files| - 1];
  }

  /** A four-path scan whose paths take the branches of the fixed paths. */
  predicate FixedShape(ps: seq<string>, files: seq<FileState<Yaml>>)
  {
    && |ps| == |files| == 4
    && BranchOf(ps[0]) == PrometheusBranch && BranchOf(ps[1]) == DashboardsBranch
    && BranchOf(ps[2]) == PrometheusBranch && BranchOf(ps[3]) == NoBranch
  }

  /** A Prometheus-branch visit: marks the file present if it parsed, takes its count if countable, reports it otherwise. */
  lemma PrometheusVisit(m: MonitoringAnalysis, path: string, f: FileState<Yaml>, dashboardJson: nat)
    requires BranchOf(path) == PrometheusBranch
    ensures var r := Visit(m, path, f, dashboardJson);
      && r.0.prometheus.present == (m.prometheus.present || f.Loaded?)
      && r.0.prometheus.scrapeConfigs == (if Countable(f) then CountOf(f) else m.prometheus.scrapeConfigs)
      && r.0.grafana == m.grafana
      && r.1 == PrometheusIssues(f)
  {
  }

  /** Any other visit leaves the Prometheus entry alone and records nothing. */
  lemma OtherVisit(m: MonitoringAnalysis, path: string, f: FileState<Yaml>, dashboardJson: nat)
    requires BranchOf(path) != PrometheusBranch
    ensures var r := Visit(m, path, f, dashboardJson);
      r.0.prometheus == m.prometheus && r.1 == []
  {
  }

  lemma ShapedPrometheus(ps: seq<string>, files: seq<FileState<Yaml>>, dashboardJson: nat)
    requires FixedShape(ps, files)
    ensures var p := Scan(ps, files, dashboardJson).0.prometheus;
      && (p.present <==> files[0].Loaded? || files[2].Loaded?)
      && p.scrapeConfigs ==
           if Countable(files[2]) then CountOf(files[2])
           else if Countable(files[0]) then CountOf(files[0])
           else 0
  {
    FourVisits(ps, files, dashboardJson);
    var m0 := Visit(Defaults, ps[0], files[0], dashboardJson);
    var m1 := Visit(m0.0, ps[1], files[1], dashboardJson);
    var m2 := Visit(m1.0, ps[2], files[2], dashboardJson);
    PrometheusVisit(Defaults, ps[0], files[0], dashboardJson);
    OtherVisit(m0.0, ps[1], files[1], dashboardJson);
    PrometheusVisit(m1.0, ps[2], files[2], dashboardJson);
    OtherVisit(m2.0, ps[3], files[3], dashboardJson);
  }

  lemma ShapedGrafana(ps: seq<string>, files: seq<FileState<Yaml>>, dashboardJson: nat)
    requires FixedShape(ps, files)
    ensures var g := Scan(ps, files, dashboardJson).0.grafana;
      g == if files[1].Missing? then GrafanaStatus(false, 0) else GrafanaStatus(true, dashboardJson)
  {
    FourVisits(ps, files, dashboardJson);
  }

  lemma ShapedIssues(ps: seq<string>, files: seq<FileState<Yaml>>, dashboardJson: nat)
    requires FixedShape(ps, files)
    ensures var issues := Scan(ps, files, dashboardJson).1;
      && issues == PrometheusIssues(files[0]) + PrometheusIssues(files[2])
      && |issues| == |PrometheusIssues(files[0])| + |PrometheusIssues(files[2])| <= 2
      && (forall k :: 0 <= k < |issues| ==> issues[k] == PrometheusParseFailed)
  {
    FourVisits(ps, files, dashboardJson);
    var m0 := Visit(Defaults, ps[0], files[0], dashboardJson);
    var m1 := Visit(m0.0, ps[1], files[1], dashboardJson);
    var m2 := Visit(m1.0, ps[2], files[2], dashboardJson);
    PrometheusVisit(Defaults, ps[0], files[0], dashboardJson);
    OtherVisit(m0.0, ps[1], files[1], dashboardJson);
    PrometheusVisit(m1.0, ps[2], files[2], dashboardJson);
    OtherVisit(m2.0, ps[3], files[3], dashboardJson);
    assert m1.1 == [] && Visit(m2.0, ps[3], files[3], dashboardJson).1 == [];
  }

  /**
    `prometheus.exists` ends true exactly when one of the two `prometheus.yml`
    files was found and parsed. The count is that of the data-source file when
    it is countable, otherwise that of the Prometheus config when it is
    countable, otherwise 0: a visit that cannot count keeps the earlier value.
   */
  lemma PrometheusFromEitherFile(ps: seq<string>, files: seq<FileState<Yaml>>, dashboardJson: nat)
    requires ps == MonitoringPaths && |files| == 4
    ensures var p := Scan(ps, files, dashboardJson).0.prometheus;
      && (p.present <==> files[0].Loaded? || files[2].Loaded?)
      && p.scrapeConfigs ==
           if Countable(files[2]) then CountOf(files[2])
           else if Countable(files[0]) then CountOf(files[0])
           else 0
  {
    FixedBranches(ps);
    ShapedPrometheus(ps, files, dashboardJson);
  }

  /** The Grafana entry is set exactly when the dashboards provisioning file exists. */
  lemma GrafanaFromDashboardsFile(ps: seq<string>, files: seq<FileState<Yaml>>, dashboardJson: nat)
    requires ps == MonitoringPaths && |files| == 4
    ensures var g := Scan(ps, files, dashboardJson).0.grafana;
      g == if files[1].Missing? then GrafanaStatus(false, 0) else GrafanaStatus(true, dashboardJson)
  {
    FixedBranches(ps);
    ShapedGrafana(ps, files, dashboardJson);
  }

  /**
    Exactly the two Prometheus-branch files can record an issue: each one that
    exists but cannot be read, is not a mapping, or has an uncountable
    `scrape_configs` records one parse failure, in visiting order.
   */
  lemma MonitoringIssues(ps: seq<string>, files: seq<FileState<Yaml>>, dashboardJson: nat)
    requires ps == MonitoringPaths && |files| == 4
    ensures var issues := Scan(ps, files, dashboardJson).1;
      && issues == PrometheusIssues(files[0]) + PrometheusIssues(files[2])
      && |issues| <= 2
      && (forall k :: 0 <= k < |issues| ==> issues[k] == PrometheusParseFailed)
      && (files[0].Missing? && files[2].Missing? ==> issues == [])
  {
    FixedBranches(ps);
    ShapedIssues(ps, files, dashboardJson);
  }
}
