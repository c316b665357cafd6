/**
  The analyser itself: a results object that the phases fill in turn, and the
  run that `main` performs. The contents of the files on disk are given: each
  phase receives, for each path it looks at, whether the file is missing,
  could not be read or parsed, or what it holds.
 */
module Analyzer {
  import opened Wrappers
  import opened PyBuiltins
  import opened YamlValue
  import opened Artifacts
  import opened DockerfileScan
  import opened ComposeScan
  import opened MonitoringScan
  import opened SecretScan
  import opened SecretProperties
  import opened Summary

  /** The compose files the first phase looks for, in order. */
  const ComposeFileNames: seq<string> := [
    "docker-compose.yml",
    "docker-compose.prod.yml",
    "docker-compose.dev.yml",
    "docker-compose.monitoring.yml",
    "docker/docker-compose.optimized.yml"
  ]

  /** What a file-by-file phase does with one file: pass it over, record a failure, or store its analysis. */
  datatype StepOutcome<T> = Skipped | Failed | Stored(value: T)

  /** A compose file that does not exist is passed over; one that cannot be parsed or summarised fails. */
  function ComposeOutcome(f: FileState<Yaml>): StepOutcome<ComposeAnalysis> {
    match f
    case Missing => Skipped
    case Unreadable => Failed
    case Loaded(doc) =>
      var r := ComposeSummary(doc);
      if r.Success? then Stored(r.value) else Failed
  }

  /** A glob hit that is not a regular file is passed over; one that cannot be read or scanned fails. */
  function DockerfileOutcome(f: FileState<string>): StepOutcome<DockerfileAnalysis> {
    match f
    case Missing => Skipped
    case Unreadable => Failed
    case Loaded(text) =>
      var r := DockerfileReport(text);
      if r.Success? then Stored(r.value) else Failed
  }

  /**
    A phase that visits `names` in order: a stored analysis goes into the
    section under the file's name, a failure appends `fail(name)` to the issues.
   */
  function StorePhase<S, T>(
    m: map<string, T>, names: seq<string>, files: seq<S>,
    outcome: S -> StepOutcome<T>, fail: string -> Issue): (map<string, T>, seq<Issue>)
    requires |names| == |files|
  {
    if names == [] then (m, [])
    else
      var n := |names| - 1;
      StoreStep(StorePhase(m, names[..n], files[..n], outcome, fail), names[n], outcome(files[n]), fail)
  }

  /** What one file's outcome does to the section and the issues recorded so far. */
  function StoreStep<T>(before: (map<string, T>, seq<Issue>), name: string, o: StepOutcome<T>, fail: string -> Issue)
    : (map<string, T>, seq<Issue>)
  {
    match o
    case Skipped => before
    case Failed => (before.0, before.1 + [fail(name)])
    case Stored(a) => (before.0[name := a], before.1)
  }

  /** The phase over one more file is one more step. */
  lemma StorePhaseStep<S, T>(
    m: map<string, T>, names: seq<string>, files: seq<S>,
    outcome: S -> StepOutcome<T>, fail: string -> Issue, i: nat)
    requires |names| == |files| && i < |names|
    ensures StorePhase(m, names[..i + 1], files[..i + 1], outcome, fail) ==
      StoreStep(StorePhase(m, names[..i], files[..i], outcome, fail), names[i], outcome(files[i]), fail)
  {
    assert names[..i + 1][..i] == names[..i] && files[..i + 1][..i] == files[..i];
  }

  function ComposeFailure(name: string): Issue { ComposeParseFailed(name) }

  function DockerfileFailure(path: string): Issue { DockerfileFailed(path) }

  /** The compose phase over `names`, starting from the entries already stored. */
  function ComposePhase(cf: map<string, ComposeAnalysis>, names: seq<string>, files: seq<FileState<Yaml>>)
    : (map<string, ComposeAnalysis>, seq<Issue>)
    requires |names| == |files|
  {
    StorePhase(cf, names, files, ComposeOutcome, ComposeFailure)
  }

  /** The Dockerfile phase over the glob's hits, in the order the glob yields them. */
  function DockerfilePhase(dfs: map<string, DockerfileAnalysis>, paths: seq<string>, files: seq<FileState<string>>)
    : (map<string, DockerfileAnalysis>, seq<Issue>)
    requires |paths| == |files|
  {
    StorePhase(dfs, paths, files, DockerfileOutcome, DockerfileFailure)
  }

  /**
    What the run sees on disk: the five compose files, the Dockerfile glob's
    hits, the four monitoring files, the number of `*.json` files in the
    dashboards directory, and the three environment files.
   */
  datatype Workspace = Workspace(
    composeFiles: seq<FileState<Yaml>>,
    dockerfilePaths: seq<string>,
    dockerfiles: seq<FileState<string>>,
    monitoringFiles: seq<FileState<Yaml>>,
    dashboardJson: nat,
    envFiles: seq<FileState<string>>)

  /** One state per fixed path. */
  predicate Complete(w: Workspace) {
    && |w.composeFiles| == |ComposeFileNames|
    && |w.dockerfilePaths| == |w.dockerfiles|
    && |w.monitoringFiles| == |MonitoringPaths|
    && |w.envFiles| == |EnvFileNames|
  }

  /** The results dictionary `analyze()` returns. */
  datatype AnalysisResults = AnalysisResults(
    composeFiles: map<string, ComposeAnalysis>,
    dockerfiles: map<string, DockerfileAnalysis>,
    monitoring: MonitoringAnalysis,
    security: SecurityAnalysis,
    issues: seq<Issue>,
    recommendations: seq<Advice>)

  /** The results of a whole run on a fresh analyser: the phases in order, then the summary. */
  function ResultsOf(w: Workspace): AnalysisResults
    requires Complete(w)
  {
    var c := ComposePhase(map[], ComposeFileNames, w.composeFiles);
    var d := DockerfilePhase(map[], w.dockerfilePaths, w.dockerfiles);
    var m := Scan(MonitoringPaths, w.monitoringFiles, w.dashboardJson);
    var s := SecurityScan(EnvFileNames, w.envFiles);
    AnalysisResults(
      c.0, d.0, m.0, s.0,
      c.1 + d.1 + m.1 + s.1,
      Recommendations(d.0, c.0, s.0.secretsDetected, m.0.prometheus.present))
  }

  /** The `try` around one compose file: load it, then summarise it. */
  method ComposeFileOutcome(f: FileState<Yaml>) returns (o: StepOutcome<ComposeAnalysis>)
    ensures o == ComposeOutcome(f)
  {
    match f {
      case Missing => o := Skipped;
      case Unreadable => o := Failed;
      case Loaded(doc) =>
        var r := AnalyzeComposeContent(doc);
        o := if r.Success? then Stored(r.value) else Failed;
    }
  }

  /** The `try` around one Dockerfile: read it, then scan it. */
  method DockerfileFileOutcome(f: FileState<string>) returns (o: StepOutcome<DockerfileAnalysis>)
    ensures o == DockerfileOutcome(f)
  {
    match f {
      case Missing => o := Skipped;
      case Unreadable => o := Failed;
      case Loaded(text) =>
        var r := AnalyzeDockerfileContent(text);
        o := if r.Success? then Stored(r.value) else Failed;
    }
  }

  /** The monitoring scan over one more path is one more visit. */
  lemma MonitoringScanStep(paths: seq<string>, files: seq<FileState<Yaml>>, dashboardJson: nat, i: nat)
    requires |paths| == |files| && i < |paths|
    ensures var before := Scan(paths[..i], files[..i], dashboardJson);
      var after := Visit(before.0, paths[i], files[i], dashboardJson);
      Scan(paths[..i + 1], files[..i + 1], dashboardJson) == (after.0, before.1 + after.1)
  {
    assert paths[..i + 1][..i] == paths[..i] && files[..i + 1][..i] == files[..i];
  }

  /** The body of the security loop for one environment file: the new section and the issues it records. */
  method EnvFileStep(s: SecurityAnalysis, name: string, f: FileState<string>)
    returns (next: SecurityAnalysis, found: seq<Issue>)
    ensures (next, found) == EnvStep(s, name, f)
  {
    next, found := s, [];
    match f {
      case Missing =>
        next := s.(environmentFiles := s.environmentFiles[name := EnvMissing]);
      case Unreadable =>
        found := [EnvFileFailed(name)];
      case Loaded(content) =>
        var secrets := FindDefaultSecrets(content);
        next := s.(environmentFiles := s.environmentFiles[name := EnvReport(secrets, content)]);
        if secrets != [] {
          next := next.(secretsDetected := next.secretsDetected + secrets);
        } else {
          assert s.secretsDetected + secrets == s.secretsDetected;
        }
    }
  }

  /** The security phase over one more file is one more step. */
  lemma SecurityScanStep(names: seq<string>, files: seq<FileState<string>>, i: nat)
    requires |names| == |files| && i < |names|
    ensures var before := SecurityScan(names[..i], files[..i]);
      var after := EnvStep(before.0, names[i], files[i]);
      SecurityScan(names[..i + 1], files[..i + 1]) == (after.0, before.1 + after.1)
  {
    assert names[..i + 1][..i] == names[..i] && files[..i + 1][..i] == files[..i];
  }

  /**
    The analyser's results object. `monitoring` and `security` start as empty
    dictionaries, modelled as `None`, until their phase stores them.
   */
  class DockerConfigAnalyzer {
    var composeFiles: map<string, ComposeAnalysis>
    var dockerfiles: map<string, DockerfileAnalysis>
    var monitoring: Option<MonitoringAnalysis>
    var security: Option<SecurityAnalysis>
    var issues: seq<Issue>
    var recommendations: seq<Advice>

    constructor ()
      ensures composeFiles == map[] && dockerfiles == map[]
      ensures monitoring == None && security == None
      ensures issues == [] && recommendations == []
    {
      composeFiles := map[];
      dockerfiles := map[];
      monitoring := None;
      security := None;
      issues := [];
      recommendations := [];
    }

    /** Phase 1: each compose file that exists is parsed and summarised, or its failure is recorded. */
    method AnalyzeComposeFiles(files: seq<FileState<Yaml>>)
      requires |files| == |ComposeFileNames|
      modifies this
      ensures var p := ComposePhase(old(composeFiles), ComposeFileNames, files);
        composeFiles == p.0 && issues == old(issues) + p.1
      ensures dockerfiles == old(dockerfiles) && monitoring == old(monitoring)
      ensures security == old(security) && recommendations == old(recommendations)
    {
      var names := ComposeFileNames;
      var i := 0;
      while i < |names|
        invariant 0 <= i <= |names|
        invariant var p := ComposePhase(old(composeFiles), names[..i], files[..i]);
          composeFiles == p.0 && issues == old(issues) + p.1
        invariant dockerfiles == old(dockerfiles) && monitoring == old(monitoring)
        invariant security == old(security) && recommendations == old(recommendations)
      {
        var o := ComposeFileOutcome(files[i]);
        match o {
          case Skipped =>
          case Failed =>
            issues := issues + [ComposeParseFailed(names[i])];
          case Stored(a) =>
            composeFiles := composeFiles[names[i] := a];
        }
        StorePhaseStep(old(composeFiles), names, files, ComposeOutcome, ComposeFailure, i);
        i := i + 1;
      }
      assert names[..|names|] == names && files[..|files|] == files;
    }

    /** Phase 2: each Dockerfile the glob found is scanned, or its failure is recorded. */
    method AnalyzeDockerfiles(paths: seq<string>, files: seq<FileState<string>>)
      requires |paths| == |files|
      modifies this
      ensures var p := DockerfilePhase(old(dockerfiles), paths, files);
        dockerfiles == p.0 && issues == old(issues) + p.1
      ensures composeFiles == old(composeFiles) && monitoring == old(monitoring)
      ensures security == old(security) && recommendations == old(recommendations)
    {
      var i := 0;
      while i < |paths|
        invariant 0 <= i <= |paths|
        invariant var p := DockerfilePhase(old(dockerfiles), paths[..i], files[..i]);
          dockerfiles == p.0 && issues == old(issues) + p.1
        invariant composeFiles == old(composeFiles) && monitoring == old(monitoring)
        invariant security == old(security) && recommendations == old(recommendations)
      {
        var o := DockerfileFileOutcome(files[i]);
        match o {
          case Skipped =>
          case Failed =>
            issues := issues + [DockerfileFailed(paths[i])];
          case Stored(a) =>
            dockerfiles := dockerfiles[paths[i] := a];
        }
        StorePhaseStep(old(dockerfiles), paths, files, DockerfileOutcome, DockerfileFailure, i);
        i := i + 1;
      }
      assert paths[..|paths|] == paths && files[..|files|] == files;
    }

    /** Phase 3: the four monitoring files are visited in order and the section is stored. */
    method AnalyzeMonitoringConfig(files: seq<FileState<Yaml>>, dashboardJson: nat)
      requires |files| == |MonitoringPaths|
      modifies this
      ensures var s := Scan(MonitoringPaths, files, dashboardJson);
        monitoring == Some(s.0) && issues == old(issues) + s.1
      ensures composeFiles == old(composeFiles) && dockerfiles == old(dockerfiles)
      ensures security == old(security) && recommendations == old(recommendations)
    {
      var paths := MonitoringPaths;
      var m := Defaults;
      var i := 0;
      while i < |paths|
        invariant 0 <= i <= |paths|
        invariant var s := Scan(paths[..i], files[..i], dashboardJson);
          m == s.0 && issues == old(issues) + s.1
        invariant composeFiles == old(composeFiles) && dockerfiles == old(dockerfiles)
        invariant monitoring == old(monitoring)
        invariant security == old(security) && recommendations == old(recommendations)
      {
        var m', found := VisitMonitoringFile(m, paths[i], files[i], dashboardJson);
        m := m';
        assert issues + found == old(issues) + (Scan(paths[..i], files[..i], dashboardJson).1 + found);
        issues := issues + found;
        MonitoringScanStep(paths, files, dashboardJson, i);
        i := i + 1;
      }
      assert paths[..|paths|] == paths && files[..|files|] == files;
      monitoring := Some(m);
    }

    /** Phase 4: the three environment files are searched for default secrets and the section is stored. */
    method AnalyzeSecurityConfig(files: seq<FileState<string>>)
      requires |files| == |EnvFileNames|
      modifies this
      ensures var s := SecurityScan(EnvFileNames, files);
        security == Some(s.0) && issues == old(issues) + s.1
      ensures composeFiles == old(composeFiles) && dockerfiles == old(dockerfiles)
      ensures monitoring == old(monitoring) && recommendations == old(recommendations)
    {
      var names := EnvFileNames;
      var s := EmptySecurity;
      var i := 0;
      while i < |names|
        invariant 0 <= i <= |names|
        invariant var p := SecurityScan(names[..i], files[..i]);
          s == p.0 && issues == old(issues) + p.1
        invariant composeFiles == old(composeFiles) && dockerfiles == old(dockerfiles)
        invariant monitoring == old(monitoring) && security == old(security)
        invariant recommendations == old(recommendations)
      {
        var next, found := EnvFileStep(s, names[i], files[i]);
        s := next;
        assert issues + found == old(issues) + (SecurityScan(names[..i], files[..i]).1 + found);
        issues := issues + found;
        SecurityScanStep(names, files, i);
        i := i + 1;
      }
      assert names[..|names|] == names && files[..|files|] == files;
      security := Some(s);
    }

    /** Phase 6: the recommendations are derived from the stored sections. */
    method GenerateSummary()
      requires monitoring.Some? && security.Some?
      modifies this
      ensures composeFiles == old(composeFiles) && dockerfiles == old(dockerfiles)
      ensures monitoring == old(monitoring) && security == old(security) && issues == old(issues)
      ensures recommendations == Recommendations(
        dockerfiles, composeFiles, security.value.secretsDetected, monitoring.value.prometheus.present)
    {
      recommendations := Recommendations(
        dockerfiles, composeFiles, security.value.secretsDetected, monitoring.value.prometheus.present);
    }
  }

  /**
    The body of the monitoring loop for one path: a path that passes the
    Prometheus test is parsed and counted, the dashboards file records the
    dashboard count, any other path is only reported as found.
   */
  method VisitMonitoringFile(m: MonitoringAnalysis, path: string, f: FileState<Yaml>, dashboardJson: nat)
    returns (m': MonitoringAnalysis, found: seq<Issue>)
    ensures (m', found) == Visit(m, path, f, dashboardJson)
  {
    m', found := m, [];
    if f.Missing? {
      return;
    }
    if Contains(path, "prometheus.yml") && Contains(path, "prometheus") {
      match f
      case Unreadable =>
        found := [PrometheusParseFailed];
      case Loaded(config) =>
        m' := m'.(prometheus := m'.prometheus.(present := true));
        if !config.YMap? {
          found := [PrometheusParseFailed];
        } else {
          var count := Len(Get(config.entries, "scrape_configs", YList([])));
          if count.Failure? {
            found := [PrometheusParseFailed];
          } else {
            m' := m'.(prometheus := m'.prometheus.(scrapeConfigs := count.value));
          }
        }
    } else if Contains(path, "dashboards.yml") {
      m' := m'.(grafana := GrafanaStatus(true, dashboardJson));
    }
  }

  /**
    `main`: a fresh analyser runs the modelled phases and the summary. Once the
    report is written, the exit status is 1 exactly when some environment file
    that could be read holds a default secret.
   */
  method RunAnalysis(w: Workspace) returns (results: AnalysisResults, code: int)
    requires Complete(w)
    ensures results == ResultsOf(w)
    ensures code == ExitCode(results.security.secretsDetected, results.issues)
    ensures code == 1 <==> SomeDefaultIn(w.envFiles)
  {
    ghost var c := ComposePhase(map[], ComposeFileNames, w.composeFiles);
    ghost var d := DockerfilePhase(map[], w.dockerfilePaths, w.dockerfiles);
    ghost var m := Scan(MonitoringPaths, w.monitoringFiles, w.dashboardJson);
    ghost var s := SecurityScan(EnvFileNames, w.envFiles);
    var analyzer := new DockerConfigAnalyzer();
    analyzer.AnalyzeComposeFiles(w.composeFiles);
    assert analyzer.issues == [] + c.1 == c.1;
    analyzer.AnalyzeDockerfiles(w.dockerfilePaths, w.dockerfiles);
    analyzer.AnalyzeMonitoringConfig(w.monitoringFiles, w.dashboardJson);
    analyzer.AnalyzeSecurityConfig(w.envFiles);
    assert analyzer.issues == c.1 + d.1 + m.1 + s.1;
    analyzer.GenerateSummary();
    SecretsDetectedIff(EnvFileNames, w.envFiles);
    results := AnalysisResults(
      analyzer.composeFiles, analyzer.dockerfiles, analyzer.monitoring.value,
      analyzer.security.value, analyzer.issues, analyzer.recommendations);
    var secrets := results.security.secretsDetected;
    if |secrets| > 0 {
      code := 1;
    } else if results.issues != [] {
      code := 0;
    } else {
      code := 0;
    }
  }
}

/** What the phases store and record, and what the whole run guarantees. */
module AnalyzerProperties {
  import opened Wrappers
  import opened YamlValue
  import opened Artifacts
  import opened DockerfileScan
  import opened ComposeScan
  import opened MonitoringScan
  import opened SecretScan
  import opened SecretProperties
  import opened MonitoringProperties
  import opened Summary
  import opened SummaryProperties
  import opened Analyzer

  /**
    After a phase over distinct names on an empty section, exactly the files
    whose analysis was stored have an entry, each under its name with that
    analysis.
   */
  lemma {:induction false} StorePhaseEntries<S, T>(
    names: seq<string>, files: seq<S>, outcome: S -> StepOutcome<T>, fail: string -> Issue)
    requires |names| == |files| && Distinct(names)
    ensures forall name :: name in StorePhase(map[], names, files, outcome, fail).0 <==>
      exists k :: 0 <= k < |names| && names[k] == name && outcome(files[k]).Stored?
    ensures forall k :: 0 <= k < |names| && outcome(files[k]).Stored? ==>
      StorePhase(map[], names, files, outcome, fail).0[names[k]] == outcome(files[k]).value
  {
    if names != [] {
      var n := |names| - 1;
      StorePhaseEntries(names[..n], files[..n], outcome, fail);
      var before := StorePhase(map[], names[..n], files[..n], outcome, fail).0;
      var r := StorePhase(map[], names, files, outcome, fail).0;
      forall k | 0 <= k < n
        ensures names[k] != names[n] && names[..n][k] == names[k] && files[..n][k] == files[k]
      {
      }
      forall name | name in r
        ensures exists k :: 0 <= k < |names| && names[k] == name && outcome(files[k]).Stored?
      {
        if name != names[n] || !outcome(files[n]).Stored? {
          assert name in before;
          var k :| 0 <= k < |names[..n]| && names[..n][k] == name && outcome(files[..n][k]).Stored?;
          assert names[k] == name && files[k] == files[..n][k];
        }
      }
      forall name | exists k :: 0 <= k < |names| && names[k] == name && outcome(files[k]).Stored?
        ensures name in r
      {
        var k :| 0 <= k < |names| && names[k] == name && outcome(files[k]).Stored?;
        if k < n {
          assert names[..n][k] == names[k] && files[..n][k] == files[k];
        }
      }
    }
  }

  /**
    With a one-to-one `fail`, a name is reported exactly when its file failed,
    and every issue names one of the files.
   */
  lemma {:induction false} StorePhaseIssues<S, T>(
    m: map<string, T>, names: seq<string>, files: seq<S>, outcome: S -> StepOutcome<T>, fail: string -> Issue)
    requires |names| == |files| && Distinct(names)
    requires forall a, b :: fail(a) == fail(b) ==> a == b
    ensures forall k :: 0 <= k < |names| ==>
      (fail(names[k]) in StorePhase(m, names, files, outcome, fail).1 <==> outcome(files[k]).Failed?)
    ensures forall x :: x in StorePhase(m, names, files, outcome, fail).1 ==>
      exists k :: 0 <= k < |names| && x == fail(names[k])
  {
    if names != [] {
      var n := |names| - 1;
      StorePhaseIssues(m, names[..n], files[..n], outcome, fail);
      var before := StorePhase(m, names[..n], files[..n], outcome, fail).1;
      var issues := StorePhase(m, names, files, outcome, fail).1;
      forall k | 0 <= k < n
        ensures names[k] != names[n] && names[..n][k] == names[k] && files[..n][k] == files[k]
      {
      }
      forall x | x in issues
        ensures exists k :: 0 <= k < |names| && x == fail(names[k])
      {
        if x in before {
          var k :| 0 <= k < n && x == fail(names[..n][k]);
          assert x == fail(names[k]);
        }
      }
    }
  }

  /** With a one-to-one `fail`, a name outside the list is never reported. */
  lemma {:induction false} NotReported<S, T>(
    m: map<string, T>, names: seq<string>, files: seq<S>, outcome: S -> StepOutcome<T>, fail: string -> Issue,
    name: string)
    requires |names| == |files| && name !in names
    requires forall a, b :: fail(a) == fail(b) ==> a == b
    ensures fail(name) !in StorePhase(m, names, files, outcome, fail).1
  {
    if names != [] {
      var n := |names| - 1;
      assert names == names[..n] + [names[n]];
      NotReported(m, names[..n], files[..n], outcome, fail, name);
    }
  }

  /**
    With a one-to-one `fail`, each failed file is reported exactly once and
    any other file not at all: one `append` per failure.
   */
  lemma {:induction false} StorePhaseIssueCount<S, T>(
    m: map<string, T>, names: seq<string>, files: seq<S>, outcome: S -> StepOutcome<T>, fail: string -> Issue)
    requires |names| == |files| && Distinct(names)
    requires forall a, b :: fail(a) == fail(b) ==> a == b
    ensures forall k :: 0 <= k < |names| ==>
      multiset(StorePhase(m, names, files, outcome, fail).1)[fail(names[k])] ==
        (if outcome(files[k]).Failed? then 1 else 0)
  {
    if names != [] {
      var n := |names| - 1;
      StorePhaseIssueCount(m, names[..n], files[..n], outcome, fail);
      assert names[n] !in names[..n];
      NotReported(m, names[..n], files[..n], outcome, fail, names[n]);
      var before := StorePhase(m, names[..n], files[..n], outcome, fail).1;
      var issues := StorePhase(m, names, files, outcome, fail).1;
      IssuesStep(m, names, files, outcome, fail);
      forall k | 0 <= k < |names|
        ensures multiset(issues)[fail(names[k])] == (if outcome(files[k]).Failed? then 1 else 0)
      {
        CountAfterAppend(before, outcome(files[n]).Failed?, fail(names[n]), fail(names[k]));
        if k < n {
          assert names[..n][k] == names[k] && files[..n][k] == files[k];
        }
      }
    }
  }

  /** One more file appends its failure, if it failed, to the issues so far. */
  lemma IssuesStep<S, T>(
    m: map<string, T>, names: seq<string>, files: seq<S>, outcome: S -> StepOutcome<T>, fail: string -> Issue)
    requires |names| == |files| && names != []
    ensures var n := |names| - 1;
      StorePhase(m, names, files, outcome, fail).1 ==
        StorePhase(m, names[..n], files[..n], outcome, fail).1 +
        (if outcome(files[n]).Failed? then [fail(names[n])] else [])
  {
  }

  /** Appending at most one issue raises only that issue's count, by one. */
  lemma CountAfterAppend(before: seq<Issue>, failed: bool, y: Issue, x: Issue)
    ensures multiset(before + (if failed then [y] else []))[x] ==
      multiset(before)[x] + (if failed && x == y then 1 else 0)
  {
  }

  /** The fixed file names are pairwise different (their lengths already differ). */
  lemma FixedNamesDistinct()
    ensures Distinct(ComposeFileNames)
    ensures Distinct(EnvFileNames)
  {
    assert |ComposeFileNames[0]| == 18 && |ComposeFileNames[1]| == 23 && |ComposeFileNames[2]| == 22;
    assert |ComposeFileNames[3]| == 29 && |ComposeFileNames[4]| == 35;
    assert |EnvFileNames[0]| == 15 && |EnvFileNames[1]| == 8 && |EnvFileNames[2]| == 12;
  }

  /**
    The whole run: once the report is written, the exit status is 1 exactly
    when some readable environment file holds a default secret, and that is
    exactly when the CRITICAL recommendation is made.
   */
  lemma RunOutcome(w: Workspace)
    requires Complete(w)
    ensures var r := ResultsOf(w);
      && (ExitCode(r.security.secretsDetected, r.issues) == 1 <==> SomeDefaultIn(w.envFiles))
      && (ReplaceDefaultPasswords in r.recommendations <==> ExitCode(r.security.secretsDetected, r.issues) == 1)
  {
    var r := ResultsOf(w);
    SecretsDetectedIff(EnvFileNames, w.envFiles);
    CriticalAdviceIffFailure(r.dockerfiles, r.composeFiles, r.security.secretsDetected,
      r.monitoring.prometheus.present, r.issues);
  }

  /**
    A whole run with distinct Dockerfile paths stores exactly the compose files
    and Dockerfiles whose analysis succeeded, each under its name with its
    analysis.
   */
  lemma RunEntries(w: Workspace)
    requires Complete(w) && Distinct(w.dockerfilePaths)
    ensures var r := ResultsOf(w);
      && (forall name :: name in r.composeFiles <==>
            exists k :: 0 <= k < |ComposeFileNames| && ComposeFileNames[k] == name && ComposeOutcome(w.composeFiles[k]).Stored?)
      && (forall k :: 0 <= k < |ComposeFileNames| && ComposeOutcome(w.composeFiles[k]).Stored? ==>
            r.composeFiles[ComposeFileNames[k]] == ComposeOutcome(w.composeFiles[k]).value)
      && (forall path :: path in r.dockerfiles <==>
            exists k :: 0 <= k < |w.dockerfilePaths| && w.dockerfilePaths[k] == path && DockerfileOutcome(w.dockerfiles[k]).Stored?)
      && (forall k :: 0 <= k < |w.dockerfilePaths| && DockerfileOutcome(w.dockerfiles[k]).Stored? ==>
            r.dockerfiles[w.dockerfilePaths[k]] == DockerfileOutcome(w.dockerfiles[k]).value)
  {
    FixedNamesDistinct();
    StorePhaseEntries(ComposeFileNames, w.composeFiles, ComposeOutcome, ComposeFailure);
    StorePhaseEntries(w.dockerfilePaths, w.dockerfiles, DockerfileOutcome, DockerfileFailure);
  }

  /**
    A whole run with distinct Dockerfile paths reports a compose file, a
    Dockerfile or an environment file in `issues` exactly when that file
    exists but could not be read, parsed or analysed, and records a Prometheus
    parse failure exactly when one of the two `prometheus.yml` files exists but
    its `scrape_configs` could not be counted.
   */
  lemma RunIssues(w: Workspace)
    requires Complete(w) && Distinct(w.dockerfilePaths)
    ensures var issues := ResultsOf(w).issues;
      && (forall k :: 0 <= k < |ComposeFileNames| ==>
            (ComposeParseFailed(ComposeFileNames[k]) in issues <==> ComposeOutcome(w.composeFiles[k]).Failed?))
      && (forall k :: 0 <= k < |w.dockerfilePaths| ==>
            (DockerfileFailed(w.dockerfilePaths[k]) in issues <==> DockerfileOutcome(w.dockerfiles[k]).Failed?))
      && (PrometheusParseFailed in issues <==>
            PrometheusIssues(w.monitoringFiles[0]) != [] || PrometheusIssues(w.monitoringFiles[2]) != [])
      && (forall k :: 0 <= k < |EnvFileNames| ==>
            (EnvFileFailed(EnvFileNames[k]) in issues <==> w.envFiles[k].Unreadable?))
  {
    var c := ComposePhase(map[], ComposeFileNames, w.composeFiles).1;
    var d := DockerfilePhase(map[], w.dockerfilePaths, w.dockerfiles).1;
    var m := Scan(MonitoringPaths, w.monitoringFiles, w.dashboardJson).1;
    var s := SecurityScan(EnvFileNames, w.envFiles).1;
    assert ResultsOf(w).issues == c + d + m + s;
    PhaseIssueKinds(w);
    IssuesByKind(c, d, m, s);
    FixedNamesDistinct();
    StorePhaseIssues(map[], ComposeFileNames, w.composeFiles, ComposeOutcome, ComposeFailure);
    StorePhaseIssues(map[], w.dockerfilePaths, w.dockerfiles, DockerfileOutcome, DockerfileFailure);
    MonitoringIssues(MonitoringPaths, w.monitoringFiles, w.dashboardJson);
    EnvFileIssues(EnvFileNames, w.envFiles);
  }

  /**
    Over a whole run with distinct Dockerfile paths, each failed compose file,
    Dockerfile and environment file is reported exactly once, and each
    `prometheus.yml` file that cannot be counted adds one Prometheus parse
    failure, so `total_issues` is the number of failures.
   */
  lemma RunIssueCounts(w: Workspace)
    requires Complete(w) && Distinct(w.dockerfilePaths)
    ensures var issues := multiset(ResultsOf(w).issues);
      && (forall k :: 0 <= k < |ComposeFileNames| ==>
            issues[ComposeParseFailed(ComposeFileNames[k])] == (if ComposeOutcome(w.composeFiles[k]).Failed? then 1 else 0))
      && (forall k :: 0 <= k < |w.dockerfilePaths| ==>
            issues[DockerfileFailed(w.dockerfilePaths[k])] == (if DockerfileOutcome(w.dockerfiles[k]).Failed? then 1 else 0))
      && issues[PrometheusParseFailed] ==
           |PrometheusIssues(w.monitoringFiles[0])| + |PrometheusIssues(w.monitoringFiles[2])|
      && (forall k :: 0 <= k < |EnvFileNames| ==>
            issues[EnvFileFailed(EnvFileNames[k])] == (if w.envFiles[k].Unreadable? then 1 else 0))
  {
    ComposeCountsInRun(w);
    DockerfileCountsInRun(w);
    PrometheusCountInRun(w);
    EnvFileCountsInRun(w);
  }

  /** Each failed compose file appears once in the run's issues. */
  lemma ComposeCountsInRun(w: Workspace)
    requires Complete(w) && Distinct(w.dockerfilePaths)
    ensures forall k :: 0 <= k < |ComposeFileNames| ==>
      multiset(ResultsOf(w).issues)[ComposeParseFailed(ComposeFileNames[k])] ==
        (if ComposeOutcome(w.composeFiles[k]).Failed? then 1 else 0)
  {
    var c := ComposePhase(map[], ComposeFileNames, w.composeFiles).1;
    var d := DockerfilePhase(map[], w.dockerfilePaths, w.dockerfiles).1;
    var m := Scan(MonitoringPaths, w.monitoringFiles, w.dashboardJson).1;
    var s := SecurityScan(EnvFileNames, w.envFiles).1;
    assert ResultsOf(w).issues == c + d + m + s;
    PhaseIssueKinds(w);
    IssueCountsByKind(c, d, m, s);
    FixedNamesDistinct();
    StorePhaseIssueCount(map[], ComposeFileNames, w.composeFiles, ComposeOutcome, ComposeFailure);
  }

  /** Each failed Dockerfile appears once in the run's issues. */
  lemma DockerfileCountsInRun(w: Workspace)
    requires Complete(w) && Distinct(w.dockerfilePaths)
    ensures forall k :: 0 <= k < |w.dockerfilePaths| ==>
      multiset(ResultsOf(w).issues)[DockerfileFailed(w.dockerfilePaths[k])] ==
        (if DockerfileOutcome(w.dockerfiles[k]).Failed? then 1 else 0)
  {
    var c := ComposePhase(map[], ComposeFileNames, w.composeFiles).1;
    var d := DockerfilePhase(map[], w.dockerfilePaths, w.dockerfiles).1;
    var m := Scan(MonitoringPaths, w.monitoringFiles, w.dashboardJson).1;
    var s := SecurityScan(EnvFileNames, w.envFiles).1;
    assert ResultsOf(w).issues == c + d + m + s;
    PhaseIssueKinds(w);
    IssueCountsByKind(c, d, m, s);
    StorePhaseIssueCount(map[], w.dockerfilePaths, w.dockerfiles, DockerfileOutcome, DockerfileFailure);
  }

  /** The run's Prometheus parse failures are those of the monitoring phase. */
  lemma PrometheusCountInRun(w: Workspace)
    requires Complete(w) && Distinct(w.dockerfilePaths)
    ensures multiset(ResultsOf(w).issues)[PrometheusParseFailed] ==
      |PrometheusIssues(w.monitoringFiles[0])| + |PrometheusIssues(w.monitoringFiles[2])|
  {
    var c := ComposePhase(map[], ComposeFileNames, w.composeFiles).1;
    var d := DockerfilePhase(map[], w.dockerfilePaths, w.dockerfiles).1;
    var m := Scan(MonitoringPaths, w.monitoringFiles, w.dashboardJson).1;
    var s := SecurityScan(EnvFileNames, w.envFiles).1;
    assert ResultsOf(w).issues == c + d + m + s;
    PhaseIssueKinds(w);
    IssueCountsByKind(c, d, m, s);
    MonitoringIssues(MonitoringPaths, w.monitoringFiles, w.dashboardJson);
    var p0, p2 := PrometheusIssues(w.monitoringFiles[0]), PrometheusIssues(w.monitoringFiles[2]);
    assert multiset(m) == multiset(p0) + multiset(p2);
  }

  /** Each unreadable environment file appears once in the run's issues. */
  lemma EnvFileCountsInRun(w: Workspace)
    requires Complete(w) && Distinct(w.dockerfilePaths)
    ensures forall k :: 0 <= k < |EnvFileNames| ==>
      multiset(ResultsOf(w).issues)[EnvFileFailed(EnvFileNames[k])] == (if w.envFiles[k].Unreadable? then 1 else 0)
  {
    var c := ComposePhase(map[], ComposeFileNames, w.composeFiles).1;
    var d := DockerfilePhase(map[], w.dockerfilePaths, w.dockerfiles).1;
    var m := Scan(MonitoringPaths, w.monitoringFiles, w.dashboardJson).1;
    var s := SecurityScan(EnvFileNames, w.envFiles).1;
    assert ResultsOf(w).issues == c + d + m + s;
    PhaseIssueKinds(w);
    IssueCountsByKind(c, d, m, s);
    FixedNamesDistinct();
    EnvFileIssueCount(EnvFileNames, w.envFiles);
  }

  /** With each part of its own kind, an issue is in the whole list exactly when it is in the part of its kind. */
  lemma IssuesByKind(c: seq<Issue>, d: seq<Issue>, m: seq<Issue>, s: seq<Issue>)
    requires forall x :: x in c ==> x.ComposeParseFailed?
    requires forall x :: x in d ==> x.DockerfileFailed?
    requires forall x :: x in m ==> x == PrometheusParseFailed
    requires forall x :: x in s ==> x.EnvFileFailed?
    ensures forall x: Issue :: x.ComposeParseFailed? ==> (x in c + d + m + s <==> x in c)
    ensures forall x: Issue :: x.DockerfileFailed? ==> (x in c + d + m + s <==> x in d)
    ensures PrometheusParseFailed in c + d + m + s <==> PrometheusParseFailed in m
    ensures forall x: Issue :: x.EnvFileFailed? ==> (x in c + d + m + s <==> x in s)
  {
  }

  /** With each part of its own kind, an issue occurs in the whole list as often as in the part of its kind. */
  lemma IssueCountsByKind(c: seq<Issue>, d: seq<Issue>, m: seq<Issue>, s: seq<Issue>)
    requires forall x :: x in c ==> x.ComposeParseFailed?
    requires forall x :: x in d ==> x.DockerfileFailed?
    requires forall x :: x in m ==> x == PrometheusParseFailed
    requires forall x :: x in s ==> x.EnvFileFailed?
    ensures forall x: Issue :: x.ComposeParseFailed? ==> multiset(c + d + m + s)[x] == multiset(c)[x]
    ensures forall x: Issue :: x.DockerfileFailed? ==> multiset(c + d + m + s)[x] == multiset(d)[x]
    ensures multiset(c + d + m + s)[PrometheusParseFailed] == multiset(m)[PrometheusParseFailed]
    ensures forall x: Issue :: x.EnvFileFailed? ==> multiset(c + d + m + s)[x] == multiset(s)[x]
  {
    forall x: Issue
      ensures multiset(c + d + m + s)[x] == multiset(c)[x] + multiset(d)[x] + multiset(m)[x] + multiset(s)[x]
    {
      assert multiset(c + d + m + s) == multiset(c) + multiset(d) + multiset(m) + multiset(s);
    }
    forall x: Issue | !x.ComposeParseFailed? ensures multiset(c)[x] == 0 { assert x !in c; }
    forall x: Issue | !x.DockerfileFailed? ensures multiset(d)[x] == 0 { assert x !in d; }
    forall x: Issue | x != PrometheusParseFailed ensures multiset(m)[x] == 0 { assert x !in m; }
    forall x: Issue | !x.EnvFileFailed? ensures multiset(s)[x] == 0 { assert x !in s; }
  }

  /** Each phase records issues of its own kind only. */
  lemma PhaseIssueKinds(w: Workspace)
    requires Complete(w) && Distinct(w.dockerfilePaths)
    ensures forall x :: x in ComposePhase(map[], ComposeFileNames, w.composeFiles).1 ==> x.ComposeParseFailed?
    ensures forall x :: x in DockerfilePhase(map[], w.dockerfilePaths, w.dockerfiles).1 ==> x.DockerfileFailed?
    ensures forall x :: x in Scan(MonitoringPaths, w.monitoringFiles, w.dashboardJson).1 ==> x == PrometheusParseFailed
    ensures forall x :: x in SecurityScan(EnvFileNames, w.envFiles).1 ==> x.EnvFileFailed?
  {
    FixedNamesDistinct();
    StorePhaseIssues(map[], ComposeFileNames, w.composeFiles, ComposeOutcome, ComposeFailure);
    StorePhaseIssues(map[], w.dockerfilePaths, w.dockerfiles, DockerfileOutcome, DockerfileFailure);
    MonitoringIssues(MonitoringPaths, w.monitoringFiles, w.dashboardJson);
    SecurityScanShape(EnvFileNames, w.envFiles);
  }
}
