/**
  The summary phase and the exit status: the counts taken over the stored
  analyses, the recommendations they trigger, and the outcome `main` derives
  from the detected secrets and the issues.
 */
module Summary {
  import opened Artifacts
  import opened DockerfileScan
  import opened ComposeScan

  /** The five recommendations, in the order they are considered. */
  datatype Advice =
    | MultiStageBuilds
    | AddHealthChecks
    | ReplaceDefaultPasswords
    | NonRootUsers
    | ConfigurePrometheus

  /** The text each recommendation is recorded with. */
  function AdviceText(a: Advice): string {
    match a
    case MultiStageBuilds => "Consider using multi-stage builds for all Dockerfiles to reduce image size"
    case AddHealthChecks => "Add health checks to all services for better reliability"
    case ReplaceDefaultPasswords => "CRITICAL: Replace default passwords in environment files before production"
    case NonRootUsers => "Configure non-root users in all Dockerfiles for security"
    case ConfigurePrometheus => "Configure Prometheus for production monitoring"
  }

  /** The position of a recommendation among the five. */
  function Rank(a: Advice): nat {
    match a
    case MultiStageBuilds => 0
    case AddHealthChecks => 1
    case ReplaceDefaultPasswords => 2
    case NonRootUsers => 3
    case ConfigurePrometheus => 4
  }

  /** `sum(1 for v in m.values() if p(v))`: the number of entries whose analysis satisfies `p`. */
  function CountWhere<T>(m: map<string, T>, p: T -> bool): nat {
    |set k | k in m && p(m[k])|
  }

  /**
    `len([f for f in compose_files if compose_files[f]])`. A stored compose
    analysis is a dictionary with six keys, so it is always truthy and every
    entry is counted.
   */
  function TotalComposeFiles(cf: map<string, ComposeAnalysis>): nat {
    |cf|
  }

  function MultistageDockerfiles(dfs: map<string, DockerfileAnalysis>): nat {
    CountWhere(dfs, (df: DockerfileAnalysis) => df.stages > 1)
  }

  function ComposeWithHealth(cf: map<string, ComposeAnalysis>): nat {
    CountWhere(cf, (c: ComposeAnalysis) => c.hasHealthchecks)
  }

  function NonRootDockerfiles(dfs: map<string, DockerfileAnalysis>): nat {
    CountWhere(dfs, (df: DockerfileAnalysis) => df.hasUser)
  }

  /** The recommendations, given the stored analyses, the detected secrets and whether Prometheus was found. */
  function Recommendations(
    dfs: map<string, DockerfileAnalysis>,
    cf: map<string, ComposeAnalysis>,
    secretsDetected: seq<string>,
    prometheusExists: bool): seq<Advice>
  {
    Select(
      MultistageDockerfiles(dfs) < |dfs|,
      ComposeWithHealth(cf) < TotalComposeFiles(cf),
      secretsDetected != [],
      NonRootDockerfiles(dfs) < |dfs|,
      !prometheusExists)
  }

  /** The recommendations whose conditions hold, in the order the summary checks them. */
  function Select(multiStage: bool, health: bool, critical: bool, nonRoot: bool, prometheus: bool): seq<Advice> {
    When(multiStage, MultiStageBuilds)
    + When(health, AddHealthChecks)
    + When(critical, ReplaceDefaultPasswords)
    + When(nonRoot, NonRootUsers)
    + When(prometheus, ConfigurePrometheus)
  }

  /** `[a]` when `b` holds, nothing otherwise. */
  function When(b: bool, a: Advice): seq<Advice> {
    if b then [a] else []
  }

  /** The three endings of `main`. */
  datatype Outcome =
    | Critical(secretCount: nat)
    | Warning(issueCount: nat)
    | Completed

  /** `main`'s choice: any detected secret is critical; otherwise issues only warn. */
  function OutcomeOf(secretsDetected: seq<string>, issues: seq<Issue>): (o: Outcome)
    ensures o.Critical? <==> secretsDetected != []
    ensures o.Warning? <==> secretsDetected == [] && issues != []
    ensures o.Critical? ==> o.secretCount == |secretsDetected| > 0
  {
    if |secretsDetected| > 0 then Critical(|secretsDetected|)
    else if issues != [] then Warning(|issues|)
    else Completed
  }

  /** The exit status `main` reaches after writing the report: 1 exactly when a secret was detected; issues alone never fail the run. */
  function ExitCode(secretsDetected: seq<string>, issues: seq<Issue>): (code: int)
    ensures code == 0 || code == 1
    ensures code == 1 <==> secretsDetected != []
  {
    if OutcomeOf(secretsDetected, issues).Critical? then 1 else 0
  }
}

/** What the summary and the exit status guarantee. */
module SummaryProperties {
  import opened Artifacts
  import opened DockerfileScan
  import opened ComposeScan
  import opened Summary

  lemma {:induction false} SubsetNoLarger<T>(a: set<T>, b: set<T>)
    requires a <= b
    ensures |a| <= |b|
    decreases b
  {
    if a != {} {
      var x :| x in a;
      SubsetNoLarger(a - {x}, b - {x});
    }
  }

  /** The count never exceeds the entries, and falls short of them exactly when some entry fails `p`. */
  lemma CountBelowIff<T>(m: map<string, T>, p: T -> bool)
    ensures CountWhere(m, p) <= |m|
    ensures CountWhere(m, p) < |m| <==> exists k :: k in m && !p(m[k])
  {
    var s := set k | k in m && p(m[k]);
    assert |m| == |m.Keys|;
    SubsetNoLarger(s, m.Keys);
    if exists k :: k in m && !p(m[k]) {
      var k :| k in m && !p(m[k]);
      SubsetNoLarger(s, m.Keys - {k});
      assert m.Keys == (m.Keys - {k}) + {k};
    } else {
      assert s == m.Keys;
    }
  }

  /** Strictly increasing ranks: a fixed order with no repetition. */
  predicate Ascending(r: seq<Advice>) {
    forall i, j :: 0 <= i < j < |r| ==> Rank(r[i]) < Rank(r[j])
  }

  lemma AppendIf(r: seq<Advice>, b: bool, a: Advice)
    requires Ascending(r) && forall x :: x in r ==> Rank(x) < Rank(a)
    ensures Ascending(r + When(b, a))
    ensures forall x :: x in r + When(b, a) <==> x in r || (b && x == a)
    ensures forall x :: x in r + When(b, a) ==> Rank(x) <= Rank(a)
  {
    var r' := r + When(b, a);
    forall i, j | 0 <= i < j < |r'|
      ensures Rank(r'[i]) < Rank(r'[j])
    {
      if j >= |r| {
        assert r[i] in r;
      }
    }
  }

  /** Each recommendation is selected exactly when its flag is set, in rank order. */
  lemma SelectMeaning(multiStage: bool, health: bool, critical: bool, nonRoot: bool, prometheus: bool)
    ensures var r := Select(multiStage, health, critical, nonRoot, prometheus);
      && (MultiStageBuilds in r <==> multiStage)
      && (AddHealthChecks in r <==> health)
      && (ReplaceDefaultPasswords in r <==> critical)
      && (NonRootUsers in r <==> nonRoot)
      && (ConfigurePrometheus in r <==> prometheus)
      && Ascending(r)
  {
    AppendIf([], multiStage, MultiStageBuilds);
    assert [] + When(multiStage, MultiStageBuilds) == When(multiStage, MultiStageBuilds);
    var r1 := When(multiStage, MultiStageBuilds);
    AppendIf(r1, health, AddHealthChecks);
    var r2 := r1 + When(health, AddHealthChecks);
    AppendIf(r2, critical, ReplaceDefaultPasswords);
    var r3 := r2 + When(critical, ReplaceDefaultPasswords);
    AppendIf(r3, nonRoot, NonRootUsers);
    var r4 := r3 + When(nonRoot, NonRootUsers);
    AppendIf(r4, prometheus, ConfigurePrometheus);
  }

  /**
    Each recommendation is given exactly when its condition holds: some
    Dockerfile with at most one stage, some compose file without a health
    check, some detected secret, some Dockerfile without a `USER`, or no
    Prometheus configuration. They appear in a fixed order, each at most once.
   */
  lemma RecommendationsMeaning(
    dfs: map<string, DockerfileAnalysis>,
    cf: map<string, ComposeAnalysis>,
    secretsDetected: seq<string>,
    prometheusExists: bool)
    ensures var r := Recommendations(dfs, cf, secretsDetected, prometheusExists);
      && (MultiStageBuilds in r <==> exists k :: k in dfs && dfs[k].stages <= 1)
      && (AddHealthChecks in r <==> exists f :: f in cf && !cf[f].hasHealthchecks)
      && (ReplaceDefaultPasswords in r <==> secretsDetected != [])
      && (NonRootUsers in r <==> exists k :: k in dfs && !dfs[k].hasUser)
      && (ConfigurePrometheus in r <==> !prometheusExists)
      && Ascending(r)
  {
    SelectMeaning(
      MultistageDockerfiles(dfs) < |dfs|,
      ComposeWithHealth(cf) < TotalComposeFiles(cf),
      secretsDetected != [],
      NonRootDockerfiles(dfs) < |dfs|,
      !prometheusExists);
    CountBelowIff(dfs, (df: DockerfileAnalysis) => df.stages > 1);
    CountBelowIff(cf, (c: ComposeAnalysis) => c.hasHealthchecks);
    CountBelowIff(dfs, (df: DockerfileAnalysis) => df.hasUser);
  }

  /** With no Dockerfile and no compose file, only the secrets and Prometheus recommendations can appear. */
  lemma NoFilesLeavesSecurityAndMonitoring(secretsDetected: seq<string>, prometheusExists: bool)
    ensures var r := Recommendations(map[], map[], secretsDetected, prometheusExists);
      forall a :: a in r ==> a == ReplaceDefaultPasswords || a == ConfigurePrometheus
  {
    RecommendationsMeaning(map[], map[], secretsDetected, prometheusExists);
  }

  /** The CRITICAL recommendation is made exactly when the run ends with status 1. */
  lemma CriticalAdviceIffFailure(
    dfs: map<string, DockerfileAnalysis>,
    cf: map<string, ComposeAnalysis>,
    secretsDetected: seq<string>,
    prometheusExists: bool,
    issues: seq<Issue>)
    ensures ReplaceDefaultPasswords in Recommendations(dfs, cf, secretsDetected, prometheusExists) <==>
      ExitCode(secretsDetected, issues) == 1
  {
    RecommendationsMeaning(dfs, cf, secretsDetected, prometheusExists);
  }
}
