# Docker configuration analyser, modelled in Dafny

The analyser walks a project tree and writes one results dictionary. It runs
five phases and a summary. The model covers four of the phases, in this order:

1. It summarises each of five fixed Docker Compose files.
2. It scans every Dockerfile the glob `**/Dockerfile*` finds: base images,
   stage count, security and optimisation features.
3. It visits four fixed monitoring files. It counts Prometheus scrape
   configurations and Grafana dashboards.
4. It searches three environment files for four well-known default
   passwords.

The fifth phase, `analyze_environment_config`, runs after these four and is
left out (see below). The summary then derives up to five recommendations.
`main` first writes the results to `docker/analysis-results.json`. When that
write succeeds, `main` exits with status 1 exactly when a default password
was found.

The model keeps the analyser's own structure:

- The results object is the class `Analyzer.DockerConfigAnalyzer`. Its fields
  are the sections of the results dictionary.
- Each phase is a method with a loop over its files. The method is proved to
  leave the object in the state a declarative fold function describes. The
  folds are `ComposePhase`, `DockerfilePhase`, `Scan` and `SecurityScan`.
- The content-level loops are methods proved equal to reference functions:
  - `DockerfileScan.AnalyzeDockerfileContent` (lines of a Dockerfile);
  - `ComposeScan.AnalyzeComposeContent` (services of a compose document);
  - `SecretScan.FindDefaultSecrets` (default passwords).
- What the phases and the run promise is proved as lemmas about those
  functions.
- The filesystem is an input. `Artifacts.FileState` records, for each path,
  one of three states:
  - missing;
  - unreadable or unparsable;
  - loaded, with its text or its parsed YAML document.
- Python's `str.strip`, `str.split`, `str.split('\n')` and `in` are written
  out in `PyBuiltins`.
- A parsed YAML document is the tree `YamlValue.Yaml`, with Python
  truthiness, `dict.get` and `len`.
- Exceptions are values. `PyBuiltins.Fault` names the three the analysed code
  can raise. `Artifacts.Issue` tags each entry of `issues` with the file it
  is about, except the Prometheus parse failure, whose message names no file.

Files: `wrappers.dfy`, `py_builtins.dfy`, `yaml_value.dfy`, `artifacts.dfy`,
`dockerfile_scan.dfy`, `compose_scan.dfy`, `monitoring_scan.dfy`,
`secret_scan.dfy`, `summary.dfy`, `analyzer.dfy`.

### Behaviour of the code worth knowing

- **Prometheus `exists` can be true together with an issue.** The flag is set
  as soon as the YAML parses, before `config.get('scrape_configs', [])` and
  `len(...)`. A document that is not a mapping (an empty file parses to
  `None`) leaves the flag true and still records a parse issue. The flag stays
  false only when reading or parsing raises.
- **Two files take the Prometheus branch.** The test is
  `'prometheus.yml' in file and 'prometheus' in file`. The Grafana data-source
  file `monitoring/grafana/datasources/prometheus.yml` passes it as well. Its
  `scrape_configs` count, usually 0, overwrites that of the Prometheus config.
- **CRITICAL needs no Dockerfile and no compose file.** With no Dockerfile and
  no compose file, the secrets recommendation and the status-1 outcome still
  follow any detected default password.
- **A stage line is matched loosely.** It is a line that starts with `FROM`
  and contains `AS` anywhere, case-sensitively. `FROM DATABASE` counts as a
  stage. A one-token stage line such as `FROM_BASE` raises `IndexError`, and
  the file is reported as an issue.

## Model

| member | source | states |
|---|---|---|
| PyBuiltins.StripIdempotent | docker/docker-config-analysis.py:151 | stripping a stripped line changes nothing, so `line.strip()` yields a normal form |
| PyBuiltins.TrimStartDropsSpace | docker/docker-config-analysis.py:151 | the left half of `strip()` removes exactly a leading run of whitespace and keeps the rest as a suffix |
| PyBuiltins.TrimEndDropsSpace | docker/docker-config-analysis.py:151 | the right half of `strip()` removes exactly a trailing run of whitespace and keeps the rest as a prefix |
| PyBuiltins.SplitGivesTokens | docker/docker-config-analysis.py:158-161 | every piece `str.split()` returns is non-empty and free of whitespace |
| PyBuiltins.SplitKeepsNonSpace | docker/docker-config-analysis.py:158-161 | concatenating the pieces of `str.split()` gives the input's non-whitespace characters in order: only whitespace is lost |
| PyBuiltins.ContainsIffOccurs | docker/docker-config-analysis.py:156 | `t in s` holds exactly when `t` occurs in `s` at some index |
| PyBuiltins.NotContainedWithoutFirstChar | docker/docker-config-analysis.py:213 | a substring whose first character is absent from the text does not occur in it |
| PyBuiltins.JoinSplitLines | docker/docker-config-analysis.py:138 | joining the pieces of `content.split('\n')` with newlines gives back the content |
| PyBuiltins.SplitJoinLines | docker/docker-config-analysis.py:138 | splitting newline-free lines joined by newlines gives back the lines |
| DockerfileScan.LeadingCharacters | docker/docker-config-analysis.py:152-174 | the prefixes the chain tests begin with different characters, so a line satisfies at most one of them |
| DockerfileScan.ScanLine | docker/docker-config-analysis.py:151-182 | one pass of the ordered test chain fails exactly on a one-token stage line; otherwise it adds to each field what the line contributes |
| DockerfileScan.ScanInstructionLine | docker/docker-config-analysis.py:164-182 | on a line that no `FROM` test claimed, the rest of the chain adds to each field exactly what the line contributes under the per-field reference definitions |
| DockerfileScan.ScanOptimizationLine | docker/docker-config-analysis.py:176-182 | on a line that no instruction test claimed, only the first optimisation marker found, if any, is recorded |
| DockerfileScan.ScanLines | docker/docker-config-analysis.py:150-182 | the line loop ends in the state of the prefix fold: it stops with `IndexError` at the first one-token stage line and otherwise extends the record line by line |
| DockerfileScan.FailureSticks | docker/docker-config-analysis.py:156-158 | once some line has raised, the scan of the whole file fails with `IndexError`, whatever lines follow |
| DockerfileScan.ScanResultMeaning | docker/docker-config-analysis.py:150-182 | the line-by-line fold fails iff some stripped line is a one-token stage line, and otherwise equals the field-by-field reference record |
| DockerfileScan.AnalyzeDockerfileContent | docker/docker-config-analysis.py:136-187 | the line loop yields the reference report: `IndexError` iff some stripped line is a one-token stage line, else every field as the lines determine it, with the single-stage correction |
| DockerfileProperties.OneImagePerFromLine | docker/docker-config-analysis.py:156-162 | `base_images` gets exactly one entry per `FROM` line |
| DockerfileProperties.StageLinesAreFromLines | docker/docker-config-analysis.py:156-157 | there are never more stage lines than `FROM` lines |
| DockerfileProperties.StageCount | docker/docker-config-analysis.py:155-185 | `stages` is the number of `FROM ... AS` lines, or 1 when there are `FROM` lines but none of them is a stage line; it is 0 iff there is no `FROM` line; it never exceeds the `FROM` lines |
| DockerfileProperties.SecurityFeaturesAgree | docker/docker-config-analysis.py:165-170 | a `USER ` line exists iff `non-root-user` is listed, a `HEALTHCHECK` line iff `health-check` is, and the list has one entry per such line |
| DockerfileProperties.ReportSecurityFeatures | docker/docker-config-analysis.py:165-170 | in a successful report, `has_user` agrees with `non-root-user`, `has_healthcheck` agrees with `health-check`, and the feature list has one entry per such line |
| DockerfileProperties.AtMostOneEntryPerLine | docker/docker-config-analysis.py:150-182 | first match wins: each instruction line adds at most one entry to the three lists together, and blank or comment lines add none |
| DockerfileProperties.PlatformOnFromLinesNotTagged | docker/docker-config-analysis.py:156-182 | when `--platform=` appears only on `FROM` lines, `multi-platform` is never recorded |
| DockerfileProperties.CacheMountWinsOverBuildkit | docker/docker-config-analysis.py:177-180 | when every `BUILDKIT` line also has a cache mount, `buildkit` is never recorded |
| DockerfileProperties.ReportStagesAndImages | docker/docker-config-analysis.py:155-187 | the scan succeeds iff no line is a one-token stage line; its images are the per-`FROM`-line images in file order |
| DockerfileProperties.TwoStagesThenPlainFrom | docker/docker-config-analysis.py:155-187 | two named stages followed by a plain `FROM` give two stages and three images in file order |
| DockerfileProperties.SinglePlainFromIsOneStage | docker/docker-config-analysis.py:160-185 | a single `FROM` line without `AS` is a one-stage build with that image |
| ComposeScan.AnalyzeComposeContent | docker/docker-config-analysis.py:73-108 | the service loop yields the declarative summary, or `AttributeError` when the document is not a mapping, when `volumes` or `networks` is truthy but not a mapping, when `services` is present but not a mapping, or when some service is not a mapping |
| ComposeScan.SummariseServices | docker/docker-config-analysis.py:84-106 | the service loop yields one record per service under its name and each `has_*` flag iff some record sets it, or `AttributeError` when some service is not a mapping |
| ComposeScan.ComposeSummaryProperties | docker/docker-config-analysis.py:73-108 | a non-mapping document is never summarised; in a summary every service is a mapping with exactly one record, built from its own configuration; `restart` defaults to `'no'`; each `has_*` flag holds iff some service has a truthy `healthcheck`, `security_opt` or `deploy` |
| MonitoringProperties.PrometheusConfigBranch | docker/docker-config-analysis.py:194-217 | the Prometheus config path passes the Prometheus test |
| MonitoringProperties.DashboardsBranchPath | docker/docker-config-analysis.py:195-224 | the dashboards provisioning path fails the Prometheus test and takes the Grafana branch |
| MonitoringProperties.DatasourceBranch | docker/docker-config-analysis.py:196-217 | the Grafana data-source path also passes the Prometheus test |
| MonitoringProperties.AlertmanagerBranch | docker/docker-config-analysis.py:197-228 | the Alertmanager path takes neither branch |
| MonitoringProperties.FixedBranches | docker/docker-config-analysis.py:193-228 | the four fixed paths take, in order, the Prometheus, Grafana, Prometheus and no branch |
| MonitoringProperties.PlaceholdersKeepDefaults | docker/docker-config-analysis.py:200-205 | no visit touches the Alertmanager or Jaeger entries: they keep their defaults |
| MonitoringProperties.FourVisits | docker/docker-config-analysis.py:207-231 | a four-path scan is the four visits in order, with their issues concatenated |
| MonitoringProperties.PrometheusVisit | docker/docker-config-analysis.py:207-220 | a visit that takes the Prometheus branch sets `exists` iff the file parsed, replaces the count only when `scrape_configs` can be counted, leaves Grafana alone, and records a parse failure iff the file exists but cannot be counted |
| MonitoringProperties.OtherVisit | docker/docker-config-analysis.py:207-231 | a visit that does not take the Prometheus branch leaves the Prometheus entry alone and records no issue |
| MonitoringProperties.ShapedPrometheus | docker/docker-config-analysis.py:213-220 | for any four paths branching like the fixed ones: Prometheus is present iff the first or third file parsed; the count is the third file's when it is countable, else the first file's when that one is countable, else 0 |
| MonitoringProperties.ShapedGrafana | docker/docker-config-analysis.py:223-228 | for any four paths branching like the fixed ones: the Grafana entry is set, with the dashboard count, iff the second file exists |
| MonitoringProperties.ShapedIssues | docker/docker-config-analysis.py:213-220 | for any four paths branching like the fixed ones: the issues are exactly one Prometheus parse failure for each of the first and third files that exists but cannot be counted, in that order; so at most two |
| MonitoringProperties.PrometheusFromEitherFile | docker/docker-config-analysis.py:213-220 | `prometheus.exists` holds iff one of the two `prometheus.yml` files parsed; the count is the data-source file's when it is countable, else the config's when that is countable, else 0 |
| MonitoringProperties.GrafanaFromDashboardsFile | docker/docker-config-analysis.py:223-228 | the Grafana entry is `exists` with the dashboard JSON count iff the dashboards file exists, else its default |
| MonitoringProperties.MonitoringIssues | docker/docker-config-analysis.py:213-220 | the phase records exactly one Prometheus parse failure for each `prometheus.yml` file that exists but whose `scrape_configs` cannot be counted, config first; so at most two, and none when both are missing |
| SecretScan.FindDefaultSecrets | docker/docker-config-analysis.py:254-259 | the pattern loop yields the default patterns that occur in the content, in pattern order |
| SecretProperties.MatchingPatternsMembers | docker/docker-config-analysis.py:257-259 | a pattern is reported iff it is one of the patterns and occurs in the text; never more entries than patterns |
| SecretProperties.DefaultsFound | docker/docker-config-analysis.py:255-259 | `found_defaults` holds exactly the default passwords the file contains, at most four |
| SecretProperties.DbPasswordEitherName | docker/docker-config-analysis.py:265 | `has_db_password` holds iff `POSTGRES_PASSWORD` or `DB_PASSWORD` occurs in the file |
| SecretProperties.SecurityScanShape | docker/docker-config-analysis.py:239-281 | entries exist exactly for the files that are not unreadable; every detected secret is a default pattern; every issue is an environment-file failure, and there are never more issues than files; `security_practices` stays empty |
| SecretProperties.EnvFileIssues | docker/docker-config-analysis.py:247-277 | over distinct names: a file's failure is in `issues` iff that file was unreadable, and every issue names one of the files |
| SecretProperties.EnvFileIssueCount | docker/docker-config-analysis.py:275-276 | over distinct names, an unreadable file's failure occurs exactly once in `issues` and any other file's not at all |
| SecretProperties.SecurityScanKeys | docker/docker-config-analysis.py:247-278 | a file has an entry in `environment_files` iff it is one of the names and it was not unreadable |
| SecretProperties.FoundInIff | docker/docker-config-analysis.py:254-270 | a file contributes to `secrets_detected` iff it is readable and contains some default pattern |
| SecretProperties.SecretsDetectedIff | docker/docker-config-analysis.py:269-270 | `secrets_detected` is non-empty iff some readable environment file contains some default pattern |
| SecretProperties.SecretsInFileOrder | docker/docker-config-analysis.py:246-270 | `secrets_detected` is the three files' findings concatenated in file order, repeats included |
| SecretProperties.EnvFileEntries | docker/docker-config-analysis.py:246-278 | over distinct names: a missing file's entry is `exists: False`; a readable file's entry is its report; an unreadable file has no entry |
| Summary.OutcomeOf | docker/docker-config-analysis.py:374-383 | CRITICAL iff a secret was detected, with that many secrets; WARNING iff no secret but some issue; otherwise SUCCESS |
| Summary.ExitCode | docker/docker-config-analysis.py:374-383 | the status is 0 or 1, and 1 iff a secret was detected; issues alone never fail the run |
| SummaryProperties.CountBelowIff | docker/docker-config-analysis.py:320-335 | a `sum(1 for ... if p)` count never exceeds the entries, and falls short of them iff some entry fails `p` |
| SummaryProperties.SelectMeaning | docker/docker-config-analysis.py:317-340 | each recommendation is selected iff its condition holds, and they come in the fixed order without repetition |
| SummaryProperties.RecommendationsMeaning | docker/docker-config-analysis.py:312-342 | multi-stage advice iff some Dockerfile has at most one stage; health-check advice iff some compose file has no health check; CRITICAL iff a secret was detected; non-root advice iff some Dockerfile has no `USER`; Prometheus advice iff Prometheus was not found; fixed order, no repeats |
| SummaryProperties.NoFilesLeavesSecurityAndMonitoring | docker/docker-config-analysis.py:312-342 | with no Dockerfile and no compose file, only the CRITICAL and Prometheus recommendations can appear |
| SummaryProperties.CriticalAdviceIffFailure | docker/docker-config-analysis.py:330-331 | the CRITICAL recommendation is made iff the run ends with status 1 |
| Analyzer.DockerConfigAnalyzer.constructor | docker/docker-config-analysis.py:16-25 | a fresh results object: empty sections, no issues, no recommendations |
| Analyzer.DockerConfigAnalyzer.AnalyzeComposeFiles | docker/docker-config-analysis.py:43-71 | the compose section and the issues become the compose fold over the five fixed names; the other sections are unchanged |
| Analyzer.DockerConfigAnalyzer.AnalyzeDockerfiles | docker/docker-config-analysis.py:110-134 | the Dockerfile section and the issues become the Dockerfile fold over the glob's hits; the other sections are unchanged |
| Analyzer.DockerConfigAnalyzer.AnalyzeMonitoringConfig | docker/docker-config-analysis.py:189-233 | the monitoring section is stored as the scan of the four fixed paths; that scan's issues are appended; the other sections are unchanged |
| Analyzer.DockerConfigAnalyzer.AnalyzeSecurityConfig | docker/docker-config-analysis.py:235-281 | the security section is stored as the scan of the three environment files; that scan's issues are appended; the other sections are unchanged |
| Analyzer.DockerConfigAnalyzer.GenerateSummary | docker/docker-config-analysis.py:307-342 | the recommendations are derived from the stored sections; nothing else changes |
| Analyzer.VisitMonitoringFile | docker/docker-config-analysis.py:207-231 | one pass of the monitoring loop equals the reference visit of that path |
| Analyzer.ComposeFileOutcome | docker/docker-config-analysis.py:57-68 | one compose file is passed over when missing, fails when it cannot be read, parsed or summarised, and is stored with its summary otherwise |
| Analyzer.DockerfileFileOutcome | docker/docker-config-analysis.py:121-133 | one glob hit is passed over when it is not a file, fails when it cannot be read or scanned, and is stored with its report otherwise |
| Analyzer.EnvFileStep | docker/docker-config-analysis.py:248-279 | one pass of the environment-file loop: a missing file gets an `exists: False` entry; an unreadable one adds an issue and no entry; a readable one gets its report and appends its defaults |
| Analyzer.RunAnalysis | docker/docker-config-analysis.py:361-383 | a fresh analyser running the four modelled phases and the summary yields the reference results; the returned status is the one `main` exits with once the report is written, and it is 1 iff some readable environment file holds a default secret |
| AnalyzerProperties.StorePhaseEntries | docker/docker-config-analysis.py:55-63 | over distinct names on an empty section, a name has an entry iff its file's analysis was stored, and the entry is that analysis |
| AnalyzerProperties.StorePhaseIssues | docker/docker-config-analysis.py:66-68 | with a one-to-one issue tag, a name is reported iff its file failed, and every issue names one of the files |
| AnalyzerProperties.FixedNamesDistinct | docker/docker-config-analysis.py:47-53 | the five compose names and the three environment-file names are pairwise different |
| AnalyzerProperties.RunOutcome | docker/docker-config-analysis.py:374-377 | over a whole run, status 1 iff some readable environment file holds a default secret, and iff the CRITICAL recommendation is made |
| AnalyzerProperties.RunEntries | docker/docker-config-analysis.py:120-128 | a whole run stores exactly the compose files and Dockerfiles whose analysis succeeded, each under its name with its analysis |
| AnalyzerProperties.StorePhaseIssueCount | docker/docker-config-analysis.py:66-68 | over distinct names with a one-to-one issue tag, a failed file's issue occurs exactly once in `issues` and any other file's not at all |
| AnalyzerProperties.RunIssueCounts | docker/docker-config-analysis.py:43-281 | over a whole run, each failed compose file, Dockerfile and unreadable environment file occurs exactly once in `issues`, the others not at all, and there is one Prometheus parse failure per `prometheus.yml` file that exists but cannot be counted |
| AnalyzerProperties.RunIssues | docker/docker-config-analysis.py:131-133 | a whole run reports a compose file or a Dockerfile in `issues` iff it exists but could not be read, parsed or analysed; it reports an environment file iff that file was unreadable; it reports a Prometheus parse failure iff one of the two `prometheus.yml` files exists but cannot be counted |

## Left out

- Filesystem access (`Path.exists`, `is_file`, `open`, `glob`) is not modelled. Each file's state is an input. The Dockerfile glob's hits are an input list, in the glob's order. The number of `*.json` files in the dashboards directory is the input `dashboardJson`, which is 0 when the directory does not exist.
- YAML parsing is not modelled. A compose or monitoring file is given already parsed, or as unparsable. YAML mappings have string keys only, and their key order is not kept.
- YamlValue.Yaml cannot hold every value `yaml.safe_load` returns: dates and timestamps, `!!binary` bytes, `!!set` sets, `!!omap` and `!!pairs` lists of pairs, and mappings with non-string keys have no form in it. The analysed code does reach such values: it takes their truthiness, calls `.keys()` on `volumes` and `networks` (lines 77-78), `.items()` and `.get` on `services` and each service (lines 84-97), `len(...)` on `scrape_configs` (line 218), and stores some of them in service records. The model covers only documents made of None, booleans, numbers, strings, lists and string-keyed mappings.
- Output is not modelled: `print`, the JSON dump to `docker/analysis-results.json`, and `sys.exit`. The exit status is returned as an integer. The three endings of `main` are the datatype `Summary.Outcome`.
- Summary.ExitCode, Analyzer.RunAnalysis and AnalyzerProperties.RunOutcome: the status is the one `main` reaches after writing the report. `main` opens and writes the report before it looks at the results. When that raises, Python ends with status 1 whatever was found. Two inputs do this: a missing `docker/` directory, and a value `json.dump` cannot encode, such as a YAML date kept in a compose service record.
- `analyze_environment_config`, the fifth phase, is not modelled. It only records whether three configuration files exist and feeds nothing else.
- Issue texts are tagged values, not formatted strings. Exception messages are left out.
- Summary.AdviceText: the five recommendation texts are written out but nothing is proved about them. The model's recommendations are `Advice` values, which are different by construction.
- YAML floats are exact reals. NaN and infinities are not modelled, and they matter only to truthiness.
- The key order of `compose_files`, `dockerfiles` and `environment_files` is not modelled. It decides only the JSON output order.
- AnalyzerProperties.RunEntries, AnalyzerProperties.RunIssues and AnalyzerProperties.RunIssueCounts assume distinct Dockerfile paths. The glob yields each path once.
- SecretProperties.SecretsInFileOrder is stated for exactly three files, the number of environment files the phase inspects.
