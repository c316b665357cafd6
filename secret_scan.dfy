/**
  The secret detection of the security phase: each environment file that
  exists is searched for four well-known default passwords and for the
  names of three credentials; the defaults found are collected, file by
  file, into `secrets_detected`.
 */
module SecretScan {
  import opened Wrappers
  import opened PyBuiltins
  import opened Artifacts

  /** The default values the phase looks for, in the order it tries them. */
  const DefaultPatterns: seq<string> := ["CHANGE_ME", "password123", "admin123", "secret123"]

  /** The environment files the phase inspects, in order. */
  const EnvFileNames: seq<string> := [".env.production", ".env.dev", ".env.example"]

  /** The entry recorded for one environment file. */
  datatype EnvFileReport =
    | EnvMissing
    | EnvScanned(defaultSecrets: seq<string>, hasJwtSecret: bool, hasDbPassword: bool, hasRedisPassword: bool)

  /** The `security` section of the results; `securityPractices` is never filled. */
  datatype SecurityAnalysis = SecurityAnalysis(
    environmentFiles: map<string, EnvFileReport>,
    secretsDetected: seq<string>,
    securityPractices: seq<string>)

  /** The patterns of `ps` that occur in `content`, in the order of `ps`. */
  function MatchingPatterns(content: string, ps: seq<string>): seq<string> {
    if ps == [] then []
    else
      var n := |ps| - 1;
      MatchingPatterns(content, ps[..n]) + (if Contains(content, ps[n]) then [ps[n]] else [])
  }

  /** The loop over the default patterns. */
  method FindDefaultSecrets(content: string) returns (found: seq<string>)
    ensures found == MatchingPatterns(content, DefaultPatterns)
  {
    var patterns := DefaultPatterns;
    found := [];
    for i := 0 to |patterns|
      invariant found == MatchingPatterns(content, patterns[..i])
    {
      assert patterns[..i + 1][..i] == patterns[..i];
      if Contains(content, patterns[i]) {
        found := found + [patterns[i]];
      }
    }
    assert patterns[..|patterns|] == patterns;
  }

  /** What is recorded for an environment file whose text could be read. */
  function EnvReport(found: seq<string>, content: string): EnvFileReport {
    EnvScanned(
      found,
      Contains(content, "JWT_SECRET"),
      Contains(content, "POSTGRES_PASSWORD") || Contains(content, "DB_PASSWORD"),
      Contains(content, "REDIS_PASSWORD"))
  }

  /**
    One step of the phase. A missing file gets an `exists: False` entry; a file
    that cannot be read records an issue and no entry; a readable one gets its
    report, and its defaults are appended to `secretsDetected`.
   */
  function EnvStep(s: SecurityAnalysis, name: string, f: FileState<string>): (SecurityAnalysis, seq<Issue>) {
    match f
    case Missing => (s.(environmentFiles := s.environmentFiles[name := EnvMissing]), [])
    case Unreadable => (s, [EnvFileFailed(name)])
    case Loaded(content) =>
      var found := MatchingPatterns(content, DefaultPatterns);
      (s.(environmentFiles := s.environmentFiles[name := EnvReport(found, content)],
          secretsDetected := s.secretsDetected + found), [])
  }

  const EmptySecurity := SecurityAnalysis(map[], [], [])

  /** The whole phase over `names` and the states of those files, in order. */
  function SecurityScan(names: seq<string>, files: seq<FileState<string>>): (SecurityAnalysis, seq<Issue>)
    requires |names| == |files|
  {
    if names == [] then (EmptySecurity, [])
    else
      var n := |names| - 1;
      var before := SecurityScan(names[..n], files[..n]);
      var after := EnvStep(before.0, names[n], files[n]);
      (after.0, before.1 + after.1)
  }

  /** The defaults a file contributes to `secretsDetected`. */
  function FoundIn(f: FileState<string>): seq<string> {
    if f.Loaded? then MatchingPatterns(f.content, DefaultPatterns) else []
  }

  /** A readable file that contains some default pattern. */
  predicate HasDefault(f: FileState<string>) {
    f.Loaded? && exists j :: 0 <= j < |DefaultPatterns| && Contains(f.content, DefaultPatterns[j])
  }

  /** Some readable file in `files` contains some default pattern. */
  predicate SomeDefaultIn(files: seq<FileState<string>>) {
    exists k :: 0 <= k < |files| && HasDefault(files[k])
  }
}

/** What the secret scan guarantees. */
module SecretProperties {
  import opened Wrappers
  import opened PyBuiltins
  import opened Artifacts
  import opened SecretScan

  /** A pattern is reported exactly when it is one of the patterns and occurs in the text; at most one entry per pattern. */
  lemma {:induction false} MatchingPatternsMembers(content: string, ps: seq<string>)
    ensures forall p :: p in MatchingPatterns(content, ps) <==> p in ps && Contains(content, p)
    ensures |MatchingPatterns(content, ps)| <= |ps|
  {
    if ps != [] {
      var n := |ps| - 1;
      MatchingPatternsMembers(content, ps[..n]);
      assert ps == ps[..n] + [ps[n]];
    }
  }

  /** Every reported pattern is one the phase looks for, and the file contains it. */
  lemma DefaultsFound(content: string)
    ensures forall p :: p in MatchingPatterns(content, DefaultPatterns) <==> p in DefaultPatterns && Contains(content, p)
    ensures |MatchingPatterns(content, DefaultPatterns)| <= 4
  {
    MatchingPatternsMembers(content, DefaultPatterns);
  }

  /** `has_db_password` holds iff either database password variable is named. */
  lemma DbPasswordEitherName(found: seq<string>, content: string)
    ensures EnvReport(found, content).hasDbPassword <==>
      (exists i :: OccursAt(content, "POSTGRES_PASSWORD", i)) || (exists i :: OccursAt(content, "DB_PASSWORD", i))
  {
    ContainsIffOccurs(content, "POSTGRES_PASSWORD");
    ContainsIffOccurs(content, "DB_PASSWORD");
  }

  /**
    After the phase: an entry exists exactly for the files that were not
    unreadable, every detected secret is a default pattern, every issue is an
    environment-file failure, at most one per file, and `securityPractices`
    stays empty.
   */
  lemma {:induction false} SecurityScanShape(names: seq<string>, files: seq<FileState<string>>)
    requires |names| == |files|
    ensures var r := SecurityScan(names, files);
      && r.0.securityPractices == []
      && (forall k :: 0 <= k < |names| && !files[k].Unreadable? ==> names[k] in r.0.environmentFiles)
      && (forall name :: name in r.0.environmentFiles ==>
            exists k :: 0 <= k < |names| && names[k] == name && !files[k].Unreadable?)
      && (forall p :: p in r.0.secretsDetected ==> p in DefaultPatterns)
      && (forall k :: 0 <= k < |r.1| ==> r.1[k].EnvFileFailed?)
      && |r.1| <= |names|
  {
    SecurityScanKeys(names, files);
    if names != [] {
      var n := |names| - 1;
      SecurityScanShape(names[..n], files[..n]);
      if files[n].Loaded? {
        MatchingPatternsMembers(files[n].content, DefaultPatterns);
      }
    }
  }

  /** The files with an entry are exactly those that were not unreadable. */
  lemma SecurityScanKeys(names: seq<string>, files: seq<FileState<string>>)
    requires |names| == |files|
    ensures var r := SecurityScan(names, files).0;
      && (forall k :: 0 <= k < |names| && !files[k].Unreadable? ==> names[k] in r.environmentFiles)
      && (forall name :: name in r.environmentFiles ==>
            exists k :: 0 <= k < |names| && names[k] == name && !files[k].Unreadable?)
  {
    var r := SecurityScan(names, files).0;
    EntryKeys(names, files);
    forall k | 0 <= k < |names| && !files[k].Unreadable?
      ensures names[k] in r.environmentFiles
    {
      ListedAt(names, files, k);
    }
    forall name | name in r.environmentFiles
      ensures exists k :: 0 <= k < |names| && names[k] == name && !files[k].Unreadable?
    {
      ListedSomewhere(names, files, name);
    }
  }

  /** `name` is one of `names` whose file was not unreadable. */
  predicate Listed(names: seq<string>, files: seq<FileState<string>>, name: string)
    requires |names| == |files|
  {
    var n := |names| - 1;
    names != [] && (Listed(names[..n], files[..n], name) || (names[n] == name && !files[n].Unreadable?))
  }

  lemma {:induction false} EntryKeys(names: seq<string>, files: seq<FileState<string>>)
    requires |names| == |files|
    ensures forall name :: name in SecurityScan(names, files).0.environmentFiles <==> Listed(names, files, name)
  {
    if names != [] {
      EntryKeys(names[..|names| - 1], files[..|files| - 1]);
    }
  }

  lemma {:induction false} ListedAt(names: seq<string>, files: seq<FileState<string>>, k: nat)
    requires |names| == |files| && k < |names| && !files[k].Unreadable?
    ensures Listed(names, files, names[k])
  {
    var n := |names| - 1;
    if k < n {
      ListedAt(names[..n], files[..n], k);
    }
  }

  lemma {:induction false} ListedSomewhere(names: seq<string>, files: seq<FileState<string>>, name: string)
    requires |names| == |files| && Listed(names, files, name)
    ensures exists k :: 0 <= k < |names| && names[k] == name && !files[k].Unreadable?
  {
    var n := |names| - 1;
    if !(names[n] == name && !files[n].Unreadable?) {
      ListedSomewhere(names[..n], files[..n], name);
      var k :| 0 <= k < n && names[..n][k] == name && !files[..n][k].Unreadable?;
      assert names[k] == name && !files[k].Unreadable?;
    }
  }

  /**
    Over distinct names, an environment file is reported in `issues` exactly
    when it exists but could not be read or searched; every issue names one of
    the files.
   */
  lemma {:induction false} EnvFileIssues(names: seq<string>, files: seq<FileState<string>>)
    requires |names| == |files| && Distinct(names)
    ensures forall k :: 0 <= k < |names| ==>
      (EnvFileFailed(names[k]) in SecurityScan(names, files).1 <==> files[k].Unreadable?)
    ensures forall x :: x in SecurityScan(names, files).1 ==> x.EnvFileFailed? && x.file in names
  {
    if names != [] {
      var n := |names| - 1;
      EnvFileIssues(names[..n], files[..n]);
      var before := SecurityScan(names[..n], files[..n]).1;
      var issues := SecurityScan(names, files).1;
      assert issues == before + (if files[n].Unreadable? then [EnvFileFailed(names[n])] else []);
      assert EnvFileFailed(names[n]) !in before by {
        assert names[n] !in names[..n];
      }
      forall k | 0 <= k < n
        ensures names[..n][k] == names[k] && files[..n][k] == files[k] && names[k] != names[n]
      {
      }
      forall x | x in issues
        ensures x.EnvFileFailed? && x.file in names
      {
        if x in before {
          assert x.file in names[..n];
        }
      }
    }
  }

  /** Over distinct names, an unreadable file is reported exactly once and any other file not at all. */
  lemma {:induction false} EnvFileIssueCount(names: seq<string>, files: seq<FileState<string>>)
    requires |names| == |files| && Distinct(names)
    ensures forall k :: 0 <= k < |names| ==>
      multiset(SecurityScan(names, files).1)[EnvFileFailed(names[k])] == (if files[k].Unreadable? then 1 else 0)
  {
    if names != [] {
      var n := |names| - 1;
      EnvFileIssueCount(names[..n], files[..n]);
      EnvFileIssues(names[..n], files[..n]);
      var before := SecurityScan(names[..n], files[..n]).1;
      var issues := SecurityScan(names, files).1;
      assert issues == before + (if files[n].Unreadable? then [EnvFileFailed(names[n])] else []);
      assert EnvFileFailed(names[n]) !in before by {
        assert names[n] !in names[..n];
      }
      forall k | 0 <= k < |names|
        ensures multiset(issues)[EnvFileFailed(names[k])] == (if files[k].Unreadable? then 1 else 0)
      {
        if k < n {
          assert names[..n][k] == names[k] && files[..n][k] == files[k] && names[k] != names[n];
        }
      }
    }
  }

  /** A file contributes some secret exactly when it is readable and contains a default pattern. */
  lemma FoundInIff(f: FileState<string>)
    ensures FoundIn(f) != [] <==> HasDefault(f)
  {
    if f.Loaded? {
      MatchingPatternsMembers(f.content, DefaultPatterns);
      if FoundIn(f) != [] {
        assert FoundIn(f)[0] in FoundIn(f);
      }
      if HasDefault(f) {
        var j :| 0 <= j < |DefaultPatterns| && Contains(f.content, DefaultPatterns[j]);
        assert DefaultPatterns[j] in FoundIn(f);
      }
    }
  }

  /** Some file of `files` has a default exactly when some earlier file or the last one does. */
  lemma SomeDefaultStep(files: seq<FileState<string>>)
    requires files != []
    ensures SomeDefaultIn(files) <==> SomeDefaultIn(files[..|files| - 1]) || HasDefault(files[|files| - 1])
  {
    var n := |files| - 1;
    if SomeDefaultIn(files) && !HasDefault(files[n]) {
      var k :| 0 <= k < |files| && HasDefault(files[k]);
      assert files[..n][k] == files[k];
    }
    if SomeDefaultIn(files[..n]) {
      var k :| 0 <= k < n && HasDefault(files[..n][k]);
      assert files[k] == files[..n][k];
    }
  }

  /** The detected secrets are empty exactly when no readable file contains a default pattern. */
  lemma {:induction false} SecretsDetectedIff(names: seq<string>, files: seq<FileState<string>>)
    requires |names| == |files|
    ensures SecurityScan(names, files).0.secretsDetected != [] <==> SomeDefaultIn(files)
  {
    if names != [] {
      var n := |names| - 1;
      SecretsDetectedIff(names[..n], files[..n]);
      SecretsStep(names, files);
      FoundInIff(files[n]);
      SomeDefaultStep(files);
    }
  }

  /** `secretsDetected` is the three files' findings concatenated in file order, repeats included. */
  lemma SecretsInFileOrder(names: seq<string>, files: seq<FileState<string>>)
    requires |names| == |files| == 3
    ensures SecurityScan(names, files).0.secretsDetected == FoundIn(files[0]) + FoundIn(files[1]) + FoundIn(files[2])
  {
    SecretsStep(names[..1], files[..1]);
    assert names[..1][..0] == [] && files[..1][..0] == [];
    assert [] + FoundIn(files[0]) == FoundIn(files[0]);
    SecretsStep(names[..2], files[..2]);
    assert names[..2][..1] == names[..1] && files[..2][..1] == files[..1];
    SecretsStep(names, files);
    assert names[..2] == names[..|names| - 1] && files[..2] == files[..|files| - 1];
  }

  lemma SecretsStep(names: seq<string>, files: seq<FileState<string>>)
    requires |names| == |files| > 0
    ensures SecurityScan(names, files).0.secretsDetected ==
      SecurityScan(names[..|names| - 1], files[..|files| - 1]).0.secretsDetected + FoundIn(files[|files| - 1])
  {
  }

  /**
    Over distinct names, a missing file's entry is `{'exists': False}`, a
    readable file's entry is its report, and an unreadable file has none.
   */
  lemma {:induction false} EnvFileEntries(names: seq<string>, files: seq<FileState<string>>)
    requires |names| == |files| && Distinct(names)
    ensures forall k :: 0 <= k < |names| && files[k].Missing? ==>
      names[k] in SecurityScan(names, files).0.environmentFiles &&
      SecurityScan(names, files).0.environmentFiles[names[k]] == EnvMissing
    ensures forall k :: 0 <= k < |names| && files[k].Loaded? ==>
      names[k] in SecurityScan(names, files).0.environmentFiles &&
      SecurityScan(names, files).0.environmentFiles[names[k]] ==
        EnvReport(MatchingPatterns(files[k].content, DefaultPatterns), files[k].content)
    ensures forall k :: 0 <= k < |names| && files[k].Unreadable? ==>
      names[k] !in SecurityScan(names, files).0.environmentFiles
  {
    if names != [] {
      var n := |names| - 1;
      EnvFileEntries(names[..n], files[..n]);
      var before := SecurityScan(names[..n], files[..n]).0.environmentFiles;
      var after := SecurityScan(names, files).0.environmentFiles;
      forall k | 0 <= k < n
        ensures names[k] != names[n] && names[..n][k] == names[k] && files[..n][k] == files[k]
      {
      }
      match files[n] {
        case Missing =>
          assert after == before[names[n] := EnvMissing];
        case Loaded(content) =>
          assert after == before[names[n] := EnvReport(MatchingPatterns(content, DefaultPatterns), content)];
        case Unreadable =>
          assert after == before;
          SecurityScanShape(names[..n], files[..n]);
      }
    }
  }
}
