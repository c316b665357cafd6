/**
  The Dockerfile line scanner: `analyze_dockerfile_content`. Each line is
  stripped; blank lines and `#` comments are skipped; the first matching test
  of an ordered chain decides what the line contributes.
 */
module DockerfileScan {
  import opened Wrappers
  import opened PyBuiltins

  /** The per-Dockerfile record the scanner builds. */
  datatype DockerfileAnalysis = DockerfileAnalysis(
    stages: nat,
    baseImages: seq<string>,
    hasUser: bool,
    hasHealthcheck: bool,
    hasExpose: bool,
    hasEntrypoint: bool,
    securityFeatures: seq<string>,
    optimizationFeatures: seq<string>)

  const Fresh := DockerfileAnalysis(0, [], false, false, false, false, [], [])

  // The predicates below are applied to a line after `strip()`.

  predicate IsSkipped(l: string) {
    l == "" || "#" <= l
  }

  /** `line.startswith('FROM') and 'AS' in line`: case-sensitive, anywhere in the line. */
  predicate IsStageLine(l: string) {
    "FROM" <= l && Contains(l, "AS")
  }

  predicate IsFromLine(l: string) {
    "FROM" <= l
  }

  /** Lines that the chain claims before it looks at the optimisation markers. */
  predicate IsDirective(l: string) {
    || "FROM" <= l || "USER " <= l || "HEALTHCHECK" <= l
    || "EXPOSE" <= l || "ENTRYPOINT" <= l || "CMD" <= l
  }

  /** The prefixes the chain tests start with different characters, so at most one holds. */
  lemma LeadingCharacters(l: string)
    ensures "#" <= l ==> l[0] == '#'
    ensures "FROM" <= l ==> l[0] == 'F'
    ensures "USER " <= l ==> l[0] == 'U'
    ensures "HEALTHCHECK" <= l ==> l[0] == 'H'
    ensures "EXPOSE" <= l ==> l[0] == 'E' && l[1] == 'X'
    ensures "ENTRYPOINT" <= l ==> l[0] == 'E' && l[1] == 'N'
    ensures "CMD" <= l ==> l[0] == 'C'
  {
  }

  /** A stage line with a single token, on which `line.split()[1]` raises. */
  predicate MissingStageImage(l: string) {
    IsStageLine(l) && |Split(l)| < 2
  }

  /** The image a `FROM` line names: its second token, or `'unknown'` when there is none. */
  function BaseImageOf(l: string): string {
    var toks := Split(l);
    if |toks| > 1 then toks[1] else "unknown"
  }

  function SecurityTag(l: string): Option<string> {
    if "USER " <= l then Some("non-root-user")
    else if "HEALTHCHECK" <= l then Some("health-check")
    else None
  }

  /** The optimisation marker of a line no earlier test claimed; the first marker found wins. */
  function OptimizationTag(l: string): Option<string> {
    if IsSkipped(l) || IsDirective(l) then None
    else if Contains(l, "--mount=type=cache") then Some("build-cache")
    else if Contains(l, "BUILDKIT") then Some("buildkit")
    else if Contains(l, "--platform=") then Some("multi-platform")
    else None
  }

  function OptionToSeq(o: Option<string>): seq<string> {
    if o.Some? then [o.value] else []
  }

  // Reference definitions over the raw lines of a file, each field on its own.

  function StageLineCount(ls: seq<string>): nat {
    if ls == [] then 0
    else StageLineCount(ls[..|ls| - 1]) + (if IsStageLine(Strip(ls[|ls| - 1])) then 1 else 0)
  }

  function FromLineCount(ls: seq<string>): nat {
    if ls == [] then 0
    else FromLineCount(ls[..|ls| - 1]) + (if IsFromLine(Strip(ls[|ls| - 1])) then 1 else 0)
  }

  /** One image per `FROM` line, in file order. */
  function BaseImages(ls: seq<string>): seq<string> {
    if ls == [] then []
    else
      var l := Strip(ls[|ls| - 1]);
      BaseImages(ls[..|ls| - 1]) + (if IsFromLine(l) then [BaseImageOf(l)] else [])
  }

  predicate AnyLineStarts(ls: seq<string>, prefix: string) {
    if ls == [] then false
    else AnyLineStarts(ls[..|ls| - 1], prefix) || prefix <= Strip(ls[|ls| - 1])
  }

  function SecurityTags(ls: seq<string>): seq<string> {
    if ls == [] then []
    else SecurityTags(ls[..|ls| - 1]) + OptionToSeq(SecurityTag(Strip(ls[|ls| - 1])))
  }

  function OptimizationTags(ls: seq<string>): seq<string> {
    if ls == [] then []
    else OptimizationTags(ls[..|ls| - 1]) + OptionToSeq(OptimizationTag(Strip(ls[|ls| - 1])))
  }

  /** Every field as the lines determine it, before the single-stage correction. */
  function Accumulated(ls: seq<string>): DockerfileAnalysis {
    DockerfileAnalysis(
      StageLineCount(ls),
      BaseImages(ls),
      AnyLineStarts(ls, "USER "),
      AnyLineStarts(ls, "HEALTHCHECK"),
      AnyLineStarts(ls, "EXPOSE"),
      AnyLineStarts(ls, "ENTRYPOINT") || AnyLineStarts(ls, "CMD"),
      SecurityTags(ls),
      OptimizationTags(ls))
  }

  /** A file with base images but no stage line counts as one stage. */
  function ForceSingleStage(a: DockerfileAnalysis): DockerfileAnalysis {
    if a.stages == 0 && a.baseImages != [] then a.(stages := 1) else a
  }

  /** Some line of `ls`, stripped, is a one-token stage line. */
  predicate HasMissingStageImage(ls: seq<string>) {
    ls != [] && (HasMissingStageImage(ls[..|ls| - 1]) || MissingStageImage(Strip(ls[|ls| - 1])))
  }

  /** What scanning `content` yields: the IndexError of a one-token stage line, or the record. */
  function DockerfileReport(content: string): Result<DockerfileAnalysis, Fault> {
    var ls := SplitLines(content);
    if HasMissingStageImage(ls) then Failure(IndexError)
    else Success(ForceSingleStage(Accumulated(ls)))
  }

  /** What one stripped line adds to the record, field by field. */
  function Extend(a: DockerfileAnalysis, l: string): DockerfileAnalysis {
    DockerfileAnalysis(
      a.stages + (if IsStageLine(l) then 1 else 0),
      a.baseImages + (if IsFromLine(l) then [BaseImageOf(l)] else []),
      a.hasUser || "USER " <= l,
      a.hasHealthcheck || "HEALTHCHECK" <= l,
      a.hasExpose || "EXPOSE" <= l,
      a.hasEntrypoint || "ENTRYPOINT" <= l || "CMD" <= l,
      a.securityFeatures + OptionToSeq(SecurityTag(l)),
      a.optimizationFeatures + OptionToSeq(OptimizationTag(l)))
  }

  /** How a stripped line is classified by the four per-line reference functions. */
  predicate Classified(l: string, stage: bool, from: bool, sec: Option<string>, opt: Option<string>) {
    IsStageLine(l) == stage && IsFromLine(l) == from && SecurityTag(l) == sec && OptimizationTag(l) == opt
  }

  lemma AccumulatedStep(ls: seq<string>, x: string)
    ensures Accumulated(ls + [x]) == Extend(Accumulated(ls), Strip(x))
  {
    assert (ls + [x])[..|ls|] == ls;
  }

  /**
    One pass of the loop body: the ordered chain of tests on a stripped line.
    It raises exactly on a one-token stage line and otherwise adds what the
    line contributes to each field.
   */
  method ScanLine(a: DockerfileAnalysis, line: string) returns (r: Result<DockerfileAnalysis, Fault>)
    ensures r.Failure? <==> MissingStageImage(line)
    ensures r.Success? ==> r.value == Extend(a, line)
  {
    LeadingCharacters(line);
    if line == "" || "#" <= line {
      assert Classified(line, false, false, None, None);
      r := Success(a);
      assert r.value == Extend(a, line);
    } else if "FROM" <= line && Contains(line, "AS") {
      var toks := Split(line);
      if |toks| < 2 {
        return Failure(IndexError);
      }
      assert Classified(line, true, true, None, None);
      r := Success(a.(stages := a.stages + 1, baseImages := a.baseImages + [toks[1]]));
      assert r.value == Extend(a, line);
    } else if "FROM" <= line {
      var toks := Split(line);
      var image := if |toks| > 1 then toks[1] else "unknown";
      assert Classified(line, false, true, None, None);
      r := Success(a.(baseImages := a.baseImages + [image]));
      assert r.value == Extend(a, line);
    } else {
      var b := ScanInstructionLine(a, line);
      r := Success(b);
    }
  }

  /** The tests after the `FROM` ones: security markers, then directives, then optimisation markers. */
  method ScanInstructionLine(a: DockerfileAnalysis, line: string) returns (r: DockerfileAnalysis)
    requires line != "" && !("#" <= line) && !("FROM" <= line)
    ensures r == Extend(a, line)
  {
    LeadingCharacters(line);
    if "USER " <= line {
      assert Classified(line, false, false, Some("non-root-user"), None);
      r := a.(hasUser := true, securityFeatures := a.securityFeatures + ["non-root-user"]);
    } else if "HEALTHCHECK" <= line {
      assert Classified(line, false, false, Some("health-check"), None);
      r := a.(hasHealthcheck := true, securityFeatures := a.securityFeatures + ["health-check"]);
    } else if "EXPOSE" <= line {
      assert Classified(line, false, false, None, None);
      r := a.(hasExpose := true);
    } else if "ENTRYPOINT" <= line || "CMD" <= line {
      assert Classified(line, false, false, None, None);
      r := a.(hasEntrypoint := true);
    } else {
      r := ScanOptimizationLine(a, line);
    }
  }

  /** A line that is no instruction the scan knows may still carry an optimisation marker. */
  method ScanOptimizationLine(a: DockerfileAnalysis, line: string) returns (r: DockerfileAnalysis)
    requires line != "" && !("#" <= line) && !("FROM" <= line)
    requires !("USER " <= line) && !("HEALTHCHECK" <= line) && !("EXPOSE" <= line)
    requires !("ENTRYPOINT" <= line) && !("CMD" <= line)
    ensures r == Extend(a, line)
  {
    LeadingCharacters(line);
    if Contains(line, "--mount=type=cache") {
      assert Classified(line, false, false, None, Some("build-cache"));
      r := a.(optimizationFeatures := a.optimizationFeatures + ["build-cache"]);
    } else if Contains(line, "BUILDKIT") {
      assert Classified(line, false, false, None, Some("buildkit"));
      r := a.(optimizationFeatures := a.optimizationFeatures + ["buildkit"]);
    } else if Contains(line, "--platform=") {
      assert Classified(line, false, false, None, Some("multi-platform"));
      r := a.(optimizationFeatures := a.optimizationFeatures + ["multi-platform"]);
    } else {
      assert Classified(line, false, false, None, None);
      r := a;
    }
  }

  /** What the loop holds after the lines `ls`: the first one-token stage line stops it, every other line extends the record. */
  function ScanResult(ls: seq<string>): Result<DockerfileAnalysis, Fault> {
    if ls == [] then Success(Fresh)
    else
      var prev := ScanResult(ls[..|ls| - 1]);
      var l := Strip(ls[|ls| - 1]);
      if prev.Failure? || MissingStageImage(l) then Failure(IndexError) else Success(Extend(prev.value, l))
  }

  /** Once the loop has failed on a prefix, the scan of the whole file fails. */
  lemma {:induction false} FailureSticks(ls: seq<string>, i: nat)
    requires i <= |ls| && ScanResult(ls[..i]).Failure?
    ensures ScanResult(ls) == Failure(IndexError)
    decreases |ls| - i
  {
    if i == |ls| {
      assert ls[..i] == ls;
    } else {
      assert ls[..i + 1][..i] == ls[..i];
      FailureStep(ls[..i + 1]);
      FailureSticks(ls, i + 1);
    }
  }

  lemma FailureStep(ls: seq<string>)
    requires ls != [] && ScanResult(ls[..|ls| - 1]).Failure?
    ensures ScanResult(ls) == Failure(IndexError)
  {
  }

  /** The line-by-line loop agrees with the field-by-field reference. */
  lemma {:induction false} ScanResultMeaning(ls: seq<string>)
    ensures ScanResult(ls) == if HasMissingStageImage(ls) then Failure(IndexError) else Success(Accumulated(ls))
  {
    if ls != [] {
      var n := |ls| - 1;
      ScanResultMeaning(ls[..n]);
      assert ls == ls[..n] + [ls[n]];
      AccumulatedStep(ls[..n], ls[n]);
    }
  }

  /** The loop over the lines. */
  method ScanLines(lines: seq<string>) returns (r: Result<DockerfileAnalysis, Fault>)
    ensures r == ScanResult(lines)
  {
    var a := Fresh;
    var i := 0;
    while i < |lines|
      invariant 0 <= i <= |lines|
      invariant ScanResult(lines[..i]) == Success(a)
    {
      var step := ScanLine(a, Strip(lines[i]));
      assert lines[..i + 1][..i] == lines[..i] && lines[..i + 1][i] == lines[i];
      if step.Failure? {
        FailureSticks(lines, i + 1);
        return Failure(IndexError);
      }
      a := step.value;
      i := i + 1;
    }
    assert lines[..|lines|] == lines;
    r := Success(a);
  }

  /** `analyze_dockerfile_content`, proved to produce the reference report. */
  method AnalyzeDockerfileContent(content: string) returns (r: Result<DockerfileAnalysis, Fault>)
    ensures r == DockerfileReport(content)
  {
    var lines := SplitLines(content);
    r := ScanLines(lines);
    ScanResultMeaning(lines);
    if r.Success? && r.value.stages == 0 && r.value.baseImages != [] {
      r := Success(r.value.(stages := 1));
    }
  }
}

/** Properties of the scanner's reference report, as the analyser's callers rely on them. */
module DockerfileProperties {
  import opened Wrappers
  import opened PyBuiltins
  import opened DockerfileScan

  /** `base_images` receives exactly one entry per `FROM` line. */
  lemma {:induction false} OneImagePerFromLine(ls: seq<string>)
    ensures |BaseImages(ls)| == FromLineCount(ls)
  {
    if ls != [] {
      OneImagePerFromLine(ls[..|ls| - 1]);
    }
  }

  /** Every stage line is a `FROM` line. */
  lemma {:induction false} StageLinesAreFromLines(ls: seq<string>)
    ensures StageLineCount(ls) <= FromLineCount(ls)
  {
    if ls != [] {
      StageLinesAreFromLines(ls[..|ls| - 1]);
    }
  }

  /**
    `stages` counts the `FROM ... AS` lines, except that a file with `FROM`
    lines but no stage line counts as one stage; only a file without any
    `FROM` line has zero stages, and there are never more stages than `FROM` lines.
   */
  lemma StageCount(content: string)
    requires DockerfileReport(content).Success?
    ensures var ls := SplitLines(content);
      var s := StageLineCount(ls);
      var stages := DockerfileReport(content).value.stages;
      && stages == (if s == 0 && FromLineCount(ls) > 0 then 1 else s)
      && (stages == 0 <==> FromLineCount(ls) == 0)
      && stages <= FromLineCount(ls)
  {
    var ls := SplitLines(content);
    OneImagePerFromLine(ls);
    StageLinesAreFromLines(ls);
  }

  function SecurityLineCount(ls: seq<string>): nat {
    if ls == [] then 0
    else
      var l := Strip(ls[|ls| - 1]);
      SecurityLineCount(ls[..|ls| - 1]) + (if "USER " <= l || "HEALTHCHECK" <= l then 1 else 0)
  }

  /**
    The security flags agree with the feature list: a `USER ` line exists iff
    `non-root-user` is listed, a `HEALTHCHECK` line iff `health-check` is, and
    the list has one entry per such line.
   */
  lemma {:induction false} SecurityFeaturesAgree(ls: seq<string>)
    ensures AnyLineStarts(ls, "USER ") <==> "non-root-user" in SecurityTags(ls)
    ensures AnyLineStarts(ls, "HEALTHCHECK") <==> "health-check" in SecurityTags(ls)
    ensures |SecurityTags(ls)| == SecurityLineCount(ls)
  {
    if ls != [] {
      var init, l := ls[..|ls| - 1], Strip(ls[|ls| - 1]);
      SecurityFeaturesAgree(init);
      LeadingCharacters(l);
      assert SecurityTags(ls) == SecurityTags(init) + OptionToSeq(SecurityTag(l));
    }
  }

  /** The same agreement, read off a successful report. */
  lemma ReportSecurityFeatures(content: string)
    requires DockerfileReport(content).Success?
    ensures var r := DockerfileReport(content).value;
      && (r.hasUser <==> "non-root-user" in r.securityFeatures)
      && (r.hasHealthcheck <==> "health-check" in r.securityFeatures)
      && |r.securityFeatures| == SecurityLineCount(SplitLines(content))
  {
    SecurityFeaturesAgree(SplitLines(content));
  }

  function InstructionLineCount(ls: seq<string>): nat {
    if ls == [] then 0
    else InstructionLineCount(ls[..|ls| - 1]) + (if IsSkipped(Strip(ls[|ls| - 1])) then 0 else 1)
  }

  /**
    First match wins: every line that is not blank or a comment adds at most
    one entry to `base_images`, `security_features` and `optimization_features`
    taken together, and skipped lines add none.
   */
  lemma {:induction false} AtMostOneEntryPerLine(ls: seq<string>)
    ensures |BaseImages(ls)| + |SecurityTags(ls)| + |OptimizationTags(ls)| <= InstructionLineCount(ls)
  {
    if ls != [] {
      var l := Strip(ls[|ls| - 1]);
      AtMostOneEntryPerLine(ls[..|ls| - 1]);
      LeadingCharacters(l);
    }
  }

  /** A `--platform=` flag on a `FROM` line is claimed by the `FROM` test and never tagged. */
  lemma {:induction false} PlatformOnFromLinesNotTagged(ls: seq<string>)
    requires forall j :: 0 <= j < |ls| && Contains(Strip(ls[j]), "--platform=") ==> IsFromLine(Strip(ls[j]))
    ensures "multi-platform" !in OptimizationTags(ls)
  {
    if ls != [] {
      var init := ls[..|ls| - 1];
      assert forall j :: 0 <= j < |init| ==> init[j] == ls[j];
      PlatformOnFromLinesNotTagged(init);
    }
  }

  /** A line with both a cache mount and `BUILDKIT` is tagged `build-cache` only. */
  lemma {:induction false} CacheMountWinsOverBuildkit(ls: seq<string>)
    requires forall j :: 0 <= j < |ls| && Contains(Strip(ls[j]), "BUILDKIT") ==> Contains(Strip(ls[j]), "--mount=type=cache")
    ensures "buildkit" !in OptimizationTags(ls)
  {
    if ls != [] {
      var init := ls[..|ls| - 1];
      assert forall j :: 0 <= j < |init| ==> init[j] == ls[j];
      CacheMountWinsOverBuildkit(init);
    }
  }

  /** The report's success and its stage and image fields, in terms of the file's lines. */
  lemma ReportStagesAndImages(content: string)
    ensures var ls := SplitLines(content);
      && (DockerfileReport(content).Success? <==> !HasMissingStageImage(ls))
      && (DockerfileReport(content).Success? ==>
            && DockerfileReport(content).value.baseImages == BaseImages(ls)
            && DockerfileReport(content).value.stages ==
                 (if StageLineCount(ls) == 0 && BaseImages(ls) != [] then 1 else StageLineCount(ls)))
  {
  }

  /** Appending one line adds that line's stage, if it is one. */
  lemma AppendStage(ls: seq<string>, x: string)
    ensures StageLineCount(ls + [x]) == StageLineCount(ls) + (if IsStageLine(Strip(x)) then 1 else 0)
  {
    assert (ls + [x])[..|ls|] == ls;
  }

  /** Appending one line adds that line's image, if it is a `FROM` line. */
  lemma AppendImage(ls: seq<string>, x: string)
    ensures BaseImages(ls + [x]) == BaseImages(ls) + (if IsFromLine(Strip(x)) then [BaseImageOf(Strip(x))] else [])
  {
    assert (ls + [x])[..|ls|] == ls;
  }

  /** Appending one line makes the scan fail iff it failed already or the line is a one-token stage line. */
  lemma AppendMissing(ls: seq<string>, x: string)
    ensures HasMissingStageImage(ls + [x]) <==> HasMissingStageImage(ls) || MissingStageImage(Strip(x))
  {
    assert (ls + [x])[..|ls|] == ls;
  }

  /** Three lines none of which is a one-token stage line do not make the scan fail. */
  lemma ThreeLinesPass(x: string, y: string, z: string)
    requires IsStageLine(Strip(x)) && |Split(Strip(x))| >= 2
    requires IsStageLine(Strip(y)) && |Split(Strip(y))| >= 2
    requires IsFromLine(Strip(z)) && !Contains(Strip(z), "AS")
    ensures !HasMissingStageImage([x, y, z])
  {
    AppendMissing([], x);
    assert [] + [x] == [x];
    AppendMissing([x], y);
    assert [x] + [y] == [x, y];
    AppendMissing([x, y], z);
    assert [x, y] + [z] == [x, y, z];
  }

  /** Two stage lines and a line without `AS` are two stages. */
  lemma ThreeLinesStages(x: string, y: string, z: string)
    requires IsStageLine(Strip(x)) && IsStageLine(Strip(y)) && !Contains(Strip(z), "AS")
    ensures StageLineCount([x, y, z]) == 2
  {
    AppendStage([], x);
    assert [] + [x] == [x];
    AppendStage([x], y);
    assert [x] + [y] == [x, y];
    AppendStage([x, y], z);
    assert [x, y] + [z] == [x, y, z];
  }

  /** Three `FROM` lines give three images, in file order. */
  lemma ThreeLinesImages(x: string, y: string, z: string)
    requires IsFromLine(Strip(x)) && IsFromLine(Strip(y)) && IsFromLine(Strip(z))
    ensures BaseImages([x, y, z]) == [BaseImageOf(Strip(x)), BaseImageOf(Strip(y)), BaseImageOf(Strip(z))]
  {
    var i1, i2, i3 := BaseImageOf(Strip(x)), BaseImageOf(Strip(y)), BaseImageOf(Strip(z));
    AppendImage([], x);
    assert [] + [x] == [x];
    assert BaseImages([x]) == [i1];
    AppendImage([x], y);
    assert [x] + [y] == [x, y];
    assert BaseImages([x, y]) == [i1] + [i2] == [i1, i2];
    AppendImage([x, y], z);
    assert [x, y] + [z] == [x, y, z];
    assert BaseImages([x, y, z]) == [i1, i2] + [i3] == [i1, i2, i3];
  }

  /** Two named stages followed by a plain `FROM`: two stages, three images in file order. */
  lemma TwoStagesThenPlainFrom(content: string, x: string, y: string, z: string)
    requires SplitLines(content) == [x, y, z]
    requires IsStageLine(Strip(x)) && |Split(Strip(x))| >= 2
    requires IsStageLine(Strip(y)) && |Split(Strip(y))| >= 2
    requires IsFromLine(Strip(z)) && !Contains(Strip(z), "AS")
    ensures var r := DockerfileReport(content);
      && r.Success?
      && r.value.stages == 2
      && r.value.baseImages == [BaseImageOf(Strip(x)), BaseImageOf(Strip(y)), BaseImageOf(Strip(z))]
  {
    ThreeLinesPass(x, y, z);
    ThreeLinesStages(x, y, z);
    ThreeLinesImages(x, y, z);
    ReportStagesAndImages(content);
  }

  /** A single `FROM` line without `AS` is a one-stage build. */
  lemma SinglePlainFromIsOneStage(x: string)
    requires '\n' !in x
    requires IsFromLine(Strip(x)) && !Contains(Strip(x), "AS")
    ensures var r := DockerfileReport(x);
      && r.Success?
      && r.value.stages == 1
      && r.value.baseImages == [BaseImageOf(Strip(x))]
  {
    SplitJoinLines([x]);
    ReportStagesAndImages(x);
    AppendStage([], x);
    AppendImage([], x);
    AppendMissing([], x);
    assert [] + [x] == [x];
  }
}
