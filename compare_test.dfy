/**
 * The scenarios of plugin/compare_test.go, restated against the model: each scenario's
 * expected outcome is its method's postcondition, which the verifier proves. The
 * regular-expression verdicts each scenario relies on are stated as preconditions on the engine.
 */
module CompareTest {
  import opened Wrappers
  import opened Regex
  import opened Compare
  import opened CompareProperties

  method TestInvalidRegex(eng: Engine) returns (isSkip: bool, err: Option<Error>)
    requires !Compiles(eng, "*")
    ensures err == Some(InvalidPattern("*")) && !isSkip
  {
    var c := new Comparison("", "", "", [], ["*"]);
    c.changed := [".drone.star", "cmd/foo.go", "pkg/internal/bar.go"];
    isSkip, err := c.IsSkip(eng);
  }

  method TestCodeAllowSkipDocs1(eng: Engine) returns (isSkip: bool, err: Option<Error>)
    requires Compiles(eng, "^docs/.*") && !Matches(eng, "^docs/.*", ".drone.star")
    ensures err == None && !isSkip
  {
    var c := new Comparison("", "", "", [], ["^docs/.*"]);
    c.changed := [".drone.star", "cmd/foo.go", "pkg/internal/bar.go", "docs/config.hugo"];
    isSkip, err := c.IsSkip(eng);
    UnmatchedPathForcesRun(eng, c.changed, ["^docs/.*"], [], ".drone.star");
  }

  method TestCodeAllowSkipDocs2(eng: Engine) returns (isSkip: bool, err: Option<Error>)
    requires Compiles(eng, "^docs/.*") && Matches(eng, "^docs/.*", "docs/index.md")
    ensures err == None && isSkip
  {
    var c := new Comparison("", "", "", [], ["^docs/.*"]);
    c.changed := ["docs/index.md"];
    isSkip, err := c.IsSkip(eng);
    SkipExactly(eng, c.changed, ["^docs/.*"], []);
  }

  method TestCodeDisallowSkipGoChanges1(eng: Engine) returns (isSkip: bool, err: Option<Error>)
    requires Compiles(eng, ".*\\.go$") && Matches(eng, ".*\\.go$", "cmd/foo.go")
    ensures err == None && !isSkip
  {
    var c := new Comparison("", "", "", [".*\\.go$"], []);
    c.changed := [".drone.star", "cmd/foo.go", "pkg/internal/bar.go", "docs/config.hugo"];
    isSkip, err := c.IsSkip(eng);
    DisallowWins(eng, c.changed, [], [".*\\.go$"], "cmd/foo.go", ".*\\.go$");
  }

  method TestCodeDisallowSkipGoChanges2(eng: Engine) returns (isSkip: bool, err: Option<Error>)
    requires Compiles(eng, ".*\\.go$")
    requires !Matches(eng, ".*\\.go$", "docs/index.md") && !Matches(eng, ".*\\.go$", "docs/config.hugo")
    ensures err == None && isSkip
  {
    var c := new Comparison("", "", "", [".*\\.go$"], []);
    c.changed := ["docs/index.md", "docs/config.hugo"];
    isSkip, err := c.IsSkip(eng);
    SkipExactly(eng, c.changed, [], [".*\\.go$"]);
  }

  method TestNoChangesDisallowList(eng: Engine) returns (isSkip: bool, err: Option<Error>)
    ensures err == None && isSkip
  {
    var c := new Comparison("", "", "", [".*\\.go$"], []);
    isSkip, err := c.IsSkip(eng);
  }

  method TestNoChangesAllowList(eng: Engine) returns (isSkip: bool, err: Option<Error>)
    ensures err == None && isSkip
  {
    var c := new Comparison("", "", "", [], [".*\\.go$"]);
    isSkip, err := c.IsSkip(eng);
  }

  /** A path matched by both lists forces a run: the disallow list wins. */
  method TestDisallowBeatsAllow(eng: Engine) returns (isSkip: bool, err: Option<Error>)
    requires Compiles(eng, "^docs/.*") && Matches(eng, "^docs/.*", "docs/gen.go")
    requires Compiles(eng, ".*\\.go$") && Matches(eng, ".*\\.go$", "docs/gen.go")
    ensures err == None && !isSkip
  {
    var c := new Comparison("", "", "", [".*\\.go$"], ["^docs/.*"]);
    c.changed := ["docs/gen.go"];
    isSkip, err := c.IsSkip(eng);
    DisallowWins(eng, c.changed, ["^docs/.*"], [".*\\.go$"], "docs/gen.go", ".*\\.go$");
  }

  /** Stat entries with an empty name are dropped and quoted names lose their quotes. */
  method TestGetChanged() returns (changed: seq<string>, err: Option<Error>)
    ensures err == None && changed == ["docs/index.md", "cmd/foo.go"]
  {
    var quoted := "\"docs/index.md\"";
    var stats := [FileStat(quoted), FileStat(""), FileStat("cmd/foo.go")];
    var c := new Comparison(".", "after", "before", [], ["^docs/.*"]);
    err := c.GetChanged(Stats(stats));
    changed := c.changed;
    TrimFromBounds(quoted, 1, |quoted| - 1);
    assert quoted[1..|quoted| - 1] == "docs/index.md";
    TrimKeepsUnquoted("cmd/foo.go");
    assert stats[..2][..1] == [FileStat(quoted)] && stats[..2] == [FileStat(quoted), FileStat("")];
    assert ChangedPaths([FileStat(quoted)]) == ["docs/index.md"];
  }

  /** A failing repository step is returned and leaves the changed paths as they were. */
  method TestGetChangedCommitNotFound() returns (changed: seq<string>, err: Option<Error>)
    ensures err == Some(CommitNotFound("before")) && changed == []
  {
    var c := new Comparison(".", "after", "before", [], ["^docs/.*"]);
    err := c.GetChanged(StepFailed(CommitNotFound("before")));
    changed := c.changed;
  }

  /**
   * As the code is written, two commits without a merge base pass getChanged without an
   * error and with no changed path, so the run is skipped, here even under a disallow list
   * that forbids skipping any Go change.
   */
  method NoMergeBaseSkipsAsWritten(eng: Engine) returns (getErr: Option<Error>, isSkip: bool, err: Option<Error>)
    ensures getErr == None && err == None && isSkip
  {
    var c := new Comparison(".", "after", "before", [".*\\.go$"], []);
    getErr := c.GetChangedAsWritten(NoCommonAncestor);
    isSkip, err := c.IsSkip(eng);
  }

  /** With the merge base check corrected, the same comparison stops with `NoMergeBase` instead. */
  method NoMergeBaseFailsCorrected() returns (getErr: Option<Error>, changed: seq<string>)
    ensures getErr == Some(NoMergeBase) && changed == []
  {
    var c := new Comparison(".", "after", "before", [".*\\.go$"], []);
    getErr := c.GetChanged(NoCommonAncestor);
    changed := c.changed;
  }
}
