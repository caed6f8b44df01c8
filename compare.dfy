/**
 * The change-set reduction and the skip decision of plugin/compare.go.
 *
 * A run compares two commits: the repository steps produce one stat entry per changed file,
 * the entries are reduced to a list of changed paths, and the paths are judged against two
 * lists of regular expressions. The allow list lets a run be skipped only when EVERY changed
 * path is matched by some allow expression; the disallow list forces a run as soon as SOME
 * changed path is matched by some disallow expression, and it always wins.
 */
module Compare {
  import opened Wrappers
  import opened Regex

  /** Why a run could not reach a decision. */
  datatype Error =
    | CommitNotFound(sha: string)   // a commit id did not resolve
    | NoMergeBase                   // no merge base of the two commits was found
    | DiffFailed                    // the patch between merge base and commit failed
    | InvalidPattern(expr: string)  // a rule expression does not compile

  /** One entry of the diff's per-file statistics; only its name matters here. */
  datatype FileStat = FileStat(name: string)

  /** What the repository steps of getChanged (both commits, the merge base, the patch) produce. */
  datatype Lookup =
    | Stats(stats: seq<FileStat>)   // the patch's per-file statistics
    | StepFailed(error: Error)      // a step returned an error
    | NoCommonAncestor              // the merge base search returned no commit and no error

  // ---------------------------------------------------------------------------------------
  // Trimming quotes from a file name, as strings.Trim(name, "\"") does

  const Quote: char := '"'

  /**
   * `r` is what is left of `s` once every leading and every trailing quote is cut off:
   * a contiguous part of `s`, only quotes around it, and no quote at either end of it.
   */
  ghost predicate IsQuoteTrim(s: string, r: string) {
    exists a, b :: 0 <= a <= b <= |s| && r == s[a..b]
      && (forall k :: 0 <= k < a ==> s[k] == Quote)
      && (forall k :: b <= k < |s| ==> s[k] == Quote)
      && (r == [] || (r[0] != Quote && r[|r| - 1] != Quote))
  }

  /** `s` without its leading quotes. */
  function TrimLeft(s: string): (r: string)
    ensures |r| <= |s|
    ensures r == [] || r[0] != Quote
  {
    if |s| > 0 && s[0] == Quote then TrimLeft(s[1..]) else s
  }

  /** `s` without its trailing quotes. */
  function TrimRight(s: string): (r: string)
    ensures |r| <= |s|
    ensures r == [] || r[|r| - 1] != Quote
    ensures r == [] || r[0] == s[0]
  {
    if |s| > 0 && s[|s| - 1] == Quote then TrimRight(s[..|s| - 1]) else s
  }

  /** strings.Trim(s, "\""): `s` without its leading and its trailing quotes. */
  function Trim(s: string): (r: string)
    ensures |r| <= |s|
    ensures r == [] || (r[0] != Quote && r[|r| - 1] != Quote)
  {
    TrimRight(TrimLeft(s))
  }

  // ---------------------------------------------------------------------------------------
  // Reducing the per-file statistics to the list of changed paths

  /**
   * The changed paths kept from the stat entries: entries with an empty name are dropped,
   * every other name is trimmed of quotes, and the order of the entries is kept.
   */
  function ChangedPaths(stats: seq<FileStat>): (paths: seq<string>)
    ensures |paths| <= |stats|
  {
    if stats == [] then []
    else
      var last := stats[|stats| - 1];
      ChangedPaths(stats[..|stats| - 1]) + (if last.name != "" then [Trim(last.name)] else [])
  }

  // ---------------------------------------------------------------------------------------
  // The verdicts, stated with quantifiers

  /** Some expression of `exprs` finds a match in the path `s`. */
  ghost predicate MatchesAny(eng: Engine, exprs: seq<string>, s: string) {
    exists e :: e in exprs && Matches(eng, e, s)
  }

  /** Allow verdict: every changed path is matched by some expression (true when nothing changed). */
  ghost predicate EveryPathMatched(eng: Engine, paths: seq<string>, exprs: seq<string>) {
    forall s :: s in paths ==> MatchesAny(eng, exprs, s)
  }

  /** Disallow verdict: some changed path is matched by some expression. */
  ghost predicate SomePathMatched(eng: Engine, paths: seq<string>, exprs: seq<string>) {
    exists s :: s in paths && MatchesAny(eng, exprs, s)
  }

  /** The position of the first expression that does not compile, where compiling stops. */
  function FirstInvalid(eng: Engine, exprs: seq<string>): (r: Option<nat>)
    ensures r.None? <==> forall k :: 0 <= k < |exprs| ==> Compiles(eng, exprs[k])
    ensures r.Some? ==> r.value < |exprs| && !Compiles(eng, exprs[r.value])
    ensures r.Some? ==> forall k :: 0 <= k < r.value ==> Compiles(eng, exprs[k])
  {
    if exprs == [] then None
    else if !Compiles(eng, exprs[0]) then Some(0)
    else match FirstInvalid(eng, exprs[1..])
      case None => None
      case Some(k) => Some(k + 1)
  }

  /** The error compiling `exprs` ends with, if any: it names the first invalid expression. */
  function CompileError(eng: Engine, exprs: seq<string>): Option<Error> {
    match FirstInvalid(eng, exprs)
    case None => None
    case Some(k) => Some(InvalidPattern(exprs[k]))
  }

  /**
   * The skip decision for a list of changed paths under an allow and a disallow list.
   * Nothing changed: skip. Otherwise a list that does not compile is an error (the allow list is
   * compiled first); an empty allow list allows everything, an empty disallow list forbids
   * nothing; and the run is skipped when allowed and not forbidden.
   */
  ghost function Decision(eng: Engine, changed: seq<string>, allow: seq<string>, disallow: seq<string>): Result<bool, Error> {
    if |changed| == 0 then Success(true)
    else if |allow| > 0 && CompileError(eng, allow).Some? then Failure(CompileError(eng, allow).value)
    else if |disallow| > 0 && CompileError(eng, disallow).Some? then Failure(CompileError(eng, disallow).value)
    else
      var allowed := |allow| == 0 || EveryPathMatched(eng, changed, allow);
      var disallowed := |disallow| > 0 && SomePathMatched(eng, changed, disallow);
      Success(allowed && !disallowed)
  }

  // ---------------------------------------------------------------------------------------
  // The operations

  /** The loop at the end of getChanged: keeps each named entry, without its quotes. */
  method ReduceStats(fileStats: seq<FileStat>) returns (paths: seq<string>)
    ensures paths == ChangedPaths(fileStats)
  {
    paths := [];
    for i := 0 to |fileStats|
      invariant paths == ChangedPaths(fileStats[..i])
    {
      assert fileStats[..i + 1][..i] == fileStats[..i];
      if fileStats[i].name != "" {
        paths := paths + [Trim(fileStats[i].name)];
      }
    }
    assert fileStats[..|fileStats|] == fileStats;
  }

  /** Compiles every expression in order, stopping at the first one that does not compile. */
  method CompileAll(eng: Engine, exprs: seq<string>) returns (res: seq<Regexp>, err: Option<Error>)
    ensures err == CompileError(eng, exprs)
    ensures err.None? ==> |res| == |exprs| && forall k :: 0 <= k < |exprs| ==> res[k].source == exprs[k]
  {
    res := [];
    for i := 0 to |exprs|
      invariant |res| == i
      invariant forall k :: 0 <= k < i ==> res[k].source == exprs[k] && Compiles(eng, exprs[k])
    {
      var re := Compile(eng, exprs[i]);
      if re.None? {
        return res, Some(InvalidPattern(exprs[i]));
      }
      res := res + [re.value];
    }
    err := None;
  }

  /** allowSkipCompare: true when every path is matched by some expression. */
  method AllowSkipCompare(eng: Engine, paths: seq<string>, exprs: seq<string>) returns (skip: bool, err: Option<Error>)
    ensures err == CompileError(eng, exprs)
    ensures err.Some? ==> !skip
    ensures err.None? ==> (skip <==> EveryPathMatched(eng, paths, exprs))
  {
    var res;
    res, err := CompileAll(eng, exprs);
    if err.Some? {
      return false, err;
    }
    skip := true;
    for i := 0 to |paths|
      invariant skip <==> forall k :: 0 <= k < i ==> MatchesAny(eng, exprs, paths[k])
    {
      var fileSkip := false;
      for j := 0 to |res|
        invariant fileSkip <==> exists m :: 0 <= m < j && Matches(eng, exprs[m], paths[i])
      {
        fileSkip := fileSkip || MatchString(eng, res[j], paths[i]);
      }
      assert fileSkip <==> MatchesAny(eng, exprs, paths[i]);
      if !fileSkip {
        // one changed path is not allowed to be skipped
        skip := false;
      }
    }
  }

  /** disallowSkipCompare: true when some expression matches some path. */
  method DisallowSkipCompare(eng: Engine, paths: seq<string>, exprs: seq<string>) returns (disallowSkip: bool, err: Option<Error>)
    ensures err == CompileError(eng, exprs)
    ensures err.Some? ==> !disallowSkip
    ensures err.None? ==> (disallowSkip <==> SomePathMatched(eng, paths, exprs))
  {
    var res;
    res, err := CompileAll(eng, exprs);
    if err.Some? {
      return false, err;
    }
    disallowSkip := false;
    for j := 0 to |res|
      invariant disallowSkip <==> exists m, k :: 0 <= m < j && 0 <= k < |paths| && Matches(eng, exprs[m], paths[k])
    {
      for k := 0 to |paths|
        invariant disallowSkip <==>
          (exists m, k' :: 0 <= m < j && 0 <= k' < |paths| && Matches(eng, exprs[m], paths[k'])) ||
          (exists k' :: 0 <= k' < k && Matches(eng, exprs[j], paths[k']))
      {
        if MatchString(eng, res[j], paths[k]) {
          disallowSkip := true;
        }
      }
    }
    if disallowSkip {
      var m, k :| 0 <= m < |exprs| && 0 <= k < |paths| && Matches(eng, exprs[m], paths[k]);
      assert MatchesAny(eng, exprs, paths[k]);
    }
  }

  /** The state of one comparison: where the repository is, the two commits and the two rule lists. */
  class Comparison {
    var gitPath: string
    var commitShaAfter: string
    var commitShaBefore: string
    var changed: seq<string>
    var disallowSkipChanged: seq<string>
    var allowSkipChanged: seq<string>

    constructor (gitPath: string, commitShaAfter: string, commitShaBefore: string,
                 disallowSkipChanged: seq<string>, allowSkipChanged: seq<string>)
      ensures this.gitPath == gitPath
      ensures this.commitShaAfter == commitShaAfter && this.commitShaBefore == commitShaBefore
      ensures this.disallowSkipChanged == disallowSkipChanged && this.allowSkipChanged == allowSkipChanged
      ensures changed == []
    {
      this.gitPath := gitPath;
      this.commitShaAfter := commitShaAfter;
      this.commitShaBefore := commitShaBefore;
      this.changed := [];
      this.disallowSkipChanged := disallowSkipChanged;
      this.allowSkipChanged := allowSkipChanged;
    }

    /**
     * getChanged, with its merge base check corrected. `lookup` is the outcome of the repository
     * steps: an error, which is returned and leaves `changed` as it was, or the patch's per-file
     * stats, which are reduced to the changed paths. Unlike the code as written (see
     * `GetChangedAsWritten`), a merge base search that finds no commit is the error `NoMergeBase`.
     */
    method GetChanged(lookup: Lookup) returns (err: Option<Error>)
      modifies this`changed
      ensures lookup.StepFailed? ==> err == Some(lookup.error) && changed == old(changed)
      ensures lookup.NoCommonAncestor? ==> err == Some(NoMergeBase) && changed == old(changed)
      ensures lookup.Stats? ==> err == None && changed == ChangedPaths(lookup.stats)
    {
      match lookup
      case StepFailed(e) =>
        return Some(e);
      case NoCommonAncestor =>
        return Some(NoMergeBase);
      case Stats(fileStats) =>
        changed := ReduceStats(fileStats);
        err := None;
    }

    /**
     * getChanged as the code is written: when the merge base search finds no commit and
     * reports no error, the error it wraps is nil, so nothing is returned and `changed` stays
     * as it was.
     */
    method GetChangedAsWritten(lookup: Lookup) returns (err: Option<Error>)
      modifies this`changed
      ensures lookup.StepFailed? ==> err == Some(lookup.error) && changed == old(changed)
      ensures lookup.NoCommonAncestor? ==> err == None && changed == old(changed)
      ensures lookup.Stats? ==> err == None && changed == ChangedPaths(lookup.stats)
    {
      match lookup
      case StepFailed(e) =>
        return Some(e);
      case NoCommonAncestor =>
        return None;
      case Stats(fileStats) =>
        changed := ReduceStats(fileStats);
        err := None;
    }

    /** isSkip: the skip decision for the changed paths under the two rule lists. */
    method IsSkip(eng: Engine) returns (skip: bool, err: Option<Error>)
      ensures err.None? <==> Decision(eng, changed, allowSkipChanged, disallowSkipChanged).Success?
      ensures err.None? ==> skip == Decision(eng, changed, allowSkipChanged, disallowSkipChanged).value
      ensures err.Some? ==> !skip && err.value == Decision(eng, changed, allowSkipChanged, disallowSkipChanged).error
    {
      if |changed| == 0 {
        return true, None;
      }
      var allowSkip := false;
      var disallowSkip := false;
      if |allowSkipChanged| == 0 {
        allowSkip := true;
      } else {
        allowSkip, err := AllowSkipCompare(eng, changed, allowSkipChanged);
        if err.Some? {
          return false, err;
        }
      }
      if |disallowSkipChanged| == 0 {
        disallowSkip := false;
      } else {
        disallowSkip, err := DisallowSkipCompare(eng, changed, disallowSkipChanged);
        if err.Some? {
          return false, err;
        }
      }
      skip := allowSkip && !disallowSkip;
      err := None;
    }
  }
}
