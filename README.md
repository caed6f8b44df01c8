# drone-skip-pipeline: the skip decision, in Dafny

drone-skip-pipeline is a CI plugin that stops a pipeline without failing it when the commits
under test touched no file that matters. This project models its engine, which lives in
`plugin/compare.go` and `plugin/impl.go`.

- **Reducing the diff to changed paths** (`getChanged`, last part). The diff's per-file stats are
  reduced to an ordered list of paths. Entries with an empty name are dropped. Every other name
  loses its leading and trailing `"` characters (`strings.Trim`). This is `Compare.ChangedPaths`,
  computed by the loop in `Compare.ReduceStats`, which `Compare.Comparison.GetChanged` stores.
- **Deciding** (`isSkip`, `allowSkipCompare`, `disallowSkipCompare`). If nothing changed, the run
  is skipped. Otherwise the allow list must cover EVERY changed path, where a path is covered when
  some allow expression matches it. The disallow list vetoes the skip as soon as SOME disallow
  expression matches SOME path. An empty allow list allows everything. An empty disallow list
  forbids nothing. The disallow list always wins. An expression that does not compile is an error.
  The allow list is compiled first, and compiling stops at the first bad expression. The ghost
  function `Compare.Decision` states this with quantifiers. The methods that mirror the Go loops
  are proved against it, and the lemmas in `CompareProperties` prove what it promises.
- **Validating the settings** (`Validate`). At least one rule list must be non-empty.
  `Impl.Validate` models this check, and the lemmas in `Impl` relate it to the decision.

The regular-expression library is not modelled. `Regex.Engine` stands for any pair of relations
"this expression compiles" and "this expression finds a match somewhere in this string" (an
unanchored search). Every contract holds for every engine. Each scenario of
`plugin/compare_test.go` (module `CompareTest`) states as preconditions the few verdicts it relies
on, for example that `*` does not compile.

Files: `wrappers.dfy` (Option, Result), `regex.dfy` (the engine), `compare.dfy` (compare.go),
`compare_properties.dfy` (its properties), `impl.dfy` (impl.go), `compare_test.dfy`
(compare_test.go).

Three details of the code that the model keeps exactly:
- An expression that does not compile is an error only when at least one path changed. With no
  change, `isSkip` returns before it compiles anything.
- The disallow list is compiled only when the allow list compiled, or when the allow list is empty.
- The reported error names the first expression of the list that fails to compile.

## Model

| member | source | states |
|---|---|---|
| `Compare.Trim` | plugin/compare.go:87 | `strings.Trim` with the cutset `"`: never longer than the name, and no quote at either end of the result (its full meaning is `QuoteTrimIsTrim`) |
| `Compare.ChangedPaths` | plugin/compare.go:80-91 | the reduced path list is never longer than the list of stat entries |
| `Compare.ReduceStats` | plugin/compare.go:81-89 | the loop over the stats yields exactly `ChangedPaths` of them |
| `Compare.Comparison.GetChanged` | plugin/compare.go:49-92 | a failing repository step is returned and leaves `changed` untouched; finding no merge base is the error `NoMergeBase`, also leaving `changed` untouched; otherwise `changed` becomes exactly the reduction of the stats (corrected at lines 70-71, see Findings) |
| `Compare.Comparison.GetChangedAsWritten` | plugin/compare.go:49-92 | as written: a failing step is returned; a merge base search that finds no commit and no error returns no error and leaves `changed` untouched; otherwise `changed` becomes the reduction of the stats |
| `CompareProperties.ChangedPathsAppend` | plugin/compare.go:84-89 | the reduction works entry by entry: reducing `a + b` gives the reduction of `a` followed by that of `b`, so input order is kept |
| `CompareProperties.ChangedPathsMembers` | plugin/compare.go:84-89 | a path is in the list iff some entry with a non-empty name trims to it |
| `CompareProperties.ChangedPathsAllNamed` | plugin/compare.go:84-89 | when every entry is named, the list has one path per entry, at the same position, equal to the trimmed name |
| `CompareProperties.TrimLeftShape` | plugin/compare.go:87 | cutting leading quotes keeps a suffix, removes only quotes, and leaves no quote in front |
| `CompareProperties.TrimRightShape` | plugin/compare.go:87 | cutting trailing quotes keeps a prefix, removes only quotes, and leaves no quote at the end |
| `CompareProperties.TrimIsQuoteTrim` | plugin/compare.go:87 | `Trim` keeps a contiguous part of the name, with only quotes around it and no quote at either end |
| `CompareProperties.TrimFromBounds` | plugin/compare.go:87 | any part of the name with only quotes around it and no quote at its ends is exactly what `Trim` keeps |
| `CompareProperties.QuoteTrimIsTrim` | plugin/compare.go:87 | a string is the quote-trim of a name iff it equals `Trim` of that name (both directions) |
| `CompareProperties.TrimKeepsUnquoted` | plugin/compare.go:87 | a name with no quote at either end passes unchanged |
| `CompareProperties.TrimIdempotent` | plugin/compare.go:87 | trimming twice is the same as trimming once |
| `Compare.FirstInvalid` | plugin/compare.go:159-165 | gives no position iff every expression compiles; otherwise the position of an expression that does not compile, with every earlier one compiling |
| `Compare.CompileAll` | plugin/compare.go:158-165 | the compile loop stops with the error naming the first invalid expression; on success it gives one compiled expression per source expression, in order |
| `Compare.AllowSkipCompare` | plugin/compare.go:156-187 | compile error or false; otherwise true iff every path is matched by some expression |
| `Compare.DisallowSkipCompare` | plugin/compare.go:127-154 | compile error or false; otherwise true iff some expression matches some path |
| `Compare.Comparison.constructor` | plugin/compare.go:28-39 | stores the repository path, both commits and both rule lists, with no changed paths yet |
| `Compare.Comparison.IsSkip` | plugin/compare.go:95-125 | gives the decision's error (with skip false) or its verdict, read from the object's fields |
| `CompareProperties.EmptyVerdicts` | plugin/compare.go:127-187 | with no path every path is matched; with no path or no expression nothing is matched; with paths but no expression not every path is matched |
| `CompareProperties.CompileErrorIff` | plugin/compare.go:130-136 | a list compiles without error iff each expression compiles; an error names an expression of the list that does not compile |
| `CompareProperties.NothingChangedSkips` | plugin/compare.go:97-99 | no changed path: skip, whatever the lists hold, even expressions that do not compile |
| `CompareProperties.EmptyAllowListAllows` | plugin/compare.go:104-105 | with an empty allow list the decision is "no disallow expression matches" |
| `CompareProperties.EmptyDisallowListForbidsNothing` | plugin/compare.go:113-114 | with an empty disallow list the decision is the allow verdict alone |
| `CompareProperties.NoRulesSkip` | plugin/compare.go:101-122 | with both lists empty every change is skipped |
| `CompareProperties.UnmatchedPathForcesRun` | plugin/compare.go:169-180 | a changed path that no allow expression matches prevents the skip, whatever the disallow list holds |
| `CompareProperties.DisallowWins` | plugin/compare.go:122 | a changed path matched by a disallow expression prevents the skip, even when the allow list covers it |
| `CompareProperties.SkipExactly` | plugin/compare.go:101-122 | when everything compiles, a non-empty change is skipped iff each path is covered by the allow list (or it is empty) and matched by no disallow expression |
| `CompareProperties.InvalidAllowFails` | plugin/compare.go:107-110 | a bad allow expression makes any non-empty change an error naming a bad allow expression |
| `CompareProperties.InvalidDisallowFails` | plugin/compare.go:116-119 | a bad disallow expression makes any non-empty change an error; it names a disallow expression when the allow list compiles |
| `CompareProperties.FewerPathsKeepSkip` | plugin/compare.go:95-125 | if a change is skipped, so is every non-empty part of it, and errors do not depend on the paths |
| `CompareProperties.AppendedPathNeverEnablesSkip` | plugin/compare.go:95-125 | appending a path can turn a skip into a run, never a run into a skip |
| `CompareProperties.OnlyTheSetOfPathsMatters` | plugin/compare.go:138-187 | the decision depends only on which paths changed, not on their order or repetition |
| `Impl.Validate` | plugin/impl.go:18-25 | no error iff at least one rule list is non-empty; the only error is the missing skip pattern |
| `Impl.ValidateNeedsOneList` | plugin/impl.go:18-25 | validation fails iff both lists are empty; either list alone suffices; the repository path is ignored |
| `Impl.RejectedSettingsSkipEverything` | plugin/impl.go:20-22 | settings that validation rejects would skip every change |
| `Impl.ValidatedSkipIsJustified` | plugin/impl.go:18-25 | after validation a skip of a non-empty change is backed by the configured lists: a configured allow list matches every path, a configured disallow list matches none |
| `CompareTest.TestInvalidRegex` | plugin/compare_test.go:9-25 | `*` in the allow list gives an error and no skip |
| `CompareTest.TestCodeAllowSkipDocs1` | plugin/compare_test.go:27-44 | a code change under a docs-only allow list runs |
| `CompareTest.TestCodeAllowSkipDocs2` | plugin/compare_test.go:46-59 | a docs-only change under a docs-only allow list is skipped |
| `CompareTest.TestCodeDisallowSkipGoChanges1` | plugin/compare_test.go:61-78 | a Go file change under a Go disallow list runs |
| `CompareTest.TestCodeDisallowSkipGoChanges2` | plugin/compare_test.go:80-95 | a change without Go files under a Go disallow list is skipped |
| `CompareTest.TestNoChangesDisallowList` | plugin/compare_test.go:97-109 | no change is skipped for any engine, with a disallow list |
| `CompareTest.TestNoChangesAllowList` | plugin/compare_test.go:111-123 | no change is skipped for any engine, with an allow list |
| `CompareTest.TestDisallowBeatsAllow` | plugin/compare.go:122 | a path matched by both lists runs |
| `CompareTest.TestGetChanged` | plugin/compare.go:80-91 | an empty-named entry is dropped and a quoted name loses its quotes |
| `CompareTest.TestGetChangedCommitNotFound` | plugin/compare.go:54-57 | a commit that does not resolve is returned as the error and no path is recorded |
| `CompareTest.NoMergeBaseSkipsAsWritten` | plugin/compare.go:69-72 | as written, two commits without a merge base give no error from getChanged and then a skip, even under a Go disallow list |
| `CompareTest.NoMergeBaseFailsCorrected` | plugin/compare.go:69-72 | corrected (see Findings), the same comparison stops with `NoMergeBase` and records no path |

## Findings

| source | as written | input that shows it | evidently intended | confidence | as-written member | corrected member |
|---|---|---|---|---|---|---|
| plugin/compare.go:70-71 | one guard handles both a merge base error and an empty merge base list by returning the wrapped error; wrapping a nil error gives nil, so an empty list without an error makes getChanged succeed and leave `changed` empty | two commits with unrelated histories (`NoCommonAncestor`); `isSkip` then finds no changed path and skips, whatever the rule lists say | getChanged fails with "could not find common merge base" | high; not executed | `Compare.Comparison.GetChangedAsWritten`, `CompareTest.NoMergeBaseSkipsAsWritten` | `Compare.Comparison.GetChanged`, `CompareTest.NoMergeBaseFailsCorrected` |

## Left out

- `open` and the repository part of `getChanged`: opening the repository, resolving both commits, the merge base and the patch. These are repository I/O in a library that is not part of this model. `GetChanged` receives their outcome as a parameter (`Compare.Lookup`): one of their errors, a merge base search that found no commit without reporting an error, or the per-file stats.
- The addition and deletion counts of the stats. The skip decision never reads them.
- All console output, and the wording of error messages. The messages print a nil compiled expression, which is cosmetic. The model's error carries the offending expression instead.
- The regular-expression engine. Compilation and matching are the relations of an arbitrary `Regex.Engine`.
- `Execute` in plugin/impl.go: it builds the comparison, runs the three steps and ends the process with status 78 on a skip. As written it passes six arguments to the five-parameter constructor. This is process plumbing around the modelled steps.
- The command line: flags, environment files and exit-code mapping (cmd/drone-skip-pipeline/main.go, cmd/drone-skip-pipeline/config.go).
- Go's slices may be nil. The model's sequences cannot be nil, and the code treats nil and empty alike (`len == 0`).
