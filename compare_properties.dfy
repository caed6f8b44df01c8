/**
 * What the reduction of the stat entries and the skip decision of plugin/compare.go promise,
 * proved about the functions that specify them.
 */
module CompareProperties {
  import opened Wrappers
  import opened Regex
  import opened Compare

  // ---------------------------------------------------------------------------------------
  // Quote trimming

  /** `TrimLeft` keeps a suffix of `s`, cuts only quotes, and stops at the first other character. */
  lemma {:induction false} TrimLeftShape(s: string)
    ensures TrimLeft(s) == s[|s| - |TrimLeft(s)|..]
    ensures forall k :: 0 <= k < |s| - |TrimLeft(s)| ==> s[k] == Quote
    ensures TrimLeft(s) == [] || TrimLeft(s)[0] != Quote
  {
    if |s| > 0 && s[0] == Quote {
      TrimLeftShape(s[1..]);
      assert s[1..][|s| - 1 - |TrimLeft(s)|..] == s[|s| - |TrimLeft(s)|..];
    }
  }

  /** `TrimRight` keeps a prefix of `s`, cuts only quotes, and stops at the last other character. */
  lemma {:induction false} TrimRightShape(s: string)
    ensures TrimRight(s) == s[..|TrimRight(s)|]
    ensures forall k :: |TrimRight(s)| <= k < |s| ==> s[k] == Quote
    ensures TrimRight(s) == [] || TrimRight(s)[|TrimRight(s)| - 1] != Quote
  {
    if |s| > 0 && s[|s| - 1] == Quote {
      TrimRightShape(s[..|s| - 1]);
      assert s[..|s| - 1][..|TrimRight(s)|] == s[..|TrimRight(s)|];
    }
  }

  /** `Trim` cuts off exactly the leading and the trailing quotes. */
  lemma TrimIsQuoteTrim(s: string)
    ensures IsQuoteTrim(s, Trim(s))
  {
    var t := TrimLeft(s);
    var r := Trim(s);
    TrimLeftShape(s);
    TrimRightShape(t);
    var a := |s| - |t|;
    var b := a + |r|;
    assert r == t[..|r|];
    assert r == s[a..b];
    forall k | b <= k < |s| ensures s[k] == Quote {
      assert s[k] == t[k - a];
    }
    if r != [] {
      assert r[0] == t[0];
    }
  }

  /** A part of `s` with only quotes around it and none at its ends is what `Trim` keeps. */
  lemma TrimFromBounds(s: string, a: nat, b: nat)
    requires a <= b <= |s|
    requires forall k :: 0 <= k < a ==> s[k] == Quote
    requires forall k :: b <= k < |s| ==> s[k] == Quote
    requires a == b || (s[a] != Quote && s[b - 1] != Quote)
    ensures Trim(s) == s[a..b]
  {
    var t := TrimLeft(s);
    TrimLeftShape(s);
    TrimRightShape(t);
    var lead := |s| - |t|;
    var r := Trim(s);
    assert t == [] || t[0] == s[lead];
    if a == b {
      // every character of s is a quote, so nothing is left
      assert t == [];
    } else {
      assert s[a] != Quote && s[b - 1] != Quote;
      assert lead == a;
      assert t[b - a - 1] == s[b - 1];
      assert r == [] || r[|r| - 1] == t[|r| - 1] == s[a + |r| - 1];
      assert |r| == b - a;
      assert r == t[..|r|];
    }
  }

  /** Cutting the quotes off a name has exactly one outcome, and `Trim` computes it. */
  lemma QuoteTrimIsTrim(s: string, r: string)
    ensures IsQuoteTrim(s, r) <==> r == Trim(s)
  {
    if r == Trim(s) {
      TrimIsQuoteTrim(s);
    }
    if IsQuoteTrim(s, r) {
      var a, b :| 0 <= a <= b <= |s| && r == s[a..b]
        && (forall k :: 0 <= k < a ==> s[k] == Quote)
        && (forall k :: b <= k < |s| ==> s[k] == Quote)
        && (r == [] || (r[0] != Quote && r[|r| - 1] != Quote));
      if r != [] {
        assert s[a] == r[0] && s[b - 1] == r[|r| - 1];
      }
      TrimFromBounds(s, a, b);
    }
  }

  /** A name with no quote at either end is kept as it is. */
  lemma TrimKeepsUnquoted(s: string)
    requires s == [] || (s[0] != Quote && s[|s| - 1] != Quote)
    ensures Trim(s) == s
  {
  }

  /** Trimming twice trims no more than trimming once. */
  lemma TrimIdempotent(s: string)
    ensures Trim(Trim(s)) == Trim(s)
  {
    TrimIsQuoteTrim(s);
    TrimKeepsUnquoted(Trim(s));
  }

  // ---------------------------------------------------------------------------------------
  // The changed paths

  /** The reduction works entry by entry: it keeps the order of the stat entries. */
  lemma {:induction false} ChangedPathsAppend(a: seq<FileStat>, b: seq<FileStat>)
    ensures ChangedPaths(a + b) == ChangedPaths(a) + ChangedPaths(b)
  {
    if b == [] {
      assert a + b == a;
    } else {
      var b' := b[..|b| - 1];
      assert (a + b)[..|a + b| - 1] == a + b';
      ChangedPathsAppend(a, b');
    }
  }

  /** The stat entry `st` yields the changed path `p`. */
  ghost predicate Yields(st: FileStat, p: string) {
    st.name != "" && p == Trim(st.name)
  }

  /** A path is changed exactly when some entry has a non-empty name that trims to it. */
  lemma {:induction false} ChangedPathsMembers(stats: seq<FileStat>, p: string)
    ensures p in ChangedPaths(stats) <==> exists i :: 0 <= i < |stats| && Yields(stats[i], p)
  {
    if stats != [] {
      var n := |stats| - 1;
      var init, last := stats[..n], stats[n];
      var tail := if last.name != "" then [Trim(last.name)] else [];
      assert ChangedPaths(stats) == ChangedPaths(init) + tail;
      ChangedPathsMembers(init, p);
      if p in ChangedPaths(stats) {
        if p in ChangedPaths(init) {
          var i :| 0 <= i < |init| && Yields(init[i], p);
          assert stats[i] == init[i];
          assert Yields(stats[i], p);
        } else {
          assert p in tail;
          assert Yields(stats[n], p);
        }
      }
      if exists i :: 0 <= i < |stats| && Yields(stats[i], p) {
        var i :| 0 <= i < |stats| && Yields(stats[i], p);
        if i < n {
          assert init[i] == stats[i];
          assert p in ChangedPaths(init);
        } else {
          assert last.name != "" && p == Trim(last.name);
          assert tail == [p];
        }
        assert p in ChangedPaths(stats);
      }
    }
  }

  /** When every entry is named, each entry gives the path at its own position. */
  lemma {:induction false} ChangedPathsAllNamed(stats: seq<FileStat>)
    requires forall i :: 0 <= i < |stats| ==> stats[i].name != ""
    ensures |ChangedPaths(stats)| == |stats|
    ensures forall i :: 0 <= i < |stats| ==> ChangedPaths(stats)[i] == Trim(stats[i].name)
  {
    if stats != [] {
      var n := |stats| - 1;
      var init := stats[..n];
      assert forall i :: 0 <= i < n ==> init[i] == stats[i];
      ChangedPathsAllNamed(init);
      var before := ChangedPaths(init);
      var paths := ChangedPaths(stats);
      assert paths == before + [Trim(stats[n].name)];
      forall i | 0 <= i < |stats| ensures paths[i] == Trim(stats[i].name) {
        if i < n {
          assert paths[i] == before[i];
          assert init[i] == stats[i];
        } else {
          assert paths[i] == Trim(stats[n].name);
        }
      }
    }
  }

  // ---------------------------------------------------------------------------------------
  // The two verdicts at their edges

  /**
   * With no path every path is matched, and with no path or no expression nothing is matched;
   * the defaults the decision uses for an empty list agree with the latter.
   */
  lemma EmptyVerdicts(eng: Engine, paths: seq<string>, exprs: seq<string>)
    ensures EveryPathMatched(eng, [], exprs)
    ensures !SomePathMatched(eng, [], exprs) && !SomePathMatched(eng, paths, [])
    ensures paths != [] ==> !EveryPathMatched(eng, paths, [])
  {
    if paths != [] {
      assert paths[0] in paths;
    }
  }

  /** An expression list compiles without error exactly when each expression compiles. */
  lemma CompileErrorIff(eng: Engine, exprs: seq<string>)
    ensures CompileError(eng, exprs).None? <==> forall e :: e in exprs ==> Compiles(eng, e)
    ensures CompileError(eng, exprs).Some? ==>
      CompileError(eng, exprs).value.InvalidPattern? &&
      CompileError(eng, exprs).value.expr in exprs &&
      !Compiles(eng, CompileError(eng, exprs).value.expr)
  {
  }

  // ---------------------------------------------------------------------------------------
  // The skip decision

  /** Nothing changed: skip, whatever the lists hold, even expressions that do not compile. */
  lemma NothingChangedSkips(eng: Engine, allow: seq<string>, disallow: seq<string>)
    ensures Decision(eng, [], allow, disallow) == Success(true)
  {
  }

  /** An empty allow list allows every change; only the disallow list can then prevent the skip. */
  lemma EmptyAllowListAllows(eng: Engine, changed: seq<string>, disallow: seq<string>)
    ensures CompileError(eng, disallow).None? ==>
      Decision(eng, changed, [], disallow) == Success(!SomePathMatched(eng, changed, disallow))
  {
  }

  /** An empty disallow list forbids nothing; only the allow list can then prevent the skip. */
  lemma EmptyDisallowListForbidsNothing(eng: Engine, changed: seq<string>, allow: seq<string>)
    requires allow != []
    ensures CompileError(eng, allow).None? ==>
      Decision(eng, changed, allow, []) == Success(EveryPathMatched(eng, changed, allow))
  {
  }

  /** With both lists empty every change is skipped. */
  lemma NoRulesSkip(eng: Engine, changed: seq<string>)
    ensures Decision(eng, changed, [], []) == Success(true)
  {
  }

  /** A path that no allow expression matches forces a run, whatever the disallow list holds. */
  lemma UnmatchedPathForcesRun(eng: Engine, changed: seq<string>, allow: seq<string>, disallow: seq<string>, s: string)
    requires s in changed && allow != []
    requires forall e :: e in allow ==> !Matches(eng, e, s)
    ensures Decision(eng, changed, allow, disallow) != Success(true)
  {
  }

  /**
   * A path that some disallow expression matches forces a run, even when that path (and every
   * other) is matched by the allow list as well: the disallow list wins.
   */
  lemma DisallowWins(eng: Engine, changed: seq<string>, allow: seq<string>, disallow: seq<string>, s: string, e: string)
    requires s in changed && e in disallow && Matches(eng, e, s)
    ensures Decision(eng, changed, allow, disallow) != Success(true)
  {
  }

  /**
   * When every expression compiles, a non-empty change is skipped exactly when each changed path
   * is covered by the allow list (or the allow list is empty) and matched by no disallow expression.
   */
  lemma SkipExactly(eng: Engine, changed: seq<string>, allow: seq<string>, disallow: seq<string>)
    requires changed != []
    requires forall e :: e in allow ==> Compiles(eng, e)
    requires forall e :: e in disallow ==> Compiles(eng, e)
    ensures Decision(eng, changed, allow, disallow).Success?
    ensures Decision(eng, changed, allow, disallow).value <==>
      forall s :: s in changed ==> (allow == [] || MatchesAny(eng, allow, s)) && !MatchesAny(eng, disallow, s)
  {
  }

  /**
   * An allow expression that does not compile makes a non-empty change an error, whatever the
   * paths and the other expressions are; the error names an expression of the allow list that
   * does not compile.
   */
  lemma InvalidAllowFails(eng: Engine, changed: seq<string>, allow: seq<string>, disallow: seq<string>, bad: string)
    requires changed != [] && bad in allow && !Compiles(eng, bad)
    ensures Decision(eng, changed, allow, disallow).Failure?
    ensures Decision(eng, changed, allow, disallow).error.InvalidPattern?
    ensures Decision(eng, changed, allow, disallow).error.expr in allow
    ensures !Compiles(eng, Decision(eng, changed, allow, disallow).error.expr)
  {
  }

  /**
   * A disallow expression that does not compile makes a non-empty change an error too; the
   * disallow list is compiled only once the allow list has compiled, so the error names the
   * disallow expression only then.
   */
  lemma InvalidDisallowFails(eng: Engine, changed: seq<string>, allow: seq<string>, disallow: seq<string>, bad: string)
    requires changed != [] && bad in disallow && !Compiles(eng, bad)
    ensures Decision(eng, changed, allow, disallow).Failure?
    ensures Decision(eng, changed, allow, disallow).error.InvalidPattern?
    ensures !Compiles(eng, Decision(eng, changed, allow, disallow).error.expr)
    ensures (forall e :: e in allow ==> Compiles(eng, e)) ==>
      Decision(eng, changed, allow, disallow).error.expr in disallow
  {
  }

  /**
   * More changed paths never turn a run into a skip: if a change is skipped, so is every
   * non-empty part of it, and the two fail alike.
   */
  lemma FewerPathsKeepSkip(eng: Engine, changed: seq<string>, more: seq<string>, allow: seq<string>, disallow: seq<string>)
    requires changed != []
    requires forall s :: s in changed ==> s in more
    ensures Decision(eng, more, allow, disallow).Failure? <==> Decision(eng, changed, allow, disallow).Failure?
    ensures Decision(eng, more, allow, disallow) == Success(true) ==> Decision(eng, changed, allow, disallow) == Success(true)
  {
    assert changed[0] in more;
  }

  /** Appending a changed path can turn a skip into a run, never a run into a skip. */
  lemma AppendedPathNeverEnablesSkip(eng: Engine, changed: seq<string>, p: string, allow: seq<string>, disallow: seq<string>)
    ensures Decision(eng, changed + [p], allow, disallow) == Success(true) ==>
      Decision(eng, changed, allow, disallow) == Success(true)
  {
  }

  /** The decision depends on which paths changed, not on their order or repetition. */
  lemma OnlyTheSetOfPathsMatters(eng: Engine, changed: seq<string>, other: seq<string>, allow: seq<string>, disallow: seq<string>)
    requires forall s :: s in changed <==> s in other
    ensures Decision(eng, changed, allow, disallow) == Decision(eng, other, allow, disallow)
  {
    assert changed != [] ==> changed[0] in other;
    assert other != [] ==> other[0] in changed;
    if changed != [] {
      FewerPathsKeepSkip(eng, changed, other, allow, disallow);
      FewerPathsKeepSkip(eng, other, changed, allow, disallow);
    }
  }
}
