/** The settings check of plugin/impl.go and how it bears on the skip decision. */
module Impl {
  import opened Wrappers
  import opened Regex
  import opened Compare

  /** The plugin's settings: where the repository is and the two rule lists. */
  datatype Settings = Settings(gitPath: string, disallowSkipChanged: seq<string>, allowSkipChanged: seq<string>)

  /** Neither an allow nor a disallow expression was configured. */
  datatype SettingsError = NoSkipPattern

  /** Validate: the settings must name at least one allow or disallow expression. */
  function Validate(settings: Settings): (err: Option<SettingsError>)
    ensures err.None? <==> settings.allowSkipChanged != [] || settings.disallowSkipChanged != []
    ensures err.Some? ==> err.value == NoSkipPattern
  {
    if |settings.disallowSkipChanged| == 0 && |settings.allowSkipChanged| == 0 then Some(NoSkipPattern)
    else None
  }

  /**
   * Validation fails exactly when both lists are empty, so either list alone is enough;
   * the repository path plays no part.
   */
  lemma ValidateNeedsOneList(settings: Settings, gitPath: string)
    ensures Validate(settings).Some? <==> settings.allowSkipChanged == [] && settings.disallowSkipChanged == []
    ensures settings.allowSkipChanged != [] ==> Validate(settings) == None
    ensures settings.disallowSkipChanged != [] ==> Validate(settings) == None
    ensures Validate(settings.(gitPath := gitPath)) == Validate(settings)
  {
  }

  /**
   * Validation rejects exactly the settings under which the decision could never be anything
   * but a skip: with both lists empty every change is skipped.
   */
  lemma RejectedSettingsSkipEverything(eng: Engine, settings: Settings, changed: seq<string>)
    requires Validate(settings).Some?
    ensures Decision(eng, changed, settings.allowSkipChanged, settings.disallowSkipChanged) == Success(true)
  {
  }

  /**
   * Once validated, a non-empty change is skipped only because a configured list says so:
   * a configured allow list matches every changed path, a configured disallow list matches
   * none, and at least one of the two is configured.
   */
  lemma ValidatedSkipIsJustified(eng: Engine, settings: Settings, changed: seq<string>)
    requires Validate(settings) == None && changed != []
    requires Decision(eng, changed, settings.allowSkipChanged, settings.disallowSkipChanged) == Success(true)
    ensures settings.allowSkipChanged != [] ==> EveryPathMatched(eng, changed, settings.allowSkipChanged)
    ensures settings.disallowSkipChanged != [] ==> !SomePathMatched(eng, changed, settings.disallowSkipChanged)
    ensures (settings.allowSkipChanged != [] && EveryPathMatched(eng, changed, settings.allowSkipChanged))
         || (settings.disallowSkipChanged != [] && !SomePathMatched(eng, changed, settings.disallowSkipChanged))
  {
  }
}
