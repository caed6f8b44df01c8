/**
 * The regular-expression library the plugin relies on, reduced to what the skip decision
 * observes of it: whether an expression compiles, and whether a compiled expression finds a
 * match somewhere in a string (an unanchored search, as `MatchString` does).
 *
 * The engine itself is not modelled. An `Engine` is any choice of the two relations, and every
 * statement in this project holds for all of them; a concrete scenario states the verdicts it
 * relies on (for instance that `*` does not compile) as a precondition on the engine.
 */
module Regex {
  import opened Wrappers

  datatype Engine = Engine(compiles: string -> bool, searches: (string, string) -> bool)

  /** A compiled expression; like the library's value it remembers its source text. */
  datatype Regexp = Regexp(source: string)

  predicate Compiles(eng: Engine, expr: string) {
    eng.compiles(expr)
  }

  /** The expression `expr` finds a match somewhere in `s`. */
  predicate Matches(eng: Engine, expr: string, s: string) {
    eng.searches(expr, s)
  }

  /** Compilation: a compiled expression, or nothing when the text is not a valid expression. */
  function Compile(eng: Engine, expr: string): Option<Regexp> {
    if Compiles(eng, expr) then Some(Regexp(expr)) else None
  }

  predicate MatchString(eng: Engine, re: Regexp, s: string) {
    Matches(eng, re.source, s)
  }
}
