/** What a call on a State-pattern state object does to its context. */
module Transition {
  /** The values one call assigns to the context's `state` property, in the
      order the assignments run, and the lines it prints. A constructor's
      `init` block runs before the assignment that stores the new object, so
      its own write comes first and is overwritten by the outer one. */
  datatype Effect<S, L> = Effect(writes: seq<S>, lines: seq<L>)

  /** The context's state once the call returns: its last write, or the state
      it started in when it wrote nothing. */
  function After<S, L>(s: S, e: Effect<S, L>): (t: S)
    ensures t == s || t in e.writes
    ensures |e.writes| > 0 ==> t == e.writes[|e.writes| - 1]
  {
    if |e.writes| == 0 then s else e.writes[|e.writes| - 1]
  }

  /** A call that only prints `line`. */
  function Print<S, L>(line: L): (e: Effect<S, L>)
    ensures e.writes == []
  {
    Effect([], [line])
  }

  /** `context.state = <new object>` whose constructor has effect `init`,
      followed by the lines `after`. */
  function Assign<S, L>(init: Effect<S, L>, target: S, after: seq<L>): (e: Effect<S, L>)
    ensures |e.writes| > 0 && e.writes[|e.writes| - 1] == target
  {
    Effect(init.writes + [target], init.lines + after)
  }
}
