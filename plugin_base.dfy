/** The plugin form: every generator is a `can_handle`/`generate` pair, and the generators
    that recurse call back into the plugin dispatcher `ValueGenerator.generate`. That
    dispatcher and its order of generators are not part of this model; they enter as a
    parameter of the recursive generators. */
module PluginBase {
  import opened Types

  /** `ValueGenerator.generate(field_type, field_name, current_depth, max_depth)`, reading the
      random source from the given position. */
  type ValueGen = (Ty, Option<string>, int, int, nat) -> Outcome

  /** `v` is a value the plugin dispatcher produces for `t` at depth `d` when it is given no
      field name, for some state of the random source. */
  ghost predicate MadeBy(vg: ValueGen, t: Ty, d: int, maxDepth: int, v: Value) {
    exists p: nat :: vg(t, None, d, maxDepth, p).Done? && vg(t, None, d, maxDepth, p).value == v
  }
}
