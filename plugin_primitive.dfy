/** `PrimitiveGenerator`: the plugin form of the primitive table. It shares the table with
    the monolithic dispatcher; a type outside the table makes the lookup raise `KeyError`. */
module PluginPrimitive {
  import opened Types
  import opened Primitives
  import Dispatcher

  /** `can_handle`: the type is a key of the table. */
  predicate CanHandle(t: Ty) {
    IsPrimitive(t)
  }

  /** `generate`: the table entry for `t`; the name and the depths are not read. */
  function Generate(tape: Tape, t: Ty, name: Option<string>, d: int, maxDepth: int, pos: nat): (o: Outcome)
    ensures o.Done? <==> CanHandle(t)
    ensures o.Done? ==> PrimitiveConforms(o.value, t)
    ensures o.Raised? ==> o.error == WrongKind && o.next == pos
  {
    if IsPrimitive(t) then PrimitiveValue(tape, t, pos) else Raised(WrongKind, pos)
  }

  /** The plugin and the monolithic dispatcher produce the same value for every key of the
      table, whatever the field name and depth. */
  lemma AgreesWithDispatcher(env: Env, t: Ty, name: Option<string>, d: int, pos: nat)
    requires IsPrimitive(t)
    ensures Generate(env.tape, t, name, d, env.maxDepth, pos) == Dispatcher.Dispatch(env, t, d, pos)
  {
  }
}
