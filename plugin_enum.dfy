/** `EnumGenerator`: a uniformly chosen member of an enumeration. */
module PluginEnum {
  import opened Types
  import opened Primitives
  import Dispatcher

  /** `can_handle`: `TypeUtils.is_enum`. */
  predicate CanHandle(t: Ty) {
    t.Enum?
  }

  /** `generate`: `random.choice(list(field_type))`; an enumeration without members makes the
      choice raise, and a type that is not an enumeration cannot be listed. */
  function Generate(tape: Tape, t: Ty, name: Option<string>, d: int, maxDepth: int, pos: nat): (o: Outcome)
    ensures o.Done? <==> CanHandle(t) && |t.members| > 0
    ensures o.Done? ==> o.value.VEnum? && o.value.member in t.members
    ensures o.Raised? ==> o.error == (if CanHandle(t) then EmptyChoice else WrongKind)
  {
    if t.Enum? then ChooseMember(tape, t.members, pos) else Raised(WrongKind, pos)
  }

  /** The plugin and the monolithic dispatcher choose the same member. */
  lemma AgreesWithDispatcher(env: Env, t: Ty, name: Option<string>, d: int, pos: nat)
    requires t.Enum?
    ensures Generate(env.tape, t, name, d, env.maxDepth, pos) == Dispatcher.Dispatch(env, t, d, pos)
  {
  }
}
