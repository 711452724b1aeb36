/** `AnnotatedGenerator`: the plugin form of the Annotated handler. Its string-constraint loop
    behaves as the monolithic one (`StringConstraints.HandleStringConstraints`). */
module PluginAnnotated {
  import opened Types
  import opened Strings
  import opened PluginBase
  import opened StringConstraints

  /** `can_handle`: the type is an Annotated type. */
  predicate CanHandle(t: Ty) {
    t.Annotated?
  }

  /** `get_args(t)[0]`, when `t` has type arguments at all. */
  function FirstArg(t: Ty): Option<Ty> {
    match t
    case Annotated(b, _) => b
    case Union(args) => if |args| > 0 then Some(args[0]) else None
    case Container(_, args) => if |args| > 0 then Some(args[0]) else None
    case _ => None
  }

  /** The length constraints among `get_args(t)[1:]`; only an Annotated type has any. */
  function Metadata(t: Ty): seq<Meta> {
    if t.Annotated? then t.meta else []
  }

  /** `generate`: with no type arguments the base is `str` and the metadata empty; a `str`
      base gives a constrained string, any other base is handed to the plugin dispatcher with
      the same field name and the same depth. */
  function Generate(vg: ValueGen, tape: Tape, t: Ty, name: Option<string>, d: int, maxDepth: int, pos: nat): (o: Outcome)
    ensures FirstArg(t) in {None, Some(Str)} ==>
      o.Done? && o.value.VStr? && LengthWithin(|o.value.s|, Bounds(Metadata(t)))
      && forall i :: 0 <= i < |o.value.s| ==> IsLetter(o.value.s[i])
    ensures FirstArg(t).Some? && FirstArg(t).value != Str ==> o == vg(FirstArg(t).value, name, d, maxDepth, pos)
  {
    var base := if FirstArg(t).Some? then FirstArg(t).value else Str;
    if base == Str then ConstrainedString(tape, Metadata(t), pos)
    else vg(base, name, d, maxDepth, pos)
  }

  /** An Annotated type without arguments yields a string of 1 to 20 letters. */
  lemma {:induction false} NoArgumentsDefaults(vg: ValueGen, tape: Tape, name: Option<string>, d: int, maxDepth: int, pos: nat)
    ensures var s := Generate(vg, tape, Annotated(None, []), name, d, maxDepth, pos).value.s;
      1 <= |s| <= 20
  {
    MinimumLastWins([], -1);
    MaximumLastWins([], -1);
  }
}
