/** `_TypeAnalyzer`: the classification predicates the dispatcher and the field filler use
    before any generation happens. */
module TypeAnalyzer {
  import opened Types

  /** `is_optional`: a `Union` that lists `NoneType` among its arguments. */
  predicate IsOptional(t: Ty) {
    t.Union? && NoneT in t.args
  }

  /** The index of the first argument that is not `NoneType`, if any. */
  function FirstNotNone(args: seq<Ty>): (r: Option<nat>)
    ensures r.Some? ==> r.value < |args| && args[r.value] != NoneT
    ensures r.Some? ==> forall j :: 0 <= j < r.value ==> args[j] == NoneT
    ensures r.None? ==> forall j :: 0 <= j < |args| ==> args[j] == NoneT
  {
    if args == [] then None
    else if args[0] != NoneT then Some(0)
    else match FirstNotNone(args[1..])
      case Some(k) => Some(k + 1)
      case None => None
  }

  /** `extract_base_type`: an Optional is unwrapped to its FIRST non-None argument only (the
      source's `next(...)`); every other type is returned unchanged. Python's `typing` never
      builds a Union whose arguments are all `NoneType`; for that shape this returns `NoneT`. */
  function ExtractBaseType(t: Ty): (r: Ty)
    ensures !IsOptional(t) ==> r == t
    ensures IsOptional(t) ==> Size(r) < Size(t)
    ensures IsOptional(t) && r != NoneT ==>
      exists k :: 0 <= k < |t.args| && r == t.args[k] && forall j :: 0 <= j < k ==> t.args[j] == NoneT
  {
    if IsOptional(t) then
      match FirstNotNone(t.args)
      case Some(k) => t.args[k]
      case None => NoneT
    else t
  }
}
