/** `SmartFieldGenerator`: the plugin form of the name heuristic. Its two tables come from a
    configuration module that is not part of this model, so they are parameters: the set of
    exact keys and the patterns in table order. */
module PluginSmartField {
  import opened Types
  import opened Strings
  import opened SmartField

  /** `can_handle`: the type is exactly `str`, the name is present and not empty, and its
      lower-cased form is an exact key or contains a pattern. */
  predicate CanHandle(exact: set<string>, patterns: seq<string>, t: Ty, name: Option<string>) {
    t == Str && name.Some? && name.value != ""
    && (Lower(name.value) in exact || AnyPattern(patterns, Lower(name.value)))
  }

  /** `generate`: generic text for a missing or empty name; otherwise the exact key, else the
      first pattern in table order, else generic text. The type is not looked at. */
  function Generate(exact: set<string>, patterns: seq<string>, tape: Tape, t: Ty, name: Option<string>, pos: nat): (o: Outcome)
    ensures o.Done? && o.value.VFake? && o.next == pos + 1
    ensures name.None? || name == Some("") ==> o.value.tag == Provider("text")
    ensures name.Some? && name.value != "" && Lower(name.value) in exact ==> o.value.tag == ExactName(Lower(name.value))
    ensures name.Some? && name.value != "" && Lower(name.value) !in exact && o.value.tag != Provider("text") ==>
      exists k :: 0 <= k < |patterns| && o.value.tag == NamePattern(patterns[k])
        && Contains(Lower(name.value), patterns[k])
        && forall j :: 0 <= j < k ==> !Contains(Lower(name.value), patterns[j])
    ensures CanHandle(exact, patterns, t, name) <==> t == Str && o.value.tag != Provider("text")
  {
    if name.None? || name.value == "" then Done(VFake(Provider("text"), tape(pos)), pos + 1)
    else Done(VFake(SmartTag(exact, patterns, name.value), tape(pos)), pos + 1)
  }
}
