/** `_SmartFieldGenerator`: the field-name heuristic. A lower-cased field name that is a key
    of the exact table wins; otherwise the first pattern, in table order, that occurs in the
    name wins; otherwise generic text. The first-match logic is shared with the plugin
    generator, which reads its two tables from a configuration module. */
module SmartField {
  import opened Types
  import opened Strings

  /** The keys of `FIELD_MAPPINGS`. */
  const ExactKeys: set<string> := {
    "first_name", "last_name", "middle_name", "full_name", "name",
    "email", "phone", "phone_number",
    "address", "street", "city", "country", "postal_code", "zip_code",
    "company", "company_name", "job_title", "position",
    "description", "comment", "note", "title",
    "url", "website", "domain",
    "birth_date", "created_at", "updated_at",
    "color", "hex_color",
    "price", "amount", "currency",
    "username", "password", "token", "code", "sku"
  }

  /** The keys of `PATTERN_MAPPINGS`, in table order. */
  const Patterns: seq<string> := [
    "name", "email", "phone", "address", "company", "url", "description",
    "title", "date", "time", "id", "code", "number"
  ]

  /** Some pattern of the table occurs in `s`. */
  predicate AnyPattern(patterns: seq<string>, s: string) {
    exists j :: 0 <= j < |patterns| && Contains(s, patterns[j])
  }

  /** The first pattern, in table order, that occurs in `s`. */
  function FirstPattern(patterns: seq<string>, s: string): (r: Option<nat>)
    ensures r.Some? ==> r.value < |patterns| && Contains(s, patterns[r.value])
    ensures r.Some? ==> forall j :: 0 <= j < r.value ==> !Contains(s, patterns[j])
    ensures r.None? <==> !AnyPattern(patterns, s)
  {
    if patterns == [] then None
    else if Contains(s, patterns[0]) then Some(0)
    else match FirstPattern(patterns[1..], s)
      case Some(k) => Some(k + 1)
      case None =>
        assert forall j :: 1 <= j < |patterns| ==> patterns[j] == patterns[1..][j - 1];
        None
  }

  /** The generator a lower-cased field name selects: an exact key beats every pattern, and
      among patterns the first in table order wins. */
  function Lookup(exact: set<string>, patterns: seq<string>, lowerName: string): (r: Option<Tag>)
    ensures lowerName in exact ==> r == Some(ExactName(lowerName))
    ensures lowerName !in exact && r.Some? ==>
      exists k :: 0 <= k < |patterns| && r.value == NamePattern(patterns[k])
        && Contains(lowerName, patterns[k])
        && forall j :: 0 <= j < k ==> !Contains(lowerName, patterns[j])
    ensures r.Some? <==> lowerName in exact || AnyPattern(patterns, lowerName)
  {
    if lowerName in exact then Some(ExactName(lowerName))
    else match FirstPattern(patterns, lowerName)
      case Some(k) => Some(NamePattern(patterns[k]))
      case None => None
  }

  /** `can_generate_smart_value`: only a field whose type is exactly `str`, and whose
      lower-cased name is an exact key or contains a pattern. */
  predicate CanGenerateSmartValue(fieldName: string, t: Ty) {
    t == Str && (Lower(fieldName) in ExactKeys || AnyPattern(Patterns, Lower(fieldName)))
  }

  /** The Faker call a smart value comes from, or generic text when nothing matches. */
  function SmartTag(exact: set<string>, patterns: seq<string>, fieldName: string): Tag {
    match Lookup(exact, patterns, Lower(fieldName))
    case Some(tag) => tag
    case None => Provider("text")
  }

  /** `generate_smart_value`: one Faker call, selected by the name. */
  function GenerateSmartValue(fieldName: string, tape: Tape, pos: nat): (o: Outcome)
    ensures o.Done? && o.next == pos + 1
  {
    Done(VFake(SmartTag(ExactKeys, Patterns, fieldName), tape(pos)), pos + 1)
  }

  /** When `can_generate_smart_value` holds, `generate_smart_value` never reaches its text
      fallback, and conversely a name that falls back is never accepted. */
  lemma SmartValueNeverFallsBack(fieldName: string)
    ensures CanGenerateSmartValue(fieldName, Str) <==> SmartTag(ExactKeys, Patterns, fieldName) != Provider("text")
  {
  }
}
