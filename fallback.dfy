/** `_FallbackGenerator`: the last step of the dispatcher. A forward reference becomes an
    empty list; otherwise the type's name and string form are searched for Url, Email and Json
    markers, then for pydantic's own types; when nothing matches, the generator raises
    `ValueError("Unsupported field type")`, the dispatcher's only error of its own. */
module Fallback {
  import opened Types
  import opened Strings

  /** The special generators the fallback and the plugin `SpecialTypeGenerator` can select. */
  datatype SpecialKind = UrlKind | EmailKind | JsonKind | PathKind | SecretKind | WordKind | Ipv4Kind | Ipv6Kind

  /** The fixed value every Json type produces: `{"example": "data"}`. */
  const JsonExample: Value := VDict(map[StrKey("example") := VStr("data")])

  /** The Faker provider behind each kind other than Json. */
  function ProviderOf(kind: SpecialKind): string
    requires kind != JsonKind
  {
    match kind
    case UrlKind => "url"
    case EmailKind => "email"
    case PathKind => "file_path"
    case SecretKind => "password"
    case WordKind => "word"
    case Ipv4Kind => "ipv4"
    case Ipv6Kind => "ipv6"
  }

  /** The value a kind produces: the fixed Json example, or one token of its provider. */
  predicate IsKindValue(v: Value, kind: SpecialKind) {
    if kind == JsonKind then v == JsonExample else v.VFake? && v.tag == Provider(ProviderOf(kind))
  }

  /** One call of the generator a kind selects; the Json example draws nothing. */
  function KindValue(kind: SpecialKind, tape: Tape, pos: nat): (o: Outcome)
    ensures o.Done? && IsKindValue(o.value, kind)
  {
    if kind == JsonKind then Done(JsonExample, pos)
    else Done(VFake(Provider(ProviderOf(kind)), tape(pos)), pos + 1)
  }

  /** The name carries one of the markers the fallback looks at first. */
  predicate NameMarker(name: string) {
    Contains(name, "Url") || Contains(Lower(name), "url")
    || Contains(name, "Email") || Contains(Lower(name), "email")
    || Contains(name, "Json") || Contains(Lower(name), "json")
  }

  /** Url, Email or Json in the name (case-sensitive, or lower-case in the lowered name);
      otherwise, for a string form that mentions pydantic, Url/url, Email/email, Json, Path,
      Secret, in that order, and a word for any other pydantic type. */
  function FallbackKind(name: string, repr: string): (r: Option<SpecialKind>)
    ensures r.None? <==> !NameMarker(name) && !Contains(repr, "pydantic")
    ensures Contains(name, "Url") || Contains(Lower(name), "url") ==> r == Some(UrlKind)
    ensures !NameMarker(name) && Contains(repr, "pydantic") ==> r.Some?
  {
    if Contains(name, "Url") || Contains(Lower(name), "url") then Some(UrlKind)
    else if Contains(name, "Email") || Contains(Lower(name), "email") then Some(EmailKind)
    else if Contains(name, "Json") || Contains(Lower(name), "json") then Some(JsonKind)
    else if Contains(repr, "pydantic") then
      if Contains(repr, "Url") || Contains(repr, "url") then Some(UrlKind)
      else if Contains(repr, "Email") || Contains(repr, "email") then Some(EmailKind)
      else if Contains(repr, "Json") then Some(JsonKind)
      else if Contains(repr, "Path") then Some(PathKind)
      else if Contains(repr, "Secret") then Some(SecretKind)
      else Some(WordKind)
    else None
  }

  /** The types that reach the fallback. */
  predicate ReachesFallback(t: Ty) {
    t.ForwardRef? || t.Opaque? || t.NoneT?
  }

  /** `__name__` of such a type, or its string form when it has none. */
  function NameOf(t: Ty): string
    requires t.Opaque? || t.NoneT?
  {
    if t.Opaque? then t.name else "NoneType"
  }

  /** `str()` of such a type. */
  function ReprOf(t: Ty): string
    requires t.Opaque? || t.NoneT?
  {
    if t.Opaque? then t.repr else "<class 'NoneType'>"
  }

  /** `_FallbackGenerator.generate`. */
  function Generate(tape: Tape, t: Ty, pos: nat): (o: Outcome)
    requires ReachesFallback(t)
    ensures t.ForwardRef? ==> o == Done(VList([]), pos)
    ensures o.Raised? <==> !t.ForwardRef? && FallbackKind(NameOf(t), ReprOf(t)).None?
    ensures o.Raised? ==> o.error == UnsupportedType(ReprOf(t))
    ensures o.Done? && !t.ForwardRef? ==> IsKindValue(o.value, FallbackKind(NameOf(t), ReprOf(t)).value)
  {
    if t.ForwardRef? then Done(VList([]), pos)
    else match FallbackKind(NameOf(t), ReprOf(t))
      case Some(kind) => KindValue(kind, tape, pos)
      case None => Raised(UnsupportedType(ReprOf(t)), pos)
  }
}
