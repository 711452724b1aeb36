/** `_ValueDispatcher.dispatch` and the handlers it routes to: containers, models, root
    models and the field filler of a nested model's builder. The handlers call back into the
    dispatcher, so they are one group of mutually recursive functions. Each carries the
    measure of the dispatcher: the remaining depth budget first, then the size of the type.

    `Dispatch` follows the source's order exactly: Optional, Union, Annotated, the primitive
    table, containers, Enum, RootModel, model, fallback. */
module Dispatcher {
  import opened Types
  import opened TypeAnalyzer
  import opened SmartField
  import opened Primitives
  import opened StringConstraints
  import Fallback

  /** The remaining depth budget `max(0, max_depth - depth)`. */
  function Fuel(env: Env, d: int): nat {
    if d < env.maxDepth then env.maxDepth - d else 0
  }

  /** The field table of a model; a name missing from the schema is a model with no fields. */
  function DeclOf(env: Env, name: string): ModelDecl {
    if name in env.schema then env.schema[name] else ModelDecl([], false)
  }

  /** `args[0] if args else str`: the element type of a list or set. */
  function ItemType(args: seq<Ty>): Ty {
    if |args| > 0 then args[0] else Str
  }

  /** `args[1] if len(args) > 1 else str`: the value type of a dict. */
  function ValueType(args: seq<Ty>): Ty {
    if |args| > 1 then args[1] else Str
  }

  /** `args[0] if args else str`: the base of an Annotated type. */
  function AnnotatedBase(t: Ty): Ty
    requires t.Annotated?
  {
    if t.base.Some? then t.base.value else Str
  }

  /** The empty container of a kind: `[]`, `{}` or `set()`. */
  function EmptyContainer(kind: ContainerKind): Value {
    match kind
    case ListKind => VList([])
    case DictKind => VDict(map[])
    case SetKind => VSet({})
  }

  /** The filter of `_fill_fields`: required-only skips Optional annotations, optional-only
      skips every other one. */
  predicate Selected(f: Field, requiredOnly: bool, optionalOnly: bool) {
    !(requiredOnly && IsOptional(f.ty)) && !(optionalOnly && !IsOptional(f.ty))
  }

  /** What a field loop leaves behind: the data dictionary, the tape position and, when a
      field's generator raised, the exception (fields after it are not visited). */
  datatype FillResult = FillResult(data: map<string, Value>, next: nat, raised: Option<Error>)

  /** `_ValueDispatcher.dispatch(field_type, current_depth=d, max_depth)`. */
  function Dispatch(env: Env, t: Ty, d: int, pos: nat): Outcome
    decreases Fuel(env, d), Size(t), 1, 0
  {
    if IsOptional(t) then Dispatch(env, ExtractBaseType(t), d, pos)
    else if t.Union? then
      if |t.args| == 0 then Raised(EmptyChoice, pos)
      else Dispatch(env, t.args[ChoiceIndex(env.tape, pos, |t.args|)], d, pos + 1)
    else if t.Annotated? then
      if AnnotatedBase(t) == Str then ConstrainedString(env.tape, t.meta, pos)
      else Dispatch(env, t.base.value, d, pos)
    else if IsPrimitive(t) then PrimitiveValue(env.tape, t, pos)
    else if t.Container? then GenContainer(env, t.kind, t.args, d, pos)
    else if t.Enum? then ChooseMember(env.tape, t.members, pos)
    else if t.Root? then
      match Dispatch(env, t.inner, d, pos)
      case Done(v, p) => Done(VRoot(t.rootName, v, {"root"}), p)
      case Raised(e, p) => Raised(e, p)
    else if t.Model? then GenModel(env, t.modelName, d, pos)
    else Fallback.Generate(env.tape, t, pos)
  }

  /** `_ContainerGenerator.generate_list/_dict/_set`: empty at the depth limit, otherwise
      `random.randint(1, 2)` draws generated one level deeper. */
  function GenContainer(env: Env, kind: ContainerKind, args: seq<Ty>, d: int, pos: nat): Outcome
    decreases Fuel(env, d), 1 + SizeAll(args), 0, 0
  {
    if d >= env.maxDepth then Done(EmptyContainer(kind), pos)
    else
      var n := RandInt(env.tape, pos, 1, 2);
      match kind
      case ListKind => GenItems(env, ItemType(args), d + 1, n, pos + 1)
      case SetKind =>
        (match GenItems(env, ItemType(args), d + 1, n, pos + 1)
         case Done(v, p) => Done(VSet(set x | x in v.items), p)
         case Raised(e, p) => Raised(e, p))
      case DictKind => GenEntries(env, ValueType(args), d + 1, n, pos + 1)
  }

  /** `count` successive `random_value(t, d)` calls, collected in order. */
  function GenItems(env: Env, t: Ty, d: int, count: nat, pos: nat): (o: Outcome)
    ensures o.Done? ==> o.value.VList? && |o.value.items| == count
    decreases Fuel(env, d), Size(t), 2, count
  {
    if count == 0 then Done(VList([]), pos)
    else match Dispatch(env, t, d, pos)
      case Raised(e, p) => Raised(e, p)
      case Done(v, p) =>
        match GenItems(env, t, d, count - 1, p)
        case Raised(e, q) => Raised(e, q)
        case Done(rest, q) => Done(VList([v] + rest.items), q)
  }

  /** `count` successive `fake.word(): random_value(t, d)` entries; the key is drawn before
      its value, and a repeated key keeps the later value. */
  function GenEntries(env: Env, t: Ty, d: int, count: nat, pos: nat): (o: Outcome)
    ensures o.Done? ==> o.value.VDict?
    decreases Fuel(env, d), Size(t), 2, count
  {
    if count == 0 then Done(VDict(map[]), pos)
    else
      var k := WordKey(env.tape(pos));
      match Dispatch(env, t, d, pos + 1)
      case Raised(e, p) => Raised(e, p)
      case Done(v, p) =>
        match GenEntries(env, t, d, count - 1, p)
        case Raised(e, q) => Raised(e, q)
        case Done(rest, q) => Done(VDict(map[k := v] + rest.entries), q)
  }

  /** `_ModelGenerator.generate_pydantic_model`: `None` at the depth limit, otherwise a fresh
      builder one level deeper with smart generation on, `fill_all_fields().build()`. */
  function GenModel(env: Env, name: string, d: int, pos: nat): Outcome
    decreases Fuel(env, d), 1, 0, 0
  {
    if d >= env.maxDepth then Done(VNone, pos)
    else
      var decl := DeclOf(env, name);
      var r := FillFrom(env, decl.fields, 0, map[], false, false, true, d + 1, pos);
      if r.raised.Some? then Raised(r.raised.value, r.next)
      else Done(VModel(name, decl.configBase, r.data), r.next)
  }

  /** The value `_fill_fields` stores for one field: the smart value when smart generation is
      on and the unwrapped type is exactly `str` with a recognised name, otherwise
      `random_value` of the unwrapped type at the builder's depth. */
  function FieldValue(env: Env, f: Field, smart: bool, d: int, pos: nat): Outcome
    decreases Fuel(env, d) + 1, 0, 0, 0
  {
    var base := ExtractBaseType(f.ty);
    if smart && CanGenerateSmartValue(f.name, base) then GenerateSmartValue(f.name, env.tape, pos)
    else Dispatch(env, base, d, pos)
  }

  /** The loop of `_fill_fields` from field `i` on: keys already present and fields the mode
      filters out are skipped, every other field is generated in declaration order. */
  function FillFrom(env: Env, fields: seq<Field>, i: nat, data: map<string, Value>,
                    requiredOnly: bool, optionalOnly: bool, smart: bool, d: int, pos: nat): FillResult
    requires i <= |fields|
    decreases Fuel(env, d) + 1, 0, 0, |fields| - i
  {
    if i == |fields| then FillResult(data, pos, None)
    else if fields[i].name in data || !Selected(fields[i], requiredOnly, optionalOnly) then
      FillFrom(env, fields, i + 1, data, requiredOnly, optionalOnly, smart, d, pos)
    else match FieldValue(env, fields[i], smart, d, pos)
      case Raised(e, p) => FillResult(data, p, Some(e))
      case Done(v, p) =>
        FillFrom(env, fields, i + 1, data[fields[i].name := v], requiredOnly, optionalOnly, smart, d, p)
  }
  /** One step of the field loop, for a field that is skipped. */
  lemma FillFromSkip(env: Env, fields: seq<Field>, i: nat, data: map<string, Value>,
                     requiredOnly: bool, optionalOnly: bool, smart: bool, d: int, pos: nat)
    requires i < |fields| && (fields[i].name in data || !Selected(fields[i], requiredOnly, optionalOnly))
    ensures FillFrom(env, fields, i, data, requiredOnly, optionalOnly, smart, d, pos)
         == FillFrom(env, fields, i + 1, data, requiredOnly, optionalOnly, smart, d, pos)
  {
  }

  /** One step of the field loop, for a field that is generated. */
  lemma FillFromGenerate(env: Env, fields: seq<Field>, i: nat, data: map<string, Value>,
                         requiredOnly: bool, optionalOnly: bool, smart: bool, d: int, pos: nat)
    requires i < |fields| && fields[i].name !in data && Selected(fields[i], requiredOnly, optionalOnly)
    ensures var o := FieldValue(env, fields[i], smart, d, pos);
      FillFrom(env, fields, i, data, requiredOnly, optionalOnly, smart, d, pos)
      == if o.Raised? then FillResult(data, o.next, Some(o.error))
         else FillFrom(env, fields, i + 1, data[fields[i].name := o.value], requiredOnly, optionalOnly, smart, d, o.next)
  {
  }
}
