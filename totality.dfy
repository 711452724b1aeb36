/** When the monolithic dispatcher raises, and what the fixed dispatch order implies for
    particular type shapes. The dispatcher raises the fallback's `Unsupported field type`,
    the `IndexError` of `random.choice` on an empty sequence, and the `TypeError` of a set
    comprehension given an unhashable element (a list, dict, set, model instance, forward
    reference or Json example); a type with none of these in reach always yields a value.
    An `Annotated` string goes to the intended constrained-string handler here; the handler
    as written raises `TypeError` on any metadata (`ConstrainedStringAsWritten`), and these
    results do not cover that. */
module Totality {
  import opened Types
  import opened TypeAnalyzer
  import opened SmartField
  import opened StringConstraints
  import opened Fallback
  import opened Dispatcher

  /** A type whose every reachable leaf has a generator: Unions and Enums are not empty, and
      every class that reaches the fallback carries one of its markers. Only the argument a
      container actually reads is constrained (the item type, or a dict's value type), and a
      model is checked through the schema. */
  predicate Supported(t: Ty)
    decreases Size(t)
  {
    if IsOptional(t) then Supported(ExtractBaseType(t))
    else match t
      case Union(args) => |args| > 0 && forall k :: 0 <= k < |args| ==> Supported(args[k])
      case Annotated(b, _) => b.Some? ==> Supported(b.value)
      case Container(kind, args) =>
        if kind == DictKind then |args| > 1 ==> Supported(args[1])
        else if kind == SetKind then |args| > 0 ==> Supported(args[0]) && Hashable(args[0])
        else |args| > 0 ==> Supported(args[0])
      case Enum(members) => |members| > 0
      case Root(_, inner) => Supported(inner)
      case Opaque(_, _) => FallbackKind(NameOf(t), ReprOf(t)).Some?
      case NoneT => FallbackKind(NameOf(t), ReprOf(t)).Some?
      case _ => true
  }

  /** A type whose values Python can put into a set: no list, dict or set (empty or not), no
      model or root-model instance (neither is frozen, so neither has a hash), no forward
      reference (its `[]`) and no class the fallback maps to the Json example dict. `None`,
      strings, numbers, Faker tokens and enum members all hash. */
  predicate Hashable(t: Ty)
    decreases Size(t)
  {
    if IsOptional(t) then Hashable(ExtractBaseType(t))
    else match t
      case Union(args) => forall k :: 0 <= k < |args| ==> Hashable(args[k])
      case Annotated(b, _) => b.Some? ==> Hashable(b.value)
      case Container(_, _) => false
      case Root(_, _) => false
      case Model(_) => false
      case ForwardRef(_) => false
      case Opaque(_, _) => FallbackKind(NameOf(t), ReprOf(t)) != Some(JsonKind)
      case NoneT => FallbackKind(NameOf(t), ReprOf(t)) != Some(JsonKind)
      case _ => true
  }

  /** Every field of every model of the schema has a supported annotation. */
  predicate SchemaSupported(env: Env) {
    forall name, i :: name in env.schema && 0 <= i < |env.schema[name].fields| ==>
      Supported(env.schema[name].fields[i].ty)
  }

  /** Over a supported schema, a supported type never raises, at any depth. */
  lemma {:induction false} DispatchTotal(env: Env, t: Ty, d: int, pos: nat)
    requires SchemaSupported(env) && Supported(t)
    ensures Dispatch(env, t, d, pos).Done?
    decreases Fuel(env, d), Size(t), 1, 0
  {
    if IsOptional(t) {
      DispatchTotal(env, ExtractBaseType(t), d, pos);
    } else if t.Union? {
      DispatchTotal(env, t.args[ChoiceIndex(env.tape, pos, |t.args|)], d, pos + 1);
    } else if t.Annotated? {
      if AnnotatedBase(t) != Str {
        DispatchTotal(env, t.base.value, d, pos);
      }
    } else if t.Container? {
      ContainerTotal(env, t.kind, t.args, d, pos);
    } else if t.Root? {
      DispatchTotal(env, t.inner, d, pos);
    } else if t.Model? {
      ModelTotal(env, t.modelName, d, pos);
    }
  }

  lemma {:induction false} ContainerTotal(env: Env, kind: ContainerKind, args: seq<Ty>, d: int, pos: nat)
    requires SchemaSupported(env) && Supported(Container(kind, args))
    ensures GenContainer(env, kind, args, d, pos).Done?
    decreases Fuel(env, d), 1 + SizeAll(args), 0, 0
  {
    if d < env.maxDepth {
      var n := RandInt(env.tape, pos, 1, 2);
      if kind == DictKind {
        EntriesTotal(env, ValueType(args), d + 1, n, pos + 1);
      } else {
        ItemsTotal(env, ItemType(args), d + 1, n, pos + 1);
      }
    }
  }

  lemma {:induction false} ItemsTotal(env: Env, t: Ty, d: int, count: nat, pos: nat)
    requires SchemaSupported(env) && Supported(t)
    ensures GenItems(env, t, d, count, pos).Done?
    decreases Fuel(env, d), Size(t), 2, count
  {
    if count > 0 {
      DispatchTotal(env, t, d, pos);
      ItemsTotal(env, t, d, count - 1, Dispatch(env, t, d, pos).next);
    }
  }

  lemma {:induction false} EntriesTotal(env: Env, t: Ty, d: int, count: nat, pos: nat)
    requires SchemaSupported(env) && Supported(t)
    ensures GenEntries(env, t, d, count, pos).Done?
    decreases Fuel(env, d), Size(t), 2, count
  {
    if count > 0 {
      DispatchTotal(env, t, d, pos + 1);
      EntriesTotal(env, t, d, count - 1, Dispatch(env, t, d, pos + 1).next);
    }
  }

  lemma {:induction false} ModelTotal(env: Env, name: string, d: int, pos: nat)
    requires SchemaSupported(env)
    ensures GenModel(env, name, d, pos).Done?
    decreases Fuel(env, d), 1, 0, 0
  {
    if d < env.maxDepth {
      FillTotal(env, DeclOf(env, name).fields, 0, map[], false, false, true, d + 1, pos);
    }
  }

  /** Every annotation of the table supported: the field loop runs to its end in every mode. */
  lemma {:induction false} FillTotal(env: Env, fields: seq<Field>, i: nat, data: map<string, Value>,
                                     requiredOnly: bool, optionalOnly: bool, smart: bool, d: int, pos: nat)
    requires SchemaSupported(env)
    requires i <= |fields| && forall j :: 0 <= j < |fields| ==> Supported(fields[j].ty)
    ensures FillFrom(env, fields, i, data, requiredOnly, optionalOnly, smart, d, pos).raised.None?
    decreases Fuel(env, d) + 1, 0, 0, |fields| - i
  {
    if i < |fields| {
      if fields[i].name in data || !Selected(fields[i], requiredOnly, optionalOnly) {
        FillTotal(env, fields, i + 1, data, requiredOnly, optionalOnly, smart, d, pos);
      } else {
        FieldTotal(env, fields[i], smart, d, pos);
        var o := FieldValue(env, fields[i], smart, d, pos);
        FillTotal(env, fields, i + 1, data[fields[i].name := o.value], requiredOnly, optionalOnly, smart, d, o.next);
      }
    }
  }

  lemma {:induction false} FieldTotal(env: Env, f: Field, smart: bool, d: int, pos: nat)
    requires SchemaSupported(env) && Supported(f.ty)
    ensures FieldValue(env, f, smart, d, pos).Done?
    decreases Fuel(env, d) + 1, 0, 0, 0
  {
    var base := ExtractBaseType(f.ty);
    if !(smart && CanGenerateSmartValue(f.name, base)) {
      DispatchTotal(env, base, d, pos);
    }
  }

  /** A Union holding None is unwrapped to its first member only, so `Optional[Union[A, B]]`
      (which Python flattens to `Union[A, B, None]`) always generates an `A`. */
  lemma OptionalUnionPicksFirst(env: Env, a: Ty, b: Ty, d: int, pos: nat)
    requires a != NoneT
    ensures Dispatch(env, Union([a, b, NoneT]), d, pos) == Dispatch(env, a, d, pos)
  {
    assert IsOptional(Union([a, b, NoneT]));
    assert FirstNotNone([a, b, NoneT]) == Some(0);
  }

  /** The name heuristic never sees an annotated string: a field declared
      `Optional[Annotated[str, ...]]`, whose annotation keeps the `Annotated` once the
      Optional is unwrapped, gets a constrained string whatever its name, while a bare `str`
      field with a recognised name gets the smart value. */
  lemma AnnotatedStringSkipsOverlay(env: Env, name: string, meta: seq<Meta>, d: int, pos: nat)
    ensures FieldValue(env, Field(name, Union([Annotated(Some(Str), meta), NoneT])), true, d, pos)
         == ConstrainedString(env.tape, meta, pos)
    ensures CanGenerateSmartValue(name, Str) ==>
      FieldValue(env, Field(name, Str), true, d, pos) == GenerateSmartValue(name, env.tape, pos)
  {
  }

  /** `Set[List[int]]` is not supported: below the depth limit `generate_set` would raise
      `TypeError: unhashable type`. `Set[int]` is. */
  lemma SetOfListUnsupported()
    ensures !Supported(Container(SetKind, [Container(ListKind, [Int])]))
    ensures Supported(Container(SetKind, [Int]))
  {
    assert !IsOptional(Container(SetKind, [Container(ListKind, [Int])]));
    assert !IsOptional(Container(ListKind, [Int]));
    assert !IsOptional(Container(SetKind, [Int]));
    assert !IsOptional(Int);
  }
}
