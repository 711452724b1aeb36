/** What the monolithic dispatcher promises about its results, stated independently of how it
    computes them: `Conforms(env, v, t, d)` says which values a type may produce at depth `d`.
    The soundness lemmas prove that every value `Dispatch` returns conforms, by an induction
    that follows the dispatcher's own measure. */
module Conformance {
  import opened Types
  import opened Strings
  import opened TypeAnalyzer
  import opened SmartField
  import opened Primitives
  import opened StringConstraints
  import opened Fallback
  import opened Dispatcher

  /** The names of a field table. */
  function Names(fields: seq<Field>): set<string>
    decreases |fields|
  {
    if fields == [] then {} else Names(fields[..|fields| - 1]) + {fields[|fields| - 1].name}
  }

  /** A field table as Python builds it: no name twice. */
  predicate DistinctNames(fields: seq<Field>) {
    forall i, j :: 0 <= i < j < |fields| ==> fields[i].name != fields[j].name
  }

  /** Every model of the schema has distinct field names. */
  predicate WellFormed(env: Env) {
    forall name :: name in env.schema ==> DistinctNames(env.schema[name].fields)
  }

  /** The values `t` may produce at depth `d`:
      - an Optional behaves as its first non-None member, a Union as one of its members;
      - a constrained string has letters only and a length within its bounds;
      - a container is empty at the depth limit, and otherwise has 1 or 2 elements (entries,
        for a dict, all under `fake.word()` keys), each conforming to the item or value type
        one level deeper;
      - an enum value is one of its members, a root model wraps a conforming inner value
        under `{"root"}`;
      - a model is `None` at the depth limit, and otherwise has exactly its declared fields,
        each conforming one level deeper;
      - a forward reference is `[]`, any other class one of the fallback's values, and
        `NoneType` on its own goes to the fallback like any other class. */
  ghost predicate Conforms(env: Env, v: Value, t: Ty, d: int)
    decreases Fuel(env, d), Size(t), 1
  {
    if IsOptional(t) then Conforms(env, v, ExtractBaseType(t), d)
    else match t
      case Union(args) => exists k :: 0 <= k < |args| && Conforms(env, v, args[k], d)
      case Annotated(b, meta) =>
        if AnnotatedBase(t) == Str then
          v.VStr? && LengthWithin(|v.s|, Bounds(meta)) && forall i :: 0 <= i < |v.s| ==> IsLetter(v.s[i])
        else Conforms(env, v, b.value, d)
      case Container(kind, args) =>
        if d >= env.maxDepth then v == EmptyContainer(kind)
        else (match kind
          case ListKind =>
            v.VList? && 1 <= |v.items| <= 2
            && forall i :: 0 <= i < |v.items| ==> Conforms(env, v.items[i], ItemType(args), d + 1)
          case SetKind =>
            v.VSet? && 1 <= |v.elems| <= 2
            && forall x :: x in v.elems ==> Conforms(env, x, ItemType(args), d + 1)
          case DictKind =>
            v.VDict? && 1 <= |v.entries| <= 2
            && forall k :: k in v.entries ==> k.WordKey? && Conforms(env, v.entries[k], ValueType(args), d + 1))
      case Enum(members) => v.VEnum? && v.member in members
      case Root(name, inner) =>
        v.VRoot? && v.rootName == name && v.fieldsSet == {"root"} && Conforms(env, v.root, inner, d)
      case Model(name) =>
        if d >= env.maxDepth then v == VNone
        else (v.VModel? && v.name == name && v.configBase == DeclOf(env, name).configBase
          && DataConforms(env, v.data, DeclOf(env, name).fields, d + 1))
      case ForwardRef(_) => v == VList([])
      case Opaque(_, _) =>
        FallbackKind(NameOf(t), ReprOf(t)).Some? && IsKindValue(v, FallbackKind(NameOf(t), ReprOf(t)).value)
      case NoneT =>
        FallbackKind(NameOf(t), ReprOf(t)).Some? && IsKindValue(v, FallbackKind(NameOf(t), ReprOf(t)).value)
      case _ => PrimitiveConforms(v, t)
  }

  /** A model's data holds exactly its declared fields, each one conforming at depth `d`. */
  ghost predicate DataConforms(env: Env, data: map<string, Value>, fields: seq<Field>, d: int)
    decreases Fuel(env, d) + 1, 0, 1
  {
    data.Keys == Names(fields)
    && forall i :: 0 <= i < |fields| ==> fields[i].name in data && FieldConforms(env, data[fields[i].name], fields[i], true, d)
  }

  /** A field's value: the smart value its name selects when smart generation applies, and
      otherwise a value of its unwrapped type. */
  ghost predicate FieldConforms(env: Env, v: Value, f: Field, smart: bool, d: int)
    decreases Fuel(env, d) + 1, 0, 0
  {
    var base := ExtractBaseType(f.ty);
    if smart && CanGenerateSmartValue(f.name, base) then
      v.VFake? && v.tag == SmartTag(ExactKeys, Patterns, f.name) && v.tag != Provider("text")
    else Conforms(env, v, base, d)
  }

  /** A set built from a sequence has at most as many elements, and at least one when the
      sequence is not empty. */
  lemma {:induction false} SetOfSeqSize<T>(s: seq<T>)
    ensures |set x | x in s| <= |s|
    ensures |s| > 0 ==> |set x | x in s| >= 1
  {
    if s != [] {
      var rest := set x | x in s[1..];
      SetOfSeqSize(s[1..]);
      assert (set x | x in s) == rest + {s[0]};
      assert s[0] in (set x | x in s);
    }
  }

  /** Adding one entry below a map grows it by at most one key, and the map is not empty. */
  lemma PrependEntry<K, V>(k: K, v: V, m: map<K, V>)
    ensures |map[k := v] + m| <= |m| + 1
    ensures |map[k := v] + m| >= 1
    ensures forall k' :: k' in map[k := v] + m ==> k' == k || k' in m
    ensures forall k' :: k' in m ==> (map[k := v] + m)[k'] == m[k']
    ensures k !in m ==> (map[k := v] + m)[k] == v
  {
    var r := map[k := v] + m;
    assert r.Keys == m.Keys + {k};
    assert k in r.Keys;
  }

  lemma NamesContain(fields: seq<Field>, i: int)
    requires 0 <= i < |fields|
    ensures fields[i].name in Names(fields)
    decreases |fields|
  {
    if i < |fields| - 1 {
      NamesContain(fields[..|fields| - 1], i);
    }
  }

  /** Soundness of the dispatcher: every value it returns conforms to the type asked for. */
  lemma {:induction false} DispatchSound(env: Env, t: Ty, d: int, pos: nat)
    requires WellFormed(env)
    ensures Dispatch(env, t, d, pos).Done? ==> Conforms(env, Dispatch(env, t, d, pos).value, t, d)
    decreases Fuel(env, d), Size(t), 1, 0
  {
    if IsOptional(t) {
      DispatchSound(env, ExtractBaseType(t), d, pos);
    } else if t.Union? {
      if |t.args| > 0 {
        var k := ChoiceIndex(env.tape, pos, |t.args|);
        DispatchSound(env, t.args[k], d, pos + 1);
      }
    } else if t.Annotated? {
      if AnnotatedBase(t) != Str {
        DispatchSound(env, t.base.value, d, pos);
      }
    } else if IsPrimitive(t) {
    } else if t.Container? {
      ContainerSound(env, t.kind, t.args, d, pos);
    } else if t.Enum? {
    } else if t.Root? {
      DispatchSound(env, t.inner, d, pos);
    } else if t.Model? {
      ModelSound(env, t.modelName, d, pos);
    }
  }

  lemma {:induction false} ContainerSound(env: Env, kind: ContainerKind, args: seq<Ty>, d: int, pos: nat)
    requires WellFormed(env)
    ensures GenContainer(env, kind, args, d, pos).Done? ==>
      Conforms(env, GenContainer(env, kind, args, d, pos).value, Container(kind, args), d)
    decreases Fuel(env, d), 1 + SizeAll(args), 0, 0
  {
    if d < env.maxDepth {
      var n := RandInt(env.tape, pos, 1, 2);
      match kind
      case ListKind =>
        ItemsSound(env, ItemType(args), d + 1, n, pos + 1);
      case SetKind =>
        ItemsSound(env, ItemType(args), d + 1, n, pos + 1);
        var o := GenItems(env, ItemType(args), d + 1, n, pos + 1);
        if o.Done? {
          var items := o.value.items;
          SetOfSeqSize(items);
          var elems := set x | x in items;
          assert GenContainer(env, kind, args, d, pos) == Done(VSet(elems), o.next);
          forall x | x in elems
            ensures Conforms(env, x, ItemType(args), d + 1)
          {
            var i :| 0 <= i < |items| && items[i] == x;
          }
        }
      case DictKind =>
        EntriesSound(env, ValueType(args), d + 1, n, pos + 1);
    }
  }

  lemma {:induction false} ItemsSound(env: Env, t: Ty, d: int, count: nat, pos: nat)
    requires WellFormed(env)
    ensures var o := GenItems(env, t, d, count, pos);
      o.Done? ==> forall i :: 0 <= i < |o.value.items| ==> Conforms(env, o.value.items[i], t, d)
    decreases Fuel(env, d), Size(t), 2, count
  {
    if count > 0 {
      DispatchSound(env, t, d, pos);
      var h := Dispatch(env, t, d, pos);
      if h.Done? {
        ItemsSound(env, t, d, count - 1, h.next);
        var r := GenItems(env, t, d, count - 1, h.next);
        if r.Done? {
          var items := [h.value] + r.value.items;
          assert GenItems(env, t, d, count, pos) == Done(VList(items), r.next);
          forall i | 0 <= i < |items|
            ensures Conforms(env, items[i], t, d)
          {
            if i > 0 {
              assert items[i] == r.value.items[i - 1];
            }
          }
        }
      }
    }
  }

  lemma {:induction false} EntriesSound(env: Env, t: Ty, d: int, count: nat, pos: nat)
    requires WellFormed(env)
    ensures var o := GenEntries(env, t, d, count, pos);
      o.Done? ==>
        |o.value.entries| <= count && (count > 0 ==> |o.value.entries| >= 1)
        && forall k :: k in o.value.entries ==> k.WordKey? && Conforms(env, o.value.entries[k], t, d)
    decreases Fuel(env, d), Size(t), 2, count
  {
    if count > 0 {
      var key := WordKey(env.tape(pos));
      DispatchSound(env, t, d, pos + 1);
      var h := Dispatch(env, t, d, pos + 1);
      if h.Done? {
        EntriesSound(env, t, d, count - 1, h.next);
        var r := GenEntries(env, t, d, count - 1, h.next);
        if r.Done? {
          CombineEntries(env, t, d, key, h.value, r.value.entries, count - 1);
        }
      }
    }
  }

  /** One more generated entry keeps every key a word and every value conforming. */
  lemma CombineEntries(env: Env, t: Ty, d: int, key: Key, v: Value, rest: map<Key, Value>, count: nat)
    requires key.WordKey? && Conforms(env, v, t, d)
    requires |rest| <= count
    requires forall k :: k in rest ==> k.WordKey? && Conforms(env, rest[k], t, d)
    ensures var m := map[key := v] + rest;
      |m| <= count + 1 && |m| >= 1 && forall k :: k in m ==> k.WordKey? && Conforms(env, m[k], t, d)
  {
    PrependEntry(key, v, rest);
  }

  lemma {:induction false} ModelSound(env: Env, name: string, d: int, pos: nat)
    requires WellFormed(env)
    ensures GenModel(env, name, d, pos).Done? ==> Conforms(env, GenModel(env, name, d, pos).value, Model(name), d)
    decreases Fuel(env, d), 1, 0, 0
  {
    if d < env.maxDepth {
      var decl := DeclOf(env, name);
      assert DistinctNames(decl.fields);
      FillSound(env, decl.fields, 0, map[], d + 1, pos);
    }
  }

  lemma {:induction false} FieldSound(env: Env, f: Field, smart: bool, d: int, pos: nat)
    requires WellFormed(env)
    ensures FieldValue(env, f, smart, d, pos).Done? ==> FieldConforms(env, FieldValue(env, f, smart, d, pos).value, f, smart, d)
    decreases Fuel(env, d) + 1, 0, 0, 0
  {
    var base := ExtractBaseType(f.ty);
    if smart && CanGenerateSmartValue(f.name, base) {
      SmartValueNeverFallsBack(f.name);
    } else {
      DispatchSound(env, base, d, pos);
    }
  }

  /** Filling every field of a table with distinct names, starting from the fields before
      `i` already filled, fills exactly the table's fields, each with a conforming value. */
  lemma {:induction false} FillSound(env: Env, fields: seq<Field>, i: nat, data: map<string, Value>, d: int, pos: nat)
    requires WellFormed(env)
    requires i <= |fields| && DistinctNames(fields)
    requires data.Keys == Names(fields[..i])
    requires forall j :: 0 <= j < i ==> fields[j].name in data && FieldConforms(env, data[fields[j].name], fields[j], true, d)
    ensures var r := FillFrom(env, fields, i, data, false, false, true, d, pos);
      r.raised.None? ==> DataConforms(env, r.data, fields, d)
    decreases Fuel(env, d) + 1, 0, 0, |fields| - i
  {
    if i == |fields| {
      assert fields[..i] == fields;
    } else {
      var f := fields[i];
      NamesOfPrefix(fields, i);
      assert f.name !in data;
      FieldSound(env, f, true, d, pos);
      FillFromGenerate(env, fields, i, data, false, false, true, d, pos);
      var o := FieldValue(env, f, true, d, pos);
      if o.Done? {
        ExtendFilled(fields, i, data, o.value, (v, g) => FieldConforms(env, v, g, true, d));
        FillSound(env, fields, i + 1, data[f.name := o.value], d, o.next);
      }
    }
  }

  /** Adding a value that meets `ok` for field `i` to the data of the fields before it gives
      the data of the fields up to and including `i`. */
  lemma ExtendFilled<V>(fields: seq<Field>, i: nat, data: map<string, V>, v: V, ok: (V, Field) -> bool)
    requires i < |fields| && DistinctNames(fields)
    requires data.Keys == Names(fields[..i])
    requires forall j :: 0 <= j < i ==> fields[j].name in data && ok(data[fields[j].name], fields[j])
    requires ok(v, fields[i])
    ensures var data' := data[fields[i].name := v];
      && data'.Keys == Names(fields[..i + 1])
      && forall j :: 0 <= j < i + 1 ==> fields[j].name in data' && ok(data'[fields[j].name], fields[j])
  {
    var f := fields[i];
    var data' := data[f.name := v];
    assert fields[..i + 1][..i] == fields[..i];
    forall j | 0 <= j < i + 1
      ensures fields[j].name in data' && ok(data'[fields[j].name], fields[j])
    {
      if j < i {
        assert fields[j].name != f.name;
      }
    }
  }

  /** The name of field `i` is not among the names before it, when names are distinct. */
  lemma {:induction false} NamesOfPrefix(fields: seq<Field>, i: nat)
    requires i < |fields| && DistinctNames(fields)
    ensures fields[i].name !in Names(fields[..i])
  {
    if fields[i].name in Names(fields[..i]) {
      var j := NameIndex(fields[..i], fields[i].name);
    }
  }

  /** A name of the table is the name of one of its fields. */
  lemma {:induction false} NameIndex(fields: seq<Field>, name: string) returns (j: nat)
    requires name in Names(fields)
    ensures j < |fields| && fields[j].name == name
    decreases |fields|
  {
    var init := fields[..|fields| - 1];
    if name == fields[|fields| - 1].name {
      j := |fields| - 1;
    } else {
      j := NameIndex(init, name);
    }
  }
}
