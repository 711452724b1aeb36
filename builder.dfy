/** `GenerateData`: the stateful builder. It keeps a field dictionary that the fill methods
    and `set_field` update in place, and a flag that switches the name heuristic. The loop of
    `_fill_fields` is a method proved against `FillFrom`, the function the dispatcher uses for
    nested models; the lemmas below state what `FillFrom` promises: pinned keys are never
    overwritten, only selected fields are added, and a fill that does not raise adds every
    selected field. */
module Builder {
  import opened Types
  import opened TypeAnalyzer
  import opened SmartField
  import opened Dispatcher
  import opened Conformance

  /** The names of the fields from `i` on that the mode selects. */
  function SelectedFrom(fields: seq<Field>, i: nat, requiredOnly: bool, optionalOnly: bool): set<string>
    requires i <= |fields|
  {
    set j | i <= j < |fields| && Selected(fields[j], requiredOnly, optionalOnly) :: fields[j].name
  }

  /** The selected names from `i` on are those of field `i`, when selected, and those after it. */
  lemma SelectedFromStep(fields: seq<Field>, i: nat, requiredOnly: bool, optionalOnly: bool)
    requires i < |fields|
    ensures SelectedFrom(fields, i, requiredOnly, optionalOnly)
         == (if Selected(fields[i], requiredOnly, optionalOnly) then {fields[i].name} else {})
            + SelectedFrom(fields, i + 1, requiredOnly, optionalOnly)
  {
  }

  /** Pinned keys keep their values, even when a field's generator raises; the only keys
      added are names of selected fields; a fill that does not raise adds all of them. */
  lemma {:induction false} FillKeys(env: Env, fields: seq<Field>, i: nat, data: map<string, Value>,
                                    requiredOnly: bool, optionalOnly: bool, smart: bool, d: int, pos: nat)
    requires i <= |fields|
    ensures var r := FillFrom(env, fields, i, data, requiredOnly, optionalOnly, smart, d, pos);
      && (forall k :: k in data ==> k in r.data && r.data[k] == data[k])
      && r.data.Keys <= data.Keys + SelectedFrom(fields, i, requiredOnly, optionalOnly)
      && (r.raised.None? ==> r.data.Keys == data.Keys + SelectedFrom(fields, i, requiredOnly, optionalOnly))
    decreases |fields| - i
  {
    if i < |fields| {
      var f := fields[i];
      SelectedFromStep(fields, i, requiredOnly, optionalOnly);
      if f.name in data || !Selected(f, requiredOnly, optionalOnly) {
        FillFromSkip(env, fields, i, data, requiredOnly, optionalOnly, smart, d, pos);
        FillKeys(env, fields, i + 1, data, requiredOnly, optionalOnly, smart, d, pos);
      } else {
        FillFromGenerate(env, fields, i, data, requiredOnly, optionalOnly, smart, d, pos);
        var o := FieldValue(env, f, smart, d, pos);
        if o.Done? {
          var data' := data[f.name := o.value];
          FillKeys(env, fields, i + 1, data', requiredOnly, optionalOnly, smart, d, o.next);
        }
      }
    }
  }

  /** Required-only leaves every unpinned Optional field absent, and optional-only every
      unpinned non-Optional field. */
  lemma ModeLeavesOthersAbsent(env: Env, fields: seq<Field>, data: map<string, Value>,
                               requiredOnly: bool, optionalOnly: bool, smart: bool, d: int, pos: nat, j: nat)
    requires DistinctNames(fields) && j < |fields| && fields[j].name !in data
    requires (requiredOnly && IsOptional(fields[j].ty)) || (optionalOnly && !IsOptional(fields[j].ty))
    ensures fields[j].name !in FillFrom(env, fields, 0, data, requiredOnly, optionalOnly, smart, d, pos).data
  {
    FillKeys(env, fields, 0, data, requiredOnly, optionalOnly, smart, d, pos);
    assert !Selected(fields[j], requiredOnly, optionalOnly);
  }

  /** Every value a fill generates is the smart value of its name when smart generation is on
      and the unwrapped type is exactly `str` with a recognised name, and otherwise a value
      that conforms to the unwrapped type. */
  lemma {:induction false} FillValuesConform(env: Env, fields: seq<Field>, i: nat, data: map<string, Value>,
                                             requiredOnly: bool, optionalOnly: bool, smart: bool, d: int, pos: nat)
    requires WellFormed(env) && DistinctNames(fields) && i <= |fields|
    ensures var r := FillFrom(env, fields, i, data, requiredOnly, optionalOnly, smart, d, pos);
      forall j :: i <= j < |fields| && fields[j].name in r.data && fields[j].name !in data ==>
        FieldConforms(env, r.data[fields[j].name], fields[j], smart, d)
    decreases |fields| - i
  {
    if i < |fields| {
      var f := fields[i];
      if f.name in data || !Selected(f, requiredOnly, optionalOnly) {
        FillFromSkip(env, fields, i, data, requiredOnly, optionalOnly, smart, d, pos);
        FillValuesConform(env, fields, i + 1, data, requiredOnly, optionalOnly, smart, d, pos);
        FillKeys(env, fields, i + 1, data, requiredOnly, optionalOnly, smart, d, pos);
        assert f.name !in SelectedFrom(fields, i + 1, requiredOnly, optionalOnly);
      } else {
        FieldSound(env, f, smart, d, pos);
        FillFromGenerate(env, fields, i, data, requiredOnly, optionalOnly, smart, d, pos);
        var o := FieldValue(env, f, smart, d, pos);
        if o.Done? {
          var data' := data[f.name := o.value];
          FillValuesConform(env, fields, i + 1, data', requiredOnly, optionalOnly, smart, d, o.next);
          FillKeys(env, fields, i + 1, data', requiredOnly, optionalOnly, smart, d, o.next);
          var r := FillFrom(env, fields, i + 1, data', requiredOnly, optionalOnly, smart, d, o.next);
          forall j | i <= j < |fields| && fields[j].name in r.data && fields[j].name !in data
            ensures FieldConforms(env, r.data[fields[j].name], fields[j], smart, d)
          {
            if j == i {
              assert r.data[f.name] == o.value;
            } else {
              assert fields[j].name != f.name;
            }
          }
        }
      }
    }
  }

  /** `_convert_to_dict`: a configuration model becomes a dict of its fields, each field
      converted by `ConvertField`; every other value is returned unchanged. */
  function ConvertToDict(v: Value): (r: Value)
    ensures !(v.VModel? && v.configBase) ==> r == v
    ensures v.VModel? && v.configBase ==>
      r.VDict? && r.entries.Keys == (set k | k in v.data :: StrKey(k))
      && forall k | k in v.data :: r.entries[StrKey(k)] == ConvertField(v.data[k])
    ensures !(r.VModel? && r.configBase)
    decreases v, 0
  {
    if v.VModel? && v.configBase then
      VDict(map k | k in v.data :: StrKey(k) := ConvertField(v.data[k]))
    else v
  }

  /** One field of a converted model: a configuration model is converted, a list has each
      element converted, a dict each value (by one call of `ConvertToDict`, which does not
      look inside nested lists); anything else is kept. The result is never a configuration
      model, and neither is any element or value of a list or dict result. */
  function ConvertField(v: Value): (r: Value)
    ensures !(r.VModel? && r.configBase)
    ensures v.VList? ==> (r.VList? && |r.items| == |v.items|
      && forall i :: 0 <= i < |r.items| ==>
        r.items[i] == ConvertToDict(v.items[i]) && !(r.items[i].VModel? && r.items[i].configBase))
    ensures v.VDict? ==> (r.VDict? && r.entries.Keys == v.entries.Keys
      && forall k :: k in r.entries ==>
        r.entries[k] == ConvertToDict(v.entries[k]) && !(r.entries[k].VModel? && r.entries[k].configBase))
    ensures !v.VList? && !v.VDict? && !(v.VModel? && v.configBase) ==> r == v
    decreases v, 1
  {
    if v.VModel? && v.configBase then ConvertToDict(v)
    else if v.VList? then VList(seq(|v.items|, i requires 0 <= i < |v.items| => ConvertToDict(v.items[i])))
    else if v.VDict? then VDict(map k | k in v.entries :: ConvertToDict(v.entries[k]))
    else v
  }

  /** Converting twice is converting once. */
  lemma {:induction false} ConvertToDictIdempotent(v: Value)
    ensures ConvertToDict(ConvertToDict(v)) == ConvertToDict(v)
  {
  }

  /** `ConvertField` is idempotent too: its list elements and dict values are already
      converted. */
  lemma {:induction false} ConvertFieldIdempotent(v: Value)
    ensures ConvertField(ConvertField(v)) == ConvertField(v)
  {
    var r := ConvertField(v);
    if v.VModel? && v.configBase {
      var m := r.entries;
      assert ConvertField(r).entries.Keys == m.Keys;
      forall k | k in m
        ensures ConvertField(r).entries[k] == m[k]
      {
        assert !(m[k].VModel? && m[k].configBase);
      }
    } else if v.VList? {
      assert |ConvertField(r).items| == |r.items|;
      forall i | 0 <= i < |r.items|
        ensures ConvertField(r).items[i] == r.items[i]
      {
        assert !(r.items[i].VModel? && r.items[i].configBase);
      }
    } else if v.VDict? {
      forall k | k in r.entries
        ensures ConvertField(r).entries[k] == r.entries[k]
      {
        assert !(r.entries[k].VModel? && r.entries[k].configBase);
      }
    }
  }

  /** No configuration model occurs anywhere in `v`, at any depth. */
  predicate NoConfigModel(v: Value)
    decreases v
  {
    match v
    case VModel(_, configBase, data) => !configBase && forall k | k in data :: NoConfigModel(data[k])
    case VList(items) => forall i | 0 <= i < |items| :: NoConfigModel(items[i])
    case VSet(elems) => forall x | x in elems :: NoConfigModel(x)
    case VDict(entries) => forall k | k in entries :: NoConfigModel(entries[k])
    case VRoot(_, root, _) => NoConfigModel(root)
    case _ => true
  }

  /** A reference for a conversion that reaches every depth: each configuration model,
      wherever it occurs, becomes the dict of its converted fields. */
  function DeepConvert(v: Value): (r: Value)
    ensures NoConfigModel(r)
    ensures v.VModel? && v.configBase ==>
      r.VDict? && r.entries.Keys == (set k | k in v.data :: StrKey(k))
      && forall k | k in v.data :: r.entries[StrKey(k)] == DeepConvert(v.data[k])
    ensures v.VDict? ==> (r.VDict? && r.entries.Keys == v.entries.Keys
      && forall k | k in v.entries :: r.entries[k] == DeepConvert(v.entries[k]))
    decreases v
  {
    match v
    case VModel(name, configBase, data) =>
      if configBase then VDict(map k | k in data :: StrKey(k) := DeepConvert(data[k]))
      else VModel(name, false, map k | k in data :: DeepConvert(data[k]))
    case VList(items) => VList(seq(|items|, i requires 0 <= i < |items| => DeepConvert(items[i])))
    case VSet(elems) => VSet(set x | x in elems :: DeepConvert(x))
    case VDict(entries) => VDict(map k | k in entries :: DeepConvert(entries[k]))
    case VRoot(n, root, fs) => VRoot(n, DeepConvert(root), fs)
    case _ => v
  }

  /** The full conversion leaves a value without configuration models as it is. */
  lemma {:induction false} DeepConvertKeepsPlain(v: Value)
    requires NoConfigModel(v)
    ensures DeepConvert(v) == v
    decreases v
  {
    match v
    case VModel(_, _, data) =>
      forall k | k in data ensures DeepConvert(data[k]) == data[k] {
        DeepConvertKeepsPlain(data[k]);
      }
      PlainModelKept(v);
    case VList(items) =>
      forall i | 0 <= i < |items| ensures DeepConvert(items[i]) == items[i] {
        DeepConvertKeepsPlain(items[i]);
      }
      PlainListKept(v);
    case VSet(elems) =>
      forall x | x in elems ensures DeepConvert(x) == x {
        DeepConvertKeepsPlain(x);
      }
      PlainSetKept(v);
    case VDict(entries) =>
      forall k | k in entries ensures DeepConvert(entries[k]) == entries[k] {
        DeepConvertKeepsPlain(entries[k]);
      }
      PlainDictKept(v);
    case VRoot(_, root, _) =>
      DeepConvertKeepsPlain(root);
    case _ =>
  }

  /** One step of `DeepConvertKeepsPlain`: a model that is not a configuration model. */
  lemma PlainModelKept(v: Value)
    requires v.VModel? && !v.configBase
    requires forall k | k in v.data :: DeepConvert(v.data[k]) == v.data[k]
    ensures DeepConvert(v) == v
  {
    var r := DeepConvert(v);
    assert r.data.Keys == v.data.Keys;
    forall k | k in v.data ensures r.data[k] == v.data[k] {
    }
  }

  /** One step of `DeepConvertKeepsPlain`: a list. */
  lemma PlainListKept(v: Value)
    requires v.VList?
    requires forall i | 0 <= i < |v.items| :: DeepConvert(v.items[i]) == v.items[i]
    ensures DeepConvert(v) == v
  {
    assert DeepConvert(v).items == v.items;
  }

  /** One step of `DeepConvertKeepsPlain`: a set. */
  lemma PlainSetKept(v: Value)
    requires v.VSet?
    requires forall x | x in v.elems :: DeepConvert(x) == x
    ensures DeepConvert(v) == v
  {
    assert DeepConvert(v).elems == v.elems;
  }

  /** One step of `DeepConvertKeepsPlain`: a dict. */
  lemma PlainDictKept(v: Value)
    requires v.VDict?
    requires forall k | k in v.entries :: DeepConvert(v.entries[k]) == v.entries[k]
    ensures DeepConvert(v) == v
  {
    assert DeepConvert(v).entries == v.entries;
  }

  /** `_convert_to_dict` and its field conversion return a value without configuration
      models unchanged. */
  lemma ConvertKeepsPlain(v: Value)
    requires NoConfigModel(v)
    ensures ConvertToDict(v) == v && ConvertField(v) == v
  {
    if v.VList? {
      forall i | 0 <= i < |v.items| ensures ConvertToDict(v.items[i]) == v.items[i] {
        assert NoConfigModel(v.items[i]);
      }
    } else if v.VDict? {
      forall k | k in v.entries ensures ConvertToDict(v.entries[k]) == v.entries[k] {
        assert NoConfigModel(v.entries[k]);
      }
    }
  }

  /** The values on which `_convert_to_dict` reaches every configuration model: a
      configuration model whose fields satisfy `FieldReached`, or a value without any. */
  predicate Reached(v: Value)
    decreases v, 0
  {
    if v.VModel? && v.configBase then forall k | k in v.data :: FieldReached(v.data[k])
    else NoConfigModel(v)
  }

  /** A field value on which the conversion reaches every configuration model: such a
      model, or a list or dict whose elements or values satisfy `Reached`. */
  predicate FieldReached(v: Value)
    decreases v, 1
  {
    if v.VModel? && v.configBase then Reached(v)
    else if v.VList? then forall i | 0 <= i < |v.items| :: Reached(v.items[i])
    else if v.VDict? then forall k | k in v.entries :: Reached(v.entries[k])
    else NoConfigModel(v)
  }

  /** A value without configuration models is left alone by both conversions. */
  lemma PlainMatchesDeep(v: Value)
    requires NoConfigModel(v)
    ensures ConvertToDict(v) == DeepConvert(v)
  {
    DeepConvertKeepsPlain(v);
  }

  /** Two dicts keyed by the same field names, with equal values under each, are equal. */
  lemma SameDict(data: map<string, Value>, r1: Value, r2: Value)
    requires r1.VDict? && r1.entries.Keys == (set k | k in data :: StrKey(k))
    requires r2.VDict? && r2.entries.Keys == r1.entries.Keys
    requires forall k | k in data :: r1.entries[StrKey(k)] == r2.entries[StrKey(k)]
    ensures r1 == r2
  {
    forall key | key in r1.entries ensures r1.entries[key] == r2.entries[key] {
      assert key.s in data;
    }
  }

  /** A configuration model on whose fields the two conversions agree. */
  lemma ConfigMatchesDeep(v: Value)
    requires v.VModel? && v.configBase
    requires forall k | k in v.data :: ConvertField(v.data[k]) == DeepConvert(v.data[k])
    ensures ConvertToDict(v) == DeepConvert(v)
  {
    SameDict(v.data, ConvertToDict(v), DeepConvert(v));
  }

  /** Where it reaches every configuration model, `_convert_to_dict` is the full conversion,
      so its result holds no configuration model at any depth. */
  lemma {:induction false} ConvertMatchesDeep(v: Value)
    requires Reached(v)
    ensures ConvertToDict(v) == DeepConvert(v) && NoConfigModel(ConvertToDict(v))
    decreases v, 1
  {
    if v.VModel? && v.configBase {
      forall k | k in v.data ensures ConvertField(v.data[k]) == DeepConvert(v.data[k]) {
        FieldMatchesDeep(v.data[k]);
      }
      ConfigMatchesDeep(v);
    } else {
      PlainMatchesDeep(v);
    }
  }

  /** The same for the conversion of one field. */
  lemma {:induction false} FieldMatchesDeep(v: Value)
    requires FieldReached(v)
    ensures ConvertField(v) == DeepConvert(v)
    decreases v, 2
  {
    if v.VModel? && v.configBase {
      ConvertMatchesDeep(v);
    } else if v.VList? {
      forall i | 0 <= i < |v.items| ensures ConvertToDict(v.items[i]) == DeepConvert(v.items[i]) {
        ConvertMatchesDeep(v.items[i]);
      }
      ListMatchesDeep(v);
    } else if v.VDict? {
      forall k | k in v.entries ensures ConvertToDict(v.entries[k]) == DeepConvert(v.entries[k]) {
        ConvertMatchesDeep(v.entries[k]);
      }
      DictMatchesDeep(v);
    } else {
      DeepConvertKeepsPlain(v);
    }
  }

  /** One step of `FieldMatchesDeep`: a list whose elements the two conversions agree on. */
  lemma ListMatchesDeep(v: Value)
    requires v.VList?
    requires forall i | 0 <= i < |v.items| :: ConvertToDict(v.items[i]) == DeepConvert(v.items[i])
    ensures ConvertField(v) == DeepConvert(v)
  {
    assert ConvertField(v).items == DeepConvert(v).items;
  }

  /** One step of `FieldMatchesDeep`: a dict whose values the two conversions agree on. */
  lemma DictMatchesDeep(v: Value)
    requires v.VDict?
    requires forall k | k in v.entries :: ConvertToDict(v.entries[k]) == DeepConvert(v.entries[k])
    ensures ConvertField(v) == DeepConvert(v)
  {
    SameEntries(ConvertField(v), DeepConvert(v));
  }

  /** Two dicts with the same keys and equal values under each are equal. */
  lemma SameEntries(r1: Value, r2: Value)
    requires r1.VDict? && r2.VDict? && r1.entries.Keys == r2.entries.Keys
    requires forall k | k in r1.entries :: r1.entries[k] == r2.entries[k]
    ensures r1 == r2
  {
  }

  /** The conversion stops one level inside a list: a configuration model in a list inside
      a list is kept as it is. */
  lemma NestedListKeepsConfigModel()
    ensures var inner := VModel("N", true, map[]);
      var xs := VList([VList([inner])]);
      var r := ConvertToDict(VModel("M", true, map["xs" := xs]));
      r.VDict? && StrKey("xs") in r.entries && r.entries[StrKey("xs")] == xs && !NoConfigModel(r)
  {
    var inner := VModel("N", true, map[]);
    var xs := VList([VList([inner])]);
    var v := VModel("M", true, map["xs" := xs]);
    assert ConvertToDict(VList([inner])) == VList([inner]);
    assert ConvertField(xs) == xs;
    var r := ConvertToDict(v);
    assert "xs" in v.data;
    assert r.entries[StrKey("xs")] == xs;
    assert !NoConfigModel(xs) by {
      assert !NoConfigModel(inner);
      assert VList([inner]).items[0] == inner;
      assert !NoConfigModel(VList([inner]));
      assert xs.items[0] == VList([inner]);
    }
  }

  /** The builder. `pos` is the position of the global random source, which every
      generation advances. */
  class GenerateData {
    const env: Env
    const modelName: string
    const currentDepth: int
    var data: map<string, Value>
    var useSmartGeneration: bool
    var pos: nat

    /** `GenerateData(model_class, current_depth, max_depth, use_smart_generation)`. */
    constructor (env: Env, modelName: string, currentDepth: int, useSmartGeneration: bool, pos: nat)
      ensures this.env == env && this.modelName == modelName && this.currentDepth == currentDepth
      ensures this.useSmartGeneration == useSmartGeneration && this.pos == pos
      ensures data == map[]
    {
      this.env := env;
      this.modelName := modelName;
      this.currentDepth := currentDepth;
      this.useSmartGeneration := useSmartGeneration;
      this.pos := pos;
      data := map[];
    }

    /** The model's declared fields, in order. */
    function Fields(): seq<Field> {
      DeclOf(env, modelName).fields
    }

    /** `_fill_fields`: one pass over the declared fields, generating every field that is
        neither present nor filtered out by the mode. When a generator raises, the fields
        generated so far stay in `data` and the exception is returned. */
    method FillFields(requiredOnly: bool, optionalOnly: bool) returns (raised: Option<Error>)
      modifies this
      ensures var r := FillFrom(env, Fields(), 0, old(data), requiredOnly, optionalOnly, old(useSmartGeneration), currentDepth, old(pos));
        data == r.data && pos == r.next && raised == r.raised
      ensures useSmartGeneration == old(useSmartGeneration)
    {
      var fields := DeclOf(env, modelName).fields;
      var i := 0;
      while i < |fields|
        invariant 0 <= i <= |fields|
        invariant useSmartGeneration == old(useSmartGeneration)
        invariant FillFrom(env, fields, i, data, requiredOnly, optionalOnly, useSmartGeneration, currentDepth, pos)
               == FillFrom(env, fields, 0, old(data), requiredOnly, optionalOnly, useSmartGeneration, currentDepth, old(pos))
      {
        var f := fields[i];
        if f.name in data {
          FillFromSkip(env, fields, i, data, requiredOnly, optionalOnly, useSmartGeneration, currentDepth, pos);
          i := i + 1;
          continue;
        }
        var isOptional := IsOptional(f.ty);
        if (requiredOnly && isOptional) || (optionalOnly && !isOptional) {
          FillFromSkip(env, fields, i, data, requiredOnly, optionalOnly, useSmartGeneration, currentDepth, pos);
          i := i + 1;
          continue;
        }
        var base := if isOptional then ExtractBaseType(f.ty) else f.ty;
        var o: Outcome;
        if useSmartGeneration && CanGenerateSmartValue(f.name, base) {
          o := GenerateSmartValue(f.name, env.tape, pos);
        } else {
          o := Dispatch(env, base, currentDepth, pos);
        }
        assert o == FieldValue(env, f, useSmartGeneration, currentDepth, pos);
        FillFromGenerate(env, fields, i, data, requiredOnly, optionalOnly, useSmartGeneration, currentDepth, pos);
        match o
        case Raised(e, p) =>
          pos := p;
          return Some(e);
        case Done(v, p) =>
          data := data[f.name := v];
          pos := p;
        i := i + 1;
      }
      return None;
    }

    /** `fill_all_fields(**pinned)`: pin the given values, then fill every field. */
    method FillAllFields(pinned: map<string, Value>) returns (raised: Option<Error>)
      modifies this
      ensures var r := FillFrom(env, Fields(), 0, old(data) + pinned, false, false, old(useSmartGeneration), currentDepth, old(pos));
        data == r.data && pos == r.next && raised == r.raised
      ensures useSmartGeneration == old(useSmartGeneration)
    {
      data := data + pinned;
      raised := FillFields(false, false);
    }

    /** `fill_required(**pinned)`: pin the given values, then fill the non-Optional fields. */
    method FillRequired(pinned: map<string, Value>) returns (raised: Option<Error>)
      modifies this
      ensures var r := FillFrom(env, Fields(), 0, old(data) + pinned, true, false, old(useSmartGeneration), currentDepth, old(pos));
        data == r.data && pos == r.next && raised == r.raised
      ensures useSmartGeneration == old(useSmartGeneration)
    {
      data := data + pinned;
      raised := FillFields(true, false);
    }

    /** `fill_optional(**pinned)`: pin the given values, then fill the Optional fields. */
    method FillOptional(pinned: map<string, Value>) returns (raised: Option<Error>)
      modifies this
      ensures var r := FillFrom(env, Fields(), 0, old(data) + pinned, false, true, old(useSmartGeneration), currentDepth, old(pos));
        data == r.data && pos == r.next && raised == r.raised
      ensures useSmartGeneration == old(useSmartGeneration)
    {
      data := data + pinned;
      raised := FillFields(false, true);
    }

    /** `set_field(**kwargs)`: the given values overwrite or add keys; nothing is generated. */
    method SetField(kwargs: map<string, Value>)
      modifies this
      ensures data == old(data) + kwargs
      ensures useSmartGeneration == old(useSmartGeneration) && pos == old(pos)
    {
      data := data + kwargs;
    }

    /** `with_smart_generation(enabled)`. */
    method WithSmartGeneration(enabled: bool)
      modifies this
      ensures useSmartGeneration == enabled
      ensures data == old(data) && pos == old(pos)
    {
      useSmartGeneration := enabled;
    }

    /** `disable_smart_generation()`. */
    method DisableSmartGeneration()
      modifies this
      ensures !useSmartGeneration
      ensures data == old(data) && pos == old(pos)
    {
      WithSmartGeneration(false);
    }

    /** `build()`: `model_construct` without validation, from exactly the current data. */
    method Build() returns (v: Value)
      ensures v.VModel? && v.name == modelName && v.data == data
      ensures v.configBase == DeclOf(env, modelName).configBase
    {
      v := VModel(modelName, DeclOf(env, modelName).configBase, data);
    }

    /** `to_dict()`: the built model, flattened. A configuration model becomes a dict keyed
        by exactly its data's keys. */
    method ToDict() returns (v: Value)
      ensures v == ConvertToDict(VModel(modelName, DeclOf(env, modelName).configBase, data))
      ensures DeclOf(env, modelName).configBase ==> v.VDict? && v.entries.Keys == set k | k in data :: StrKey(k)
    {
      var m := Build();
      v := ConvertToDict(m);
    }
  }

  /** A pinned value survives any later fill of the same builder: `fill_required(**pinned)`
      followed by `fill_all_fields()` keeps every pinned value exactly. */
  method PinnedSurvivesTwoFills(env: Env, name: string, pinned: map<string, Value>) returns (b: GenerateData)
    ensures forall k :: k in pinned ==> k in b.data && b.data[k] == pinned[k]
  {
    b := new GenerateData(env, name, 0, true, 0);
    var r1 := b.FillRequired(pinned);
    assert map[] + pinned == pinned;
    FillKeys(env, b.Fields(), 0, pinned, true, false, true, 0, 0);
    var mid := b.data;
    var p1 := b.pos;
    var r2 := b.FillAllFields(map[]);
    assert mid + map[] == mid;
    FillKeys(env, b.Fields(), 0, mid, false, false, true, 0, p1);
  }
}
