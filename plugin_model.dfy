/** `PydanticModelGenerator`: the plugin form of the model and root-model handlers. A root
    model is tested first. A plain model below the depth limit is built by the monolithic
    builder one level deeper, as in the monolithic form; AT the depth limit, unlike the
    monolithic form (which returns `None`), the builder fills the required fields at the same
    depth, and any exception turns the result into `None`. */
module PluginModel {
  import opened Types
  import opened PluginBase
  import opened Dispatcher
  import Builder
  import opened Conformance
  import Totality

  /** `can_handle`: a plain model or a root model. */
  predicate CanHandle(t: Ty) {
    t.Model? || t.Root?
  }

  /** `_generate_pydantic_model`. Called on a type that is not a model class, the builder fails
      on the missing field table: below the depth limit that error escapes, at the limit the
      bare `except` turns it into `None`. */
  function GenerateModel(env: Env, t: Ty, d: int, pos: nat): (o: Outcome)
    ensures d >= env.maxDepth ==> o.Done?
    ensures d >= env.maxDepth && t.Model? && o.value.VModel? ==>
      o.value.data.Keys == Builder.SelectedFrom(DeclOf(env, t.modelName).fields, 0, true, false)
    ensures d >= env.maxDepth && t.Model? ==>
      (o.value == VNone <==>
         FillFrom(env, DeclOf(env, t.modelName).fields, 0, map[], true, false, true, d, pos).raised.Some?)
    ensures d >= env.maxDepth && t.Model? && o.value.VModel? ==>
      o.value.name == t.modelName && o.value.configBase == DeclOf(env, t.modelName).configBase
    ensures d < env.maxDepth && t.Model? ==> o == GenModel(env, t.modelName, d, pos)
  {
    if d >= env.maxDepth then
      if !t.Model? then Done(VNone, pos)
      else
        var decl := DeclOf(env, t.modelName);
        var r := FillFrom(env, decl.fields, 0, map[], true, false, true, d, pos);
        Builder.FillKeys(env, decl.fields, 0, map[], true, false, true, d, pos);
        if r.raised.Some? then Done(VNone, r.next)
        else Done(VModel(t.modelName, decl.configBase, r.data), r.next)
    else if !t.Model? then Raised(WrongKind, pos)
    else
      var decl := DeclOf(env, t.modelName);
      var r := FillFrom(env, decl.fields, 0, map[], false, false, true, d + 1, pos);
      if r.raised.Some? then Raised(r.raised.value, r.next)
      else Done(VModel(t.modelName, decl.configBase, r.data), r.next)
  }

  /** `generate`: a root model wraps the plugin dispatcher's value for its inner type,
      generated at the same depth with no field name, under `_fields_set={"root"}`; any other
      type goes to `GenerateModel`. */
  function Generate(vg: ValueGen, env: Env, t: Ty, name: Option<string>, d: int, pos: nat): (o: Outcome)
    ensures t.Root? ==> (o.Done? <==> vg(t.inner, None, d, env.maxDepth, pos).Done?)
    ensures t.Root? && o.Done? ==>
      o.value == VRoot(t.rootName, vg(t.inner, None, d, env.maxDepth, pos).value, {"root"})
    ensures !t.Root? ==> o == GenerateModel(env, t, d, pos)
  {
    if t.Root? then
      match vg(t.inner, None, d, env.maxDepth, pos)
      case Done(v, p) => Done(VRoot(t.rootName, v, {"root"}), p)
      case Raised(e, p) => Raised(e, p)
    else GenerateModel(env, t, d, pos)
  }

  /** At the depth limit every value of the built model conforms to its field, with smart
      generation on and at the same depth. */
  lemma AtLimitValuesConform(env: Env, t: Ty, d: int, pos: nat)
    requires WellFormed(env) && d >= env.maxDepth && t.Model?
    ensures var o := GenerateModel(env, t, d, pos);
      var fields := DeclOf(env, t.modelName).fields;
      o.value.VModel? ==>
        forall j :: 0 <= j < |fields| && fields[j].name in o.value.data ==>
          FieldConforms(env, o.value.data[fields[j].name], fields[j], true, d)
  {
    var fields := DeclOf(env, t.modelName).fields;
    assert DistinctNames(fields);
    Builder.FillValuesConform(env, fields, 0, map[], true, false, true, d, pos);
  }

  /** The two forms differ at the depth limit: the monolithic handler returns `None`, while
      over a schema whose annotations all have generators the plugin returns the model with
      exactly its required fields filled. */
  lemma AtLimitFormsDiffer(env: Env, name: string, d: int, pos: nat)
    requires d >= env.maxDepth && Totality.SchemaSupported(env)
    ensures GenModel(env, name, d, pos) == Done(VNone, pos)
    ensures var o := GenerateModel(env, Model(name), d, pos);
      o.value.VModel? && o.value.name == name
      && o.value.data.Keys == Builder.SelectedFrom(DeclOf(env, name).fields, 0, true, false)
  {
    Totality.FillTotal(env, DeclOf(env, name).fields, 0, map[], true, false, true, d, pos);
  }
}
