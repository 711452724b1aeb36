/** `ContainerGenerator`: the plugin form of the container handlers. Elements are generated
    by the plugin dispatcher one level deeper and without a field name. */
module PluginContainer {
  import opened Types
  import opened PluginBase
  import Dispatcher
  import Conformance

  /** `can_handle`: the origin is list/List, dict/Dict or set/Set. */
  predicate CanHandle(t: Ty) {
    t.Container?
  }

  /** `_empty_container`: `[]`, `{}` or `set()` by origin, and `None` for any other type. */
  function EmptyContainerOf(t: Ty): Value {
    if t.Container? then Dispatcher.EmptyContainer(t.kind) else VNone
  }

  /** What a container below the depth limit holds: 1 or 2 elements (or word-keyed entries),
      each one produced by the plugin dispatcher for the item (or value) type at `d + 1`
      with no field name. */
  ghost predicate Filled(vg: ValueGen, t: Ty, d: int, maxDepth: int, v: Value)
    requires t.Container?
  {
    match t.kind
    case ListKind =>
      v.VList? && 1 <= |v.items| <= 2
      && forall i :: 0 <= i < |v.items| ==> MadeBy(vg, Dispatcher.ItemType(t.args), d + 1, maxDepth, v.items[i])
    case SetKind =>
      v.VSet? && 1 <= |v.elems| <= 2
      && forall x :: x in v.elems ==> MadeBy(vg, Dispatcher.ItemType(t.args), d + 1, maxDepth, x)
    case DictKind =>
      v.VDict? && 1 <= |v.entries| <= 2
      && forall k :: k in v.entries ==> k.WordKey? && MadeBy(vg, Dispatcher.ValueType(t.args), d + 1, maxDepth, v.entries[k])
  }

  /** `count` plugin-dispatcher calls for `t`, collected in order. */
  function Items(vg: ValueGen, t: Ty, d: int, maxDepth: int, count: nat, pos: nat): (o: Outcome)
    ensures o.Done? ==> o.value.VList? && |o.value.items| == count
    ensures o.Done? ==> forall i :: 0 <= i < |o.value.items| ==> MadeBy(vg, t, d, maxDepth, o.value.items[i])
  {
    if count == 0 then Done(VList([]), pos)
    else match vg(t, None, d, maxDepth, pos)
      case Raised(e, p) => Raised(e, p)
      case Done(v, p) =>
        match Items(vg, t, d, maxDepth, count - 1, p)
        case Raised(e, q) => Raised(e, q)
        case Done(rest, q) =>
          var items := [v] + rest.items;
          assert MadeBy(vg, t, d, maxDepth, v) by {
            assert vg(t, None, d, maxDepth, pos).value == v;
          }
          assert forall i :: 1 <= i < |items| ==> items[i] == rest.items[i - 1];
          Done(VList(items), q)
  }

  /** `count` entries `fake.word(): generate(t)`; a repeated key keeps the later value. */
  function Entries(vg: ValueGen, tape: Tape, t: Ty, d: int, maxDepth: int, count: nat, pos: nat): (o: Outcome)
    ensures o.Done? ==> o.value.VDict? && |o.value.entries| <= count && (count > 0 ==> |o.value.entries| >= 1)
    ensures o.Done? ==> forall k :: k in o.value.entries ==> k.WordKey? && MadeBy(vg, t, d, maxDepth, o.value.entries[k])
  {
    if count == 0 then Done(VDict(map[]), pos)
    else
      var key := WordKey(tape(pos));
      match vg(t, None, d, maxDepth, pos + 1)
      case Raised(e, p) => Raised(e, p)
      case Done(v, p) =>
        match Entries(vg, tape, t, d, maxDepth, count - 1, p)
        case Raised(e, q) => Raised(e, q)
        case Done(rest, q) =>
          assert MadeBy(vg, t, d, maxDepth, v) by {
            assert vg(t, None, d, maxDepth, pos + 1).value == v;
          }
          Conformance.PrependEntry(key, v, rest.entries);
          Done(VDict(map[key := v] + rest.entries), q)
  }

  /** `generate`: the empty container at the depth limit; otherwise, for a container type,
      `random.randint(1, 2)` draws one level deeper; for any other type, `None`. */
  function Generate(vg: ValueGen, tape: Tape, t: Ty, name: Option<string>, d: int, maxDepth: int, pos: nat): (o: Outcome)
    ensures d >= maxDepth ==> o == Done(EmptyContainerOf(t), pos)
    ensures !t.Container? ==> o == Done(VNone, pos)
    ensures d < maxDepth && t.Container? && o.Done? ==> Filled(vg, t, d, maxDepth, o.value)
  {
    if d >= maxDepth then Done(EmptyContainerOf(t), pos)
    else if !t.Container? then Done(VNone, pos)
    else
      var n := RandInt(tape, pos, 1, 2);
      match t.kind
      case ListKind => Items(vg, Dispatcher.ItemType(t.args), d + 1, maxDepth, n, pos + 1)
      case SetKind =>
        (match Items(vg, Dispatcher.ItemType(t.args), d + 1, maxDepth, n, pos + 1)
         case Done(v, p) =>
           Conformance.SetOfSeqSize(v.items);
           Done(VSet(set x | x in v.items), p)
         case Raised(e, p) => Raised(e, p))
      case DictKind => Entries(vg, tape, Dispatcher.ValueType(t.args), d + 1, maxDepth, n, pos + 1)
  }

  /** At the depth limit the result is the empty container of the type's own kind. */
  lemma EmptyKeepsKind(vg: ValueGen, tape: Tape, t: Ty, name: Option<string>, d: int, maxDepth: int, pos: nat)
    requires CanHandle(t) && d >= maxDepth
    ensures var v := Generate(vg, tape, t, name, d, maxDepth, pos).value;
      (t.kind == ListKind <==> v.VList?) && (t.kind == DictKind <==> v.VDict?) && (t.kind == SetKind <==> v.VSet?)
    ensures Generate(vg, tape, t, name, d, maxDepth, pos).value in {VList([]), VDict(map[]), VSet({})}
  {
  }
}
