/** The terminal generators: the primitive table (`_PRIMITIVE_GENERATORS`, shared by the
    plugin `PrimitiveGenerator.GENERATORS`) and the choice of an enum member. */
module Primitives {
  import opened Types

  /** A key of the primitive table: str, int, float, bool, datetime, date, UUID, Any. */
  predicate IsPrimitive(t: Ty) {
    t.Str? || t.Int? || t.Float? || t.Bool? || t.DateTime? || t.Date? || t.Uuid? || t.AnyT?
  }

  /** An opaque token produced by the named Faker, clock, `uuid4` or `random.uniform` call. */
  predicate IsFake(v: Value, provider: string) {
    v.VFake? && v.tag == Provider(provider)
  }

  /** What each primitive kind may produce: text for str, an int in [1, 1000], an opaque
      float in [1.0, 100.0], a bool, tomorrow's date-time or date, a fresh UUID, and for Any
      one of a word, an int in [1, 1000] or a float. */
  ghost predicate PrimitiveConforms(v: Value, t: Ty)
    requires IsPrimitive(t)
  {
    match t
    case Str => IsFake(v, "text")
    case Int => v.VInt? && 1 <= v.i <= 1000
    case Float => IsFake(v, "uniform")
    case Bool => v.VBool?
    case DateTime => IsFake(v, "datetime_tomorrow")
    case Date => IsFake(v, "date_tomorrow")
    case Uuid => IsFake(v, "uuid4")
    case AnyT => IsFake(v, "word") || (v.VInt? && 1 <= v.i <= 1000) || IsFake(v, "uniform")
  }

  /** One call of the table entry for `t`. `Any` builds the list `[word, int, float]` first
      (three draws) and then chooses one element of it (a fourth draw). */
  function PrimitiveValue(tape: Tape, t: Ty, pos: nat): (o: Outcome)
    requires IsPrimitive(t)
    ensures o.Done? && PrimitiveConforms(o.value, t)
    ensures o.next == if t.AnyT? then pos + 4 else pos + 1
  {
    match t
    case Str => Done(VFake(Provider("text"), tape(pos)), pos + 1)
    case Int => Done(VInt(RandInt(tape, pos, 1, 1000)), pos + 1)
    case Float => Done(VFake(Provider("uniform"), tape(pos)), pos + 1)
    case Bool => Done(VBool([true, false][ChoiceIndex(tape, pos, 2)]), pos + 1)
    case DateTime => Done(VFake(Provider("datetime_tomorrow"), tape(pos)), pos + 1)
    case Date => Done(VFake(Provider("date_tomorrow"), tape(pos)), pos + 1)
    case Uuid => Done(VFake(Provider("uuid4"), tape(pos)), pos + 1)
    case AnyT =>
      var options := [VFake(Provider("word"), tape(pos)), VInt(RandInt(tape, pos + 1, 1, 1000)),
                      VFake(Provider("uniform"), tape(pos + 2))];
      Done(options[ChoiceIndex(tape, pos + 3, 3)], pos + 4)
  }

  /** Both booleans are possible. */
  lemma BoolBothPossible(tape: Tape, pos: nat, b: bool)
    ensures PrimitiveValue((i: nat) => if i == pos then (if b then 0 else 1) else tape(i), Bool, pos).value == VBool(b)
  {
    var k: nat := if b then 0 else 1;
    var t := (i: nat) => if i == pos then (if b then 0 else 1) else tape(i);
    assert t(pos) == k;
    assert PrimitiveValue(t, Bool, pos).value == VBool(b);
  }

  /** `random.choice(list(enum))`: an enum member; an enum without members makes
      `random.choice` raise. */
  function ChooseMember(tape: Tape, members: seq<string>, pos: nat): (o: Outcome)
    ensures o.Done? <==> |members| > 0
    ensures o.Done? ==> o.value.VEnum? && o.value.member in members && o.next == pos + 1
    ensures o.Raised? ==> o.error == EmptyChoice
  {
    if |members| == 0 then Raised(EmptyChoice, pos)
    else Done(VEnum(members[ChoiceIndex(tape, pos, |members|)]), pos + 1)
  }

  /** Every member is a possible result: the choice ranges over the whole member list. */
  lemma EveryMemberPossible(tape: Tape, members: seq<string>, pos: nat, k: nat)
    requires k < |members|
    ensures ChooseMember((i: nat) => if i == pos then k else tape(i), members, pos).value == VEnum(members[k])
  {
    var t := (i: nat) => if i == pos then k else tape(i);
    assert t(pos) == k;
    assert ChoiceIndex(t, pos, |members|) == k;
  }
}
