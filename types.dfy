/** The closed set of type shapes the synthesizer understands, the values it produces,
    the random source it draws from and the schema table it reads.

    Python's runtime reflection (`get_origin`, `get_args`, `model_fields`, `isinstance`)
    is replaced by the `Ty` datatype; `random`, Faker, `uuid4` and `datetime.now()` are
    replaced by a tape of natural numbers that every generator reads from left to right. */
module Types {

  datatype Option<T> = None | Some(value: T)

  /** The three container origins the generators recognise: list/List, dict/Dict, set/Set. */
  datatype ContainerKind = ListKind | DictKind | SetKind

  /** One metadata entry of an `Annotated[...]` type. `Field(...)` and `StringConstraints(...)`
      entries are both length constraints with an optional minimum and maximum; anything else
      is ignored by the generators. */
  datatype Meta = LengthConstraint(minLength: Option<nat>, maxLength: Option<nat>) | OtherMeta

  /** A type annotation. `Union(args)` holds `get_args` of a `typing.Union` (so `Optional[X]`
      is `Union([X, NoneT])`); `Container(kind, args)` holds `get_args` of a subscripted or bare
      typing alias (`List` alone has no arguments); `Annotated(base, meta)` has no base only when
      it has no type arguments at all; `Opaque(name, repr)` is any other class, with its
      `__name__` (or its string form when it has none) and its `str()`. */
  datatype Ty =
    | Str | Int | Float | Bool | DateTime | Date | Uuid | AnyT | NoneT
    | Union(args: seq<Ty>)
    | Annotated(base: Option<Ty>, meta: seq<Meta>)
    | Container(kind: ContainerKind, args: seq<Ty>)
    | Enum(members: seq<string>)
    | Root(rootName: string, inner: Ty)
    | Model(modelName: string)
    | ForwardRef(ref: string)
    | Opaque(name: string, repr: string)

  /** One declared field of a model: its name and its annotation. */
  datatype Field = Field(name: string, ty: Ty)

  /** A model's field table in declaration order, and whether the class derives from the
      project's configuration base model (only those are flattened by `to_dict`). */
  datatype ModelDecl = ModelDecl(fields: seq<Field>, configBase: bool)

  /** The random source: cell `i` is the outcome of the `i`-th random or Faker call. */
  type Tape = nat -> nat

  /** What stays fixed during one generation: the model table, the random source and `max_depth`. */
  datatype Env = Env(schema: map<string, ModelDecl>, tape: Tape, maxDepth: int)

  /** Keys of generated dictionaries: a known string, or an opaque `fake.word()` output. */
  datatype Key = StrKey(s: string) | WordKey(token: nat)

  /** Which opaque generator produced a token: a Faker provider (or `uuid4`, the clock,
      `random.uniform`), an exact field-name mapping, or a field-name substring pattern. */
  datatype Tag = Provider(fakerMethod: string) | ExactName(key: string) | NamePattern(key: string)

  /** A generated value. */
  datatype Value =
    | VNone
    | VStr(s: string)
    | VInt(i: int)
    | VBool(b: bool)
    | VFake(tag: Tag, token: nat)
    | VList(items: seq<Value>)
    | VSet(elems: set<Value>)
    | VDict(entries: map<Key, Value>)
    | VEnum(member: string)
    | VModel(name: string, configBase: bool, data: map<string, Value>)
    | VRoot(rootName: string, root: Value, fieldsSet: set<string>)

  /** The exceptions a generator can raise: the fallback's `ValueError("Unsupported field
      type")`, the `IndexError` of `random.choice` on an empty sequence, the `KeyError`,
      `TypeError` or `AttributeError` a plugin generator raises when it is called on a type
      it does not handle, and the `TypeError` of `isinstance` given a function where a class
      is expected. */
  datatype Error = UnsupportedType(repr: string) | EmptyChoice | WrongKind | NotAType

  /** The result of one generator call and the tape position after it. */
  datatype Outcome = Done(value: Value, next: nat) | Raised(error: Error, next: nat)

  /** `random.randint(lo, hi)` read from tape cell `pos`. */
  function RandInt(tape: Tape, pos: nat, lo: int, hi: int): (r: int)
    requires lo <= hi
    ensures lo <= r <= hi
  {
    lo + tape(pos) % (hi - lo + 1)
  }

  /** Every value of the range is drawn by some random source. */
  lemma RandIntCovers(tape: Tape, pos: nat, lo: int, hi: int, r: int)
    requires lo <= r <= hi
    ensures RandInt((i: nat) => if i == pos then r - lo else tape(i), pos, lo, hi) == r
  {
    var t := (i: nat) => if i == pos then r - lo else tape(i);
    assert t(pos) == r - lo;
    assert (r - lo) % (hi - lo + 1) == r - lo;
  }

  /** `random.choice(xs)` read from tape cell `pos`, as an index. */
  function ChoiceIndex(tape: Tape, pos: nat, n: nat): (k: nat)
    requires n > 0
    ensures k < n
  {
    tape(pos) % n
  }

  /** The number of type nodes, the second component of the dispatcher's termination measure. */
  function Size(t: Ty): (n: nat)
    ensures n >= 1
  {
    match t
    case Union(args) => 1 + SizeAll(args)
    case Annotated(b, _) => 1 + (if b.Some? then Size(b.value) else 0)
    case Container(_, args) => 1 + SizeAll(args)
    case Root(_, inner) => 1 + Size(inner)
    case _ => 1
  }

  /** The total size of a list of type arguments; each argument is smaller than the total. */
  function SizeAll(ts: seq<Ty>): (n: nat)
    ensures forall k :: 0 <= k < |ts| ==> Size(ts[k]) <= n
    ensures |ts| > 0 ==> n > 0
  {
    if ts == [] then 0 else Size(ts[0]) + SizeAll(ts[1..])
  }
}
