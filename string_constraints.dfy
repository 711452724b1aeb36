/** `_AnnotatedHandler._handle_string_constraints` (shared, with the same behaviour, by the
    plugin `AnnotatedGenerator`): read length bounds from the metadata, starting from 1 and 20,
    later entries overriding earlier ones; then generate `fake.pystr` of a length drawn from
    the bounds, or of length 1 when the bounds contradict each other. */
module StringConstraints {
  import opened Types
  import opened Strings

  /** The `k`-th character of Python's `string.ascii_letters` (a-z then A-Z), the alphabet
      of `fake.pystr`. */
  function AsciiLetter(k: nat): (c: char)
    requires k < 52
    ensures IsLetter(c)
  {
    if k < 26 then ('a' as int + k) as char else ('A' as int + k - 26) as char
  }

  predicate HasMin(m: Meta) { m.LengthConstraint? && m.minLength.Some? }
  predicate HasMax(m: Meta) { m.LengthConstraint? && m.maxLength.Some? }

  /** One metadata entry overrides only the bounds it sets. */
  function Override(bounds: (nat, nat), m: Meta): (nat, nat) {
    (if HasMin(m) then m.minLength.value else bounds.0,
     if HasMax(m) then m.maxLength.value else bounds.1)
  }

  /** The bounds after reading every entry, in order, from the defaults (1, 20). */
  function Bounds(meta: seq<Meta>): (nat, nat)
    decreases |meta|
  {
    if meta == [] then (1, 20) else Override(Bounds(meta[..|meta| - 1]), meta[|meta| - 1])
  }

  /** The minimum is the one set by the LAST entry that sets a minimum, and 1 when none does. */
  lemma {:induction false} MinimumLastWins(meta: seq<Meta>, k: int)
    requires -1 <= k < |meta|
    requires k >= 0 ==> HasMin(meta[k])
    requires forall j :: k < j < |meta| ==> !HasMin(meta[j])
    ensures Bounds(meta).0 == if k >= 0 then meta[k].minLength.value else 1
    decreases |meta|
  {
    if meta != [] {
      var init := meta[..|meta| - 1];
      if k < |meta| - 1 {
        MinimumLastWins(init, k);
      }
    }
  }

  /** The maximum is the one set by the LAST entry that sets a maximum, and 20 when none does. */
  lemma {:induction false} MaximumLastWins(meta: seq<Meta>, k: int)
    requires -1 <= k < |meta|
    requires k >= 0 ==> HasMax(meta[k])
    requires forall j :: k < j < |meta| ==> !HasMax(meta[j])
    ensures Bounds(meta).1 == if k >= 0 then meta[k].maxLength.value else 20
    decreases |meta|
  {
    if meta != [] {
      var init := meta[..|meta| - 1];
      if k < |meta| - 1 {
        MaximumLastWins(init, k);
      }
    }
  }

  /** The length rule: within the bounds when they are ordered, exactly 1 otherwise. */
  predicate LengthWithin(n: nat, bounds: (nat, nat)) {
    if bounds.0 <= bounds.1 then bounds.0 <= n <= bounds.1 else n == 1
  }

  /** `fake.pystr(min_chars=n, max_chars=n)`: `n` ASCII letters, one draw each. */
  function PyStr(tape: Tape, pos: nat, n: nat): (s: string)
    ensures |s| == n
    ensures forall i :: 0 <= i < n ==> IsLetter(s[i])
  {
    var s := seq(n, i requires 0 <= i < n => AsciiLetter(tape(pos + i) % 52));
    assert forall i :: 0 <= i < n ==> s[i] == AsciiLetter(tape(pos + i) % 52);
    s
  }

  /** The string an `Annotated[str, ...]` produces. */
  function ConstrainedString(tape: Tape, meta: seq<Meta>, pos: nat): (o: Outcome)
    ensures o.Done? && o.value.VStr? && o.next > pos
    ensures LengthWithin(|o.value.s|, Bounds(meta))
    ensures forall i :: 0 <= i < |o.value.s| ==> IsLetter(o.value.s[i])
  {
    var (lo, hi) := Bounds(meta);
    if lo <= hi then
      var n := RandInt(tape, pos, lo, hi);
      Done(VStr(PyStr(tape, pos + 1, n)), pos + 1 + n)
    else
      Done(VStr(PyStr(tape, pos, 1)), pos + 1)
  }

  /** Every length within ordered bounds is possible. */
  lemma EveryLengthPossible(tape: Tape, meta: seq<Meta>, pos: nat, n: nat)
    requires Bounds(meta).0 <= n <= Bounds(meta).1
    ensures |ConstrainedString((i: nat) => if i == pos then n - Bounds(meta).0 else tape(i), meta, pos).value.s| == n
  {
    RandIntCovers(tape, pos, Bounds(meta).0, Bounds(meta).1, n);
  }

  /** The string handler as the source writes it: each metadata item is first tested with
      `isinstance(meta, Field)`, and `pydantic.Field` is a function rather than a class, so
      the test raises `TypeError` on the first item. Only empty metadata reaches the draw. */
  function ConstrainedStringAsWritten(tape: Tape, meta: seq<Meta>, pos: nat): (o: Outcome)
    ensures |meta| == 0 ==> o == ConstrainedString(tape, meta, pos)
    ensures |meta| > 0 ==> o == Raised(NotAType, pos)
  {
    if |meta| > 0 then Raised(NotAType, pos) else ConstrainedString(tape, [], pos)
  }

  /** A length constraint never takes effect as written: `Annotated[str, Field(min_length=n,
      max_length=n)]` raises, while the intended handler returns a string of exactly `n`
      letters. */
  lemma AsWrittenLosesEveryBound(tape: Tape, pos: nat, n: nat)
    ensures ConstrainedStringAsWritten(tape, [LengthConstraint(Some(n), Some(n))], pos).Raised?
    ensures |ConstrainedString(tape, [LengthConstraint(Some(n), Some(n))], pos).value.s| == n
  {
    var meta := [LengthConstraint(Some(n), Some(n))];
    MinimumLastWins(meta, 0);
    MaximumLastWins(meta, 0);
  }

  /** `_handle_string_constraints`: the loop over the metadata, then the draw. */
  method HandleStringConstraints(tape: Tape, meta: seq<Meta>, pos: nat) returns (o: Outcome)
    ensures o == ConstrainedString(tape, meta, pos)
  {
    var minLen: nat, maxLen: nat := 1, 20;
    var i := 0;
    while i < |meta|
      invariant 0 <= i <= |meta|
      invariant (minLen, maxLen) == Bounds(meta[..i])
    {
      var m := meta[i];
      if m.LengthConstraint? {
        if m.minLength.Some? {
          minLen := m.minLength.value;
        }
        if m.maxLength.Some? {
          maxLen := m.maxLength.value;
        }
      }
      assert meta[..i + 1][..i] == meta[..i];
      i := i + 1;
    }
    assert meta[..|meta|] == meta;
    if minLen <= maxLen {
      var n := RandInt(tape, pos, minLen, maxLen);
      o := Done(VStr(PyStr(tape, pos + 1, n)), pos + 1 + n);
    } else {
      o := Done(VStr(PyStr(tape, pos, 1)), pos + 1);
    }
  }
}
