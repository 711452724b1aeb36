/** `SpecialTypeGenerator`: the plugin form of the fallback. Its check and its generator use
    different keyword lists: the check looks for case-sensitive `Url`, `Email`, `Json`,
    `Path`, `Secret` or `IPv` in the type's string form, while the generator looks for the
    lower-case keys `url`, `email`, `json`, `path`, `secret`, `ipv4`, `ipv6`, in that order, in
    the lowered string form and the lowered name. The model covers the types that carry a
    string form: forward references and classes outside the closed set of type shapes. */
module PluginSpecialType {
  import opened Types
  import opened Strings
  import opened Fallback

  /** The keywords of `can_handle`. */
  const Keywords: seq<string> := ["Url", "Email", "Json", "Path", "Secret", "IPv"]

  /** The keys of the generator's mapping, in order. */
  const Keys: seq<string> := ["url", "email", "json", "path", "secret", "ipv4", "ipv6"]

  /** The generator behind the `j`-th key. */
  function KindOfKey(j: nat): SpecialKind
    requires j < |Keys|
  {
    [UrlKind, EmailKind, JsonKind, PathKind, SecretKind, Ipv4Kind, Ipv6Kind][j]
  }

  /** `can_handle`: a forward reference, or a string form mentioning pydantic or one of the
      keywords. */
  predicate CanHandle(t: Ty)
    requires ReachesFallback(t)
  {
    t.ForwardRef? || Contains(ReprOf(t), "pydantic")
    || exists j :: 0 <= j < |Keywords| && Contains(ReprOf(t), Keywords[j])
  }

  /** The first key, in order, that occurs in `a` or in `b`. */
  function FirstKey(keys: seq<string>, a: string, b: string): (r: Option<nat>)
    ensures r.Some? ==> r.value < |keys| && (Contains(a, keys[r.value]) || Contains(b, keys[r.value]))
    ensures r.Some? ==> forall j :: 0 <= j < r.value ==> !Contains(a, keys[j]) && !Contains(b, keys[j])
    ensures r.None? ==> forall j :: 0 <= j < |keys| ==> !Contains(a, keys[j]) && !Contains(b, keys[j])
  {
    if keys == [] then None
    else if Contains(a, keys[0]) || Contains(b, keys[0]) then Some(0)
    else match FirstKey(keys[1..], a, b)
      case Some(k) => Some(k + 1)
      case None => None
  }

  /** `generate`: `[]` for a forward reference; otherwise the first key found selects its
      generator; with no key found, a pydantic type gets a word and any other type raises
      `ValueError("Unsupported field type")`. */
  function Generate(tape: Tape, t: Ty, pos: nat): (o: Outcome)
    requires ReachesFallback(t)
    ensures t.ForwardRef? ==> o == Done(VList([]), pos)
    ensures o.Raised? <==>
      !t.ForwardRef? && FirstKey(Keys, Lower(ReprOf(t)), Lower(NameOf(t))).None? && !Contains(ReprOf(t), "pydantic")
    ensures o.Raised? ==> o.error == UnsupportedType(ReprOf(t))
    ensures !t.ForwardRef? && FirstKey(Keys, Lower(ReprOf(t)), Lower(NameOf(t))).Some? ==>
      IsKindValue(o.value, KindOfKey(FirstKey(Keys, Lower(ReprOf(t)), Lower(NameOf(t))).value))
    ensures !t.ForwardRef? && FirstKey(Keys, Lower(ReprOf(t)), Lower(NameOf(t))).None? && o.Done? ==>
      IsKindValue(o.value, WordKind)
  {
    if t.ForwardRef? then Done(VList([]), pos)
    else match FirstKey(Keys, Lower(ReprOf(t)), Lower(NameOf(t)))
      case Some(j) => KindValue(KindOfKey(j), tape, pos)
      case None =>
        if Contains(ReprOf(t), "pydantic") then KindValue(WordKind, tape, pos)
        else Raised(UnsupportedType(ReprOf(t)), pos)
  }

  /** `str()` of a class named `name` defined in module `m`. */
  function ClassRepr(m: string, name: string): string {
    "<class '" + m + "." + name + "'>"
  }

  /** Once lowered, no character of `s` is one of `u`, `m`, `j`, `t`, `4`, `6`: each of
      the generator's keys holds one of these. */
  predicate KeyFree(s: string) {
    forall i :: 0 <= i < |s| ==> LowerChar(s[i]) !in "umjt46"
  }

  /** `KeyFree` holds of a concatenation of `KeyFree` strings. */
  lemma KeyFreeAppend(a: string, b: string)
    requires KeyFree(a) && KeyFree(b)
    ensures KeyFree(a + b)
  {
    forall i | 0 <= i < |a + b| ensures LowerChar((a + b)[i]) !in "umjt46" {
      if i >= |a| {
        assert (a + b)[i] == b[i - |a|];
      }
    }
  }

  /** The string form of a class whose module and name are `KeyFree` is `KeyFree`. */
  lemma ClassReprKeyFree(m: string, name: string)
    requires KeyFree(m) && KeyFree(name)
    ensures KeyFree(ClassRepr(m, name))
  {
    assert KeyFree("<class '") by {
      forall i | 0 <= i < 8 ensures LowerChar("<class '"[i]) !in "umjt46" {
      }
    }
    assert KeyFree(".") && KeyFree("'>");
    KeyFreeAppend("<class '", m);
    KeyFreeAppend("<class '" + m, ".");
    KeyFreeAppend("<class '" + m + ".", name);
    KeyFreeAppend("<class '" + m + "." + name, "'>");
  }

  /** A `KeyFree` string lacks `t`, and its lowered form lacks every character of
      `umjt46`. */
  lemma KeyFreeLacks(s: string)
    requires KeyFree(s)
    ensures 't' !in s
    ensures forall c :: c in "umjt46" ==> c !in Lower(s)
  {
    forall i | 0 <= i < |s| ensures s[i] != 't' {
      assert LowerChar(s[i]) !in "umjt46";
    }
    var low := Lower(s);
    forall c, i | c in "umjt46" && 0 <= i < |low| ensures low[i] != c {
      assert low[i] == LowerChar(s[i]);
    }
  }

  /** No key occurs in the lowered form of a `KeyFree` string. */
  lemma KeyFreeHoldsNoKey(s: string)
    requires KeyFree(s)
    ensures forall j :: 0 <= j < |Keys| ==> !Contains(Lower(s), Keys[j])
  {
    KeyFreeLacks(s);
    var low := Lower(s);
    assert "umjt46"[0] == 'u' && "umjt46"[1] == 'm' && "umjt46"[2] == 'j';
    assert "umjt46"[3] == 't' && "umjt46"[4] == '4' && "umjt46"[5] == '6';
    MissingCharExcludes(low, Keys[0], 'u');
    MissingCharExcludes(low, Keys[1], 'm');
    MissingCharExcludes(low, Keys[2], 'j');
    MissingCharExcludes(low, Keys[3], 't');
    MissingCharExcludes(low, Keys[4], 't');
    MissingCharExcludes(low, Keys[5], '4');
    MissingCharExcludes(low, Keys[6], '6');
  }

  /** So the generator's search finds no key in a `KeyFree` string form and name. */
  lemma KeyFreeNoKey(a: string, b: string)
    requires KeyFree(a) && KeyFree(b)
    ensures FirstKey(Keys, Lower(a), Lower(b)).None?
  {
    KeyFreeHoldsNoKey(a);
    KeyFreeHoldsNoKey(b);
  }

  /** A pattern at the start of `b` occurs in `a + b`. */
  lemma {:induction false} ContainsAfter(a: string, b: string, p: string)
    requires StartsWith(b, p)
    ensures Contains(a + b, p)
    decreases |a|
  {
    if a == [] {
      assert a + b == b;
    } else {
      assert (a + b)[1..] == a[1..] + b;
      ContainsAfter(a[1..], b, p);
    }
  }

  /** `can_handle` does not promise success. A class such as `IPvAnyAddress` defined in a
      module `app`, whose string form is `<class 'app.IPvAnyAddress'>`, passes the check
      through the `IPv` keyword; but the generator only knows `ipv4` and `ipv6`, the string
      form does not mention pydantic, and it raises. */
  lemma PassesCheckButRaises(tape: Tape, t: Ty, m: string, pos: nat)
    requires t.Opaque? && t.repr == ClassRepr(m, t.name)
    requires StartsWith(t.name, "IPv") && KeyFree(m) && KeyFree(t.name)
    ensures CanHandle(t)
    ensures Generate(tape, t, pos).Raised?
  {
    IpvPassesCheck(t, m);
    ClassReprKeyFree(m, t.name);
    KeyFreeLacks(t.repr);
    MissingCharExcludes(t.repr, "pydantic", 't');
    KeyFreeNoKey(t.repr, t.name);
  }

  /** A class whose name starts with `IPv` passes `can_handle`. */
  lemma IpvPassesCheck(t: Ty, m: string)
    requires t.Opaque? && t.repr == ClassRepr(m, t.name) && StartsWith(t.name, "IPv")
    ensures CanHandle(t)
  {
    assert t.repr == ("<class '" + m + ".") + (t.name + "'>");
    assert (t.name + "'>")[..3] == t.name[..3];
    ContainsAfter("<class '" + m + ".", t.name + "'>", "IPv");
    assert Contains(ReprOf(t), Keywords[5]);
  }

  /** The module `app` and the name `IPvAnyAddress` meet the conditions above. */
  lemma IPvAnyAddressExample()
    ensures KeyFree("app") && KeyFree("IPvAnyAddress") && StartsWith("IPvAnyAddress", "IPv")
  {
    assert KeyFree("app");
    assert KeyFree("IPvAnyAddress") by {
      forall i | 0 <= i < 13 ensures LowerChar("IPvAnyAddress"[i]) !in "umjt46" {
      }
    }
  }
}
