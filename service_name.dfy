/** `SwaggerLoader.get_service_name`: the API title, stripped of surrounding whitespace,
    with every maximal run of characters outside `[a-zA-Z0-9]` replaced by one `_`,
    lowered, and stripped of leading and trailing `_`. */
module ServiceName {
  import opened Strings

  /** The characters `str.strip()` removes. */
  const Whitespace: set<char> := {
    '\U{20}', '\U{9}', '\U{a}', '\U{d}', '\U{b}', '\U{c}', '\U{1c}', '\U{1d}',
    '\U{1e}', '\U{1f}', '\U{85}', '\U{a0}', '\U{1680}', '\U{2000}', '\U{2001}', '\U{2002}',
    '\U{2003}', '\U{2004}', '\U{2005}', '\U{2006}', '\U{2007}', '\U{2008}', '\U{2009}', '\U{200a}',
    '\U{2028}', '\U{2029}', '\U{202f}', '\U{205f}', '\U{3000}'
  }

  /** `s.lstrip(chars)`: the suffix left once the leading characters in `cs` are removed. */
  function LStrip(s: string, cs: set<char>): (r: string)
    ensures |r| <= |s| && r == s[|s| - |r|..]
    ensures forall i :: 0 <= i < |s| - |r| ==> s[i] in cs
    ensures r == [] || r[0] !in cs
  {
    if |s| > 0 && s[0] in cs then
      var r := LStrip(s[1..], cs);
      assert forall i :: 1 <= i < |s| - |r| ==> s[i] == s[1..][i - 1];
      assert s[1..][|s| - 1 - |r|..] == s[|s| - |r|..];
      r
    else s
  }

  /** `s.rstrip(chars)`: the prefix left once the trailing characters in `cs` are removed. */
  function RStrip(s: string, cs: set<char>): (r: string)
    ensures |r| <= |s| && r == s[..|r|]
    ensures forall i :: |r| <= i < |s| ==> s[i] in cs
    ensures r == [] || r[|r| - 1] !in cs
  {
    if |s| > 0 && s[|s| - 1] in cs then
      var r := RStrip(s[..|s| - 1], cs);
      assert forall i :: |r| <= i < |s| - 1 ==> s[i] == s[..|s| - 1][i];
      assert s[..|s| - 1][..|r|] == s[..|r|];
      r
    else s
  }

  /** `s.strip(chars)`. */
  function Strip(s: string, cs: set<char>): string {
    RStrip(LStrip(s, cs), cs)
  }

  /** The ASCII letters and digits of `s`, in order. */
  function AlnumOnly(s: string): string {
    if s == [] then [] else (if IsAlnum(s[0]) then [s[0]] else []) + AlnumOnly(s[1..])
  }

  /** No two adjacent underscores. */
  predicate NoDoubleUnderscore(s: string) {
    forall i :: 0 <= i < |s| - 1 ==> s[i] != '_' || s[i + 1] != '_'
  }

  /** Every character is an ASCII letter or digit, or `_`. */
  predicate SlugChars(s: string) {
    forall i :: 0 <= i < |s| ==> IsAlnum(s[i]) || s[i] == '_'
  }

  /** `re.sub(r'[^a-zA-Z0-9]+', '_', s)`, scanning left to right; `inRun` says that the
      character before `s` was outside the class, so its run has already been replaced. */
  function CollapseRuns(s: string, inRun: bool): (r: string)
    ensures SlugChars(r) && NoDoubleUnderscore(r)
    ensures inRun && r != [] ==> r[0] != '_'
    ensures AlnumOnly(r) == AlnumOnly(s)
  {
    if s == [] then []
    else if IsAlnum(s[0]) then [s[0]] + CollapseRuns(s[1..], false)
    else if inRun then CollapseRuns(s[1..], true)
    else ['_'] + CollapseRuns(s[1..], true)
  }

  /** `get_service_name` applied to the title. */
  function ServiceNameOf(title: string): string {
    Strip(Lower(CollapseRuns(Strip(title, Whitespace), false)), {'_'})
  }

  lemma {:induction false} AlnumOnlyAppend(a: string, b: string)
    ensures AlnumOnly(a + b) == AlnumOnly(a) + AlnumOnly(b)
    decreases |a|
  {
    if a != [] {
      assert (a + b)[0] == a[0] && (a + b)[1..] == a[1..] + b;
      AlnumOnlyAppend(a[1..], b);
      assert AlnumOnly(a + b) == (if IsAlnum(a[0]) then [a[0]] else []) + AlnumOnly(a[1..] + b);
    } else {
      assert a + b == b;
    }
  }

  /** A string none of whose characters is a letter or a digit holds nothing for `AlnumOnly`. */
  lemma {:induction false} AlnumOnlyNone(s: string)
    requires forall i :: 0 <= i < |s| ==> !IsAlnum(s[i])
    ensures AlnumOnly(s) == []
    decreases |s|
  {
    if s != [] {
      AlnumOnlyNone(s[1..]);
    }
  }

  /** Dropping a prefix of characters that are not letters or digits keeps `AlnumOnly`. */
  lemma {:induction false} AlnumOnlyDropPrefix(s: string, a: nat)
    requires a <= |s|
    requires forall i :: 0 <= i < a ==> !IsAlnum(s[i])
    ensures AlnumOnly(s[a..]) == AlnumOnly(s)
    decreases a
  {
    if a > 0 {
      assert !IsAlnum(s[0]);
      assert AlnumOnly(s) == AlnumOnly(s[1..]);
      assert s[1..][a - 1..] == s[a..];
      AlnumOnlyDropPrefix(s[1..], a - 1);
    }
  }

  /** Dropping a suffix of characters that are not letters or digits keeps `AlnumOnly`. */
  lemma {:induction false} AlnumOnlyDropSuffix(s: string, b: nat)
    requires b <= |s|
    requires forall i :: b <= i < |s| ==> !IsAlnum(s[i])
    ensures AlnumOnly(s[..b]) == AlnumOnly(s)
    decreases |s|
  {
    if b == |s| {
      assert s[..b] == s;
    } else if b == 0 {
      AlnumOnlyNone(s);
    } else {
      assert s[..b][0] == s[0] && s[..b][1..] == s[1..][..b - 1];
      AlnumOnlyDropSuffix(s[1..], b - 1);
    }
  }

  /** Removing characters that are not letters or digits from both ends keeps `AlnumOnly`. */
  lemma AlnumOnlySlice(s: string, a: nat, b: nat)
    requires a <= b <= |s|
    requires forall i :: 0 <= i < a ==> !IsAlnum(s[i])
    requires forall i :: b <= i < |s| ==> !IsAlnum(s[i])
    ensures AlnumOnly(s[a..b]) == AlnumOnly(s)
  {
    var t := s[..b];
    assert forall i :: 0 <= i < a ==> t[i] == s[i];
    AlnumOnlyDropPrefix(t, a);
    assert t[a..] == s[a..b];
    AlnumOnlyDropSuffix(s, b);
  }

  /** Lowering commutes with keeping the letters and digits. */
  lemma {:induction false} AlnumOnlyLower(s: string)
    ensures AlnumOnly(Lower(s)) == Lower(AlnumOnly(s))
    decreases |s|
  {
    if s != [] {
      assert Lower(s) == [LowerChar(s[0])] + Lower(s[1..]);
      assert Lower(s)[1..] == Lower(s[1..]);
      AlnumOnlyLower(s[1..]);
      if IsAlnum(s[0]) {
        assert Lower([s[0]] + AlnumOnly(s[1..])) == [LowerChar(s[0])] + Lower(AlnumOnly(s[1..])) by {
          assert ([s[0]] + AlnumOnly(s[1..]))[1..] == AlnumOnly(s[1..]);
        }
      }
    }
  }

  /** A tail of the suffix `s[a..]` is a tail of `s`, and a prefix of it a slice of `s`. */
  lemma SuffixTail(s: string, a: nat, k: nat, cs: set<char>)
    requires a + k <= |s|
    requires forall j :: k <= j < |s| - a ==> s[a..][j] in cs
    ensures s[a..][..k] == s[a..a + k]
    ensures forall i :: a + k <= i < |s| ==> s[i] in cs
  {
    forall i | a + k <= i < |s|
      ensures s[i] in cs
    {
      assert s[i] == s[a..][i - a];
    }
  }

  /** `strip` removes whole characters from the ends: what is left is a slice of `s`, and
      every removed character is in `cs`. */
  lemma StripSlice(s: string, cs: set<char>) returns (a: nat, b: nat)
    ensures a <= b <= |s| && Strip(s, cs) == s[a..b]
    ensures forall i :: 0 <= i < a ==> s[i] in cs
    ensures forall i :: b <= i < |s| ==> s[i] in cs
    ensures Strip(s, cs) == [] || (s[a] !in cs && s[b - 1] !in cs)
  {
    var l := LStrip(s, cs);
    a := |s| - |l|;
    var r := RStrip(l, cs);
    b := a + |r|;
    SuffixTail(s, a, |r|, cs);
  }

  /** A well-formed name: what `get_service_name` returns. */
  predicate IsServiceName(s: string) {
    (forall i :: 0 <= i < |s| ==> IsLowerLetter(s[i]) || IsDigit(s[i]) || s[i] == '_')
    && (s == [] || (s[0] != '_' && s[|s| - 1] != '_'))
    && NoDoubleUnderscore(s)
  }

  /** Every character is a lower-case ASCII letter, a digit or `_`. */
  predicate LowerSlugChars(s: string) {
    forall i :: 0 <= i < |s| ==> IsLowerLetter(s[i]) || IsDigit(s[i]) || s[i] == '_'
  }

  /** Lowering the substitution's output leaves lower-case letters, digits and single `_`. */
  lemma LowerSlug(c: string)
    requires SlugChars(c) && NoDoubleUnderscore(c)
    ensures LowerSlugChars(Lower(c)) && NoDoubleUnderscore(Lower(c))
  {
    var low := Lower(c);
    forall i | 0 <= i < |low|
      ensures (IsLowerLetter(low[i]) || IsDigit(low[i]) || low[i] == '_') && (low[i] == '_' <==> c[i] == '_')
    {
      assert low[i] == LowerChar(c[i]);
    }
  }

  /** A slice keeps the character class and the absence of `__`. */
  lemma SliceKeepsLowerSlug(low: string, a: nat, b: nat)
    requires a <= b <= |low|
    requires LowerSlugChars(low) && NoDoubleUnderscore(low)
    ensures LowerSlugChars(low[a..b]) && NoDoubleUnderscore(low[a..b])
  {
    var r := low[a..b];
    assert forall i :: 0 <= i < |r| ==> r[i] == low[a + i];
  }

  /** Stripping the `_` ends of such a string gives a well-formed name. */
  lemma StripUnderscoresWellFormed(low: string)
    requires LowerSlugChars(low) && NoDoubleUnderscore(low)
    ensures IsServiceName(Strip(low, {'_'}))
  {
    var a, b := StripSlice(low, {'_'});
    SliceKeepsLowerSlug(low, a, b);
  }

  /** Lowering the substitution's output and stripping its `_` ends gives a well-formed
      name. */
  lemma LowerStripWellFormed(c: string)
    requires SlugChars(c) && NoDoubleUnderscore(c)
    ensures IsServiceName(Strip(Lower(c), {'_'}))
  {
    LowerSlug(c);
    StripUnderscoresWellFormed(Lower(c));
  }

  /** The result holds only lower-case ASCII letters, digits and `_`, never starts or ends
      with `_` and never has two `_` in a row. */
  lemma ServiceNameWellFormed(title: string)
    ensures IsServiceName(ServiceNameOf(title))
  {
    LowerStripWellFormed(CollapseRuns(Strip(title, Whitespace), false));
  }

  /** No whitespace character is a letter or a digit. */
  lemma WhitespaceNotAlnum()
    ensures forall c :: c in Whitespace ==> !IsAlnum(c)
  {
  }

  /** Stripping characters that are not letters or digits keeps `AlnumOnly`. */
  lemma StripKeepsAlnums(s: string, cs: set<char>)
    requires forall c :: c in cs ==> !IsAlnum(c)
    ensures AlnumOnly(Strip(s, cs)) == AlnumOnly(s)
  {
    var a, b := StripSlice(s, cs);
    AlnumOnlySlice(s, a, b);
  }

  /** Stripping a string whose ends are outside `cs` changes nothing. */
  lemma StripNothing(s: string, cs: set<char>)
    requires s == [] || (s[0] !in cs && s[|s| - 1] !in cs)
    ensures Strip(s, cs) == s
  {
  }

  /** The letters and digits of the title appear in the result in the same order, lowered,
      and the result holds nothing else but separators. */
  lemma ServiceNameKeepsAlnums(title: string)
    ensures AlnumOnly(ServiceNameOf(title)) == Lower(AlnumOnly(title))
  {
    WhitespaceNotAlnum();
    StripKeepsAlnums(title, Whitespace);
    var c := CollapseRuns(Strip(title, Whitespace), false);
    AlnumOnlyLower(c);
    StripKeepsAlnums(Lower(c), {'_'});
    AlnumOnlyLower(title);
  }

  /** A title without letters or digits gives the empty name. */
  lemma ServiceNameEmptyWithoutAlnum(title: string)
    requires forall i :: 0 <= i < |title| ==> !IsAlnum(title[i])
    ensures ServiceNameOf(title) == ""
  {
    ServiceNameWellFormed(title);
    ServiceNameKeepsAlnums(title);
    AlnumOnlyNone(title);
  }

  /** A string with no double underscore, whose first character (when the scan is inside a
      run) is not `_`, is left as it is by the substitution. */
  lemma {:induction false} CollapseKeeps(s: string, inRun: bool)
    requires SlugChars(s) && NoDoubleUnderscore(s)
    requires inRun && s != [] ==> s[0] != '_'
    ensures CollapseRuns(s, inRun) == s
    decreases |s|
  {
    if s != [] {
      assert NoDoubleUnderscore(s[1..]) by {
        assert forall i :: 0 <= i < |s[1..]| ==> s[1..][i] == s[i + 1];
      }
      if IsAlnum(s[0]) {
        CollapseKeeps(s[1..], false);
      } else {
        assert s[0] == '_' && !inRun;
        assert s[1..] != [] ==> s[1] != '_';
        CollapseKeeps(s[1..], true);
      }
    }
  }

  /** Every character is an ASCII letter or digit. */
  predicate AllAlnum(s: string) {
    forall i :: 0 <= i < |s| ==> IsAlnum(s[i])
  }

  /** Concatenation after a first character regroups. */
  lemma ConsAppend(c: char, a: string, b: string)
    ensures [c] + (a + b) == ([c] + a) + b
  {
  }

  /** One letter or digit is copied, and the scan continues outside any run. */
  lemma CollapseStepAlnum(c: char, s: string, inRun: bool)
    requires IsAlnum(c)
    ensures CollapseRuns([c] + s, inRun) == [c] + CollapseRuns(s, false)
  {
    assert ([c] + s)[0] == c && ([c] + s)[1..] == s;
  }

  /** A run of letters and digits is copied by the substitution, which then continues
      outside any run. */
  lemma {:induction false} CollapseCopiesAlnums(x: string, rest: string, inRun: bool)
    requires x != [] && AllAlnum(x)
    ensures CollapseRuns(x + rest, inRun) == x + CollapseRuns(rest, false)
    decreases |x|
  {
    var c, tail := x[0], x[1..];
    assert x == [c] + tail;
    ConsAppend(c, tail, rest);
    CollapseStepAlnum(c, tail + rest, inRun);
    if tail != [] {
      CollapseCopiesAlnums(tail, rest, false);
      ConsAppend(c, tail, CollapseRuns(rest, false));
    } else {
      assert tail + rest == rest;
    }
  }

  /** A non-empty run of characters outside `[a-zA-Z0-9]` becomes one `_`, or nothing when
      the scan is already inside a run. */
  lemma {:induction false} CollapseJoinsRun(w: string, rest: string, inRun: bool)
    requires w != [] && forall i :: 0 <= i < |w| ==> !IsAlnum(w[i])
    ensures CollapseRuns(w + rest, inRun) == (if inRun then [] else ['_']) + CollapseRuns(rest, true)
    decreases |w|
  {
    assert (w + rest)[0] == w[0] && (w + rest)[1..] == w[1..] + rest;
    if |w| > 1 {
      CollapseJoinsRun(w[1..], rest, true);
    } else {
      assert w[1..] + rest == rest;
    }
  }

  /** The substitution alone: two runs of letters and digits around a separator run. */
  lemma CollapseSeparated(x: string, w: string, y: string)
    requires x != [] && AllAlnum(x) && y != [] && AllAlnum(y)
    requires w != [] && forall i :: 0 <= i < |w| ==> !IsAlnum(w[i])
    ensures CollapseRuns(x + w + y, false) == x + "_" + y
  {
    assert x + w + y == x + (w + y);
    CollapseCopiesAlnums(x, w + y, false);
    CollapseJoinsRun(w, y, false);
    assert y + [] == y;
    CollapseCopiesAlnums(y, [], true);
  }

  /** Lowering leaves `_` in place. */
  lemma LowerAroundUnderscore(x: string, y: string)
    ensures Lower(x + "_" + y) == Lower(x) + "_" + Lower(y)
  {
    var low := Lower(x + "_" + y);
    var r := Lower(x) + "_" + Lower(y);
    assert |low| == |r|;
    forall i | 0 <= i < |low|
      ensures low[i] == r[i]
    {
      if i < |x| {
      } else if i == |x| {
      } else {
        assert (x + "_" + y)[i] == y[i - |x| - 1];
      }
    }
  }

  /** Two runs of letters and digits separated by any non-empty run of other characters are
      joined by exactly one `_`: `get_service_name("My API")` is `"my_api"`. */
  lemma SeparatorRunBecomesUnderscore(x: string, w: string, y: string)
    requires x != [] && AllAlnum(x) && y != [] && AllAlnum(y)
    requires w != [] && forall i :: 0 <= i < |w| ==> !IsAlnum(w[i])
    ensures ServiceNameOf(x + w + y) == Lower(x) + "_" + Lower(y)
  {
    var t := x + w + y;
    WhitespaceNotAlnum();
    assert t[0] == x[0] && t[|t| - 1] == y[|y| - 1];
    StripNothing(t, Whitespace);
    CollapseSeparated(x, w, y);
    LowerAroundUnderscore(x, y);
    var low := Lower(x) + "_" + Lower(y);
    assert low[0] == LowerChar(x[0]) && low[|low| - 1] == LowerChar(y[|y| - 1]);
    StripNothing(low, {'_'});
  }

  /** `get_service_name` leaves a well-formed name unchanged. */
  lemma ServiceNameFixes(s: string)
    requires IsServiceName(s)
    ensures ServiceNameOf(s) == s
  {
    WhitespaceNotAlnum();
    StripNothing(s, Whitespace);
    CollapseKeeps(s, false);
    assert Lower(s) == s;
    StripNothing(s, {'_'});
  }

  /** Applying `get_service_name` to its own result changes nothing. */
  lemma ServiceNameIdempotent(title: string)
    ensures ServiceNameOf(ServiceNameOf(title)) == ServiceNameOf(title)
  {
    ServiceNameWellFormed(title);
    ServiceNameFixes(ServiceNameOf(title));
  }
}
