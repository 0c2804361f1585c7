/**
 * String operations the core relies on: code-point order (Python's `sorted`
 * and SQLite's `ORDER BY` over TEXT keys), `str.split`, `str.join`,
 * `str.strip`, `str(int)`, and keeping each string the first time it occurs.
 */
module Strings {
  import opened Seqs

  // ---------------------------------------------------------------- ordering

  /** Lexicographic order by code point. */
  predicate LessEq(a: string, b: string)
    decreases |a|
  {
    |a| == 0 || (|b| > 0 && (a[0] < b[0] || (a[0] == b[0] && LessEq(a[1..], b[1..]))))
  }

  predicate Less(a: string, b: string) {
    LessEq(a, b) && a != b
  }

  lemma {:induction false} LessEqReflexive(a: string)
    ensures LessEq(a, a)
    decreases |a|
  {
    if |a| > 0 { LessEqReflexive(a[1..]); }
  }

  lemma {:induction false} LessEqAntisymmetric(a: string, b: string)
    requires LessEq(a, b) && LessEq(b, a)
    ensures a == b
    decreases |a|
  {
    if |a| > 0 {
      LessEqAntisymmetric(a[1..], b[1..]);
      assert a == [a[0]] + a[1..] && b == [b[0]] + b[1..];
    }
  }

  lemma {:induction false} LessEqTransitive(a: string, b: string, c: string)
    requires LessEq(a, b) && LessEq(b, c)
    ensures LessEq(a, c)
    decreases |a|
  {
    if |a| > 0 && a[0] == b[0] && b[0] == c[0] {
      LessEqTransitive(a[1..], b[1..], c[1..]);
    }
  }

  lemma {:induction false} LessEqTotal(a: string, b: string)
    ensures LessEq(a, b) || LessEq(b, a)
    decreases |a|
  {
    if |a| > 0 && |b| > 0 && a[0] == b[0] {
      LessEqTotal(a[1..], b[1..]);
    }
  }

  /** Every element of `xs` is strictly below every later one. */
  ghost predicate StrictlySorted(xs: seq<string>) {
    forall i, j :: 0 <= i < j < |xs| ==> Less(xs[i], xs[j])
  }

  predicate IsMin(m: string, s: set<string>) {
    m in s && forall x :: x in s ==> LessEq(m, x)
  }

  /** A finite non-empty set of strings has a least element. */
  lemma {:induction false} MinExists(s: set<string>)
    requires s != {}
    ensures exists m :: IsMin(m, s)
    decreases |s|
  {
    var x :| x in s;
    if s == {x} {
      LessEqReflexive(x);
      assert IsMin(x, s);
    } else {
      var rest := s - {x};
      MinExists(rest);
      var m :| IsMin(m, rest);
      LessEqTotal(x, m);
      if LessEq(x, m) {
        forall y | y in s ensures LessEq(x, y) {
          if y == x { LessEqReflexive(x); } else { LessEqTransitive(x, m, y); }
        }
        assert IsMin(x, s);
      } else {
        assert IsMin(m, s);
      }
    }
  }

  /** The least element is unique. */
  lemma MinUnique(s: set<string>)
    ensures forall m1, m2 :: IsMin(m1, s) && IsMin(m2, s) ==> m1 == m2
  {
    forall m1, m2 | IsMin(m1, s) && IsMin(m2, s) ensures m1 == m2 {
      LessEqAntisymmetric(m1, m2);
    }
  }

  /** `sorted(s)`: the elements of `s` in ascending order. */
  ghost function Sorted(s: set<string>): seq<string>
    decreases |s|
  {
    if s == {} then []
    else
      MinExists(s);
      var m :| IsMin(m, s);
      [m] + Sorted(s - {m})
  }

  /** `sorted(s)` starts with the least element, followed by the rest in order. */
  lemma SortedHead(s: set<string>, m: string)
    requires IsMin(m, s)
    ensures Sorted(s) == [m] + Sorted(s - {m})
  {
    MinUnique(s);
  }

  /** An element below every element of a strictly sorted sequence extends it at the front. */
  lemma ConsStrict(m: string, rest: seq<string>)
    requires StrictlySorted(rest)
    requires forall i :: 0 <= i < |rest| ==> Less(m, rest[i])
    ensures StrictlySorted([m] + rest)
  {
    var r := [m] + rest;
    forall i, j | 0 <= i < j < |r| ensures Less(r[i], r[j]) {
      if i > 0 {
        assert r[i] == rest[i - 1] && r[j] == rest[j - 1];
      }
    }
  }

  /** The sorted listing of a set holds each of its elements exactly once. */
  lemma SortedDistinct(s: set<string>)
    ensures Distinct(Sorted(s)) && Elems(Sorted(s)) == s && |Sorted(s)| == |s|
  {
    SortedIsSorted(s);
    var ids := Sorted(s);
    forall i, j | 0 <= i < j < |ids| ensures ids[i] != ids[j] {
      assert Less(ids[i], ids[j]);
    }
  }

  /** `sorted(s)` lists each element of `s` exactly once, in strictly ascending order. */
  lemma {:induction false} SortedIsSorted(s: set<string>)
    ensures StrictlySorted(Sorted(s))
    ensures Elems(Sorted(s)) == s
    ensures |Sorted(s)| == |s|
    decreases |s|
  {
    if s != {} {
      MinExists(s);
      var m :| IsMin(m, s);
      SortedHead(s, m);
      var rest := Sorted(s - {m});
      SortedIsSorted(s - {m});
      forall i | 0 <= i < |rest| ensures Less(m, rest[i]) {
        assert rest[i] in s - {m};
      }
      ConsStrict(m, rest);
      assert Elems([m] + rest) == {m} + Elems(rest);
      assert |s - {m}| == |s| - 1;
    }
  }

  /** Two strictly sorted sequences with the same elements are equal. */
  lemma {:induction false} SortedUnique(xs: seq<string>, ys: seq<string>)
    requires StrictlySorted(xs) && StrictlySorted(ys)
    requires Elems(xs) == Elems(ys)
    ensures xs == ys
    decreases |xs|
  {
    ElemsEmpty(xs);
    ElemsEmpty(ys);
    if |xs| > 0 {
      assert xs[0] == ys[0] by {
        assert xs[0] in Elems(ys) && ys[0] in Elems(xs);
        var i :| 0 <= i < |ys| && ys[i] == xs[0];
        var j :| 0 <= j < |xs| && xs[j] == ys[0];
        if xs[0] != ys[0] {
          assert i > 0 && j > 0;
          assert LessEq(ys[0], xs[0]) && LessEq(xs[0], ys[0]);
          LessEqAntisymmetric(xs[0], ys[0]);
        }
      }
      forall x ensures x in Elems(xs[1..]) <==> x in Elems(ys[1..]) {
        if x in Elems(xs[1..]) {
          TailElem(xs, x);
          TailMember(ys, x);
        }
        if x in Elems(ys[1..]) {
          TailElem(ys, x);
          TailMember(xs, x);
        }
      }
      SortedUnique(xs[1..], ys[1..]);
      assert xs == [xs[0]] + xs[1..] && ys == [ys[0]] + ys[1..];
    }
  }

  lemma ElemsEmpty(xs: seq<string>)
    ensures Elems(xs) == {} <==> xs == []
  {
    if xs != [] { assert xs[0] in Elems(xs); }
  }

  /** An element of the tail of a strictly sorted sequence is in it and is not its head. */
  lemma TailElem(xs: seq<string>, x: string)
    requires StrictlySorted(xs) && |xs| > 0
    requires x in Elems(xs[1..])
    ensures x in Elems(xs) && x != xs[0]
  {
    var i :| 0 <= i < |xs[1..]| && xs[1..][i] == x;
    assert xs[i + 1] == x && Less(xs[0], xs[i + 1]);
  }

  lemma TailMember(xs: seq<string>, x: string)
    requires |xs| > 0 && x in Elems(xs) && x != xs[0]
    ensures x in Elems(xs[1..])
  {
    var i :| 0 <= i < |xs| && xs[i] == x;
    assert xs[1..][i - 1] == x;
  }

  /** Sorts a set of strings by repeatedly taking the least remaining element. */
  method SortSet(s: set<string>) returns (r: seq<string>)
    ensures r == Sorted(s)
    ensures StrictlySorted(r) && Elems(r) == s
  {
    r := [];
    var rest := s;
    while rest != {}
      invariant r + Sorted(rest) == Sorted(s)
      decreases |rest|
    {
      MinExists(rest);
      var m :| IsMin(m, rest);
      SortedHead(rest, m);
      r := r + [m];
      rest := rest - {m};
    }
    SortedIsSorted(s);
  }

  // ------------------------------------------------------- split, join, strip

  /** `s.split(sep)`: the pieces between separators; always at least one piece. */
  function Split(s: string, sep: char): (r: seq<string>)
    ensures |r| >= 1
    decreases |s|
  {
    if |s| == 0 then [""]
    else
      var rest := Split(s[1..], sep);
      if s[0] == sep then [""] + rest else [[s[0]] + rest[0]] + rest[1..]
  }

  /** `sep.join(xs)`. */
  function Join(xs: seq<string>, sep: char): string
    decreases |xs|
  {
    if |xs| == 0 then ""
    else if |xs| == 1 then xs[0]
    else xs[0] + [sep] + Join(xs[1..], sep)
  }

  /** `sep.join(xs)` for a separator of several characters, as in `', '.join(xs)`. */
  function JoinWith(xs: seq<string>, sep: string): (r: string)
    ensures |xs| > 0 && xs[0] != "" ==> r != ""
    decreases |xs|
  {
    if |xs| == 0 then ""
    else if |xs| == 1 then xs[0]
    else xs[0] + sep + JoinWith(xs[1..], sep)
  }

  ghost predicate FreeOf(xs: seq<string>, sep: char) {
    forall i :: 0 <= i < |xs| ==> sep !in xs[i]
  }

  /** No piece of a split contains the separator. */
  lemma {:induction false} SplitFreeOf(s: string, sep: char)
    ensures FreeOf(Split(s, sep), sep)
    decreases |s|
  {
    if |s| > 0 {
      SplitFreeOf(s[1..], sep);
      var rest := Split(s[1..], sep);
      if s[0] != sep {
        var r := [[s[0]] + rest[0]] + rest[1..];
        forall i | 0 <= i < |r| ensures sep !in r[i] {
          if i > 0 { assert r[i] == rest[i]; }
        }
      }
    }
  }

  /** Joining the pieces of a split gives the string back. */
  lemma {:induction false} JoinSplit(s: string, sep: char)
    ensures Join(Split(s, sep), sep) == s
    decreases |s|
  {
    if |s| > 0 {
      JoinSplit(s[1..], sep);
      var rest := Split(s[1..], sep);
      if s[0] == sep {
        assert Split(s, sep) == [""] + rest;
      } else {
        var r := [[s[0]] + rest[0]] + rest[1..];
        assert Split(s, sep) == r;
        if |rest| == 1 {
          assert Join(r, sep) == [s[0]] + rest[0];
        } else {
          assert r[1..] == rest[1..];
          assert Join(rest, sep) == rest[0] + [sep] + Join(rest[1..], sep);
        }
      }
      assert s == [s[0]] + s[1..];
    }
  }

  /** Splitting `a + t` where `a` holds no separator extends the first piece of `t`'s split. */
  lemma {:induction false} SplitPrefix(a: string, t: string, sep: char)
    requires sep !in a
    ensures Split(a + t, sep) == [a + Split(t, sep)[0]] + Split(t, sep)[1..]
    decreases |a|
  {
    if |a| > 0 {
      assert (a + t)[0] == a[0] && (a + t)[1..] == a[1..] + t;
      SplitPrefix(a[1..], t, sep);
      assert [a[0]] + (a[1..] + Split(t, sep)[0]) == a + Split(t, sep)[0];
    } else {
      assert a + t == t;
      var p := Split(t, sep);
      assert a + p[0] == p[0];
      assert p == [p[0]] + p[1..];
    }
  }

  /** Splitting a join of separator-free pieces gives the pieces back. */
  lemma {:induction false} SplitJoin(xs: seq<string>, sep: char)
    requires |xs| >= 1
    requires FreeOf(xs, sep)
    ensures Split(Join(xs, sep), sep) == xs
    decreases |xs|
  {
    if |xs| == 1 {
      SplitPrefix(xs[0], "", sep);
      assert xs[0] + "" == xs[0];
    } else {
      var t := Join(xs[1..], sep);
      SplitJoin(xs[1..], sep);
      assert Join(xs, sep) == xs[0] + ([sep] + t);
      SplitPrefix(xs[0], [sep] + t, sep);
      assert ([sep] + t)[1..] == t;
      assert Split([sep] + t, sep) == [""] + Split(t, sep);
      assert xs[0] + "" == xs[0];
    }
  }

  /** The characters Python's `str.isspace` accepts. */
  predicate IsSpace(c: char) {
    || c == ' ' || ('\t' <= c <= '\r') || ('\U{1C}' <= c <= '\U{1F}')
    || c == '\U{85}' || c == '\U{A0}' || c == '\U{1680}'
    || ('\U{2000}' <= c <= '\U{200A}') || c == '\U{2028}' || c == '\U{2029}'
    || c == '\U{202F}' || c == '\U{205F}' || c == '\U{3000}'
  }

  function StripLeft(s: string): (r: string)
    ensures |r| <= |s| && r == s[|s| - |r|..]
    ensures |r| > 0 ==> !IsSpace(r[0])
    decreases |s|
  {
    if |s| > 0 && IsSpace(s[0]) then
      var r := StripLeft(s[1..]);
      assert s[1..][|s| - 1 - |r|..] == s[|s| - |r|..];
      r
    else s
  }

  function StripRight(s: string): (r: string)
    ensures |r| > 0 ==> !IsSpace(r[|r| - 1])
    ensures r <= s
    decreases |s|
  {
    if |s| > 0 && IsSpace(s[|s| - 1]) then StripRight(s[..|s| - 1]) else s
  }

  /** No whitespace at either end. */
  predicate Trimmed(s: string) {
    |s| > 0 ==> !IsSpace(s[0]) && !IsSpace(s[|s| - 1])
  }

  /** `s.strip()`: drops leading and trailing whitespace. */
  function Strip(s: string): (r: string)
    ensures Trimmed(r)
    ensures forall c :: c in r ==> c in s
  {
    var l := StripLeft(s);
    var r := StripRight(l);
    assert forall c :: c in r ==> c in l;
    r
  }

  /** A string without leading or trailing whitespace is its own strip. */
  lemma StripStripped(s: string)
    requires Trimmed(s)
    ensures Strip(s) == s
  {
  }

  // ------------------------------------------------------------------ numbers

  function DigitChar(d: nat): char
    requires d < 10
  {
    "0123456789"[d]
  }

  function Digits(n: nat): string
  {
    if n < 10 then [DigitChar(n)] else Digits(n / 10) + [DigitChar(n % 10)]
  }

  /** `str(i)` for an int: decimal digits, with a leading '-' when negative. */
  function IntToString(i: int): string {
    if i < 0 then "-" + Digits(-i) else Digits(i)
  }

  // ------------------------------------------------------ first occurrences

  /** Each element the first time it occurs, in order. */
  function Dedupe(xs: seq<string>): (r: seq<string>)
    ensures |r| <= |xs|
    decreases |xs|
  {
    if |xs| == 0 then []
    else
      var d := Dedupe(xs[..|xs| - 1]);
      if xs[|xs| - 1] in xs[..|xs| - 1] then d else d + [xs[|xs| - 1]]
  }

  /** Where `x` first occurs in `xs`. */
  function FirstIndex(xs: seq<string>, x: string): (r: nat)
    requires x in xs
    ensures r < |xs| && xs[r] == x && forall k :: 0 <= k < r ==> xs[k] != x
  {
    if xs[0] == x then 0 else 1 + FirstIndex(xs[1..], x)
  }

  lemma FirstIndexPrefix(xs: seq<string>, n: nat, x: string)
    requires n <= |xs| && x in xs[..n]
    ensures FirstIndex(xs, x) == FirstIndex(xs[..n], x)
  {
    var a, b := FirstIndex(xs, x), FirstIndex(xs[..n], x);
    assert xs[b] == x;
    assert forall k :: 0 <= k < b ==> xs[k] == xs[..n][k];
  }

  /** Dedupe keeps every element once. */
  lemma {:induction false} DedupeElems(xs: seq<string>)
    ensures Distinct(Dedupe(xs)) && Elems(Dedupe(xs)) == Elems(xs)
    decreases |xs|
  {
    if |xs| > 0 {
      var init, last := xs[..|xs| - 1], xs[|xs| - 1];
      DedupeElems(init);
      assert xs == init + [last];
      assert Elems(xs) == Elems(init) + {last};
      if last !in init {
        assert last !in Elems(Dedupe(init));
      }
    }
  }

  /** Dedupe keeps first-occurrence order. */
  lemma {:induction false} DedupeOrder(xs: seq<string>)
    ensures var r := Dedupe(xs);
            forall i, j :: 0 <= i < j < |r| ==> r[i] in xs && r[j] in xs && FirstIndex(xs, r[i]) < FirstIndex(xs, r[j])
    decreases |xs|
  {
    if |xs| > 0 {
      var n := |xs| - 1;
      var init, last := xs[..n], xs[n];
      DedupeOrder(init);
      DedupeElems(init);
      var d := Dedupe(init);
      var r := Dedupe(xs);
      assert forall k :: 0 <= k < n ==> xs[k] == init[k];
      forall x | x in d ensures x in init && x in xs && FirstIndex(xs, x) == FirstIndex(init, x) < n {
        assert x in Elems(d);
        FirstIndexPrefix(xs, n, x);
      }
      if last in init {
        assert r == d;
      } else {
        assert r == d + [last];
        var f := FirstIndex(xs, last);
        assert xs[f] == last;
        assert f == n;
      }
      forall i, j | 0 <= i < j < |r|
        ensures r[i] in xs && r[j] in xs && FirstIndex(xs, r[i]) < FirstIndex(xs, r[j])
      {
        assert r[i] == d[i] && d[i] in d;
        if j < |d| {
          assert r[j] == d[j] && d[j] in d;
        }
      }
    }
  }

  /** Dedupe of one more element. */
  lemma DedupeStep(xs: seq<string>, x: string)
    ensures Dedupe(xs + [x]) == if x in xs then Dedupe(xs) else Dedupe(xs) + [x]
    ensures Elems(xs + [x]) == Elems(xs) + {x}
  {
    assert (xs + [x])[..|xs|] == xs;
  }

  /** Dedupe of one more element, decided on the deduplicated prefix. */
  lemma DedupeSnoc(xs: seq<string>, x: string)
    ensures Dedupe(xs + [x]) == if x in Dedupe(xs) then Dedupe(xs) else Dedupe(xs) + [x]
  {
    DedupeStep(xs, x);
    DedupeElems(xs);
    assert x in Dedupe(xs) <==> x in Elems(Dedupe(xs));
    assert x in xs <==> x in Elems(xs);
  }

  /** A duplicate-free sequence is its own Dedupe. */
  lemma {:induction false} DedupeDistinct(xs: seq<string>)
    requires Distinct(xs)
    ensures Dedupe(xs) == xs
    decreases |xs|
  {
    if |xs| > 0 {
      var init := xs[..|xs| - 1];
      assert Distinct(init);
      DedupeDistinct(init);
      assert xs[|xs| - 1] !in init;
      assert init + [xs[|xs| - 1]] == xs;
    }
  }
}
