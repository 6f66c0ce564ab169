/** Go's string order, sorting and the path helpers the planner uses. */
module Strings {

  /** sort.Strings order: bytewise lexicographic. */
  predicate LessEq(a: string, b: string) {
    a == [] || (b != [] && (a[0] < b[0] || (a[0] == b[0] && LessEq(a[1..], b[1..]))))
  }

  lemma {:induction false} Reflexive(a: string)
    ensures LessEq(a, a)
  {
    if a != [] { Reflexive(a[1..]); }
  }

  lemma {:induction false} Total(a: string, b: string)
    ensures LessEq(a, b) || LessEq(b, a)
  {
    if a != [] && b != [] { Total(a[1..], b[1..]); }
  }

  lemma {:induction false} Antisymmetric(a: string, b: string)
    requires LessEq(a, b) && LessEq(b, a)
    ensures a == b
  {
    if a != [] {
      Antisymmetric(a[1..], b[1..]);
      assert a == [a[0]] + a[1..] && b == [b[0]] + b[1..];
    }
  }

  lemma {:induction false} Transitive(a: string, b: string, c: string)
    requires LessEq(a, b) && LessEq(b, c)
    ensures LessEq(a, c)
  {
    if a != [] && a[0] == b[0] && b[0] == c[0] { Transitive(a[1..], b[1..], c[1..]); }
  }

  /** The strings first differ at `n`, where `a` has the smaller character. */
  predicate DiffersAt(a: string, b: string, n: int) {
    0 <= n < |a| && n < |b| && a[..n] == b[..n] && a[n] < b[n]
  }

  lemma DiffersNext(a: string, b: string, n: nat)
    requires a != [] && b != [] && a[0] == b[0]
    ensures DiffersAt(a, b, n + 1) <==> DiffersAt(a[1..], b[1..], n)
  {
    if n < |a| - 1 && n < |b| - 1 {
      assert a[..n + 1] == [a[0]] + a[1..][..n] && b[..n + 1] == [b[0]] + b[1..][..n];
      assert a[..n + 1][1..] == a[1..][..n] && b[..n + 1][1..] == b[1..][..n];
    }
  }

  lemma {:induction false} LessMeans(a: string, b: string)
    requires LessEq(a, b)
    ensures a <= b || exists n :: DiffersAt(a, b, n)
  {
    if a != [] {
      if a[0] < b[0] {
        assert DiffersAt(a, b, 0);
      } else {
        LessMeans(a[1..], b[1..]);
        assert a == [a[0]] + a[1..] && b == [b[0]] + b[1..];
        if n :| DiffersAt(a[1..], b[1..], n) { DiffersNext(a, b, n); }
      }
    }
  }

  lemma {:induction false} DiffersMeans(a: string, b: string, n: nat)
    requires DiffersAt(a, b, n)
    ensures LessEq(a, b)
  {
    if n > 0 {
      assert a[..n][0] == b[..n][0];
      DiffersNext(a, b, n - 1);
      DiffersMeans(a[1..], b[1..], n - 1);
    }
  }

  lemma {:induction false} PrefixMeans(a: string, b: string)
    requires a <= b
    ensures LessEq(a, b)
  {
    if a != [] { PrefixMeans(a[1..], b[1..]); }
  }

  /** At the first difference the smaller character decides; a prefix comes first. */
  lemma LexicographicExactly(a: string, b: string)
    ensures LessEq(a, b) <==> a <= b || exists n :: DiffersAt(a, b, n)
  {
    if LessEq(a, b) { LessMeans(a, b); }
    if a <= b { PrefixMeans(a, b); }
    if n :| DiffersAt(a, b, n) { DiffersMeans(a, b, n); }
  }

  // ---- Sorted lists ----

  predicate Sorted(s: seq<string>) {
    forall i, k :: 0 <= i < k < |s| ==> LessEq(s[i], s[k])
  }

  predicate NoDup(s: seq<string>) {
    forall i, k :: 0 <= i < k < |s| ==> s[i] != s[k]
  }

  /** sort.Strings */
  function SortStrings(s: seq<string>): (r: seq<string>)
    ensures Sorted(r) && multiset(r) == multiset(s)
  {
    if s == [] then []
    else
      assert s == [s[0]] + s[1..];
      Insert(s[0], SortStrings(s[1..]))
  }

  function Insert(x: string, s: seq<string>): (r: seq<string>)
    requires Sorted(s)
    ensures Sorted(r) && multiset(r) == multiset(s) + multiset{x}
  {
    if s == [] then [x]
    else if LessEq(x, s[0]) then InsertHead(x, s); [x] + s
    else
      Total(x, s[0]);
      assert s == [s[0]] + s[1..];
      var rest := Insert(x, s[1..]);
      InsertTail(x, s, rest);
      [s[0]] + rest
  }

  lemma InsertHead(x: string, s: seq<string>)
    requires Sorted(s) && s != [] && LessEq(x, s[0])
    ensures Sorted([x] + s)
  {
    forall k | 0 <= k < |s| ensures LessEq(x, s[k]) {
      if k > 0 { Transitive(x, s[0], s[k]); }
    }
  }

  lemma InsertTail(x: string, s: seq<string>, rest: seq<string>)
    requires Sorted(s) && s != [] && LessEq(s[0], x) && Sorted(rest)
    requires multiset(rest) == multiset(s[1..]) + multiset{x}
    ensures Sorted([s[0]] + rest)
  {
    forall k | 0 <= k < |rest| ensures LessEq(s[0], rest[k]) {
      assert rest[k] in multiset(rest);
      if rest[k] != x {
        var m :| 0 <= m < |s[1..]| && s[1..][m] == rest[k];
        assert s[m + 1] == rest[k];
      }
    }
  }

  /** A list has one sorted arrangement: whatever the sorting algorithm, the result is the same. */
  lemma {:induction false} SortedUnique(s: seq<string>, t: seq<string>)
    requires Sorted(s) && Sorted(t) && multiset(s) == multiset(t)
    ensures s == t
  {
    SameLength(s, t);
    if s != [] {
      HeadLeast(s, t);
      HeadLeast(t, s);
      Antisymmetric(s[0], t[0]);
      SameTails(s, t);
      TailSorted(s);
      TailSorted(t);
      SortedUnique(s[1..], t[1..]);
      SameParts(s, t);
    }
  }

  lemma SameLength<T>(s: seq<T>, t: seq<T>)
    requires multiset(s) == multiset(t)
    ensures |s| == |t|
  {
    assert |s| == |multiset(s)| && |t| == |multiset(t)|;
  }

  lemma SameTails<T>(s: seq<T>, t: seq<T>)
    requires s != [] && t != [] && s[0] == t[0] && multiset(s) == multiset(t)
    ensures multiset(s[1..]) == multiset(t[1..])
  {
    TailMultiset(s);
    TailMultiset(t);
  }

  lemma SameParts<T>(s: seq<T>, t: seq<T>)
    requires s != [] && t != [] && s[0] == t[0] && s[1..] == t[1..]
    ensures s == t
  {
    assert s == [s[0]] + s[1..] && t == [t[0]] + t[1..];
  }

  lemma TailSorted(s: seq<string>)
    requires Sorted(s) && s != []
    ensures Sorted(s[1..])
  {
  }

  lemma HeadLeast(s: seq<string>, t: seq<string>)
    requires Sorted(s) && multiset(s) == multiset(t) && s != [] && t != []
    ensures LessEq(s[0], t[0])
  {
    assert t[0] in multiset(s);
    var i :| 0 <= i < |s| && s[i] == t[0];
    Reflexive(s[0]);
  }

  lemma TailMultiset<T>(s: seq<T>)
    requires s != []
    ensures multiset(s[1..]) == multiset(s) - multiset{s[0]}
  {
    assert s == [s[0]] + s[1..];
  }

  function Elements(s: seq<string>): set<string> {
    set x | x in s
  }

  lemma {:induction false} NoDupMultiset(s: seq<string>)
    requires NoDup(s)
    ensures multiset(s) == multiset(Elements(s))
  {
    if s != [] {
      var n := |s| - 1;
      assert s == s[..n] + [s[n]];
      NoDupMultiset(s[..n]);
      assert s[n] !in s[..n];
      assert Elements(s) == Elements(s[..n]) + {s[n]};
    }
  }

  lemma {:induction false} CountNoDup(s: seq<string>)
    requires forall x :: multiset(s)[x] <= 1
    ensures NoDup(s)
  {
    forall i, k | 0 <= i < k < |s| ensures s[i] != s[k] {
      assert s == s[..k] + s[k..];
      assert s[i] in s[..k] && s[k] in s[k..];
      assert multiset(s[..k])[s[i]] >= 1 && multiset(s[k..])[s[k]] >= 1;
      assert multiset(s)[s[k]] == multiset(s[..k])[s[k]] + multiset(s[k..])[s[k]];
    }
  }

  /** Sorting keeps the elements, and keeps them distinct. */
  lemma SortKeeps(s: seq<string>)
    ensures Elements(SortStrings(s)) == Elements(s) && |SortStrings(s)| == |s|
    ensures NoDup(s) ==> NoDup(SortStrings(s))
  {
    var r := SortStrings(s);
    forall x ensures x in r <==> x in s { assert x in multiset(r) <==> x in multiset(s); }
    assert |r| == |multiset(r)| && |s| == |multiset(s)|;
    if NoDup(s) {
      NoDupMultiset(s);
      CountNoDup(r);
    }
  }

  /** The sorted, duplicate-free list of a set. */
  ghost function SortedOf(s: set<string>): (r: seq<string>)
    ensures Sorted(r) && NoDup(r) && Elements(r) == s
  {
    var list := Enumerated(s);
    SortKeeps(list);
    SortStrings(list)
  }

  ghost function Enumerated(s: set<string>): (r: seq<string>)
    ensures NoDup(r) && Elements(r) == s
  {
    if s == {} then []
    else
      var x :| x in s;
      var rest := Enumerated(s - {x});
      assert x !in Elements(rest);
      assert Elements([x] + rest) == {x} + Elements(rest);
      [x] + rest
  }

  lemma SortedOfUnique(list: seq<string>, s: set<string>)
    requires Sorted(list) && NoDup(list) && Elements(list) == s
    ensures list == SortedOf(s)
  {
    NoDupMultiset(list);
    NoDupMultiset(SortedOf(s));
    SortedUnique(list, SortedOf(s));
  }

  // ---- Paths ----

  predicate HasPrefix(s: string, p: string) {
    p <= s
  }

  predicate HasSuffix(s: string, p: string) {
    |p| <= |s| && s[|s| - |p|..] == p
  }

  function TrimPrefix(s: string, p: string): string {
    if p <= s then s[|p|..] else s
  }

  /** strings.ToLower on ASCII letters. */
  function ToLower(s: string): string {
    seq(|s|, i requires 0 <= i < |s| => LowerChar(s[i]))
  }

  function LowerChar(c: char): char {
    if 'A' <= c <= 'Z' then (c as int + 32) as char else c
  }

  /** filepath.Base */
  function Base(path: string): string {
    if path == "" then "."
    else
      var stripped := StripSlashes(path);
      if stripped == "" then "/" else AfterSlash(stripped)
  }

  function StripSlashes(s: string): string {
    if s != "" && s[|s| - 1] == '/' then StripSlashes(s[..|s| - 1]) else s
  }

  function AfterSlash(s: string): string {
    if '/' !in s then s
    else if s[|s| - 1] == '/' then ""
    else AfterSlash(s[..|s| - 1]) + [s[|s| - 1]]
  }
}
