/**
  String utilities the declaration engine relies on: the lexicographic order
  in which Python compares `str` values, a stable sort by a string key, joining
  with a separator, and the underscore-to-dash renaming of property names.
*/
module Strings {

  /** Lexicographic order by character code: Python's `a <= b` on `str`. */
  predicate LessEq(a: string, b: string)
    decreases |a|
  {
    |a| == 0 || (|b| > 0 && (a[0] < b[0] || (a[0] == b[0] && LessEq(a[1..], b[1..]))))
  }

  lemma {:induction false} LessEqReflexive(a: string)
    ensures LessEq(a, a)
    decreases |a|
  {
    if |a| > 0 {
      LessEqReflexive(a[1..]);
    }
  }

  lemma {:induction false} LessEqTotal(a: string, b: string)
    ensures LessEq(a, b) || LessEq(b, a)
    decreases |a|
  {
    if |a| > 0 && |b| > 0 && a[0] == b[0] {
      LessEqTotal(a[1..], b[1..]);
    }
  }

  lemma {:induction false} LessEqAntisymmetric(a: string, b: string)
    requires LessEq(a, b) && LessEq(b, a)
    ensures a == b
    decreases |a|
  {
    if |a| > 0 {
      LessEqAntisymmetric(a[1..], b[1..]);
      assert a == [a[0]] + a[1..] && b == [b[0]] + b[1..];
    }
  }

  lemma {:induction false} LessEqTransitive(a: string, b: string, c: string)
    requires LessEq(a, b) && LessEq(b, c)
    ensures LessEq(a, c)
    decreases |a|
  {
    if |a| > 0 && a[0] == b[0] && b[0] == c[0] {
      LessEqTransitive(a[1..], b[1..], c[1..]);
    }
  }

  /** A common prefix does not change the order of two strings. */
  lemma {:induction false} LessEqCommonPrefix(p: string, a: string, b: string)
    ensures LessEq(p + a, p + b) <==> LessEq(a, b)
    decreases |p|
  {
    if |p| > 0 {
      LessEqCommonPrefix(p[1..], a, b);
      assert (p + a)[0] == p[0] == (p + b)[0];
      assert (p + a)[1..] == p[1..] + a && (p + b)[1..] == p[1..] + b;
    } else {
      assert p + a == a && p + b == b;
    }
  }

  /** Each element's key is at most the next one's. */
  predicate SortedBy<T>(xs: seq<T>, key: T -> string)
  {
    forall i :: 0 < i < |xs| ==> LessEq(key(xs[i - 1]), key(xs[i]))
  }

  function Identity(s: string): string
  {
    s
  }

  /** Sorted strings in ascending order. */
  predicate Sorted(xs: seq<string>)
  {
    SortedBy(xs, Identity)
  }

  /** Inserts `x` in front of the first element whose key is not smaller than its own. */
  function InsertBy<T>(x: T, xs: seq<T>, key: T -> string): (r: seq<T>)
    requires SortedBy(xs, key)
    ensures SortedBy(r, key)
    ensures |r| == |xs| + 1
    ensures r[0] == x || (xs != [] && r[0] == xs[0])
  {
    if xs == [] then
      [x]
    else if LessEq(key(x), key(xs[0])) then
      [x] + xs
    else
      LessEqTotal(key(x), key(xs[0]));
      var rest := InsertBy(x, xs[1..], key);
      assert xs == [xs[0]] + xs[1..];
      [xs[0]] + rest
  }

  /** Insertion adds exactly the inserted element. */
  lemma {:induction false} InsertByPermutes<T>(x: T, xs: seq<T>, key: T -> string)
    requires SortedBy(xs, key)
    ensures multiset(InsertBy(x, xs, key)) == multiset(xs) + multiset{x}
    decreases |xs|
  {
    if xs != [] && !LessEq(key(x), key(xs[0])) {
      SortedByTail(xs, key);
      InsertByPermutes(x, xs[1..], key);
      assert xs == [xs[0]] + xs[1..];
    }
  }

  /** An element whose key is at most the first key is inserted in front. */
  lemma InsertFront<T>(x: T, xs: seq<T>, key: T -> string)
    requires SortedBy(xs, key) && xs != [] && LessEq(key(x), key(xs[0]))
    ensures InsertBy(x, xs, key) == [x] + xs
  {
  }

  /** An element whose key exceeds the first key is inserted behind it. */
  lemma InsertPast<T>(x: T, y: T, ys: seq<T>, key: T -> string)
    requires SortedBy([y] + ys, key) && !LessEq(key(x), key(y))
    ensures SortedBy(ys, key)
    ensures InsertBy(x, [y] + ys, key) == [y] + InsertBy(x, ys, key)
  {
    assert ([y] + ys)[1..] == ys;
    SortedByTail([y] + ys, key);
  }

  /** An element whose key exceeds every key of a sorted sequence is inserted at its end. */
  lemma {:induction false} InsertLast<T>(x: T, xs: seq<T>, key: T -> string)
    requires SortedBy(xs, key)
    requires forall i :: 0 <= i < |xs| ==> !LessEq(key(x), key(xs[i]))
    ensures InsertBy(x, xs, key) == xs + [x]
    decreases |xs|
  {
    if xs != [] {
      var tail := xs[1..];
      SortedByTail(xs, key);
      assert !LessEq(key(x), key(xs[0]));
      forall i | 0 <= i < |tail|
        ensures !LessEq(key(x), key(tail[i]))
      {
        assert tail[i] == xs[i + 1];
      }
      InsertLast(x, tail, key);
      assert InsertBy(x, xs, key) == [xs[0]] + InsertBy(x, tail, key);
      assert xs == [xs[0]] + tail;
    }
  }

  /** Insertion sort by key, Python's `sorted(xs, key=key)`. */
  function SortBy<T>(xs: seq<T>, key: T -> string): (r: seq<T>)
    ensures SortedBy(r, key)
    ensures |r| == |xs|
  {
    if xs == [] then
      []
    else
      assert xs == [xs[0]] + xs[1..];
      InsertBy(xs[0], SortBy(xs[1..], key), key)
  }

  /** Sorting is a permutation. */
  lemma {:induction false} SortByPermutes<T>(xs: seq<T>, key: T -> string)
    ensures multiset(SortBy(xs, key)) == multiset(xs)
    decreases |xs|
  {
    if xs != [] {
      SortByPermutes(xs[1..], key);
      InsertByPermutes(xs[0], SortBy(xs[1..], key), key);
      assert xs == [xs[0]] + xs[1..];
    }
  }

  /** Sorting keeps the elements and the length. */
  lemma SortByMembers<T>(xs: seq<T>, key: T -> string)
    ensures |SortBy(xs, key)| == |xs|
    ensures forall x :: x in SortBy(xs, key) <==> x in xs
  {
    SortByPermutes(xs, key);
    var r := SortBy(xs, key);
    assert |r| == |multiset(r)| == |multiset(xs)| == |xs|;
    forall x
      ensures x in r <==> x in xs
    {
      assert x in r <==> x in multiset(r);
      assert x in xs <==> x in multiset(xs);
    }
  }

  /** Python's `sorted(xs)` on a list of strings. */
  function Sort(xs: seq<string>): (r: seq<string>)
    ensures Sorted(r)
    ensures multiset(r) == multiset(xs)
  {
    SortByPermutes(xs, Identity);
    SortBy(xs, Identity)
  }

  lemma SortedByTail<T>(a: seq<T>, key: T -> string)
    requires SortedBy(a, key) && a != []
    ensures SortedBy(a[1..], key)
  {
    forall i | 0 < i < |a[1..]|
      ensures LessEq(key(a[1..][i - 1]), key(a[1..][i]))
    {
      assert a[1..][i - 1] == a[i] && a[1..][i] == a[i + 1];
    }
  }

  lemma {:induction false} SortedByHeadLeast<T>(a: seq<T>, x: T, key: T -> string)
    requires SortedBy(a, key) && x in a
    ensures LessEq(key(a[0]), key(x))
  {
    if x == a[0] {
      LessEqReflexive(key(x));
    } else {
      assert x in a[1..];
      SortedByTail(a, key);
      SortedByHeadLeast(a[1..], x, key);
      LessEqTransitive(key(a[0]), key(a[1]), key(x));
    }
  }

  lemma MultisetTail<T>(a: seq<T>)
    requires a != []
    ensures multiset(a[1..]) == multiset(a) - multiset{a[0]}
  {
    assert a == [a[0]] + a[1..];
  }

  /** No two different elements of `a` have the same key. */
  predicate KeysDistinct<T(==)>(a: seq<T>, key: T -> string)
  {
    forall i, j :: 0 <= i < |a| && 0 <= j < |a| && key(a[i]) == key(a[j]) ==> a[i] == a[j]
  }

  /**
    When keys tell elements apart, there is only one arrangement of a multiset
    sorted by key: whatever order the elements arrive in, sorting gives the
    same sequence.
  */
  lemma {:induction false} SortedByUnique<T>(a: seq<T>, b: seq<T>, key: T -> string)
    requires SortedBy(a, key) && SortedBy(b, key)
    requires multiset(a) == multiset(b)
    requires KeysDistinct(a, key)
    ensures a == b
  {
    if a == [] {
      assert |multiset(b)| == 0;
    } else {
      TailsMatch(a, b, key);
      SortedByUnique(a[1..], b[1..], key);
      assert a == [a[0]] + a[1..] && b == [b[0]] + b[1..];
    }
  }

  /** Two sorted arrangements of one multiset start alike and continue as sorted arrangements of one multiset. */
  lemma TailsMatch<T>(a: seq<T>, b: seq<T>, key: T -> string)
    requires SortedBy(a, key) && SortedBy(b, key)
    requires multiset(a) == multiset(b) && a != []
    requires KeysDistinct(a, key)
    ensures b != [] && a[0] == b[0]
    ensures SortedBy(a[1..], key) && SortedBy(b[1..], key)
    ensures multiset(a[1..]) == multiset(b[1..])
    ensures KeysDistinct(a[1..], key)
  {
    SameHead(a, b, key);
    MultisetTail(a);
    MultisetTail(b);
    SortedByTail(a, key);
    SortedByTail(b, key);
    KeysDistinctTail(a, key);
  }

  lemma SameHead<T>(a: seq<T>, b: seq<T>, key: T -> string)
    requires SortedBy(a, key) && SortedBy(b, key)
    requires multiset(a) == multiset(b) && a != []
    requires KeysDistinct(a, key)
    ensures b != [] && a[0] == b[0]
  {
    assert |multiset(b)| == |a|;
    assert a[0] in multiset(b) && b[0] in multiset(a);
    SortedByHeadLeast(a, b[0], key);
    SortedByHeadLeast(b, a[0], key);
    LessEqAntisymmetric(key(a[0]), key(b[0]));
    var j :| 0 <= j < |a| && a[j] == b[0];
  }

  lemma KeysDistinctTail<T>(a: seq<T>, key: T -> string)
    requires KeysDistinct(a, key) && a != []
    ensures KeysDistinct(a[1..], key)
  {
    forall i, k | 0 <= i < |a[1..]| && 0 <= k < |a[1..]| && key(a[1..][i]) == key(a[1..][k])
      ensures a[1..][i] == a[1..][k]
    {
      assert a[1..][i] == a[i + 1] && a[1..][k] == a[k + 1];
    }
  }

  /** A sorted arrangement of a multiset of strings is unique. */
  lemma SortedUnique(a: seq<string>, b: seq<string>)
    requires Sorted(a) && Sorted(b)
    requires multiset(a) == multiset(b)
    ensures a == b
  {
    SortedByUnique(a, b, Identity);
  }

  /**
    The elements of `xs`, each once: what remains when `xs` is collected into
    a Python set. Every element of `xs` occurs exactly once, nothing else occurs.
  */
  function Distinct<T(==,!new)>(xs: seq<T>): (r: seq<T>)
    ensures forall x :: multiset(r)[x] == if x in xs then 1 else 0
    ensures forall x :: x in r <==> x in xs
  {
    if xs == [] then []
    else if xs[0] in xs[1..] then Distinct(xs[1..])
    else
      assert xs == [xs[0]] + xs[1..];
      [xs[0]] + Distinct(xs[1..])
  }

  /** Two sequences with the same elements collect into the same set, whatever their order and repeats. */
  lemma DistinctPermutes<T(!new)>(a: seq<T>, b: seq<T>)
    requires forall x :: x in a <==> x in b
    ensures multiset(Distinct(a)) == multiset(Distinct(b))
  {
    forall x
      ensures multiset(Distinct(a))[x] == multiset(Distinct(b))[x]
    {
    }
  }

  /** Python's `sep.join(xs)`. */
  function Join(xs: seq<string>, sep: string): (r: string)
    ensures xs == [] ==> r == ""
    ensures |xs| == 1 ==> r == xs[0]
  {
    if xs == [] then ""
    else if |xs| == 1 then xs[0]
    else xs[0] + sep + Join(xs[1..], sep)
  }

  /** A concatenation starts with its first part and ends with its last. */
  lemma ConcatParts<T>(a: seq<T>, b: seq<T>, c: seq<T>)
    ensures a <= a + b + c
    ensures (a + b + c)[|a + b + c| - |c|..] == c
  {
    assert (a + b + c)[..|a|] == a;
  }

  /** The joined text starts with the first item. */
  lemma JoinStartsWithFirst(xs: seq<string>, sep: string)
    ensures xs != [] ==> xs[0] <= Join(xs, sep)
  {
  }

  lemma JoinCons(x: string, xs: seq<string>, sep: string)
    requires xs != []
    ensures Join([x] + xs, sep) == x + sep + Join(xs, sep)
  {
    assert ([x] + xs)[1..] == xs;
  }

  /** `name.replace('_', '-')`: an attribute name as a CSS property name. */
  function DashCase(name: string): (r: string)
    ensures |r| == |name|
    ensures forall i :: 0 <= i < |name| ==> r[i] == (if name[i] == '_' then '-' else name[i])
    ensures '_' !in r
  {
    seq(|name|, i requires 0 <= i < |name| => if name[i] == '_' then '-' else name[i])
  }
}
