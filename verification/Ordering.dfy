/** Lexicographic string order, stable insertion sort, and the canonical listing of a set. */
module Ordering {
  import opened Sequences

  /** Go's `<` on strings. */
  predicate StrLess(a: string, b: string) {
    if b == "" then false
    else if a == "" then true
    else if a[0] == b[0] then StrLess(a[1..], b[1..])
    else a[0] < b[0]
  }

  /** The order of texts in terms of their characters: the first difference decides, a proper prefix comes first. */
  ghost predicate TextBefore(a: string, b: string) {
    exists k :: 0 <= k <= |a| && k < |b| && a[..k] == b[..k] && (k < |a| ==> a[k] < b[k])
  }

  lemma SameStart(a: string, b: string, k: nat)
    requires 0 < k <= |a| && k <= |b| && a[..k] == b[..k]
    ensures a[0] == b[0]
  {
    assert a[..k][0] == b[..k][0];
  }

  lemma TextBeforeTail(a: string, b: string)
    requires a != "" && b != "" && a[0] == b[0]
    ensures TextBefore(a, b) <==> TextBefore(a[1..], b[1..])
  {
    var a', b' := a[1..], b[1..];
    if TextBefore(a', b') {
      var k :| 0 <= k <= |a'| && k < |b'| && a'[..k] == b'[..k] && (k < |a'| ==> a'[k] < b'[k]);
      assert a[..k + 1] == [a[0]] + a'[..k] && b[..k + 1] == [a[0]] + b'[..k];
    }
    if TextBefore(a, b) {
      var k :| 0 <= k <= |a| && k < |b| && a[..k] == b[..k] && (k < |a| ==> a[k] < b[k]);
      assert k > 0;
      assert a'[..k - 1] == a[..k][1..] && b'[..k - 1] == b[..k][1..];
    }
  }

  lemma TextBeforeHead(a: string, b: string)
    requires b != "" && (a == "" || a[0] != b[0])
    ensures TextBefore(a, b) <==> a == "" || a[0] < b[0]
  {
    assert a[..0] == b[..0];
    if TextBefore(a, b) {
      var k :| 0 <= k <= |a| && k < |b| && a[..k] == b[..k] && (k < |a| ==> a[k] < b[k]);
      if k > 0 { SameStart(a, b, k); }
    }
  }

  lemma {:induction false} StrLessIff(a: string, b: string)
    ensures StrLess(a, b) <==> TextBefore(a, b)
  {
    if a != "" && b != "" && a[0] == b[0] {
      StrLessIff(a[1..], b[1..]);
      TextBeforeTail(a, b);
    } else if b != "" {
      TextBeforeHead(a, b);
    }
  }

  lemma {:induction false} StrTrichotomy(a: string, b: string)
    ensures a == b <==> !StrLess(a, b) && !StrLess(b, a)
    ensures !(StrLess(a, b) && StrLess(b, a))
  {
    if a != "" && b != "" && a[0] == b[0] {
      StrTrichotomy(a[1..], b[1..]);
      assert a == [a[0]] + a[1..] && b == [b[0]] + b[1..];
    }
  }

  lemma {:induction false} StrTransitive(a: string, b: string, c: string)
    requires StrLess(a, b) && StrLess(b, c)
    ensures StrLess(a, c)
  {
    if a != "" && a[0] == b[0] == c[0] {
      StrTransitive(a[1..], b[1..], c[1..]);
    }
  }

  lemma StrWeakOrder()
    ensures WeakOrder(StrLess)
  {
    forall x, y, z | !StrLess(y, x) && !StrLess(z, y)
      ensures !StrLess(z, x)
    {
      StrTrichotomy(x, y);
      StrTrichotomy(y, z);
      StrTrichotomy(x, z);
      if StrLess(x, y) && StrLess(y, z) { StrTransitive(x, y, z); }
    }
    forall x, y | StrLess(x, y) ensures !StrLess(y, x) { StrTrichotomy(x, y); }
  }

  /** A strict weak order: asymmetric, and incomparability is transitive. */
  ghost predicate WeakOrder<T(!new)>(less: (T, T) -> bool) {
    && (forall x, y :: less(x, y) ==> !less(y, x))
    && (forall x, y, z :: !less(y, x) && !less(z, y) ==> !less(z, x))
  }

  /** Any two distinct elements of `s` are comparable. */
  ghost predicate TotalOn<T>(s: seq<T>, less: (T, T) -> bool) {
    forall x, y :: x in s && y in s && x != y ==> less(x, y) || less(y, x)
  }

  ghost predicate Sorted<T>(s: seq<T>, less: (T, T) -> bool) {
    forall i, j :: 0 <= i < j < |s| ==> !less(s[j], s[i])
  }

  function Insert<T>(x: T, s: seq<T>, less: (T, T) -> bool): seq<T> {
    if s != [] && less(s[0], x) then [s[0]] + Insert(x, s[1..], less)
    else [x] + s
  }

  /** Stable sort: elements that are not ordered either way keep their relative order. */
  function Sort<T>(s: seq<T>, less: (T, T) -> bool): seq<T> {
    if s == [] then [] else Insert(s[0], Sort(s[1..], less), less)
  }

  lemma {:induction false} InsertPermutes<T>(x: T, s: seq<T>, less: (T, T) -> bool)
    ensures multiset(Insert(x, s, less)) == multiset{x} + multiset(s)
  {
    if s != [] && less(s[0], x) {
      InsertPermutes(x, s[1..], less);
      assert s == [s[0]] + s[1..];
    }
  }

  lemma SameMultiset<T>(a: seq<T>, b: seq<T>)
    requires multiset(a) == multiset(b)
    ensures |a| == |b| && forall x :: x in a <==> x in b
  {
    assert |multiset(a)| == |multiset(b)|;
    assert forall x :: x in a <==> x in multiset(a);
  }

  lemma {:induction false} SortPermutes<T>(s: seq<T>, less: (T, T) -> bool)
    ensures multiset(Sort(s, less)) == multiset(s)
    ensures |Sort(s, less)| == |s|
    ensures forall x :: x in Sort(s, less) <==> x in s
  {
    if s != [] {
      SortPermutes(s[1..], less);
      InsertPermutes(s[0], Sort(s[1..], less), less);
      assert s == [s[0]] + s[1..];
    }
    SameMultiset(Sort(s, less), s);
  }

  lemma {:induction false} InsertSorted<T(!new)>(x: T, s: seq<T>, less: (T, T) -> bool)
    requires WeakOrder(less) && Sorted(s, less)
    ensures Sorted(Insert(x, s, less), less)
  {
    if s != [] && less(s[0], x) {
      InsertSorted(x, s[1..], less);
      InsertPermutes(x, s[1..], less);
      var r := Insert(x, s[1..], less);
      forall j | 0 <= j < |r| ensures !less(r[j], s[0]) {
        assert r[j] in multiset(r);
        assert r[j] == x || r[j] in s[1..];
      }
    } else if s != [] {
      forall j | 0 <= j < |s| ensures !less(s[j], x) {
        assert j == 0 || !less(s[j], s[0]);
      }
    }
  }

  lemma {:induction false} SortSorted<T(!new)>(s: seq<T>, less: (T, T) -> bool)
    requires WeakOrder(less)
    ensures Sorted(Sort(s, less), less)
  {
    if s != [] {
      SortSorted(s[1..], less);
      InsertSorted(s[0], Sort(s[1..], less), less);
    }
  }

  lemma TailMultiset<T>(a: seq<T>)
    requires a != []
    ensures multiset(a[1..]) == multiset(a) - multiset{a[0]}
  {
    assert a == [a[0]] + a[1..];
  }

  lemma SameHead<T>(a: seq<T>, b: seq<T>, less: (T, T) -> bool)
    requires Sorted(a, less) && Sorted(b, less) && TotalOn(a, less) && a != [] && multiset(a) == multiset(b)
    ensures b != [] && a[0] == b[0]
  {
    assert a[0] in multiset(b);
    assert b != [];
    assert b[0] in multiset(a);
  }

  /** Under a total order a multiset has exactly one sorted listing. */
  lemma {:induction false} SortedUnique<T>(a: seq<T>, b: seq<T>, less: (T, T) -> bool)
    requires Sorted(a, less) && Sorted(b, less)
    requires multiset(a) == multiset(b)
    requires TotalOn(a, less)
    ensures a == b
  {
    if a == [] {
      assert |multiset(b)| == 0;
    } else {
      SameHead(a, b, less);
      TailMultiset(a);
      TailMultiset(b);
      SortedUnique(a[1..], b[1..], less);
      assert a == [a[0]] + a[1..] && b == [b[0]] + b[1..];
    }
  }

  /** Sorting forgets the order of its input, so any correct sort gives this answer. */
  lemma SortIgnoresOrder<T(!new)>(a: seq<T>, b: seq<T>, less: (T, T) -> bool)
    requires WeakOrder(less) && TotalOn(a, less)
    requires multiset(a) == multiset(b)
    ensures Sort(a, less) == Sort(b, less)
  {
    SortSorted(a, less);
    SortSorted(b, less);
    SortPermutes(a, less);
    SortPermutes(b, less);
    SortedUnique(Sort(a, less), Sort(b, less), less);
  }

  /** Some listing of a finite set: the order a Go `range` over a map might use. */
  ghost function Enumerate<T>(s: set<T>): seq<T> {
    if s == {} then [] else
      var x :| x in s;
      [x] + Enumerate(s - {x})
  }

  lemma {:induction false} EnumerateLists<T>(s: set<T>)
    ensures SetOf(Enumerate(s)) == s
    ensures NoDup(Enumerate(s))
    ensures multiset(Enumerate(s)) == multiset(s)
  {
    if s != {} {
      var q := Enumerate(s);
      EnumerateLists(s - {q[0]});
      assert q[1..] == Enumerate(s - {q[0]});
      assert q == [q[0]] + q[1..];
      forall x | x in q[1..] ensures x in s - {q[0]} {
        assert x in SetOf(q[1..]);
      }
      forall x ensures x in SetOf(q) <==> x in s {
        assert x in SetOf(q[1..]) <==> x in s - {q[0]};
      }
    }
    NoDupMultiset(Enumerate(s));
  }

  /** The canonical listing of a set: its elements in order. */
  ghost function Canon<T>(s: set<T>, less: (T, T) -> bool): seq<T> {
    Sort(Enumerate(s), less)
  }

  lemma CanonMembers<T>(s: set<T>, less: (T, T) -> bool)
    ensures forall x :: x in Canon(s, less) <==> x in s
    ensures NoDup(Canon(s, less)) && |Canon(s, less)| == |s|
  {
    EnumerateLists(s);
    var e := Enumerate(s);
    SortPermutes(e, less);
    forall x ensures x in Canon(s, less) <==> x in s {
      assert x in e <==> x in SetOf(e);
    }
    NoDupMultiset(e);
    MultisetNoDup(Canon(s, less), s);
  }

  lemma {:induction false} MultisetNoDup<T>(q: seq<T>, s: set<T>)
    requires multiset(q) == multiset(s)
    ensures NoDup(q) && |q| == |s|
  {
    forall i, j | 0 <= i < j < |q|
      ensures q[i] != q[j]
    {
      assert q == q[..i] + [q[i]] + q[i + 1..j] + [q[j]] + q[j + 1..];
      assert multiset(q) == multiset(q[..i]) + multiset{q[i]} + multiset(q[i + 1..j]) + multiset{q[j]}
             + multiset(q[j + 1..]);
      assert multiset(s)[q[i]] <= 1;
    }
    assert |multiset(q)| == |q|;
    assert |multiset(s)| == |s|;
  }

  /** Whatever order the elements were met in, sorting them yields the canonical listing. */
  lemma CanonUnique<T(!new)>(q: seq<T>, s: set<T>, less: (T, T) -> bool)
    requires WeakOrder(less) && TotalOn(q, less)
    requires NoDup(q) && SetOf(q) == s
    ensures Sort(q, less) == Canon(s, less)
  {
    NoDupMultiset(q);
    EnumerateLists(s);
    SortIgnoresOrder(q, Enumerate(s), less);
  }
}
