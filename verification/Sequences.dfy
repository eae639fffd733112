/** Sequence vocabulary shared by the model: filtering, first hit, duplicate-freedom. */
module Sequences {

  datatype Option<+T> = None | Some(value: T) {
    function GetOr(default: T): T { if Some? then value else default }
  }

  /** The elements of `s` that satisfy `p`, in order; recursion follows a forward loop. */
  function Filter<T>(s: seq<T>, p: T -> bool): seq<T> {
    if s == [] then []
    else
      var rest := Filter(s[..|s| - 1], p);
      if p(s[|s| - 1]) then rest + [s[|s| - 1]] else rest
  }

  lemma {:induction false} FilterMembers<T>(s: seq<T>, p: T -> bool)
    ensures forall x :: x in Filter(s, p) <==> x in s && p(x)
  {
    if s != [] {
      FilterMembers(s[..|s| - 1], p);
      assert s == s[..|s| - 1] + [s[|s| - 1]];
    }
  }

  lemma FilterNothing<T>()
    ensures forall p: T -> bool :: Filter([], p) == []
  {
  }

  lemma FilterStep<T>(s: seq<T>, p: T -> bool, i: nat)
    requires i < |s|
    ensures Filter(s[..i + 1], p) == if p(s[i]) then Filter(s[..i], p) + [s[i]] else Filter(s[..i], p)
  {
    assert s[..i + 1][..i] == s[..i];
  }

  /** No element occurs twice. */
  ghost predicate NoDup<T>(s: seq<T>) {
    forall i, j :: 0 <= i < j < |s| ==> s[i] != s[j]
  }

  lemma NoDupNothing<T>()
    ensures NoDup<T>([])
  {
  }

  lemma {:induction false} FilterNoDup<T>(s: seq<T>, p: T -> bool)
    requires NoDup(s)
    ensures NoDup(Filter(s, p))
  {
    if s != [] {
      FilterNoDup(s[..|s| - 1], p);
      FilterMembers(s[..|s| - 1], p);
    }
  }

  /** The first element of `s` that satisfies `p`. */
  function First<T>(s: seq<T>, p: T -> bool): Option<T> {
    if s == [] then None
    else if p(s[0]) then Some(s[0])
    else First(s[1..], p)
  }

  lemma {:induction false} FirstAt<T>(s: seq<T>, p: T -> bool, i: nat)
    requires i < |s| && p(s[i]) && forall j :: 0 <= j < i ==> !p(s[j])
    ensures First(s, p) == Some(s[i])
  {
    if i > 0 { FirstAt(s[1..], p, i - 1); }
  }

  lemma {:induction false} FirstNone<T>(s: seq<T>, p: T -> bool)
    requires forall x :: x in s ==> !p(x)
    ensures First(s, p) == None
  {
    if s != [] { FirstNone(s[1..], p); }
  }

  /** Where the first hit sits: nothing before it qualifies. */
  lemma {:induction false} FirstPosition<T>(s: seq<T>, p: T -> bool) returns (i: nat)
    requires First(s, p).Some?
    ensures i < |s| && s[i] == First(s, p).value && p(s[i])
    ensures forall j :: 0 <= j < i ==> !p(s[j])
  {
    if p(s[0]) {
      i := 0;
    } else {
      var k := FirstPosition(s[1..], p);
      i := k + 1;
    }
  }

  lemma {:induction false} FirstAgrees<T>(s: seq<T>, f: T -> bool, g: T -> bool)
    requires forall x :: x in s ==> f(x) == g(x)
    ensures First(s, f) == First(s, g)
  {
    if s != [] { FirstAgrees(s[1..], f, g); }
  }

  lemma {:induction false} FirstMisses<T>(s: seq<T>, p: T -> bool)
    requires First(s, p).None?
    ensures forall x :: x in s ==> !p(x)
  {
    if s != [] { FirstMisses(s[1..], p); }
  }

  ghost function SetOf<T>(s: seq<T>): set<T> {
    set x | x in s
  }

  lemma {:induction false} NoDupMultiset<T>(s: seq<T>)
    requires NoDup(s)
    ensures multiset(s) == multiset(SetOf(s)) && |s| == |SetOf(s)|
  {
    if s == [] {
      assert SetOf(s) == {};
    } else {
      var init, last := s[..|s| - 1], s[|s| - 1];
      NoDupMultiset(init);
      assert s == init + [last];
      assert SetOf(s) == SetOf(init) + {last};
    }
  }
}
