/** The in-memory open-leg index: four maps over the same legs, with canonical query results. */
module OpenIndex {
  import opened Sequences
  import opened Ordering
  import opened Domain
  import Q = OpenLegs

  type Bucket = map<Id, Leg>

  ghost predicate Keyed(m: Bucket) {
    forall id :: id in m ==> m[id].id == id
  }

  /** The legs of `m` that `f` puts in group `k`. */
  ghost function BucketOf<K>(m: Bucket, f: Leg -> Option<K>, k: K): Bucket {
    map id | id in m && f(m[id]) == Some(k) :: m[id]
  }

  /** `m` grouped by `f`: legs without a group are left out and no group is empty. */
  ghost function GroupBy<K>(m: Bucket, f: Leg -> Option<K>): map<K, Bucket> {
    map k | k in (set id | id in m && f(m[id]).Some? :: f(m[id]).value) :: BucketOf(m, f, k)
  }

  function GroupAt<K>(g: map<K, Bucket>, k: K): Bucket {
    if k in g then g[k] else map[]
  }

  /** Adds a leg to its group, creating the group if needed. */
  function Put<K>(g: map<K, Bucket>, k: K, l: Leg): map<K, Bucket> {
    g[k := GroupAt(g, k)[l.id := l]]
  }

  /** Deletes a leg from its group, dropping the group when it becomes empty. */
  function Del<K>(g: map<K, Bucket>, k: K, id: Id): map<K, Bucket> {
    var b := GroupAt(g, k) - {id};
    if b == map[] then g - {k} else g[k := b]
  }

  lemma GroupKeys<K>(m: Bucket, f: Leg -> Option<K>, k: K)
    ensures k in GroupBy(m, f) <==> BucketOf(m, f, k) != map[]
    ensures GroupAt(GroupBy(m, f), k) == BucketOf(m, f, k)
  {
    if k in GroupBy(m, f) {
      var id :| id in m && f(m[id]).Some? && f(m[id]).value == k;
      assert id in BucketOf(m, f, k);
    }
    if BucketOf(m, f, k) != map[] {
      var id :| id in BucketOf(m, f, k);
      assert f(m[id]).Some? && f(m[id]).value == k;
    }
  }

  lemma MapsEqual<K, V>(a: map<K, V>, b: map<K, V>)
    requires forall k :: k in a <==> k in b
    requires forall k :: k in a && k in b ==> a[k] == b[k]
    ensures a == b
  {
  }

  lemma BucketAdd<K>(m: Bucket, f: Leg -> Option<K>, l: Leg, k: K)
    requires l.id !in m
    ensures BucketOf(m[l.id := l], f, k) == if f(l) == Some(k) then BucketOf(m, f, k)[l.id := l] else BucketOf(m, f, k)
  {
  }

  lemma PutGroups<K>(m: Bucket, f: Leg -> Option<K>, l: Leg)
    requires l.id !in m && f(l).Some?
    ensures Put(GroupBy(m, f), f(l).value, l) == GroupBy(m[l.id := l], f)
  {
    hide BucketOf;
    var g, g' := Put(GroupBy(m, f), f(l).value, l), GroupBy(m[l.id := l], f);
    forall k ensures k in g <==> k in g'
             ensures k in g ==> g[k] == g'[k]
    {
      GroupKeys(m, f, k);
      GroupKeys(m[l.id := l], f, k);
      BucketAdd(m, f, l, k);
      if k == f(l).value { assert l.id in BucketOf(m, f, k)[l.id := l]; }
    }
  }

  lemma SkipGroups<K>(m: Bucket, f: Leg -> Option<K>, l: Leg)
    requires l.id !in m && f(l).None?
    ensures GroupBy(m, f) == GroupBy(m[l.id := l], f)
  {
    var g, g' := GroupBy(m, f), GroupBy(m[l.id := l], f);
    forall k ensures BucketOf(m[l.id := l], f, k) == BucketOf(m, f, k) {}
    forall k ensures k in g <==> k in g' {
      GroupKeys(m, f, k);
      GroupKeys(m[l.id := l], f, k);
    }
    forall k | k in g && k in g' ensures g[k] == g'[k] {
      assert g[k] == BucketOf(m, f, k) && g'[k] == BucketOf(m[l.id := l], f, k);
    }
    MapsEqual(g, g');
  }

  lemma BucketRemove<K>(m: Bucket, f: Leg -> Option<K>, id: Id, k: K)
    requires id in m
    ensures BucketOf(m - {id}, f, k) == BucketOf(m, f, k) - {id}
    ensures f(m[id]) != Some(k) ==> BucketOf(m, f, k) - {id} == BucketOf(m, f, k)
  {
  }

  lemma DelGroups<K>(m: Bucket, f: Leg -> Option<K>, id: Id)
    requires id in m && f(m[id]).Some?
    ensures Del(GroupBy(m, f), f(m[id]).value, id) == GroupBy(m - {id}, f)
  {
    hide BucketOf;
    var g, g' := Del(GroupBy(m, f), f(m[id]).value, id), GroupBy(m - {id}, f);
    forall k ensures k in g <==> k in g'
             ensures k in g ==> g[k] == g'[k]
    {
      GroupKeys(m, f, k);
      GroupKeys(m - {id}, f, k);
      BucketRemove(m, f, id, k);
    }
  }

  lemma DropGroups<K>(m: Bucket, f: Leg -> Option<K>, id: Id)
    requires id in m && f(m[id]).None?
    ensures GroupBy(m, f) == GroupBy(m - {id}, f)
  {
    var g, g' := GroupBy(m, f), GroupBy(m - {id}, f);
    forall k ensures BucketOf(m - {id}, f, k) == BucketOf(m, f, k) {}
    forall k ensures k in g <==> k in g' {
      GroupKeys(m, f, k);
      GroupKeys(m - {id}, f, k);
    }
    forall k | k in g && k in g' ensures g[k] == g'[k] {
      assert g[k] == BucketOf(m, f, k) && g'[k] == BucketOf(m - {id}, f, k);
    }
    MapsEqual(g, g');
  }

  function RefOf(l: Leg): Option<string> { Some(l.txnRef) }

  function BatchOf(l: Leg): Option<string> { if l.Batch() == "" then None else Some(l.Batch()) }

  function SourceIn(k: WindowKey): Leg -> Option<string> {
    (l: Leg) => if l.Key() == k then Some(l.source) else None
  }

  type Windows = map<WindowKey, map<string, Bucket>>

  function WindowAt(w: Windows, k: WindowKey): map<string, Bucket> {
    if k in w then w[k] else map[]
  }

  /** `m` grouped by window and, inside a window, by source; no window is empty. */
  ghost function GroupByWindow(m: Bucket): Windows {
    map k | k in (set id | id in m :: m[id].Key()) :: GroupBy(m, SourceIn(k))
  }

  lemma WindowKeys(m: Bucket, k: WindowKey)
    ensures k in GroupByWindow(m) <==> GroupBy(m, SourceIn(k)) != map[]
    ensures WindowAt(GroupByWindow(m), k) == GroupBy(m, SourceIn(k))
  {
    var g := GroupBy(m, SourceIn(k));
    if k in GroupByWindow(m) {
      var id :| id in m && m[id].Key() == k;
      assert SourceIn(k)(m[id]).Some?;
      assert m[id].source in g;
    }
    if g != map[] {
      var src :| src in g;
      var id :| id in m && SourceIn(k)(m[id]).Some? && SourceIn(k)(m[id]).value == src;
      assert m[id].Key() == k;
    }
  }

  function AddToWindow(w: Windows, l: Leg): Windows {
    w[l.Key() := Put(WindowAt(w, l.Key()), l.source, l)]
  }

  function DropFromWindow(w: Windows, l: Leg): Windows {
    var inner := Del(WindowAt(w, l.Key()), l.source, l.id);
    if inner == map[] then w - {l.Key()} else w[l.Key() := inner]
  }

  lemma AddWindow(m: Bucket, l: Leg)
    requires l.id !in m
    ensures AddToWindow(GroupByWindow(m), l) == GroupByWindow(m[l.id := l])
  {
    var w, w' := AddToWindow(GroupByWindow(m), l), GroupByWindow(m[l.id := l]);
    forall k ensures k in w <==> k in w'
             ensures k in w ==> w[k] == w'[k]
    {
      WindowKeys(m, k);
      WindowKeys(m[l.id := l], k);
      if k == l.Key() {
        PutGroups(m, SourceIn(k), l);
        assert l.source in GroupBy(m[l.id := l], SourceIn(k));
      } else {
        SkipGroups(m, SourceIn(k), l);
      }
    }
  }

  lemma WindowAfterDrop(w: Windows, l: Leg, k: WindowKey)
    ensures k == l.Key() ==>
              && (k in DropFromWindow(w, l) <==> Del(WindowAt(w, k), l.source, l.id) != map[])
              && WindowAt(DropFromWindow(w, l), k) == Del(WindowAt(w, k), l.source, l.id)
    ensures k != l.Key() ==>
              && (k in DropFromWindow(w, l) <==> k in w)
              && WindowAt(DropFromWindow(w, l), k) == WindowAt(w, k)
  {
  }

  lemma SameWindow(a: Windows, b: Windows, k: WindowKey, inner: map<string, Bucket>)
    requires k in a <==> inner != map[]
    requires k in b <==> inner != map[]
    requires WindowAt(a, k) == inner == WindowAt(b, k)
    ensures (k in a <==> k in b) && (k in a && k in b ==> a[k] == b[k])
  {
  }

  lemma DropWindowAt(m: Bucket, id: Id, k: WindowKey)
    requires id in m && m[id].id == id
    ensures var w, w' := DropFromWindow(GroupByWindow(m), m[id]), GroupByWindow(m - {id});
            (k in w <==> k in w') && (k in w && k in w' ==> w[k] == w'[k])
  {
    WindowKeys(m, k);
    WindowKeys(m - {id}, k);
    WindowAfterDrop(GroupByWindow(m), m[id], k);
    if k == m[id].Key() {
      DelGroups(m, SourceIn(k), id);
    } else {
      DropGroups(m, SourceIn(k), id);
    }
    SameWindow(DropFromWindow(GroupByWindow(m), m[id]), GroupByWindow(m - {id}), k, GroupBy(m - {id}, SourceIn(k)));
  }

  lemma DropWindow(m: Bucket, id: Id)
    requires id in m && m[id].id == id
    ensures DropFromWindow(GroupByWindow(m), m[id]) == GroupByWindow(m - {id})
  {
    var w, w' := DropFromWindow(GroupByWindow(m), m[id]), GroupByWindow(m - {id});
    forall k ensures k in w <==> k in w' { DropWindowAt(m, id, k); }
    forall k | k in w && k in w' ensures w[k] == w'[k] { DropWindowAt(m, id, k); }
    MapsEqual(w, w');
  }

  method PutIn<K(==)>(g: map<K, Bucket>, ghost m: Bucket, ghost f: Leg -> Option<K>, k: K, l: Leg)
      returns (g': map<K, Bucket>)
    requires g == GroupBy(m, f) && l.id !in m && f(l) == Some(k)
    ensures g' == GroupBy(m[l.id := l], f)
  {
    PutGroups(m, f, l);
    g' := Put(g, k, l);
  }

  method DelFrom<K(==)>(g: map<K, Bucket>, ghost m: Bucket, ghost f: Leg -> Option<K>, k: K, id: Id)
      returns (g': map<K, Bucket>)
    requires g == GroupBy(m, f) && id in m && f(m[id]) == Some(k)
    ensures g' == GroupBy(m - {id}, f)
  {
    DelGroups(m, f, id);
    g' := Del(g, k, id);
  }

  method PutInWindow(w: Windows, ghost m: Bucket, l: Leg) returns (w': Windows)
    requires w == GroupByWindow(m) && l.id !in m
    ensures w' == GroupByWindow(m[l.id := l])
  {
    AddWindow(m, l);
    w' := AddToWindow(w, l);
  }

  method DelFromWindow(w: Windows, ghost m: Bucket, l: Leg) returns (w': Windows)
    requires w == GroupByWindow(m) && l.id in m && m[l.id] == l
    ensures w' == GroupByWindow(m - {l.id})
  {
    DropWindow(m, l.id);
    w' := DropFromWindow(w, l);
  }

  class Index {
    const ttl: nat
    var byKey: Windows
    var byRef: map<string, Bucket>
    var byBatch: map<string, Bucket>
    var byId: Bucket

    /** The three secondary maps are exactly the groupings of the legs by id. */
    ghost predicate Valid()
      reads this
    {
      && Keyed(byId)
      && byKey == GroupByWindow(byId)
      && byRef == GroupBy(byId, RefOf)
      && byBatch == GroupBy(byId, BatchOf)
    }

    /** The abstract value: the set of open legs. */
    ghost function Contents(): set<Leg>
      reads this
    {
      byId.Values
    }

    constructor (ttl: nat)
      ensures Valid() && Contents() == {} && this.ttl == ttl
    {
      this.ttl := ttl;
      byKey, byRef, byBatch, byId := map[], map[], map[], map[];
    }

    /** Inserts a leg; an id already present is left alone. */
    method Add(l: Leg)
      requires Valid()
      modifies this
      ensures Valid()
      ensures Contents() ==
              if exists c :: c in old(Contents()) && c.id == l.id then old(Contents()) else old(Contents()) + {l}
    {
      if l.id in byId {
        assert byId[l.id] in Contents();
        return;
      }
      AddedContents(byId, l);
      byKey := PutInWindow(byKey, byId, l);
      byRef := PutIn(byRef, byId, RefOf, l.txnRef, l);
      if l.Batch() != "" {
        byBatch := PutIn(byBatch, byId, BatchOf, l.Batch(), l);
      } else {
        SkipGroups(byId, BatchOf, l);
      }
      byId := byId[l.id := l];
    }

    method RemoveOne(id: Id)
      requires Valid()
      modifies this
      ensures Valid()
      ensures Contents() == set c | c in old(Contents()) && c.id != id
    {
      RemovedContents(byId, id);
      if id !in byId {
        assert byId == byId - {id};
        return;
      }
      var l := byId[id];
      byKey := DelFromWindow(byKey, byId, l);
      byRef := DelFrom(byRef, byId, RefOf, l.txnRef, id);
      if l.Batch() != "" {
        byBatch := DelFrom(byBatch, byId, BatchOf, l.Batch(), id);
      } else {
        DropGroups(byId, BatchOf, id);
      }
      byId := byId - {id};
    }

    /** Deletes legs by id; unknown ids are ignored. */
    method Remove(ids: seq<Id>)
      requires Valid()
      modifies this
      ensures Valid()
      ensures Contents() == set c | c in old(Contents()) && c.id !in ids
    {
      for i := 0 to |ids|
        invariant Valid()
        invariant Contents() == set c | c in old(Contents()) && c.id !in ids[..i]
      {
        RemoveOne(ids[i]);
        assert ids[..i + 1] == ids[..i] + [ids[i]];
      }
      assert ids[..|ids|] == ids;
    }

    method Get(id: Id) returns (r: Option<Leg>)
      requires Valid()
      ensures r.Some? ==> r.value in Contents() && r.value.id == id
      ensures r.None? ==> forall c :: c in Contents() ==> c.id != id
    {
      if id in byId {
        r := Some(byId[id]);
      } else {
        r := None;
      }
    }

    /** The legs of a bucket that satisfy `keep`, whatever order the map is walked in. */
    method Collect(m: Bucket, keep: Leg -> bool) returns (out: seq<Leg>)
      requires Keyed(m)
      ensures out == Q.Listing(set c | c in m.Values && keep(c))
    {
      out := [];
      var todo := m.Keys;
      while todo != {}
        invariant todo <= m.Keys
        invariant NoDup(out)
        invariant forall x :: x in out <==> x in m.Values && keep(x) && x.id !in todo
        decreases |todo|
      {
        var id :| id in todo;
        if keep(m[id]) {
          out := out + [m[id]];
        }
        todo := todo - {id};
      }
      SortedListing(out, (set c | c in m.Values && keep(c)), m);
      out := Sort(out, Q.Before);
    }

    method Candidates(l: Leg) returns (out: seq<Leg>)
      requires Valid()
      ensures out == Q.Candidates(Contents(), l)
    {
      hide Sort, NoDup, Q.Listing, GroupBy;
      out := [];
      NoDupNothing<Leg>();
      var window := WindowAt(byKey, l.Key());
      WindowSources(byId, l.Key());
      var sources := window.Keys;
      ghost var open := Contents();
      while sources != {}
        invariant sources <= window.Keys
        invariant NoDup(out)
        invariant forall x :: x in out <==>
                    x in open && x.Key() == l.Key() && x.source != l.source && x.source !in sources
        decreases |sources|
      {
        var src :| src in sources;
        if src != l.source {
          SourceValues(byId, l.Key(), src);
          out := AppendAll(out, window[src]);
        }
        sources := sources - {src};
      }
      SortedListing(out, (set c | c in open && c.Key() == l.Key() && c.source != l.source), byId);
      out := Sort(out, Q.Before);
    }

    /** Appends the legs of a bucket in some order. */
    method AppendAll(prefix: seq<Leg>, m: Bucket) returns (out: seq<Leg>)
      requires Keyed(m) && NoDup(prefix) && forall x :: x in m.Values ==> x !in prefix
      ensures NoDup(out) && forall x :: x in out <==> x in prefix || x in m.Values
    {
      out := prefix;
      var todo := m.Keys;
      while todo != {}
        invariant todo <= m.Keys
        invariant NoDup(out)
        invariant forall x :: x in out <==> x in prefix || (x in m.Values && x.id !in todo)
        decreases |todo|
      {
        var id :| id in todo;
        assert m[id] in m.Values && m[id] !in out;
        out := out + [m[id]];
        todo := todo - {id};
      }
    }

    method CandidatesByRef(l: Leg) returns (out: seq<Leg>)
      requires Valid()
      ensures out == Q.CandidatesByRef(Contents(), l)
    {
      var bucket := GroupAt(byRef, l.txnRef);
      GroupValues(byId, RefOf, l.txnRef);
      var keep := (c: Leg) => c.source != l.source && c.Key() == l.Key();
      out := Collect(bucket, keep);
      assert (set c | c in bucket.Values && keep(c)) ==
             set c | c in Contents() && c.txnRef == l.txnRef && c.source != l.source && c.Key() == l.Key();
    }

    method SameSourceInWindow(l: Leg) returns (out: seq<Leg>)
      requires Valid()
      ensures out == Q.SameSourceInWindow(Contents(), l)
    {
      var bucket := GroupAt(WindowAt(byKey, l.Key()), l.source);
      SourceValues(byId, l.Key(), l.source);
      var keep := (c: Leg) => c.id != l.id;
      out := Collect(bucket, keep);
      SameSourceSet(bucket.Values, Contents(), l, keep);
    }

    method ByRef(l: Leg) returns (out: seq<Leg>)
      requires Valid()
      ensures out == Q.ByRef(Contents(), l)
    {
      var bucket := GroupAt(byRef, l.txnRef);
      GroupValues(byId, RefOf, l.txnRef);
      var keep := (c: Leg) => c.id != l.id;
      out := Collect(bucket, keep);
      assert (set c | c in bucket.Values && keep(c)) ==
             set c | c in Contents() && c.txnRef == l.txnRef && c.id != l.id;
    }

    method RefLegs(ref: string) returns (out: seq<Leg>)
      requires Valid()
      ensures out == Q.RefLegs(Contents(), ref)
    {
      var bucket := GroupAt(byRef, ref);
      GroupValues(byId, RefOf, ref);
      var keep := (c: Leg) => true;
      out := Collect(bucket, keep);
      assert (set c | c in bucket.Values && keep(c)) == set c | c in Contents() && c.txnRef == ref;
    }

    method ByBatch(l: Leg, batch: string) returns (out: seq<Leg>)
      requires Valid()
      ensures out == Q.ByBatch(Contents(), l, batch)
    {
      var bucket := GroupAt(byBatch, batch);
      GroupValues(byId, BatchOf, batch);
      var keep := (c: Leg) => c.id != l.id && c.Key() == l.Key();
      out := Collect(bucket, keep);
      BatchSet(bucket.Values, Contents(), l, batch, keep);
    }

    /** Legs past the TTL at `now`, or older than `olderThan` when that is not negative. */
    method Expired(now: Time, olderThan: int) returns (out: seq<Leg>)
      requires Valid()
      ensures out == Q.ExpiredBy(Contents(), if olderThan >= 0 then now - olderThan else now - ttl)
      ensures forall c :: c in out <==>
                c in Contents() && c.ingestedAt <= (if olderThan >= 0 then now - olderThan else now - ttl)
    {
      var cutoff := if olderThan >= 0 then now - olderThan else now - ttl;
      var keep := (c: Leg) => c.ingestedAt <= cutoff;
      out := Collect(byId, keep);
      assert (set c | c in byId.Values && keep(c)) == set c | c in Contents() && c.ingestedAt <= cutoff;
      Q.ListingFacts(set c | c in Contents() && c.ingestedAt <= cutoff);
    }
  }

  lemma SourceValues(m: Bucket, k: WindowKey, source: string)
    requires Keyed(m)
    ensures Keyed(GroupAt(WindowAt(GroupByWindow(m), k), source))
    ensures forall x :: x in GroupAt(WindowAt(GroupByWindow(m), k), source).Values <==>
            x in m.Values && x.Key() == k && x.source == source
  {
    WindowKeys(m, k);
    GroupValues(m, SourceIn(k), source);
  }

  lemma WindowSources(m: Bucket, k: WindowKey)
    ensures forall x :: x in m.Values && x.Key() == k ==> x.source in WindowAt(GroupByWindow(m), k)
  {
    WindowKeys(m, k);
    forall x | x in m.Values && x.Key() == k ensures x.source in GroupBy(m, SourceIn(k)) {
      var id :| id in m && m[id] == x;
      assert SourceIn(k)(m[id]).Some?;
    }
  }

  lemma SameSourceSet(bucket: set<Leg>, open: set<Leg>, l: Leg, keep: Leg -> bool)
    requires forall x :: x in bucket <==> x in open && x.Key() == l.Key() && x.source == l.source
    requires forall c :: keep(c) <==> c.id != l.id
    ensures (set c | c in bucket && keep(c)) == set c | c in open && c.Key() == l.Key() && c.source == l.source
            && c.id != l.id
  {
  }

  lemma BatchSet(bucket: set<Leg>, open: set<Leg>, l: Leg, batch: string, keep: Leg -> bool)
    requires forall x :: x in bucket <==> x in open && BatchOf(x) == Some(batch)
    requires forall c :: keep(c) <==> c.id != l.id && c.Key() == l.Key()
    ensures (set c | c in bucket && keep(c)) ==
            set c | c in open && batch != "" && c.Batch() == batch && c.id != l.id && c.Key() == l.Key()
  {
  }

  lemma AddedContents(m: Bucket, l: Leg)
    requires Keyed(m) && l.id !in m
    ensures m[l.id := l].Values == m.Values + {l}
    ensures forall c :: c in m.Values ==> c.id != l.id
  {
    var m' := m[l.id := l];
    assert l.id in m' && m'[l.id] == l;
    forall x | x in m.Values ensures x in m'.Values {
      var id :| id in m && m[id] == x;
      assert id in m' && m'[id] == x;
    }
  }

  lemma RemovedContents(m: Bucket, id: Id)
    requires Keyed(m)
    ensures (m - {id}).Values == set c | c in m.Values && c.id != id
  {
    forall x ensures x in (m - {id}).Values <==> x in m.Values && x.id != id {
      if x in m.Values && x.id != id {
        var j :| j in m && m[j] == x;
        assert j in m - {id};
      }
    }
  }

  /** The legs of one group are the legs of the whole that belong to it. */
  lemma GroupValues<K>(m: Bucket, f: Leg -> Option<K>, k: K)
    requires Keyed(m)
    ensures Keyed(GroupAt(GroupBy(m, f), k))
    ensures forall x :: x in GroupAt(GroupBy(m, f), k).Values <==> x in m.Values && f(x) == Some(k)
  {
    GroupKeys(m, f, k);
    forall x ensures x in BucketOf(m, f, k).Values <==> x in m.Values && f(x) == Some(k) {
      if x in m.Values && f(x) == Some(k) {
        var id :| id in m && m[id] == x;
        assert id in BucketOf(m, f, k);
      }
    }
  }

  lemma KeyedDistinct(m: Bucket)
    requires Keyed(m)
    ensures Q.DistinctIds(m.Values)
  {
  }

  lemma SortedListing(q: seq<Leg>, s: set<Leg>, m: Bucket)
    requires Keyed(m) && s <= m.Values
    requires NoDup(q) && forall x :: x in q <==> x in s
    ensures Sort(q, Q.Before) == Q.Listing(s)
  {
    KeyedDistinct(m);
    assert SetOf(q) == s;
    Q.BeforeWeakOrder();
    Q.BeforeTotal(q);
    CanonUnique(q, s, Q.Before);
  }
}
