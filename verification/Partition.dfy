/**
 Partition independence: leg streams with disjoint window keys and disjoint txn_refs can be
 interleaved in any order; the result is the union of running each stream alone.
 */
module Partition {
  import opened Sequences
  import opened Ordering
  import opened Domain
  import opened Identity
  import opened Persistence
  import opened Reconciliation
  import opened EventSourcing
  import opened Lifecycle
  import opened Transitions
  import opened Runs
  import M = Matching
  import Q = OpenLegs
  import F = MatchingFacts

  /** The window keys and txn_refs a stream may use. */
  datatype Realm = Realm(keys: set<WindowKey>, refs: set<string>)

  ghost predicate Disjoint(a: Realm, b: Realm) { a.keys !! b.keys && a.refs !! b.refs }

  ghost predicate Inside(l: Leg, r: Realm) { l.Key() in r.keys && l.txnRef in r.refs }

  /** Every stored leg belongs to the realm and carries its content-derived id. */
  ghost predicate Confined(p: Proj, r: Realm) {
    forall id :: id in p.legs ==> Inside(p.legs[id], r) && CleanText(p.legs[id]) && IdOf(p.legs[id]) == id
  }

  ghost function Union(a: Proj, b: Proj): Proj {
    Proj(a.legs + b.legs,
         map ref | ref in a.byRef.Keys + b.byRef.Keys :: RefIds(a, ref) + RefIds(b, ref),
         a.matches + b.matches,
         a.breaks + b.breaks)
  }

  ghost predicate Separate(a: Proj, b: Proj) {
    && a.legs.Keys !! b.legs.Keys && a.matches.Keys !! b.matches.Keys && a.breaks.Keys !! b.breaks.Keys
    && (forall ref :: RefIds(a, ref) == [] || RefIds(b, ref) == [])
  }

  /** Two states that live side by side. */
  ghost predicate Neighbours(a: Proj, ra: Realm, b: Proj, rb: Realm) {
    && Disjoint(ra, rb) && Confined(a, ra) && Confined(b, rb) && Inv(a) && Inv(b) && Inv(Union(a, b)) && Separate(a, b)
  }

  // ---------------------------------------------------------------- nothing from the neighbour is seen

  lemma NoForeignRef(b: Proj, rb: Realm, ref: string)
    requires RefsListed(b) && Confined(b, rb) && ref !in rb.refs
    ensures RefIds(b, ref) == []
  {
    hide IdOf, CleanText;
    var ids := RefIds(b, ref);
    var first := if ids != [] then ids[0] else "";
    forall i | 0 <= i < |ids| ensures ids[i] in b.legs && b.legs[ids[i]].txnRef == ref && Inside(b.legs[ids[i]], rb) {
      assert ref in b.byRef && ids[i] in b.byRef[ref];
    }
  }

  lemma UnionRefIds(a: Proj, b: Proj, ref: string)
    ensures RefIds(Union(a, b), ref) == RefIds(a, ref) + RefIds(b, ref)
  {
  }

  lemma {:induction false} LookupUnion(legs: map<Id, Leg>, more: map<Id, Leg>, ids: seq<Id>)
    requires legs.Keys !! more.Keys && forall id :: id in ids ==> id in legs
    ensures Lookup(legs + more, ids) == Lookup(legs, ids)
  {
    if ids != [] {
      var last := ids[|ids| - 1];
      LookupUnion(legs, more, ids[..|ids| - 1]);
      assert last in ids && last !in more.Keys;
    }
  }

  lemma RelatedUnion(a: Proj, b: Proj, ref: string)
    requires RefsListed(a) && a.legs.Keys !! b.legs.Keys && RefIds(b, ref) == []
    ensures Related(Union(a, b), ref) == Related(a, ref)
  {
    UnionRefIds(a, b, ref);
    assert RefIds(a, ref) + [] == RefIds(a, ref);
    LookupUnion(a.legs, b.legs, RefIds(a, ref));
  }

  lemma KnownUnion(a: Proj, b: Proj, ref: string, source: string)
    requires RefsListed(a) && a.legs.Keys !! b.legs.Keys && RefIds(b, ref) == []
    ensures KnownIn(Union(a, b))(ref, source) == KnownIn(a)(ref, source)
  {
    RelatedUnion(a, b, ref);
    var u := Union(a, b);
    assert Lookup(u.legs, if ref in u.byRef then u.byRef[ref] else []) == Related(u, ref);
    assert Lookup(a.legs, if ref in a.byRef then a.byRef[ref] else []) == Related(a, ref);
  }

  lemma OpenUnion(a: Proj, b: Proj)
    requires a.legs.Keys !! b.legs.Keys
    ensures OpenSet(Union(a, b)) == OpenSet(a) + OpenSet(b)
  {
    var u := Union(a, b);
    forall x | x in OpenSet(a) + OpenSet(b) ensures x in OpenSet(u) {
      if x in OpenSet(a) {
        var id :| id in a.legs && a.legs[id].status == Open && a.legs[id] == x;
        assert id !in b.legs.Keys;
        assert u.legs[id] == x;
      } else {
        var id :| id in b.legs && b.legs[id].status == Open && b.legs[id] == x;
        assert u.legs[id] == x;
      }
    }
    forall x | x in OpenSet(u) ensures x in OpenSet(a) + OpenSet(b) {
      var id :| id in u.legs && u.legs[id].status == Open && u.legs[id] == x;
      assert id in b.legs.Keys || id in a.legs.Keys;
    }
  }

  /** Open legs that share neither window nor txn_ref with `l`. */
  ghost predicate Foreign(l: Leg, others: set<Leg>) {
    forall c :: c in others ==> c.Key() != l.Key() && c.txnRef != l.txnRef
  }

  /** Listing commutes with filtering. */
  lemma FilterListing(s: set<Leg>, f: Leg -> bool)
    requires Q.DistinctIds(s)
    ensures Filter(Q.Listing(s), f) == Q.Listing(set x | x in s && f(x))
  {
    hide Canon, Sort;
    var t := set x | x in s && f(x);
    Q.ListingFacts(s);
    Q.ListingFacts(t);
    var a, b := Filter(Q.Listing(s), f), Q.Listing(t);
    FilterMembers(Q.Listing(s), f);
    FilterNoDup(Q.Listing(s), f);
    F.FilterSorted(Q.Listing(s), f);
    NoDupMultiset(a);
    NoDupMultiset(b);
    assert SetOf(a) == t && SetOf(b) == t;
    Q.BeforeTotal(a);
    SortedUnique(a, b, Q.Before);
  }

  lemma WindowQueries(l: Leg, open: set<Leg>, others: set<Leg>, batch: string)
    requires Foreign(l, others)
    ensures Q.CandidatesByRef(open + others, l) == Q.CandidatesByRef(open, l)
    ensures Q.Candidates(open + others, l) == Q.Candidates(open, l)
    ensures Q.SameSourceInWindow(open + others, l) == Q.SameSourceInWindow(open, l)
    ensures Q.ByRef(open + others, l) == Q.ByRef(open, l)
    ensures Q.ByBatch(open + others, l, batch) == Q.ByBatch(open, l, batch)
  {
    hide Q.Listing;
    var u := open + others;
    assert (set c | c in u && c.txnRef == l.txnRef && c.source != l.source && c.Key() == l.Key()) ==
           set c | c in open && c.txnRef == l.txnRef && c.source != l.source && c.Key() == l.Key();
    assert (set c | c in u && c.Key() == l.Key() && c.source != l.source) == set c | c in open && c.Key() == l.Key()
           && c.source != l.source;
    assert (set c | c in u && c.Key() == l.Key() && c.source == l.source && c.id != l.id) ==
           set c | c in open && c.Key() == l.Key() && c.source == l.source && c.id != l.id;
    assert (set c | c in u && c.txnRef == l.txnRef && c.id != l.id) == set c | c in open && c.txnRef == l.txnRef
           && c.id != l.id;
    assert (set c | c in u && batch != "" && c.Batch() == batch && c.id != l.id && c.Key() == l.Key()) ==
           set c | c in open && batch != "" && c.Batch() == batch && c.id != l.id && c.Key() == l.Key();
  }

  lemma SettlementRefs(l: Leg, open: set<Leg>, others: set<Leg>)
    requires Foreign(l, others) && Q.DistinctIds(open + others)
    ensures Filter(Q.RefLegs(open + others, l.Batch()), M.Opposite(l)) ==
            Filter(Q.RefLegs(open, l.Batch()), M.Opposite(l))
  {
    hide Q.Listing, Filter;
    var u := open + others;
    var s, t := set c | c in u && c.txnRef == l.Batch(), set c | c in open && c.txnRef == l.Batch();
    FilterListing(s, M.Opposite(l));
    FilterListing(t, M.Opposite(l));
    assert (set x | x in s && M.Opposite(l)(x)) == set x | x in t && M.Opposite(l)(x);
  }

  lemma Tier3Union(rules: Rules, l: Leg, open: set<Leg>, others: set<Leg>)
    requires Foreign(l, others) && Q.DistinctIds(open + others)
    ensures M.Tier3(rules, l, open + others) == M.Tier3(rules, l, open)
  {
    hide Q.Candidates, Q.ByBatch, Q.SameSourceInWindow, Q.RefLegs, M.SumToOne, M.CompleteMany, M.SourcesOf, Filter,
         Sort;
    WindowQueries(l, open, others, l.SettlementKey());
    WindowQueries(l, open, others, l.Batch());
    SettlementRefs(l, open, others);
  }

  lemma AmountDateUnion(rules: Rules, l: Leg, scan: seq<Leg>, same: seq<Leg>, known: M.Known, known': M.Known)
    requires forall c :: c in scan ==> known(c.txnRef, l.source) == known'(c.txnRef, l.source)
    requires forall c :: c in scan ==> known(l.txnRef, c.source) == known'(l.txnRef, c.source)
    ensures M.Tier2AmountDate(rules, l, scan, same, known) == M.Tier2AmountDate(rules, l, scan, same, known')
  {
    hide Filter, M.Pair;
    var hits := Filter(scan, M.SameAmount(l));
    FilterMembers(scan, M.SameAmount(l));
    if |hits| == 1 { assert hits[0] in hits && hits[0] in scan; }
  }

  /** Matching never crosses a window. */
  lemma FindUnion(rules: Rules, l: Leg, open: set<Leg>, others: set<Leg>, known: M.Known, known': M.Known)
    requires Foreign(l, others) && Q.DistinctIds(open + others)
    requires forall c :: c in open ==> known(c.txnRef, l.source) == known'(c.txnRef, l.source)
    requires forall source :: known(l.txnRef, source) == known'(l.txnRef, source)
    ensures M.Find(rules, l, open + others, known) == M.Find(rules, l, open, known')
  {
    hide Q.CandidatesByRef, Q.Candidates, Q.SameSourceInWindow, M.Tier1, M.Tier2Ref, M.Tier2AmountDate, M.Tier3, Filter;
    WindowQueries(l, open, others, "");
    Tier3Union(rules, l, open, others);
    F.ScanMembers(rules, l, open);
    AmountDateUnion(rules, l, M.Scan(rules, l, open), Q.SameSourceInWindow(open, l), known, known');
  }

  // ---------------------------------------------------------------- decisions are local

  /** A leg of realm `ra` meets states of both realms. */
  ghost predicate Visits(l: Leg, a: Proj, ra: Realm, b: Proj, rb: Realm) {
    Neighbours(a, ra, b, rb) && Inside(l, ra) && Arriving(l) && CleanText(l) && IdOf(l) == l.id
  }

  lemma ForeignOpen(l: Leg, ra: Realm, b: Proj, rb: Realm)
    requires Disjoint(ra, rb) && Inside(l, ra) && Confined(b, rb)
    ensures Foreign(l, OpenSet(b))
  {
    hide IdOf, CleanText;
  }

  lemma OpenInside(a: Proj, ra: Realm)
    requires Confined(a, ra)
    ensures forall c :: c in OpenSet(a) ==> Inside(c, ra)
  {
    hide IdOf, CleanText;
  }

  lemma NotStoredNextDoor(l: Leg, a: Proj, ra: Realm, b: Proj, rb: Realm)
    requires Visits(l, a, ra, b, rb)
    ensures l.id !in b.legs && RefIds(b, l.txnRef) == []
  {
    hide IdOf, CleanText, Linked, Union, OneOpenPerRef;
    if l.id in b.legs {
      assert Inside(b.legs[l.id], rb);
      IdInjective(l, b.legs[l.id]);
    }
    RefsOf(b);
    NoForeignRef(b, rb, l.txnRef);
  }

  lemma RefsOf(p: Proj)
    requires Inv(p)
    ensures RefsListed(p)
  {
  }

  lemma FindLocal(rules: Rules, l: Leg, a: Proj, ra: Realm, b: Proj, rb: Realm)
    requires Visits(l, a, ra, b, rb)
    ensures M.Find(rules, l, OpenSet(Union(a, b)), KnownIn(Union(a, b))) == M.Find(rules, l, OpenSet(a), KnownIn(a))
  {
    hide M.Find, KnownIn, Confined, OpenSet, Linked, OneOpenPerRef, Union, Arriving, CleanText, IdOf;
    var u := Union(a, b);
    RefsOf(a);
    RefsOf(u);
    OpenUnion(a, b);
    OpenMembers(u);
    ForeignOpen(l, ra, b, rb);
    OpenInside(a, ra);
    NotStoredNextDoor(l, a, ra, b, rb);
    RefsOf(b);
    forall c | c in OpenSet(a) ensures KnownIn(u)(c.txnRef, l.source) == KnownIn(a)(c.txnRef, l.source) {
      NoForeignRef(b, rb, c.txnRef);
      KnownUnion(a, b, c.txnRef, l.source);
    }
    forall source ensures KnownIn(u)(l.txnRef, source) ==
        KnownIn(a)(l.txnRef, source) { KnownUnion(a, b, l.txnRef, source); }
    FindUnion(rules, l, OpenSet(a), OpenSet(b), KnownIn(u), KnownIn(a));
  }

  lemma HealsLocal(rules: Rules, l: Leg, r: Leg, a: Proj, b: Proj)
    requires Inv(a) && a.breaks.Keys !! b.breaks.Keys && r.id in a.legs && a.legs[r.id] == r
    ensures Heals(rules, Union(a, b).breaks, l, r) == Heals(rules, a.breaks, l, r)
  {
    hide DeriveId;
    assert LegPlaced(a, r);
    if r.status == Broken { assert r.breakId in a.breaks.Keys && r.breakId !in b.breaks.Keys; }
  }

  /** What becomes of a leg depends on its own realm only. */
  lemma DecideLocal(rules: Rules, l: Leg, a: Proj, ra: Realm, b: Proj, rb: Realm)
    requires Visits(l, a, ra, b, rb)
    ensures Decide(rules, Union(a, b), l) == Decide(rules, a, l)
    ensures Related(Union(a, b), l.txnRef) == Related(a, l.txnRef)
  {
    hide M.Find, KnownIn, Confined, OpenSet, Linked, OneOpenPerRef, Arriving, CleanText, IdOf, Lookup, First, Q.ByRef,
         Union, Heals;
    var u := Union(a, b);
    RefsOf(a);
    NotStoredNextDoor(l, a, ra, b, rb);
    RelatedUnion(a, b, l.txnRef);
    FindLocal(rules, l, a, ra, b, rb);
    OpenUnion(a, b);
    ForeignOpen(l, ra, b, rb);
    WindowQueries(l, OpenSet(a), OpenSet(b), "");
    var related := Related(a, l.txnRef);
    RelatedMembers(a, l.txnRef);
    forall r | r in related ensures HealedBy(rules, u.breaks, l)(r) == HealedBy(rules, a.breaks, l)(r) {
      HealsLocal(rules, l, r, a, b);
    }
    FirstAgrees(related, HealedBy(rules, u.breaks, l), HealedBy(rules, a.breaks, l));
  }

  // ---------------------------------------------------------------- effects are local

  lemma AdmitRefMap(a: Proj, b: Proj, l: Leg)
    requires l.id !in a.legs && l.id !in b.legs && RefIds(b, l.txnRef) == []
    ensures Admit(Union(a, b), l).byRef == Union(Admit(a, l), b).byRef
  {
    var x, y := Admit(Union(a, b), l).byRef, Union(Admit(a, l), b).byRef;
    UnionRefIds(a, b, l.txnRef);
    assert x.Keys == y.Keys;
    forall ref | ref in x ensures x[ref] == y[ref] {
      if ref == l.txnRef {
        assert RefIds(a, ref) + [] + [l.id] == RefIds(a, ref) + [l.id] + [];
      } else {
        assert RefIds(Admit(a, l), ref) == RefIds(a, ref);
      }
    }
  }

  lemma AdmitLegMap(a: Proj, b: Proj, l: Leg)
    requires l.id !in b.legs
    ensures Admit(Union(a, b), l).legs == Union(Admit(a, l), b).legs
  {
  }

  lemma AdmitKeepsRest(p: Proj, l: Leg)
    ensures Admit(p, l).matches == p.matches && Admit(p, l).breaks == p.breaks
  {
  }

  lemma AdmitUnion(a: Proj, b: Proj, l: Leg)
    requires l.id !in a.legs && l.id !in b.legs && RefIds(b, l.txnRef) == []
    ensures Admit(Union(a, b), l) == Union(Admit(a, l), b)
  {
    hide Admit;
    var x, y := Admit(Union(a, b), l), Union(Admit(a, l), b);
    assert x.byRef == y.byRef by { AdmitRefMap(a, b, l); }
    AdmitLegMap(a, b, l);
    AdmitKeepsRest(a, l);
    AdmitKeepsRest(Union(a, b), l);
  }

  lemma SameRefMap(a: Proj, a': Proj, b: Proj)
    requires a.byRef == a'.byRef
    ensures Union(a, b).byRef == Union(a', b).byRef
  {
    assert forall ref :: RefIds(a, ref) == RefIds(a', ref);
  }

  lemma PutUnion<K, V>(m: map<K, V>, n: map<K, V>, k: K, v: V)
    requires k !in n
    ensures (m + n)[k := v] == m[k := v] + n
  {
  }

  lemma MatchedUnion(a: map<Id, Leg>, b: map<Id, Leg>, p: Proj, m: Match)
    requires p.legs == a + b && a.Keys !! b.Keys && forall id :: id in m.legIds ==> id !in b
    ensures MarkMatched(p, m).legs == MarkMatched(p.(legs := a), m).legs + b
  {
    var x, y := MarkMatched(p, m).legs, MarkMatched(p.(legs := a), m).legs + b;
    assert MarkMatched(p.(legs := a), m).legs.Keys == a.Keys;
    assert x.Keys == y.Keys;
    forall id | id in x ensures x[id] == y[id] { assert id in b.Keys || id in a.Keys; }
  }

  lemma MatchUnionLegs(a: Proj, b: Proj, m: Match)
    requires a.legs.Keys !! b.legs.Keys && forall id :: id in m.legIds ==> id !in b.legs
    ensures MarkMatched(Union(a, b), m).legs == Union(MarkMatched(a, m), b).legs
  {
    MatchedUnion(a.legs, b.legs, Union(a, b), m);
    assert MarkMatched(Union(a, b).(legs := a.legs), m).legs == MarkMatched(a, m).legs;
  }

  lemma MarkMatchedRest(p: Proj, m: Match)
    ensures var q := MarkMatched(p, m); q.byRef == p.byRef && q.breaks == p.breaks && q.matches == p.matches[m.id := m]
  {
  }

  lemma MatchUnionRest(a: Proj, b: Proj, m: Match)
    requires m.id !in b.matches
    ensures var x, y := MarkMatched(Union(a, b), m), Union(MarkMatched(a, m), b);
            x.byRef == y.byRef && x.matches == y.matches && x.breaks == y.breaks
  {
    hide MarkMatched;
    MarkMatchedRest(a, m);
    MarkMatchedRest(Union(a, b), m);
    PutUnion(a.matches, b.matches, m.id, m);
    SameRefMap(a, MarkMatched(a, m), b);
  }

  lemma MatchUnion(a: Proj, b: Proj, m: Match)
    requires a.legs.Keys !! b.legs.Keys && m.id !in b.matches && forall id :: id in m.legIds ==> id !in b.legs
    ensures MarkMatched(Union(a, b), m) == Union(MarkMatched(a, m), b)
  {
    hide MarkMatched, Union;
    MatchUnionLegs(a, b, m);
    MatchUnionRest(a, b, m);
  }

  lemma BrokenUnion(a: map<Id, Leg>, b: map<Id, Leg>, p: Proj, k: Break)
    requires p.legs == a + b && a.Keys !! b.Keys && forall id :: id in k.legIds ==> id !in b
    ensures MarkBroken(p, k).legs == MarkBroken(p.(legs := a), k).legs + b
  {
    var x, y := MarkBroken(p, k).legs, MarkBroken(p.(legs := a), k).legs + b;
    assert MarkBroken(p.(legs := a), k).legs.Keys == a.Keys;
    assert x.Keys == y.Keys;
    forall id | id in x ensures x[id] == y[id] { assert id in b.Keys || id in a.Keys; }
  }

  lemma BreakUnionLegs(a: Proj, b: Proj, k: Break)
    requires a.legs.Keys !! b.legs.Keys && forall id :: id in k.legIds ==> id !in b.legs
    ensures MarkBroken(Union(a, b), k).legs == Union(MarkBroken(a, k), b).legs
  {
    BrokenUnion(a.legs, b.legs, Union(a, b), k);
    assert MarkBroken(Union(a, b).(legs := a.legs), k).legs == MarkBroken(a, k).legs;
  }

  lemma MarkBrokenRest(p: Proj, k: Break)
    ensures var q := MarkBroken(p, k); q.byRef == p.byRef && q.matches == p.matches && q.breaks == p.breaks[k.id := k]
  {
  }

  lemma BreakUnionRest(a: Proj, b: Proj, k: Break)
    requires k.id !in b.breaks
    ensures var x, y := MarkBroken(Union(a, b), k), Union(MarkBroken(a, k), b);
            x.byRef == y.byRef && x.matches == y.matches && x.breaks == y.breaks
  {
    hide MarkBroken;
    MarkBrokenRest(a, k);
    MarkBrokenRest(Union(a, b), k);
    PutUnion(a.breaks, b.breaks, k.id, k);
    SameRefMap(a, MarkBroken(a, k), b);
  }

  lemma BreakUnion(a: Proj, b: Proj, k: Break)
    requires a.legs.Keys !! b.legs.Keys && k.id !in b.breaks && forall id :: id in k.legIds ==> id !in b.legs
    ensures MarkBroken(Union(a, b), k) == Union(MarkBroken(a, k), b)
  {
    hide MarkBroken, Union;
    BreakUnionLegs(a, b, k);
    BreakUnionRest(a, b, k);
  }

  lemma CloseUnion(a: Proj, b: Proj, id: Id, reason: string, actor: string, at: Time)
    requires a.breaks.Keys !! b.breaks.Keys && id in a.breaks
    ensures Close(Union(a, b), id, reason, actor, at) == Union(Close(a, id, reason, actor, at), b)
  {
    hide Resolved;
    assert id !in b.breaks.Keys;
    var x, y := Close(Union(a, b), id, reason, actor, at), Union(Close(a, id, reason, actor, at), b);
    assert x.breaks == y.breaks;
    assert x.byRef == y.byRef by { SameRefMap(a, Close(a, id, reason, actor, at), b); }
  }

  // ---------------------------------------------------------------- one leg beside its neighbour

  lemma BreakLocal(cfg: Config, l: Leg, partners: seq<Leg>, trigger: Trigger, a: Proj, ra: Realm, b: Proj, rb: Realm,
      now: Time)
    requires Visits(l, a, ra, b, rb) && l.id !in a.legs && |partners| <= 1
    requires AllStored(a, partners) && forall x :: x in partners ==> x.status == Open
    ensures var k := NewBreak(cfg, trigger, Related(a, l.txnRef), [l] + partners, now);
            MarkBroken(Admit(Union(a, b), l), k) == Union(MarkBroken(Admit(a, l), k), b) && k.id !in b.breaks
  {
    hide NewBreak, Related, DeriveId, MarkBroken, Confined, CleanText, IdOf, Linked, OneOpenPerRef, Arriving;
    var k := NewBreak(cfg, trigger, Related(a, l.txnRef), [l] + partners, now);
    var u := Union(a, b);
    NotStoredNextDoor(l, a, ra, b, rb);
    NewBreakFacts(cfg, trigger, Related(a, l.txnRef), [l] + partners, now);
    AdmitLinked(u, l);
    AdmitUnion(a, b, l);
    forall id | id in k.legIds ensures IsOpen(Admit(u, l), id) && id !in b.legs {
      if id != l.id {
        assert id == partners[0].id && partners[0] in partners;
        assert id in a.legs.Keys && id !in b.legs.Keys;
      }
    }
    FreshBreakId(Admit(u, l), k);
    AdmitKeysApart(a, b, l);
    BreakUnion(Admit(a, l), b, k);
  }

  lemma AdmitKeysApart(a: Proj, b: Proj, l: Leg)
    requires a.legs.Keys !! b.legs.Keys && l.id !in b.legs
    ensures Admit(a, l).legs.Keys !! b.legs.Keys
  {
    assert Admit(a, l).legs.Keys == a.legs.Keys + {l.id};
    assert l.id !in b.legs.Keys;
  }

  lemma JoinLocal(l: Leg, m: Match, a: Proj, ra: Realm, b: Proj, rb: Realm)
    requires Visits(l, a, ra, b, rb) && l.id !in a.legs && GoodMatch(a, l, m)
    ensures MarkMatched(Admit(Union(a, b), l), m) == Union(MarkMatched(Admit(a, l), m), b) && m.id !in b.matches
  {
    hide DeriveId, MarkMatched, Confined, CleanText, IdOf, Linked, OneOpenPerRef, Arriving;
    var u := Union(a, b);
    NotStoredNextDoor(l, a, ra, b, rb);
    AdmitLinked(u, l);
    AdmitUnion(a, b, l);
    forall id | id in m.legIds ensures IsOpen(Admit(u, l), id) && id !in b.legs {
      if id != l.id {
        assert IsOpen(a, id);
        assert id in a.legs.Keys && id !in b.legs.Keys;
      }
    }
    FreshMatchId(Admit(u, l), m);
    AdmitKeysApart(a, b, l);
    MatchUnion(Admit(a, l), b, m);
  }

  lemma HealLocal(rules: Rules, l: Leg, r: Leg, a: Proj, ra: Realm, b: Proj, rb: Realm, now: Time)
    requires Visits(l, a, ra, b, rb) && l.id !in a.legs && r.id in a.legs && a.legs[r.id] == r
             && Heals(rules, a.breaks, l, r)
    ensures var m := LateMatch(rules, l, r, now);
            && m.id !in b.matches
            && Close(MarkMatched(Admit(Union(a, b), l), m), r.breakId, LATE_REASON, SYSTEM_ACTOR, now) ==
               Union(Close(MarkMatched(Admit(a, l), m), r.breakId, LATE_REASON, SYSTEM_ACTOR, now), b)
  {
    hide DeriveId, Confined, CleanText, IdOf, Linked, OneOpenPerRef, Arriving, LateMatch, Close;
    var u := Union(a, b);
    var m := LateMatch(rules, l, r, now);
    LateMatchFacts(rules, l, r, now);
    NotStoredNextDoor(l, a, ra, b, rb);
    AdmitLinked(u, l);
    AdmitUnion(a, b, l);
    assert r.id in a.legs.Keys && r.id !in b.legs.Keys;
    FreshMatchId(Admit(u, l), m);
    AdmitKeysApart(a, b, l);
    MatchUnion(Admit(a, l), b, m);
    CloseUnion(MarkMatched(Admit(a, l), m), b, r.breakId, LATE_REASON, SYSTEM_ACTOR, now);
  }

  /** A leg acts on its own realm and leaves the neighbour alone. */
  lemma SettleLocal(cfg: Config, l: Leg, a: Proj, ra: Realm, b: Proj, rb: Realm, now: Time)
    requires cfg.rules.Valid() && Visits(l, a, ra, b, rb) && l.id !in a.legs
    ensures var q := Settle(cfg, a, l, now, Decide(cfg.rules, a, l));
            && Settle(cfg, Union(a, b), l, now, Decide(cfg.rules, Union(a, b), l)) == Union(q, b)
            && Separate(q, b)
  {
    hide Decide, Related, NewBreak, MarkBroken, MarkMatched, Admit, Close, Confined, CleanText, IdOf, Linked,
         OneOpenPerRef, Arriving, Union, LateMatch, Heals, GoodMatch, Separate;
    DecideLocal(cfg.rules, l, a, ra, b, rb);
    AloneIsSelf(l);
    RefsOf(a);
    var related := Related(a, l.txnRef);
    NotStoredNextDoor(l, a, ra, b, rb);
    StillSeparate(cfg, l, a, ra, b, rb, now);
    match Decide(cfg.rules, a, l)
    case Reused => BreakLocal(cfg, l, [], DuplicateRef, a, ra, b, rb, now);
    case Join(m) =>
      JoinFacts(cfg.rules, a, l);
      Restamped(a, l, m, now);
      JoinLocal(l, m.(matchedAt := now), a, ra, b, rb);
    case Conflict(partners) =>
      ConflictFacts(cfg.rules, a, l);
      BreakLocal(cfg, l, partners, RefConflict, a, ra, b, rb, now);
    case Heal(r) =>
      HealFacts(cfg.rules, a, l);
      HealLocal(cfg.rules, l, r, a, ra, b, rb, now);
    case Orphan => BreakLocal(cfg, l, [], RefConflict, a, ra, b, rb, now);
    case Wait => AdmitUnion(a, b, l);
  }

  lemma Restamped(p: Proj, l: Leg, m: Match, now: Time)
    requires GoodMatch(p, l, m)
    ensures GoodMatch(p, l, m.(matchedAt := now))
  {
    hide DeriveId;
  }

  lemma SeparateAfter(a: Proj, q: Proj, b: Proj, l: Leg)
    requires Separate(a, b) && q.legs.Keys == a.legs.Keys + {l.id} && l.id !in b.legs
    requires forall id :: id in q.matches && id !in a.matches ==> id !in b.matches
    requires forall id :: id in q.breaks && id !in a.breaks ==> id !in b.breaks
    requires RefIds(b, l.txnRef) == [] && q.byRef == Admit(a, l).byRef && l.id !in a.legs
    ensures Separate(q, b)
  {
    assert l.id !in b.legs.Keys;
    forall id | id in q.matches.Keys ensures id !in b.matches.Keys { assert id in a.matches.Keys || id !in a.matches; }
    forall id | id in q.breaks.Keys ensures id !in b.breaks.Keys { assert id in a.breaks.Keys || id !in a.breaks; }
    forall ref ensures RefIds(q, ref) == [] || RefIds(b, ref) == [] {
      if ref != l.txnRef { assert RefIds(q, ref) == RefIds(a, ref); }
    }
  }

  /** What a decision adds: one leg, at most one match, at most one break. */
  lemma SettleShape(cfg: Config, p: Proj, l: Leg, now: Time, d: Decision)
    ensures var q := Settle(cfg, p, l, now, d);
            var related := Related(p, l.txnRef);
            && q.legs.Keys == p.legs.Keys + {l.id} && q.byRef == Admit(p, l).byRef
            && (forall id :: id in q.matches ==>
                  id in p.matches || (d.Join? && id == d.m.id)
                      || (d.Heal? && id == LateMatch(cfg.rules, l, d.r, now).id))
            && (forall id :: id in q.breaks ==>
                  || id in p.breaks
                  || (d.Reused? && id == NewBreak(cfg, DuplicateRef, related, [l], now).id)
                  || (d.Conflict? && id == NewBreak(cfg, RefConflict, related, [l] + d.partners, now).id)
                  || (d.Orphan? && id == NewBreak(cfg, RefConflict, related, [l], now).id))
  {
    hide Related, NewBreak, LateMatch;
  }

  lemma StillSeparate(cfg: Config, l: Leg, a: Proj, ra: Realm, b: Proj, rb: Realm, now: Time)
    requires cfg.rules.Valid() && Visits(l, a, ra, b, rb) && l.id !in a.legs
    ensures Separate(Settle(cfg, a, l, now, Decide(cfg.rules, a, l)), b)
  {
    hide Decide, Related, NewBreak, Confined, CleanText, IdOf, Linked, OneOpenPerRef, Arriving, Union, LateMatch,
         Heals, GoodMatch, Separate, Settle, Admit, MarkMatched, MarkBroken, Close;
    AloneIsSelf(l);
    RefsOf(a);
    NotStoredNextDoor(l, a, ra, b, rb);
    var d := Decide(cfg.rules, a, l);
    SettleShape(cfg, a, l, now, d);
    match d {
      case Reused => BreakLocal(cfg, l, [], DuplicateRef, a, ra, b, rb, now);
      case Join(m) =>
        JoinFacts(cfg.rules, a, l);
        Restamped(a, l, m, now);
        JoinLocal(l, m.(matchedAt := now), a, ra, b, rb);
      case Conflict(partners) =>
        ConflictFacts(cfg.rules, a, l);
        BreakLocal(cfg, l, partners, RefConflict, a, ra, b, rb, now);
      case Heal(r) =>
        HealFacts(cfg.rules, a, l);
        HealLocal(cfg.rules, l, r, a, ra, b, rb, now);
      case Orphan => BreakLocal(cfg, l, [], RefConflict, a, ra, b, rb, now);
      case Wait =>
    }
    SeparateAfter(a, Settle(cfg, a, l, now, d), b, l);
  }

  // ---------------------------------------------------------------- interleaved streams

  /** A step of the left or the right stream. */
  datatype Tagged = Tagged(left: bool, op: Op)

  function AllOps(ts: seq<Tagged>): seq<Op> {
    if ts == [] then [] else AllOps(ts[..|ts| - 1]) + [ts[|ts| - 1].op]
  }

  /** One stream of the interleaving, alone. */
  function SideOps(ts: seq<Tagged>, left: bool): seq<Op> {
    if ts == [] then []
    else SideOps(ts[..|ts| - 1], left) + if ts[|ts| - 1].left == left then [ts[|ts| - 1].op] else []
  }

  /** The id of a leg that belongs to the realm. */
  ghost predicate LegIdOf(id: Id, r: Realm) { exists l :: Inside(l, r) && CleanText(l) && IdOf(l) == id }

  /** The id of a break over legs of the realm. */
  ghost predicate BreakIdOf(id: Id, r: Realm) {
    exists ids :: ids != [] && (forall x :: x in ids ==> LegIdOf(x, r)) && id == DeriveId(BREAK_PREFIX, ids)
  }

  /** The step concerns the realm only: its legs, its breaks, or a note in the log. */
  ghost predicate Concerns(op: Op, r: Realm) {
    match op
    case Arrive(l, now) => Delivered(l) && now > 0 && Inside(l, r)
    case ExpireLeg(id, _, _) => LegIdOf(id, r)
    case ResolveBreak(id, _, _, _) => BreakIdOf(id, r)
    case CloseWindow(_, _, _) => true
    case AbandonReplay(_, _) => true
    case StartReplay(_, _, _, _) => false
  }

  ghost predicate GoodTags(ts: seq<Tagged>, ra: Realm, rb: Realm) {
    forall t :: t in ts ==> Concerns(t.op, if t.left then ra else rb)
  }

  lemma AdmitContent(p: Proj, l: Leg)
    ensures forall id :: id in Admit(p, l).legs ==>
              (id == l.id || id in p.legs) && Admit(p, l).legs[id].Unplaced() ==
                  (if id == l.id then l else p.legs[id]).Unplaced()
  {
  }

  lemma MatchContent(p: Proj, m: Match)
    ensures var q := MarkMatched(p, m).legs; forall id :: id in q ==>
            id in p.legs && q[id].Unplaced() == p.legs[id].Unplaced()
  {
  }

  lemma BreakContent(p: Proj, b: Break)
    ensures var q := MarkBroken(p, b).legs; forall id :: id in q ==>
            id in p.legs && q[id].Unplaced() == p.legs[id].Unplaced()
  {
  }

  lemma SettleContent(cfg: Config, p: Proj, l: Leg, now: Time, d: Decision)
    ensures var q := Settle(cfg, p, l, now, d);
            forall id :: id in q.legs ==>
              (id == l.id || id in p.legs) && q.legs[id].Unplaced() == (if id == l.id then l else p.legs[id]).Unplaced()
  {
    hide Related, NewBreak, LateMatch, MarkMatched, MarkBroken, Admit;
    AdmitContent(p, l);
    var related, q := Related(p, l.txnRef), Admit(p, l);
    match d
    case Reused => BreakContent(q, NewBreak(cfg, DuplicateRef, related, [l], now));
    case Join(m) => MatchContent(q, m.(matchedAt := now));
    case Conflict(partners) => BreakContent(q, NewBreak(cfg, RefConflict, related, [l] + partners, now));
    case Heal(r) => MatchContent(q, LateMatch(cfg.rules, l, r, now));
    case Orphan => BreakContent(q, NewBreak(cfg, RefConflict, related, [l], now));
    case Wait =>
  }

  lemma SameBusiness(x: Leg, y: Leg, r: Realm)
    requires x.Unplaced() == y.Unplaced() && Inside(y, r) && CleanText(y)
    ensures Inside(x, r) && CleanText(x) && IdOf(x) == IdOf(y)
  {
    var a, b := x.Unplaced(), y.Unplaced();
    assert a.source == x.source && b.source == y.source && a.txnRef == x.txnRef && b.txnRef == y.txnRef;
    assert a.amount == x.amount && b.amount == y.amount && a.currency == x.currency && b.currency == y.currency;
    assert a.valueDate == x.valueDate && b.valueDate == y.valueDate && a.direction == x.direction
           && b.direction == y.direction;
    assert a.counterparty == x.counterparty && b.counterparty == y.counterparty && a.attrs == x.attrs
           && b.attrs == y.attrs;
    IdOfContent(x, y);
  }

  lemma StillConfined(cfg: Config, p: Proj, r: Realm, l: Leg, now: Time)
    requires Confined(p, r) && Inside(l, r) && CleanText(l) && IdOf(l) == l.id
    ensures Confined(Settle(cfg, p, l, now, Decide(cfg.rules, p, l)), r)
  {
    hide Decide, Settle, IdOf, CleanText, Inside;
    var q := Settle(cfg, p, l, now, Decide(cfg.rules, p, l));
    SettleContent(cfg, p, l, now, Decide(cfg.rules, p, l));
    forall id | id in q.legs ensures Inside(q.legs[id], r) && CleanText(q.legs[id]) && IdOf(q.legs[id]) == id {
      SameBusiness(q.legs[id], if id == l.id then l else p.legs[id], r);
    }
  }

  lemma UnionSymmetric(a: Proj, b: Proj)
    requires Separate(a, b)
    ensures Union(a, b) == Union(b, a) && Separate(b, a)
  {
    var x, y := Union(a, b), Union(b, a);
    assert x.legs == y.legs && x.matches == y.matches && x.breaks == y.breaks;
    forall ref | ref in x.byRef ensures x.byRef[ref] == y.byRef[ref] {
      assert RefIds(a, ref) == [] || RefIds(b, ref) == [];
      assert RefIds(a, ref) + RefIds(b, ref) == RefIds(b, ref) + RefIds(a, ref);
    }
    assert x.byRef == y.byRef;
  }

  lemma StampedVisitor(l: Leg, now: Time, r: Realm)
    requires Delivered(l) && now > 0 && Inside(l, r)
    ensures var x := Stamp(l, now);
            x.id == l.id && Inside(x, r) && Arriving(x) && CleanText(x) && IdOf(x) == x.id
  {
    hide IdOf;
    IdOfContent(l, Stamp(l, now));
  }

  /** One arrival: the mixed state and the stream's own state move together. */
  lemma ArriveLocal(cfg: Config, s: State, sa: State, l: Leg, now: Time, ra: Realm, b: Proj, rb: Realm)
    requires cfg.rules.Valid() && Delivered(l) && now > 0 && Inside(l, ra)
    requires Neighbours(sa.p, ra, b, rb) && s.p == Union(sa.p, b)
    ensures var s', sa' := Ingest(cfg, s, l, now, false), Ingest(cfg, sa, l, now, false);
            && s'.p == Union(sa'.p, b) && Confined(sa'.p, ra) && Separate(sa'.p, b) && Inv(sa'.p) && Inv(s'.p)
  {
    hide Ingest, Decide, Settle, Confined, CleanText, IdOf, Linked, OneOpenPerRef, Arriving, Delivered, Separate,
         Inside, AppendEvents;
    var x := Stamp(l, now);
    StampedVisitor(l, now, ra);
    DeliveredArrives(l);
    NotStoredNextDoor(x, sa.p, ra, b, rb);
    IngestEffect(cfg, s, l, now, false);
    IngestEffect(cfg, sa, l, now, false);
    assert x.id in s.p.legs <==> x.id in sa.p.legs;
    if x.id !in sa.p.legs {
      SettleLocal(cfg, x, sa.p, ra, b, rb, now);
      StillConfined(cfg, sa.p, ra, x, now);
    }
  }

  lemma ForeignLegId(id: Id, ra: Realm, b: Proj, rb: Realm)
    requires LegIdOf(id, ra) && Disjoint(ra, rb) && Confined(b, rb)
    ensures id !in b.legs && NulFree(id)
  {
    hide IdOf, CleanText;
    var l :| Inside(l, ra) && CleanText(l) && IdOf(l) == id;
    IdNulFree(l);
    if id in b.legs {
      assert Inside(b.legs[id], rb);
      IdInjective(l, b.legs[id]);
    }
  }

  lemma ForeignBreakId(id: Id, ra: Realm, b: Proj, rb: Realm)
    requires BreakIdOf(id, ra) && Disjoint(ra, rb) && Confined(b, rb) && Linked(b)
    ensures id !in b.breaks
  {
    hide IdOf, CleanText, LegIdOf, Inside, DeriveId, RefsListed, MatchesLinked;
    var ids :| ids != [] && (forall x :: x in ids ==> LegIdOf(x, ra)) && id == DeriveId(BREAK_PREFIX, ids);
    if id in b.breaks {
      var k := b.breaks[id];
      assert BreakLinked(b, k);
      forall x | x in ids ensures NulFree(x) { ForeignLegId(x, ra, b, rb); }
      forall x | x in k.legIds ensures NulFree(x) {
        assert BreakMember(b, k, x);
        assert b.legs[x].id == x by { OwnLegIdOf(b, x); }
        assert LegPlaced(b, b.legs[x]);
      }
      DeriveIdInjective(BREAK_PREFIX, ids, k.legIds);
      assert ids[0] in ids && ids[0] in k.legIds;
      assert BreakMember(b, k, ids[0]);
      ForeignLegId(ids[0], ra, b, rb);
    }
  }

  lemma OwnLegIdOf(p: Proj, id: Id)
    requires Linked(p) && id in p.legs
    ensures p.legs[id].id == id
  {
  }

  /** Breaking a leg of one stream acts on that stream alone. */
  lemma BrokenApart(a: Proj, ra: Realm, b: Proj, rb: Realm, k: Break)
    requires Neighbours(a, ra, b, rb) && k.id !in b.breaks && forall id :: id in k.legIds ==> id in a.legs
    ensures var q := MarkBroken(a, k);
            MarkBroken(Union(a, b), k) == Union(q, b) && Separate(q, b) && Confined(q, ra)
  {
    hide Inside, IdOf, CleanText, Inv, Union, MarkBroken;
    var q := MarkBroken(a, k);
    forall id | id in k.legIds ensures id !in b.legs { assert id in a.legs.Keys && id !in b.legs.Keys; }
    BreakUnion(a, b, k);
    BreakContent(a, k);
    forall id | id in q.legs ensures Inside(q.legs[id], ra) && CleanText(q.legs[id]) && IdOf(q.legs[id]) == id {
      SameBusiness(q.legs[id], a.legs[id], ra);
    }
    BrokenShape(a, k);
    SeparateBroken(a, q, b, k);
  }

  lemma BrokenShape(p: Proj, k: Break)
    ensures var q := MarkBroken(p, k);
            && q.legs.Keys == p.legs.Keys && q.byRef == p.byRef && q.matches == p.matches
            && q.breaks.Keys == p.breaks.Keys + {k.id}
  {
  }

  lemma SeparateBroken(a: Proj, q: Proj, b: Proj, k: Break)
    requires Separate(a, b) && k.id !in b.breaks
    requires q.legs.Keys == a.legs.Keys && q.byRef == a.byRef && q.matches == a.matches
    requires q.breaks.Keys == a.breaks.Keys + {k.id}
    ensures Separate(q, b)
  {
    assert k.id !in b.breaks.Keys;
    assert forall ref :: RefIds(q, ref) == RefIds(a, ref);
  }

  lemma ExpireLocal(cfg: Config, s: State, sa: State, id: Id, now: Time, forced: bool, ra: Realm, b: Proj, rb: Realm)
    requires Neighbours(sa.p, ra, b, rb) && s.p == Union(sa.p, b) && IsOpen(sa.p, id) && id !in b.legs
    ensures IsOpen(s.p, id) && s.p.legs[id] == sa.p.legs[id]
    ensures var s', sa' := Expire(cfg, s, s.p.legs[id], now, forced), Expire(cfg, sa, sa.p.legs[id], now, forced);
            && s'.p == Union(sa'.p, b) && Confined(sa'.p, ra) && Separate(sa'.p, b) && Inv(sa'.p) && Inv(s'.p)
  {
    hide NewBreak, Related, DeriveId, MarkBroken, CleanText, IdOf, Linked, OneOpenPerRef, ApplyProj, ExpirePlan,
         Separate, AppendEvents;
    var l := sa.p.legs[id];
    RefsOf(sa.p);
    RefsOf(b);
    assert Inside(l, ra);
    NoForeignRef(b, rb, l.txnRef);
    SeparateKeys(sa.p, b);
    RelatedUnion(sa.p, b, l.txnRef);
    ExpireOwnId(sa.p, id);
    ExpireSettles(cfg, s.p, l, now, forced);
    ExpireSettles(cfg, sa.p, l, now, forced);
    ExpireInv(cfg, s.p, l, now, forced);
    ExpireInv(cfg, sa.p, l, now, forced);
    var k := NewBreak(cfg, WindowExpired, Related(sa.p, l.txnRef), [l], now);
    NewBreakFacts(cfg, WindowExpired, Related(sa.p, l.txnRef), [l], now);
    assert M.LegIds([l]) == [id];
    FreshBreakId(s.p, k);
    BrokenApart(sa.p, ra, b, rb, k);
  }

  lemma SeparateKeys(a: Proj, b: Proj)
    requires Separate(a, b)
    ensures a.legs.Keys !! b.legs.Keys && a.breaks.Keys !! b.breaks.Keys
  {
  }

  lemma ResolveLocal(s: State, sa: State, id: Id, reason: string, actor: string, now: Time, ra: Realm, b: Proj,
      rb: Realm)
    requires Neighbours(sa.p, ra, b, rb) && s.p == Union(sa.p, b) && id !in b.breaks
    ensures var s', sa' := Resolve(s, id, reason, actor, now), Resolve(sa, id, reason, actor, now);
            && s'.p == Union(sa'.p, b) && Confined(sa'.p, ra) && Separate(sa'.p, b) && Inv(sa'.p) && Inv(s'.p)
  {
    hide CleanText, IdOf, Linked, OneOpenPerRef, ApplyProj, AppendEvents, Inside, Separate, Close;
    SeparateKeys(sa.p, b);
    if Resolvable(sa.p, id, reason, actor) {
      var evs := [Entry(now, BreakResolvedBy(id, reason, actor, now, ""))];
      BreakUnderOwnId(s.p, id);
      BreakUnderOwnId(sa.p, id);
      ResolveSettles(s.p, id, reason, actor, now, evs);
      ResolveSettles(sa.p, id, reason, actor, now, evs);
      CloseInv(s.p, id, reason, actor, now);
      CloseInv(sa.p, id, reason, actor, now);
      CloseUnion(sa.p, b, id, reason, actor, now);
      ClosedApart(sa.p, ra, b, id, reason, actor, now);
    }
  }

  lemma ClosedApart(a: Proj, ra: Realm, b: Proj, id: Id, reason: string, actor: string, at: Time)
    requires Confined(a, ra) && Separate(a, b)
    ensures Confined(Close(a, id, reason, actor, at), ra) && Separate(Close(a, id, reason, actor, at), b)
  {
    hide CleanText, IdOf, Inside;
    var q := Close(a, id, reason, actor, at);
    assert q.breaks.Keys == a.breaks.Keys;
    assert forall ref :: RefIds(q, ref) == RefIds(a, ref);
  }

  /** One step of a stream: the mixed state and the stream's own state move together. */
  lemma StepLocal(cfg: Config, s: State, sa: State, op: Op, ra: Realm, b: Proj, rb: Realm)
    requires cfg.rules.Valid() && Concerns(op, ra) && Neighbours(sa.p, ra, b, rb) && s.p == Union(sa.p, b)
    ensures var s', sa' := Step(cfg, s, op), Step(cfg, sa, op);
            && s'.p == Union(sa'.p, b) && Confined(sa'.p, ra) && Separate(sa'.p, b) && Inv(sa'.p) && Inv(s'.p)
  {
    hide Ingest, Expire, Resolve, Confined, Inv, Delivered, Separate, Inside, Union, AppendEvents, ApplyProj, LegIdOf,
         BreakIdOf;
    match op
    case Arrive(l, now) => ArriveLocal(cfg, s, sa, l, now, ra, b, rb);
    case ExpireLeg(id, now, forced) =>
      ForeignLegId(id, ra, b, rb);
      UnionLeg(sa.p, b, id);
      if IsOpen(sa.p, id) { ExpireLocal(cfg, s, sa, id, now, forced, ra, b, rb); }
    case ResolveBreak(id, reason, actor, now) =>
      LinksOf(b);
      ForeignBreakId(id, ra, b, rb);
      ResolveLocal(s, sa, id, reason, actor, now, ra, b, rb);
    case CloseWindow(n, olderThan, now) =>
      NoteSettles(s.p, [Entry(now, WindowClosed(n, olderThan))]);
      NoteSettles(sa.p, [Entry(now, WindowClosed(n, olderThan))]);
    case AbandonReplay(from, now) =>
      NoteSettles(s.p, [Entry(now, ReplayStarted(if from < 1 then 1 else from, |s.log|))]);
      NoteSettles(sa.p, [Entry(now, ReplayStarted(if from < 1 then 1 else from, |sa.log|))]);
  }

  lemma UnionLeg(a: Proj, b: Proj, id: Id)
    requires id !in b.legs
    ensures IsOpen(Union(a, b), id) <==> IsOpen(a, id)
  {
  }

  lemma LinksOf(p: Proj)
    requires Inv(p)
    ensures Linked(p)
  {
  }

  lemma LastStep(cfg: Config, ops: seq<Op>, op: Op)
    ensures Run(cfg, INIT, ops + [op]) == Step(cfg, Run(cfg, INIT, ops), op)
  {
    hide Step;
    assert (ops + [op])[..|ops|] == ops;
  }

  lemma NoStep(cfg: Config, ops: seq<Op>)
    ensures Run(cfg, INIT, ops + []) == Run(cfg, INIT, ops)
  {
    assert ops + [] == ops;
  }

  /** Interleaving is union, at every point of the interleaving. */
  lemma {:induction false} StreamsStayApart(cfg: Config, ts: seq<Tagged>, ra: Realm, rb: Realm)
    requires cfg.rules.Valid() && Disjoint(ra, rb) && GoodTags(ts, ra, rb)
    ensures var a, b := Run(cfg, INIT, SideOps(ts, true)).p, Run(cfg, INIT, SideOps(ts, false)).p;
            Run(cfg, INIT, AllOps(ts)).p == Union(a, b) && Neighbours(a, ra, b, rb)
  {
    hide Step, Run, Confined, Separate, Inv, Union, Concerns, Disjoint;
    if ts == [] {
      StreamsStart(cfg, ra, rb);
    } else {
      var n := |ts| - 1;
      var init, t := ts[..n], ts[n];
      assert t in ts && GoodTags(init, ra, rb);
      StreamsStayApart(cfg, init, ra, rb);
      var s := Run(cfg, INIT, AllOps(init));
      var sa, sb := Run(cfg, INIT, SideOps(init, true)), Run(cfg, INIT, SideOps(init, false));
      LastStep(cfg, AllOps(init), t.op);
      NoStep(cfg, SideOps(init, !t.left));
      LastStep(cfg, SideOps(init, t.left), t.op);
      if t.left {
        StepLocal(cfg, s, sa, t.op, ra, sb.p, rb);
      } else {
        UnionSymmetric(sa.p, sb.p);
        Swapped(ra, rb);
        StepLocal(cfg, s, sb, t.op, rb, sa.p, ra);
        UnionSymmetric(Step(cfg, sb, t.op).p, sa.p);
      }
    }
  }

  lemma Swapped(ra: Realm, rb: Realm)
    requires Disjoint(ra, rb)
    ensures Disjoint(rb, ra)
  {
  }

  lemma StreamsStart(cfg: Config, ra: Realm, rb: Realm)
    requires Disjoint(ra, rb)
    ensures Run(cfg, INIT, []).p == EMPTY == Union(EMPTY, EMPTY) && Neighbours(EMPTY, ra, EMPTY, rb)
  {
    EmptyInv();
    assert Union(EMPTY, EMPTY).byRef == map[];
    assert Union(EMPTY, EMPTY) == EMPTY;
  }

  /** Any interleaving of two disjoint streams ends in the union of running each alone; the open sets add up too. */
  lemma PartitionIndependence(cfg: Config, ts: seq<Tagged>, ra: Realm, rb: Realm)
    requires cfg.rules.Valid() && Disjoint(ra, rb) && GoodTags(ts, ra, rb)
    ensures var p := Run(cfg, INIT, AllOps(ts)).p;
            var a, b := Run(cfg, INIT, SideOps(ts, true)).p, Run(cfg, INIT, SideOps(ts, false)).p;
            && p.legs == a.legs + b.legs && a.legs.Keys !! b.legs.Keys
            && p.matches == a.matches + b.matches && a.matches.Keys !! b.matches.Keys
            && p.breaks == a.breaks + b.breaks && a.breaks.Keys !! b.breaks.Keys
            && OpenSet(p) == OpenSet(a) + OpenSet(b)
  {
    hide Run, Confined, Inv, Concerns, OpenSet;
    StreamsStayApart(cfg, ts, ra, rb);
    OpenUnion(Run(cfg, INIT, SideOps(ts, true)).p, Run(cfg, INIT, SideOps(ts, false)).p);
  }
}
