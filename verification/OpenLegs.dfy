/** What the open-leg queries mean: filters of a set of open legs in one canonical order. */
module OpenLegs {
  import opened Sequences
  import opened Ordering
  import opened Domain

  /** The canonical order: value date, then txn_ref, then id. */
  predicate Before(a: Leg, b: Leg) {
    if a.valueDate != b.valueDate then a.valueDate < b.valueDate
    else if a.txnRef != b.txnRef then StrLess(a.txnRef, b.txnRef)
    else StrLess(a.id, b.id)
  }

  /** Earlier value date first, then the txn_ref that comes first as text, then the id. */
  lemma BeforeIff(a: Leg, b: Leg)
    ensures Before(a, b) <==>
            || a.valueDate < b.valueDate
            || (a.valueDate == b.valueDate && TextBefore(a.txnRef, b.txnRef))
            || (a.valueDate == b.valueDate && a.txnRef == b.txnRef && TextBefore(a.id, b.id))
  {
    hide StrLess, TextBefore;
    StrLessIff(a.txnRef, b.txnRef);
    StrLessIff(a.id, b.id);
    StrTrichotomy(a.txnRef, b.txnRef);
  }

  lemma BeforeWeakOrder()
    ensures WeakOrder(Before)
  {
    StrWeakOrder();
    forall x: Leg, y: Leg ensures x.txnRef == y.txnRef || StrLess(x.txnRef, y.txnRef) || StrLess(y.txnRef, x.txnRef) {
      StrTrichotomy(x.txnRef, y.txnRef);
    }
    forall x: Leg, y: Leg | Before(x, y) ensures !Before(y, x) {}
    forall x: Leg, y: Leg, z: Leg | !Before(y, x) && !Before(z, y) ensures !Before(z, x) {
      StrTrichotomy(x.txnRef, y.txnRef);
      StrTrichotomy(y.txnRef, z.txnRef);
    }
  }

  ghost predicate DistinctIds(legs: set<Leg>) {
    forall a, b :: a in legs && b in legs && a.id == b.id ==> a == b
  }

  lemma BeforeTotal(q: seq<Leg>)
    requires DistinctIds(SetOf(q))
    ensures TotalOn(q, Before)
  {
    forall x, y | x in q && y in q && x != y ensures Before(x, y) || Before(y, x) {
      assert x in SetOf(q) && y in SetOf(q);
      StrTrichotomy(x.txnRef, y.txnRef);
      StrTrichotomy(x.id, y.id);
    }
  }

  ghost function Listing(legs: set<Leg>): seq<Leg> {
    Canon(legs, Before)
  }

  /** A listing holds each leg once, in canonical order. */
  lemma ListingFacts(legs: set<Leg>)
    ensures forall x :: x in Listing(legs) <==> x in legs
    ensures NoDup(Listing(legs)) && |Listing(legs)| == |legs|
    ensures Sorted(Listing(legs), Before)
  {
    CanonMembers(legs, Before);
    BeforeWeakOrder();
    SortSorted(Enumerate(legs), Before);
  }

  /** Other sources, same window. */
  ghost function Candidates(open: set<Leg>, l: Leg): seq<Leg> {
    Listing(set c | c in open && c.Key() == l.Key() && c.source != l.source)
  }

  /** Other sources, same window, same reference. */
  ghost function CandidatesByRef(open: set<Leg>, l: Leg): seq<Leg> {
    Listing(set c | c in open && c.txnRef == l.txnRef && c.source != l.source && c.Key() == l.Key())
  }

  ghost function SameSourceInWindow(open: set<Leg>, l: Leg): seq<Leg> {
    Listing(set c | c in open && c.Key() == l.Key() && c.source == l.source && c.id != l.id)
  }

  /** Same reference, any window. */
  ghost function ByRef(open: set<Leg>, l: Leg): seq<Leg> {
    Listing(set c | c in open && c.txnRef == l.txnRef && c.id != l.id)
  }

  ghost function RefLegs(open: set<Leg>, ref: string): seq<Leg> {
    Listing(set c | c in open && c.txnRef == ref)
  }

  /** Same window, same non-empty batch reference. */
  ghost function ByBatch(open: set<Leg>, l: Leg, batch: string): seq<Leg> {
    Listing(set c | c in open && batch != "" && c.Batch() == batch && c.id != l.id && c.Key() == l.Key())
  }

  /** Legs ingested at or before `cutoff`. */
  ghost function ExpiredBy(open: set<Leg>, cutoff: int): seq<Leg> {
    Listing(set c | c in open && c.ingestedAt <= cutoff)
  }
}
