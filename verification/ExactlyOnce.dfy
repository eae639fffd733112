/** At-least-once delivery has exactly-once effect: redelivery after crashes changes no projection. */
module ExactlyOnce {
  import opened Domain
  import opened Identity
  import opened Persistence
  import opened Reconciliation
  import opened EventSourcing
  import opened Lifecycle
  import opened Transitions
  import opened Runs
  import opened NonInterference
  import opened ReplayTheorems

  /** Legs handed over one by one; `clock(i)` is read when leg `i` is handled. */
  ghost function Deliver(cfg: Config, s: State, legs: seq<Leg>, clock: nat -> Time): State {
    if legs == [] then s
    else Ingest(cfg, Deliver(cfg, s, legs[..|legs| - 1], clock), legs[|legs| - 1], clock(|legs| - 1), false)
  }

  /** One delivery of the batch that ends, by crash or by completion, after `upTo` legs were applied. */
  datatype Attempt = Attempt(upTo: nat, clock: nat -> Time)

  ghost function Attempts(cfg: Config, s: State, batch: seq<Leg>, tries: seq<Attempt>): State
    requires forall a :: a in tries ==> a.upTo <= |batch|
  {
    if tries == [] then s
    else
      var last := tries[|tries| - 1];
      assert last in tries;
      Deliver(cfg, Attempts(cfg, s, batch, tries[..|tries| - 1]), batch[..last.upTo], last.clock)
  }

  /** How far the attempts got. */
  function Reach(tries: seq<Attempt>): nat {
    if tries == [] then 0
    else
      var r := Reach(tries[..|tries| - 1]);
      var k := tries[|tries| - 1].upTo;
      if k > r then k else r
  }

  /** Attempt `k` is the first that applied leg `i`. */
  ghost predicate FirstToReach(tries: seq<Attempt>, i: nat, k: int) {
    0 <= k < |tries| && i < tries[k].upTo && forall j :: 0 <= j < k ==> tries[j].upTo <= i
  }

  /** The clock gives, for every leg the attempts reached, the reading of the attempt that first applied it. */
  ghost predicate ReadsFirst(tries: seq<Attempt>, clock: nat -> Time) {
    forall i: nat :: i < Reach(tries) ==> ReadAt(tries, clock, i)
  }

  ghost predicate ReadAt(tries: seq<Attempt>, clock: nat -> Time, i: nat) {
    exists k :: FirstToReach(tries, i, k) && clock(i) == tries[k].clock(i)
  }

  lemma NothingRead(clock: nat -> Time)
    ensures ReadsFirst([], clock)
  {
  }

  lemma FirstReadings(tries: seq<Attempt>, before: nat -> Time)
    requires tries != [] && ReadsFirst(tries[..|tries| - 1], before)
    ensures ReadsFirst(tries, Splice(Reach(tries[..|tries| - 1]), before, tries[|tries| - 1].clock))
  {
    var n := |tries| - 1;
    var r := Reach(tries[..n]);
    var clock := Splice(r, before, tries[n].clock);
    forall i: nat | i < Reach(tries) ensures ReadAt(tries, clock, i) {
      if i < r {
        assert ReadAt(tries[..n], before, i);
        var k :| FirstToReach(tries[..n], i, k) && before(i) == tries[..n][k].clock(i);
        assert FirstToReach(tries, i, k);
      } else {
        ReachBounds(tries[..n]);
        assert FirstToReach(tries, i, n) && clock(i) == tries[n].clock(i);
      }
    }
  }

  lemma {:induction false} ReachBounds(tries: seq<Attempt>)
    ensures forall j :: 0 <= j < |tries| ==> tries[j].upTo <= Reach(tries)
  {
    if tries != [] { ReachBounds(tries[..|tries| - 1]); }
  }

  /** What the log says apart from duplicate notes. */
  ghost function Business(log: seq<Event>): seq<Payload> {
    if log == [] then []
    else
      var rest := Business(log[..|log| - 1]);
      var e := log[|log| - 1].payload;
      if e.LegDuplicate? then rest else rest + [e]
  }

  ghost predicate AllArriving(legs: seq<Leg>) { forall l :: l in legs ==> Arriving(l) }

  ghost predicate AllIn(p: Proj, legs: seq<Leg>) { forall l :: l in legs ==> l.id in p.legs }

  // ---------------------------------------------------------------- the business log

  lemma {:induction false} BusinessAppend(log: seq<Event>, evs: seq<Event>)
    ensures Business(AppendEvents(log, evs)) == Business(log) + Business(evs)
  {
    if evs == [] {
      assert Business(log) + [] == Business(log);
    } else {
      var n := |evs| - 1;
      BusinessAppend(log, evs[..n]);
      var r := AppendEvents(log, evs);
      assert r[..|r| - 1] == AppendEvents(log, evs[..n]);
    }
  }

  // ---------------------------------------------------------------- delivery depends on projections only

  lemma IngestSame(cfg: Config, s: State, t: State, l: Leg, now: Time)
    requires s.p == t.p && Business(s.log) == Business(t.log)
    ensures Ingest(cfg, s, l, now, false).p == Ingest(cfg, t, l, now, false).p
    ensures Business(Ingest(cfg, s, l, now, false).log) == Business(Ingest(cfg, t, l, now, false).log)
  {
    hide Decide, Plan, ApplyProj, AppendEvents, Business;
    var x := Stamp(l, now);
    var evs := if x.id in s.p.legs then DuplicateNote(x, now).events
        else Plan(cfg, s.p, x, now, false, Decide(cfg.rules, s.p, x)).events;
    BusinessAppend(s.log, evs);
    BusinessAppend(t.log, evs);
  }

  /** A leg already stored changes no projection; only a duplicate note is logged. */
  lemma DuplicateChangesNothing(cfg: Config, s: State, l: Leg, now: Time)
    requires l.id in s.p.legs
    ensures Ingest(cfg, s, l, now, false).p == s.p
    ensures Business(Ingest(cfg, s, l, now, false).log) == Business(s.log)
    ensures Ingest(cfg, s, l, now, false).log == AppendEvents(s.log, [Entry(now, LegDuplicate(Stamp(l, now)))])
  {
    hide ApplyProj, AppendEvents;
    var e := Entry(now, LegDuplicate(Stamp(l, now)));
    NoteSettles(s.p, [e]);
    BusinessAppend(s.log, [e]);
    assert [e][..0] == [];
    assert Business([e]) == Business([]) == [];
  }

  lemma SettleStores(cfg: Config, p: Proj, l: Leg, now: Time, d: Decision)
    ensures Settle(cfg, p, l, now, d).legs.Keys == p.legs.Keys + {l.id}
  {
    hide Related, NewBreak, LateMatch;
  }

  lemma IngestStores(cfg: Config, s: State, l: Leg, now: Time)
    requires cfg.rules.Valid() && Inv(s.p) && Arriving(l)
    ensures var t := Ingest(cfg, s, l, now, false);
            Inv(t.p) && l.id in t.p.legs && forall id :: id in s.p.legs ==> id in t.p.legs
  {
    hide Ingest, Inv, Decide, Arriving, Settle, AppendEvents;
    IngestEffect(cfg, s, l, now, false);
    StampKeeps(l, now);
    SettleStores(cfg, s.p, Stamp(l, now), now, Decide(cfg.rules, s.p, Stamp(l, now)));
    assert forall id :: id in s.p.legs.Keys + {l.id} <==> id in s.p.legs || id == l.id;
  }

  /**
   With NUL in the text a different leg can have the id of a stored one; it is then taken for a
   redelivery and leaves no trace but a duplicate note.
   */
  lemma RegroupedIsSwallowed(cfg: Config, s: State, l: Leg, now: Time, later: Time)
    requires cfg.rules.Valid() && Inv(s.p) && Arriving(l) && l.id == IdOf(l) && l.attrs != map[]
    ensures var b := Regrouped(l);
            var t := Ingest(cfg, s, l, now, false);
            b.id == IdOf(b) && !SameContent(b, l) && Ingest(cfg, t, b, later, false).p == t.p
  {
    hide Ingest, Inv, Arriving, IdOf, Business, Regrouped;
    RegroupedSameId(l);
    RegroupedKeepsId(l);
    IngestStores(cfg, s, l, now);
    DuplicateChangesNothing(cfg, Ingest(cfg, s, l, now, false), Regrouped(l), later);
  }

  lemma RegroupedKeepsId(l: Leg)
    ensures Regrouped(l).id == l.id
  {
  }

  lemma {:induction false} DeliverStores(cfg: Config, s: State, legs: seq<Leg>, clock: nat -> Time)
    requires cfg.rules.Valid() && Inv(s.p) && AllArriving(legs)
    ensures var t := Deliver(cfg, s, legs, clock);
            Inv(t.p) && AllIn(t.p, legs) && forall id :: id in s.p.legs ==> id in t.p.legs
  {
    hide Ingest, Inv, Arriving;
    if legs != [] {
      var init, l := legs[..|legs| - 1], legs[|legs| - 1];
      assert l in legs && legs == init + [l];
      DeliverStores(cfg, s, init, clock);
      IngestStores(cfg, Deliver(cfg, s, init, clock), l, clock(|legs| - 1));
    }
  }

  /** Redelivering stored legs only logs duplicates. */
  lemma {:induction false} RedeliveryIsQuiet(cfg: Config, s: State, legs: seq<Leg>, clock: nat -> Time)
    requires AllIn(s.p, legs)
    ensures Deliver(cfg, s, legs, clock).p == s.p && Business(Deliver(cfg, s, legs, clock).log) == Business(s.log)
  {
    hide Ingest, Business;
    if legs != [] {
      var init, l := legs[..|legs| - 1], legs[|legs| - 1];
      assert l in legs && legs == init + [l];
      RedeliveryIsQuiet(cfg, s, init, clock);
      DuplicateChangesNothing(cfg, Deliver(cfg, s, init, clock), l, clock(|legs| - 1));
    }
  }

  lemma {:induction false} DeliverClock(cfg: Config, s: State, legs: seq<Leg>, a: nat -> Time, b: nat -> Time)
    requires forall i: nat :: i < |legs| ==> a(i) == b(i)
    ensures Deliver(cfg, s, legs, a) == Deliver(cfg, s, legs, b)
  {
    hide Ingest;
    if legs != [] { DeliverClock(cfg, s, legs[..|legs| - 1], a, b); }
  }

  ghost predicate SameEffect(a: State, b: State) {
    a.p == b.p && Business(a.log) == Business(b.log)
  }

  function Splice(r: nat, a: nat -> Time, b: nat -> Time): nat -> Time {
    (i: nat) => if i < r then a(i) else b(i)
  }

  /** One more attempt from a state that equals an uninterrupted delivery of the first `r` legs. */
  lemma {:induction false} AttemptExtends(cfg: Config, s: State, t: State, batch: seq<Leg>, r: nat, k: nat,
      a: nat -> Time, b: nat -> Time)
    requires cfg.rules.Valid() && Inv(s.p) && AllArriving(batch) && r <= |batch| && k <= |batch|
    requires SameEffect(t, Deliver(cfg, s, batch[..r], a))
    ensures SameEffect(Deliver(cfg, t, batch[..k], b),
            Deliver(cfg, s, batch[..if k > r then k else r], Splice(r, a, b)))
    decreases k
  {
    hide Ingest, Inv, Arriving, Business;
    DeliverStores(cfg, s, batch[..r], a);
    DeliverClock(cfg, s, batch[..r], a, Splice(r, a, b));
    if k <= r {
      forall l | l in batch[..k] ensures l.id in t.p.legs { assert l in batch[..r]; }
      RedeliveryIsQuiet(cfg, t, batch[..k], b);
    } else {
      AttemptExtends(cfg, s, t, batch, r, k - 1, a, b);
      assert batch[..k][..k - 1] == batch[..k - 1];
      IngestSame(cfg, Deliver(cfg, t, batch[..k - 1], b), Deliver(cfg, s, batch[..k - 1], Splice(r, a, b)),
          batch[k - 1], b(k - 1));
    }
  }

  /**
   Any number of crashed and repeated deliveries of a batch ends exactly where one uninterrupted
   delivery would, reading the clock at the first handling of each leg; only duplicate notes are extra.
   */
  lemma {:induction false} RedeliveryHasOneEffect(cfg: Config, s: State, batch: seq<Leg>, tries: seq<Attempt>)
      returns (clock: nat -> Time)
    requires cfg.rules.Valid() && Inv(s.p) && AllArriving(batch) && forall a :: a in tries ==> a.upTo <= |batch|
    ensures Reach(tries) <= |batch|
    ensures SameEffect(Attempts(cfg, s, batch, tries), Deliver(cfg, s, batch[..Reach(tries)], clock))
    ensures ReadsFirst(tries, clock)
  {
    hide Deliver, Inv, Arriving, Business, ReadsFirst, Splice;
    if tries == [] {
      clock := (i: nat) => 0;
      DeliverNothing(cfg, s, batch[..0], clock);
      NothingRead(clock);
    } else {
      var n := |tries| - 1;
      var last := tries[n];
      assert last in tries;
      var before := RedeliveryHasOneEffect(cfg, s, batch, tries[..n]);
      var r := Reach(tries[..n]);
      AttemptExtends(cfg, s, Attempts(cfg, s, batch, tries[..n]), batch, r, last.upTo, before, last.clock);
      clock := Splice(r, before, last.clock);
      FirstReadings(tries, before);
    }
  }

  lemma DeliverNothing(cfg: Config, s: State, none: seq<Leg>, clock: nat -> Time)
    requires none == []
    ensures Deliver(cfg, s, none, clock) == s
  {
  }

  ghost predicate AllStamped(legs: seq<Leg>) { forall l :: l in legs ==> l.ingestedAt != ZERO_TIME }

  /** For legs that carry their ingestion time, two deliveries differ only in match and break times. */
  lemma {:induction false} DeliverAgrees(cfg: Config, s: State, legs: seq<Leg>, a: nat -> Time, b: nat -> Time)
    requires cfg.rules.Valid() && Inv(s.p) && AllArriving(legs) && AllStamped(legs)
    ensures SeenState(TIME_BLIND, Deliver(cfg, s, legs, a)) == SeenState(TIME_BLIND, Deliver(cfg, s, legs, b))
  {
    hide Ingest, Inv, Arriving, SeenState;
    if legs != [] {
      var init, l := legs[..|legs| - 1], legs[|legs| - 1];
      assert l in legs && legs == init + [l];
      DeliverAgrees(cfg, s, init, a, b);
      DeliverStores(cfg, s, init, a);
      DeliverStores(cfg, s, init, b);
      IngestAgrees(TIME_BLIND, cfg, cfg, Deliver(cfg, s, init, a), Deliver(cfg, s, init, b), l, a(|legs| - 1),
          b(|legs| - 1), false);
    }
  }

  /** Exactly once against any reference delivery: same legs, matches and breaks up to match and break times. */
  lemma RedeliveryMatchesAnyDelivery(cfg: Config, s: State, batch: seq<Leg>, tries: seq<Attempt>,
      reference: nat -> Time)
    requires cfg.rules.Valid() && Inv(s.p) && AllArriving(batch) && AllStamped(batch)
    requires forall a :: a in tries ==> a.upTo <= |batch|
    requires Reach(tries) == |batch|
    ensures Seen(TIME_BLIND, Attempts(cfg, s, batch, tries).p) == Seen(TIME_BLIND, Deliver(cfg, s, batch, reference).p)
  {
    hide Deliver, Inv, Arriving, Seen, SeenLog, Business, Attempts, Reach;
    var clock := RedeliveryHasOneEffect(cfg, s, batch, tries);
    assert batch[..|batch|] == batch;
    DeliverAgrees(cfg, s, batch, clock, reference);
  }
}
