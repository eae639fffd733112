/**
 What a caller of the engine can bring about, and why it is a run: every history of calls, each
 possibly cut short by a failed apply, a cancellation or a crash, is a run of atomic steps.
 */
module Calls {
  import opened Domain
  import opened Identity
  import opened Persistence
  import opened Reconciliation
  import opened Lifecycle
  import opened Transitions
  import opened Runs
  import opened ExactlyOnce
  import M = Matching
  import Q = OpenLegs
  import F = MatchingFacts

  /**
   A call and how far it got; one that changed nothing does not appear. An abandoned replay logged
   its start but the projections could not be cleared.
   */
  datatype Call =
    | Batch(legs: seq<Leg>, clock: nat -> Time, upTo: nat)
    | Expiry(cutoff: int, now: Time, olderThan: int, forced: bool, upTo: nat, logged: bool)
    | Resolution(id: Id, reason: string, actor: string, now: Time)
    | Replaying(from: nat, now: Time, clock: nat -> Time, upTo: nat)
    | Abandoned(from: nat, now: Time)

  /** The open legs that came in at or before the cutoff, in canonical order. */
  ghost function Due(p: Proj, cutoff: int): seq<Leg> { Q.ExpiredBy(OpenSet(p), cutoff) }

  function UpTo<T>(q: seq<T>, n: nat): seq<T> { if n < |q| then q[..n] else q }

  ghost function Effect(cfg: Config, s: State, c: Call): State {
    match c
    case Batch(legs, clock, upTo) => Deliver(cfg, s, UpTo(legs, upTo), clock)
    case Expiry(cutoff, now, olderThan, forced, upTo, logged) =>
      var due := UpTo(Due(s.p, cutoff), upTo);
      var t := ExpireAll(cfg, s, due, now, forced);
      if logged then ApplyTo(t, CloseNote(|due|, olderThan, now)) else t
    case Resolution(id, reason, actor, now) => Resolve(s, id, reason, actor, now)
    case Replaying(from, now, clock, upTo) => PartialReplay(cfg, s, from, now, clock, upTo)
    case Abandoned(from, now) => ApplyTo(s, ReplayNote(if from < 1 then 1 else from, |s.log|, now))
  }

  ghost function Arrivals(legs: seq<Leg>, clock: nat -> Time): seq<Op> {
    seq(|legs|, i requires 0 <= i < |legs| => Arrive(legs[i], clock(i)))
  }

  ghost function Expiries(due: seq<Leg>, now: Time, forced: bool): seq<Op> {
    seq(|due|, i requires 0 <= i < |due| => ExpireLeg(due[i].id, now, forced))
  }

  /** The atomic steps of a call. */
  ghost function Steps(s: State, c: Call): seq<Op> {
    match c
    case Batch(legs, clock, upTo) => Arrivals(UpTo(legs, upTo), clock)
    case Expiry(cutoff, now, olderThan, forced, upTo, logged) =>
      var due := UpTo(Due(s.p, cutoff), upTo);
      Expiries(due, now, forced) + if logged then [CloseWindow(|due|, olderThan, now)] else []
    case Resolution(id, reason, actor, now) => [ResolveBreak(id, reason, actor, now)]
    case Replaying(from, now, clock, upTo) => [StartReplay(from, now, clock, upTo)]
    case Abandoned(from, now) => [AbandonReplay(from, now)]
  }

  /** Legs as `Ingest` prepares them, and clocks that are past the zero time. */
  ghost predicate GoodCall(c: Call) {
    && (c.Batch? ==> Ticks(c.clock) && forall l :: l in c.legs ==> Delivered(l))
    && (c.Replaying? ==> Ticks(c.clock))
  }

  ghost predicate GoodCalls(calls: seq<Call>) { forall c :: c in calls ==> GoodCall(c) }

  /** The state after a history of calls, from the empty store. */
  ghost function After(cfg: Config, calls: seq<Call>): State {
    if calls == [] then INIT else Effect(cfg, After(cfg, calls[..|calls| - 1]), calls[|calls| - 1])
  }

  ghost function History(cfg: Config, calls: seq<Call>): seq<Op> {
    if calls == [] then []
    else
      var init := calls[..|calls| - 1];
      History(cfg, init) + Steps(After(cfg, init), calls[|calls| - 1])
  }

  // ---------------------------------------------------------------- each call

  lemma {:induction false} RunConcat(cfg: Config, s: State, a: seq<Op>, b: seq<Op>)
    ensures Run(cfg, s, a + b) == Run(cfg, Run(cfg, s, a), b)
  {
    hide Step;
    if b == [] {
      assert a + b == a;
    } else {
      var n := |b| - 1;
      assert (a + b)[..|a + b| - 1] == a + b[..n];
      RunConcat(cfg, s, a, b[..n]);
    }
  }

  lemma {:induction false} DeliverIsRun(cfg: Config, s: State, legs: seq<Leg>, clock: nat -> Time)
    ensures Deliver(cfg, s, legs, clock) == Run(cfg, s, Arrivals(legs, clock))
  {
    hide Ingest;
    if legs != [] {
      var n := |legs| - 1;
      DeliverIsRun(cfg, s, legs[..n], clock);
      assert Arrivals(legs, clock)[..n] == Arrivals(legs[..n], clock);
    }
  }

  /** The legs due for expiry are open and have distinct ids. */
  lemma DueLegs(p: Proj, cutoff: int)
    requires Coherent(p)
    ensures var due := Due(p, cutoff);
            && (forall x :: x in due ==> x in OpenSet(p))
            && forall i, j :: 0 <= i < j < |due| ==> due[i].id != due[j].id
  {
    hide Q.Listing;
    OpenSetDistinct(p);
    var due := Due(p, cutoff);
    Q.ListingFacts(set c | c in OpenSet(p) && c.ingestedAt <= cutoff);
    F.IdsNoDup(due, OpenSet(p));
    assert forall i :: 0 <= i < |due| ==> M.LegIds(due)[i] == due[i].id;
  }

  /** Expiring one leg leaves every other leg as it was. */
  lemma ExpireKeepsOthers(cfg: Config, s: State, l: Leg, now: Time, forced: bool)
    requires l.id in s.p.legs && s.p.legs[l.id] == l
    ensures var q := Expire(cfg, s, l, now, forced).p;
            forall id :: id in s.p.legs && id != l.id ==> id in q.legs && q.legs[id] == s.p.legs[id]
  {
    hide NewBreak, Related, ApplyProj, ExpirePlan;
    ExpireSettles(cfg, s.p, l, now, forced);
    NewBreakFacts(cfg, WindowExpired, Related(s.p, l.txnRef), [l], now);
    assert M.LegIds([l]) == [l.id];
  }

  /** The legs are stored as they are, open, and have distinct ids. */
  ghost predicate Waiting(p: Proj, due: seq<Leg>) {
    && (forall x :: x in due ==> IsOpen(p, x.id) && p.legs[x.id] == x)
    && forall i, j :: 0 <= i < j < |due| ==> due[i].id != due[j].id
  }

  lemma WaitingInit(p: Proj, due: seq<Leg>)
    requires Waiting(p, due) && due != []
    ensures var n := |due| - 1;
            Waiting(p, due[..n]) && IsOpen(p, due[n].id) && p.legs[due[n].id] == due[n]
    ensures forall x :: x in due[..|due| - 1] ==> x.id != due[|due| - 1].id
  {
    assert due[|due| - 1] in due;
  }

  /** Legs that are not due stay as they are. */
  lemma {:induction false} ExpireAllRest(cfg: Config, s: State, due: seq<Leg>, now: Time, forced: bool)
    requires Waiting(s.p, due)
    ensures var t := ExpireAll(cfg, s, due, now, forced);
            forall id :: id in s.p.legs && (forall x :: x in due ==> x.id != id) ==>
              id in t.p.legs && t.p.legs[id] == s.p.legs[id]
  {
    hide Expire, Waiting;
    if due != [] {
      var n := |due| - 1;
      WaitingInit(s.p, due);
      assert due[n] in due && forall x :: x in due[..n] ==> x in due;
      ExpireAllRest(cfg, s, due[..n], now, forced);
      ExpireKeepsOthers(cfg, ExpireAll(cfg, s, due[..n], now, forced), due[n], now, forced);
    }
  }

  lemma {:induction false} ExpireAllIsRun(cfg: Config, s: State, due: seq<Leg>, now: Time, forced: bool)
    requires Waiting(s.p, due)
    ensures ExpireAll(cfg, s, due, now, forced) == Run(cfg, s, Expiries(due, now, forced))
  {
    hide Expire, Waiting;
    if due != [] {
      var n := |due| - 1;
      WaitingInit(s.p, due);
      ExpireAllIsRun(cfg, s, due[..n], now, forced);
      assert Expiries(due, now, forced)[..n] == Expiries(due[..n], now, forced);
      ExpireAllRest(cfg, s, due[..n], now, forced);
    }
  }

  lemma DueWaiting(p: Proj, cutoff: int, upTo: nat)
    requires Inv(p)
    ensures Waiting(p, UpTo(Due(p, cutoff), upTo))
  {
    hide Due;
    DueLegs(p, cutoff);
    var all := Due(p, cutoff);
    var due := UpTo(all, upTo);
    assert forall i :: 0 <= i < |due| ==> due[i] == all[i];
    forall x | x in due ensures IsOpen(p, x.id) && p.legs[x.id] == x {
      var i :| 0 <= i < |due| && due[i] == x;
      assert all[i] in all;
    }
  }

  /** A call has the effect of its steps. */
  lemma CallIsRun(cfg: Config, s: State, c: Call)
    requires GoodState(s)
    ensures Effect(cfg, s, c) == Run(cfg, s, Steps(s, c))
  {
    hide Step, Due, UpTo, Waiting, Inv, Arrivals, Expiries, Deliver, ExpireAll;
    match c
    case Batch(legs, clock, upTo) => DeliverIsRun(cfg, s, UpTo(legs, upTo), clock);
    case Expiry(cutoff, now, olderThan, forced, upTo, logged) =>
      var due := UpTo(Due(s.p, cutoff), upTo);
      DueWaiting(s.p, cutoff, upTo);
      ExpireAllIsRun(cfg, s, due, now, forced);
      RunConcat(cfg, s, Expiries(due, now, forced), if logged then [CloseWindow(|due|, olderThan, now)] else []);
      if logged { SingleStep(cfg, Run(cfg, s, Expiries(due, now, forced)), CloseWindow(|due|, olderThan, now)); }
    case Resolution(id, reason, actor, now) => SingleStep(cfg, s, ResolveBreak(id, reason, actor, now));
    case Replaying(from, now, clock, upTo) => SingleStep(cfg, s, StartReplay(from, now, clock, upTo));
    case Abandoned(from, now) => SingleStep(cfg, s, AbandonReplay(from, now));
  }

  lemma SingleStep(cfg: Config, s: State, op: Op)
    ensures Run(cfg, s, [op]) == Step(cfg, s, op)
    ensures op.CloseWindow? ==> Step(cfg, s, op) == ApplyTo(s, CloseNote(op.expired, op.olderThan, op.now))
    ensures op.ResolveBreak? ==> Step(cfg, s, op) == Resolve(s, op.id, op.reason, op.actor, op.now)
    ensures op.StartReplay? ==> Step(cfg, s, op) == PartialReplay(cfg, s, op.from, op.now, op.clock, op.upTo)
    ensures op.AbandonReplay? ==>
              Step(cfg, s, op) == ApplyTo(s, ReplayNote(if op.from < 1 then 1 else op.from, |s.log|, op.now))
  {
    hide ApplyTo, Ingest, Resolve, PartialReplay, Expire;
    assert [op][..0] == [];
    assert Run(cfg, s, []) == s;
  }

  lemma StepsGood(s: State, c: Call)
    requires GoodCall(c)
    ensures GoodOps(Steps(s, c)) && GoodClocks(Steps(s, c))
  {
    hide Delivered, Due;
  }

  // ---------------------------------------------------------------- what an expiry does to whom

  /** The leg was pushed into an open break of its own by the expiry at `now`. */
  ghost predicate Expelled(q: Proj, l: Leg, now: Time) {
    && l.id in q.legs && q.legs[l.id].breakId in q.breaks
    && q.legs[l.id] == l.(status := Broken, breakId := q.legs[l.id].breakId)
    && var b := q.breaks[q.legs[l.id].breakId];
       b.legIds == [l.id] && b.trigger == WindowExpired && b.status == BreakOpen && b.openedAt == now
  }

  /** Open legs that came in at or before the cutoff are expelled, all or some of them; no other leg changes. */
  ghost predicate Aged(p: Proj, q: Proj, cutoff: int, now: Time, all: bool) {
    && q.legs.Keys == p.legs.Keys && q.matches == p.matches
    && (forall id :: id in p.legs ==>
          if p.legs[id].status == Open && p.legs[id].ingestedAt <= cutoff
          then Expelled(q, p.legs[id], now) || (!all && q.legs[id] == p.legs[id])
          else q.legs[id] == p.legs[id])
    && (forall b :: b in p.breaks ==> b in q.breaks && q.breaks[b] == p.breaks[b])
  }

  lemma ExpireOneTells(cfg: Config, s: State, l: Leg, now: Time, forced: bool)
    requires Inv(s.p) && IsOpen(s.p, l.id) && s.p.legs[l.id] == l
    ensures var q := Expire(cfg, s, l, now, forced).p;
            && Inv(q) && Expelled(q, l, now)
            && q.legs.Keys == s.p.legs.Keys && q.matches == s.p.matches
            && (forall id :: id in s.p.legs && id != l.id ==> q.legs[id] == s.p.legs[id])
            && (forall b :: b in s.p.breaks ==> b in q.breaks && q.breaks[b] == s.p.breaks[b])
  {
    hide NewBreak, Related, ApplyProj, ExpirePlan, RefsListed, LegsPlaced, MatchesLinked, BreaksLinked, DeriveId;
    ExpireInv(cfg, s.p, l, now, forced);
    ExpireSettles(cfg, s.p, l, now, forced);
    NewBreakFacts(cfg, WindowExpired, Related(s.p, l.txnRef), [l], now);
    assert M.LegIds([l]) == [l.id];
    FreshBreakId(s.p, NewBreak(cfg, WindowExpired, Related(s.p, l.txnRef), [l], now));
  }

  /** The given legs are expelled, and nothing else changes. */
  ghost predicate ExpelledAll(p: Proj, q: Proj, due: seq<Leg>, now: Time) {
    && q.legs.Keys == p.legs.Keys && q.matches == p.matches
    && (forall x :: x in due ==> Expelled(q, x, now))
    && (forall id :: id in p.legs && (forall x :: x in due ==> x.id != id) ==> q.legs[id] == p.legs[id])
    && (forall b :: b in p.breaks ==> b in q.breaks && q.breaks[b] == p.breaks[b])
  }

  lemma {:induction false} ExpireAllTells(cfg: Config, s: State, due: seq<Leg>, now: Time, forced: bool)
    requires Inv(s.p) && Waiting(s.p, due)
    ensures var t := ExpireAll(cfg, s, due, now, forced); Inv(t.p) && ExpelledAll(s.p, t.p, due, now)
  {
    hide Expire, Waiting, Linked, OneOpenPerRef;
    if due != [] {
      var n := |due| - 1;
      WaitingInit(s.p, due);
      assert due == due[..n] + [due[n]];
      ExpireAllTells(cfg, s, due[..n], now, forced);
      var t := ExpireAll(cfg, s, due[..n], now, forced);
      assert due[n].id in s.p.legs;
      assert t.p.legs[due[n].id] == due[n];
      ExpireOneTells(cfg, t, due[n], now, forced);
      var q := Expire(cfg, t, due[n], now, forced).p;
      forall x | x in due[..n] ensures Expelled(q, x, now) {
        assert Expelled(t.p, x, now);
        StaysExpelled(t.p, q, x, now);
      }
    }
  }

  lemma StaysExpelled(p: Proj, q: Proj, l: Leg, now: Time)
    requires Expelled(p, l, now) && l.id in q.legs && q.legs[l.id] == p.legs[l.id]
    requires forall b :: b in p.breaks ==> b in q.breaks && q.breaks[b] == p.breaks[b]
    ensures Expelled(q, l, now)
  {
  }

  lemma DueIff(p: Proj, cutoff: int)
    requires Inv(p)
    ensures forall x :: x in Due(p, cutoff) <==> IsOpen(p, x.id) && p.legs[x.id] == x && x.ingestedAt <= cutoff
  {
    hide Q.Listing, Linked;
    assert RefsListed(p) by { hide *; InvParts(p); }
    OpenMembers(p);
    Q.ListingFacts(set c | c in OpenSet(p) && c.ingestedAt <= cutoff);
  }

  lemma InvParts(p: Proj)
    requires Inv(p)
    ensures RefsListed(p) && forall id :: id in p.legs ==> p.legs[id].id == id
  {
  }

  /**
   An expiry that is through has pushed exactly the open legs of at least that age into breaks of their
   own; one that was interrupted has pushed some of them; younger legs and settled ones are untouched.
   */
  lemma ExpiryTells(cfg: Config, s: State, cutoff: int, now: Time, olderThan: int, forced: bool, upTo: nat,
                    logged: bool)
    requires Inv(s.p)
    ensures Aged(s.p, Effect(cfg, s, Expiry(cutoff, now, olderThan, forced, upTo, logged)).p, cutoff, now,
                 upTo >= |Due(s.p, cutoff)|)
  {
    hide Due, Waiting, Inv, ExpireAll, AppendEvents, Expelled, ApplyProj;
    var due := UpTo(Due(s.p, cutoff), upTo);
    var t := ExpireAll(cfg, s, due, now, forced);
    DueWaiting(s.p, cutoff, upTo);
    DueIff(s.p, cutoff);
    InvParts(s.p);
    ExpireAllTells(cfg, s, due, now, forced);
    if logged { NoteSettles(t.p, [Entry(now, WindowClosed(|due|, olderThan))]); }
    ExpelledIsAged(s.p, t.p, Due(s.p, cutoff), due, cutoff, now);
  }

  lemma ExpelledIsAged(p: Proj, q: Proj, all: seq<Leg>, due: seq<Leg>, cutoff: int, now: Time)
    requires Waiting(p, due) && ExpelledAll(p, q, due, now) && due <= all
    requires forall x :: x in all <==> IsOpen(p, x.id) && p.legs[x.id] == x && x.ingestedAt <= cutoff
    requires forall id :: id in p.legs ==> p.legs[id].id == id
    ensures Aged(p, q, cutoff, now, due == all)
  {
    hide Waiting, Expelled;
    forall id | id in p.legs
      ensures if p.legs[id].status == Open && p.legs[id].ingestedAt <= cutoff
              then Expelled(q, p.legs[id], now) || (due != all && q.legs[id] == p.legs[id])
              else q.legs[id] == p.legs[id]
    {
      var l := p.legs[id];
      if l in due { assert Expelled(q, l, now) && l in all; } else { OtherwiseKept(p, due, id); }
    }
  }

  /** The same as a method promises it: all of them if it went through. */
  lemma ExpiryPromised(cfg: Config, s: State, cutoff: int, now: Time, olderThan: int, forced: bool, upTo: nat,
                       logged: bool, through: bool)
    requires through ==> upTo >= |Due(s.p, cutoff)|
    ensures Inv(s.p) ==>
              Aged(s.p, Effect(cfg, s, Expiry(cutoff, now, olderThan, forced, upTo, logged)).p, cutoff, now, through)
  {
    hide Inv, Effect, Due, Aged;
    if Inv(s.p) {
      ExpiryTells(cfg, s, cutoff, now, olderThan, forced, upTo, logged);
      SomeAged(s.p, Effect(cfg, s, Expiry(cutoff, now, olderThan, forced, upTo, logged)).p, cutoff, now);
    }
  }

  lemma SomeAged(p: Proj, q: Proj, cutoff: int, now: Time)
    ensures Aged(p, q, cutoff, now, true) ==> Aged(p, q, cutoff, now, false)
  {
  }

  lemma OtherwiseKept(p: Proj, due: seq<Leg>, id: Id)
    requires Waiting(p, due) && id in p.legs && p.legs[id] !in due
    ensures forall x :: x in due ==> x.id != id
  {
  }

  // ---------------------------------------------------------------- histories

  /** Every history of calls is a run of delivered legs. */
  lemma {:induction false} HistoryIsRun(cfg: Config, calls: seq<Call>)
    requires cfg.rules.Valid() && GoodCalls(calls)
    ensures After(cfg, calls) == Run(cfg, INIT, History(cfg, calls))
    ensures GoodOps(History(cfg, calls)) && GoodClocks(History(cfg, calls))
  {
    hide Effect, Steps, GoodState, GoodCall, GoodOp, GoodClock;
    if calls != [] {
      var init, c := calls[..|calls| - 1], calls[|calls| - 1];
      assert c in calls;
      HistoryIsRun(cfg, init);
      RunGood(cfg, History(cfg, init));
      CallIsRun(cfg, After(cfg, init), c);
      StepsGood(After(cfg, init), c);
      RunConcat(cfg, INIT, History(cfg, init), Steps(After(cfg, init), c));
    }
  }

  /** Whatever callers do and wherever calls are cut short, the stored state is linked and coherent. */
  lemma EveryHistoryIsSafe(cfg: Config, calls: seq<Call>)
    requires cfg.rules.Valid() && GoodCalls(calls)
    ensures Inv(After(cfg, calls).p) && Numbered(After(cfg, calls).log)
  {
    hide After, Run, Inv, Numbered, History;
    HistoryIsRun(cfg, calls);
    RunGood(cfg, History(cfg, calls));
  }
}
