/** Every stored match balances under its own rule, in every reachable state. */
module Balance {
  import opened Sequences
  import opened Ordering
  import opened Domain
  import opened Identity
  import opened SubsetSum
  import opened Persistence
  import opened Reconciliation
  import opened EventSourcing
  import opened Lifecycle
  import opened Transitions
  import opened Runs
  import opened RunTheorems
  import M = Matching
  import F = MatchingFacts

  // ---------------------------------------------------------------- grounds survive marking

  function Marked(legs: seq<Leg>, matchId: Id): (r: seq<Leg>)
    ensures |r| == |legs| && forall i :: 0 <= i < |r| ==> r[i] == MatchedBy(legs[i], matchId)
  {
    seq(|legs|, i requires 0 <= i < |legs| => MatchedBy(legs[i], matchId))
  }

  function MarkGrounds(g: F.Grounds, matchId: Id): F.Grounds {
    match g
    case PairOf(l, c) => F.PairOf(MatchedBy(l, matchId), MatchedBy(c, matchId))
    case ManyOf(a, many) => F.ManyOf(MatchedBy(a, matchId), Marked(many, matchId))
  }

  lemma {:induction false} MarkedSum(legs: seq<Leg>, matchId: Id)
    ensures SumAmounts(Marked(legs, matchId)) == SumAmounts(legs)
  {
    if legs != [] {
      MarkedSum(legs[1..], matchId);
      assert Marked(legs, matchId)[1..] == Marked(legs[1..], matchId);
    }
  }

  lemma MarkedMany(rules: Rules, m: Match, a: Leg, many: seq<Leg>, matchId: Id, now: Time)
    requires F.ManyBalances(rules, m, a, many)
    ensures F.ManyBalances(rules, m.(matchedAt := now), MatchedBy(a, matchId), Marked(many, matchId))
  {
    hide DeriveId, Sort, SumAmounts;
    var many' := Marked(many, matchId);
    MarkedSum(many, matchId);
    assert M.LegIds(many') == M.LegIds(many);
    forall i | 0 <= i < |many'| ensures F.Part(rules, MatchedBy(a, matchId), many'[i])
        && many'[i].source == many'[0].source {
      assert F.Part(rules, a, many[i]);
    }
  }

  lemma MarkedBalances(rules: Rules, m: Match, g: F.Grounds, matchId: Id, now: Time)
    requires F.Balances(rules, m, g)
    ensures F.Balances(rules, m.(matchedAt := now), MarkGrounds(g, matchId))
  {
    hide DeriveId, Sort;
    if g.ManyOf? { MarkedMany(rules, m, g.anchor, g.many, matchId, now); }
  }

  // ---------------------------------------------------------------- grounds in the store

  ghost predicate StoredGrounds(p: Proj, g: F.Grounds) {
    forall x :: x in F.LegsOf(g) ==> x.id in p.legs && p.legs[x.id] == x
  }

  /** `a` was listed under the txn_ref before `b`. */
  ghost predicate ArrivedBefore(p: Proj, ref: string, a: Id, b: Id) {
    exists i, j :: 0 <= i < j < |RefIds(p, ref)| && RefIds(p, ref)[i] == a && RefIds(p, ref)[j] == b
  }

  /**
   Ref-based pairs name the later-arriving leg first, whose tolerance counts; amount-date pairs have
   different refs.
   */
  ghost predicate LaterFirst(p: Proj, m: Match, g: F.Grounds) {
    g.PairOf? ==>
      if m.rule == T2AmountDate then g.l.txnRef != g.c.txnRef else ArrivedBefore(p, g.l.txnRef, g.c.id, g.l.id)
  }

  ghost predicate MatchBalanced(rules: Rules, p: Proj, m: Match) {
    exists g :: F.Balances(rules, m, g) && StoredGrounds(p, g) && LaterFirst(p, m, g)
  }

  ghost predicate Balanced(rules: Rules, p: Proj) {
    forall id :: id in p.matches ==> MatchBalanced(rules, p, p.matches[id])
  }

  lemma GroundsKept(rules: Rules, p: Proj, q: Proj, m: Match, g: F.Grounds)
    requires MatchLinked(p, m) && Evolves(p, q) && F.Balances(rules, m, g) && StoredGrounds(p, g)
    ensures StoredGrounds(q, g)
  {
    hide F.Balances, DeriveId, F.LegsOf, BreakEvolves;
    F.GroundsIds(rules, m, g);
    forall x | x in F.LegsOf(g) ensures x.id in q.legs && q.legs[x.id] == x {
      assert x.id in m.legIds;
      assert LegEvolves(p.legs[x.id], q.legs[x.id]);
    }
  }

  lemma OrderKept(p: Proj, q: Proj, m: Match, g: F.Grounds)
    requires Evolves(p, q) && LaterFirst(p, m, g)
    ensures LaterFirst(q, m, g)
  {
    hide LegEvolves, BreakEvolves;
    if g.PairOf? && m.rule != T2AmountDate {
      var s, t := RefIds(p, g.l.txnRef), RefIds(q, g.l.txnRef);
      var i, j :| 0 <= i < j < |s| && s[i] == g.c.id && s[j] == g.l.id;
      assert s <= t;
      assert t[i] == s[i] && t[j] == s[j];
    }
  }

  lemma BalanceKept(rules: Rules, p: Proj, q: Proj, m: Match)
    requires Inv(p) && Evolves(p, q) && MatchBalanced(rules, p, m) && m.id in p.matches && p.matches[m.id] == m
    ensures MatchBalanced(rules, q, m)
  {
    hide F.Balances, MatchLinked, LegPlaced, BreakLinked, RefsListed, OneOpenPerRef, Evolves, StoredGrounds, LaterFirst;
    var g :| F.Balances(rules, m, g) && StoredGrounds(p, g) && LaterFirst(p, m, g);
    GroundsKept(rules, p, q, m, g);
    OrderKept(p, q, m, g);
  }

  lemma AllKept(rules: Rules, p: Proj, q: Proj, fresh_: set<Id>)
    requires Inv(p) && Evolves(p, q) && Balanced(rules, p)
    requires forall id :: id in q.matches ==> id in p.matches || id in fresh_
    requires forall id :: id in q.matches && id in fresh_ ==> MatchBalanced(rules, q, q.matches[id])
    ensures Balanced(rules, q)
  {
    hide MatchBalanced, LegEvolves, BreakEvolves, Linked;
    forall id | id in q.matches ensures MatchBalanced(rules, q, q.matches[id]) {
      if id in p.matches {
        MatchOwnId(p, id);
        BalanceKept(rules, p, q, p.matches[id]);
      }
    }
  }

  lemma MatchOwnId(p: Proj, id: Id)
    requires Inv(p) && id in p.matches
    ensures p.matches[id].id == id
  {
  }

  lemma MarkedStored(p: Proj, g: F.Grounds, m: Match)
    requires forall x :: x in F.LegsOf(g) ==>
             x.id in p.legs && MatchedBy(p.legs[x.id], m.id) == MatchedBy(x, m.id) && x.id in m.legIds
    ensures StoredGrounds(MarkMatched(p, m), MarkGrounds(g, m.id))
  {
    var q, g' := MarkMatched(p, m), MarkGrounds(g, m.id);
    forall y | y in F.LegsOf(g') ensures y.id in q.legs && q.legs[y.id] == y {
      var x := Unmark(g, m.id, y);
    }
  }

  lemma Unmark(g: F.Grounds, matchId: Id, y: Leg) returns (x: Leg)
    requires y in F.LegsOf(MarkGrounds(g, matchId))
    ensures x in F.LegsOf(g) && y == MatchedBy(x, matchId)
  {
    match g
    case PairOf(l, c) => x := if y == MatchedBy(l, matchId) then l else c;
    case ManyOf(a, many) =>
      if y == MatchedBy(a, matchId) {
        x := a;
      } else {
        var i :| 0 <= i < |many| && Marked(many, matchId)[i] == y;
        x := many[i];
      }
  }

  lemma PartnerArrivedBefore(p: Proj, l: Leg, c: Leg)
    requires RefsListed(p) && l.id !in p.legs && c.id in p.legs && p.legs[c.id] == c && c.txnRef == l.txnRef
    ensures ArrivedBefore(Admit(p, l), l.txnRef, c.id, l.id)
  {
    var ids := RefIds(p, l.txnRef);
    assert c.id in RefIds(p, p.legs[c.id].txnRef);
    var i :| 0 <= i < |ids| && ids[i] == c.id;
    var s := RefIds(Admit(p, l), l.txnRef);
    assert s == ids + [l.id];
    assert s[i] == c.id && s[|ids|] == l.id;
  }

  lemma GroundsInStore(p: Proj, l: Leg, m: Match, g: F.Grounds)
    requires RefsListed(p) && l.id !in p.legs && Arriving(l) && F.LegsOf(g) <= OpenSet(p) + {l}
    requires forall x :: x in F.LegsOf(g) ==> x.id in m.legIds
    ensures StoredGrounds(MarkMatched(Admit(p, l), m), MarkGrounds(g, m.id))
  {
    hide OpenSet, MarkMatched, F.LegsOf, MarkGrounds, StoredGrounds;
    OpenMembers(p);
    var q := Admit(p, l);
    forall x | x in F.LegsOf(g) ensures x.id in q.legs && MatchedBy(q.legs[x.id], m.id) == MatchedBy(x, m.id)
        && x.id in m.legIds {
      assert x == l || x in OpenSet(p);
    }
    MarkedStored(q, g, m);
  }

  lemma GroundsBalance(rules: Rules, p: Proj, l: Leg, found: Match, g: F.Grounds, now: Time)
    requires RefsListed(p) && l.id !in p.legs && Arriving(l) && F.Balances(rules, found, g)
    requires F.LegsOf(g) <= OpenSet(p) + {l} && (g.PairOf? ==> g.l == l)
    requires g.PairOf? && found.rule == T2AmountDate ==> g.l.txnRef != g.c.txnRef
    ensures var m := found.(matchedAt := now);
            MatchBalanced(rules, MarkMatched(Admit(p, l), m), m)
  {
    hide F.Balances, F.LegsOf, DeriveId, MarkMatched, OpenSet, Arriving, RefsListed, Admit, StoredGrounds;
    var m := found.(matchedAt := now);
    F.GroundsIds(rules, found, g);
    GroundsInStore(p, l, m, g);
    MarkedBalances(rules, found, g, m.id, now);
    JoinOrder(rules, p, l, found, g);
    var q, g' := Admit(p, l), MarkGrounds(g, m.id);
    SameRefs(q, m);
    if g.PairOf? && m.rule != T2AmountDate { SameArrivals(q, MarkMatched(q, m), l.txnRef, g.c.id, l.id); }
    assert LaterFirst(MarkMatched(q, m), m, g');
  }

  /** An amount-date match pairs different refs: with equal refs the exact tier would have fired. */
  lemma AmountDateRefsDiffer(rules: Rules, l: Leg, open: set<Leg>, known: M.Known, g: F.Grounds)
    requires rules.Valid() && F.Arrives(l, open) && M.Find(rules, l, open, known).Some?
    requires F.Balances(rules, M.Find(rules, l, open, known).value, g) && F.LegsOf(g) <= open + {l}
    requires g.PairOf? ==> g.l == l
    ensures g.PairOf? && M.Find(rules, l, open, known).value.rule == T2AmountDate ==> g.l.txnRef != g.c.txnRef
  {
    hide M.Find, DeriveId, Sort;
    F.FindRefinesTiers(rules, l, open, known);
    if g.PairOf? && M.Find(rules, l, open, known).value.rule == T2AmountDate {
      assert g.c in F.LegsOf(g) && F.PairBalances(rules, M.Find(rules, l, open, known).value, l, g.c);
      assert F.Fires(rules, l, open, known, T2AmountDate);
      assert !F.ExactPartner(rules, l, g.c, open);
    }
  }

  lemma JoinBalanced(rules: Rules, p: Proj, l: Leg, now: Time)
    requires rules.Valid() && Inv(p) && l.id !in p.legs && Arriving(l) && Decide(rules, p, l).Join?
    ensures var m := Decide(rules, p, l).m.(matchedAt := now);
            MatchBalanced(rules, MarkMatched(Admit(p, l), m), m)
  {
    hide Decide, M.Find, F.Balances, F.LegsOf, DeriveId, LegsPlaced, MatchesLinked, BreaksLinked, OneOpenPerRef,
         MarkMatched, OpenSet, Arriving, MatchBalanced, RefsListed, Admit;
    DecideJoins(rules, p, l);
    ArrivesOpen(p, l);
    var g := F.FindBalances(rules, l, OpenSet(p), KnownIn(p));
    AmountDateRefsDiffer(rules, l, OpenSet(p), KnownIn(p), g);
    GroundsBalance(rules, p, l, Decide(rules, p, l).m, g, now);
  }

  lemma SameRefs(p: Proj, m: Match)
    ensures MarkMatched(p, m).byRef == p.byRef
  {
  }

  lemma JoinOrder(rules: Rules, p: Proj, l: Leg, m: Match, g: F.Grounds)
    requires RefsListed(p) && l.id !in p.legs && F.Balances(rules, m, g)
    requires F.LegsOf(g) <= OpenSet(p) + {l} && (g.PairOf? ==> g.l == l)
    requires g.PairOf? && m.rule == T2AmountDate ==> g.l.txnRef != g.c.txnRef
    ensures LaterFirst(Admit(p, l), m, g)
  {
    hide DeriveId, M.Pair, M.Many, Admit, ArrivedBefore;
    OpenMembers(p);
    if g.PairOf? && m.rule != T2AmountDate {
      assert F.PairBalances(rules, m, g.l, g.c);
      assert g.c in F.LegsOf(g);
      PartnerArrivedBefore(p, l, g.c);
    }
  }

  lemma HealBalanced(rules: Rules, p: Proj, l: Leg, r: Leg, now: Time)
    requires RefsListed(p) && l.id !in p.legs && r.id in p.legs && p.legs[r.id] == r && r.txnRef == l.txnRef
    requires Heals(rules, p.breaks, l, r)
    ensures var m := LateMatch(rules, l, r, now);
            MatchBalanced(rules, Close(MarkMatched(Admit(p, l), m), r.breakId, LATE_REASON, SYSTEM_ACTOR, now), m)
  {
    hide DeriveId, Sort, ArrivedBefore, RefsListed;
    var m := LateMatch(rules, l, r, now);
    var g := F.PairOf(l, r);
    var q := Admit(p, l);
    LateMatchFacts(rules, l, r, now);
    LateBalances(rules, l, r, now);
    MarkedStored(q, g, m);
    MarkedBalances(rules, m, g, m.id, m.matchedAt);
    PartnerArrivedBefore(p, l, r);
    var g' := MarkGrounds(g, m.id);
    var t := Close(MarkMatched(q, m), r.breakId, LATE_REASON, SYSTEM_ACTOR, now);
    assert t.legs == MarkMatched(q, m).legs && t.byRef == q.byRef;
    SameArrivals(q, t, l.txnRef, r.id, l.id);
    assert F.Balances(rules, m, g') && StoredGrounds(t, g') && LaterFirst(t, m, g');
  }

  lemma LateBalances(rules: Rules, l: Leg, r: Leg, now: Time)
    requires l.source != r.source && l.id != r.id && l.txnRef == r.txnRef && l.currency == r.currency
    requires rules.WithinTolerance(l.amount, r.amount)
    ensures F.Balances(rules, LateMatch(rules, l, r, now), F.PairOf(l, r))
  {
    hide DeriveId, Sort;
  }

  lemma SameArrivals(p: Proj, q: Proj, ref: string, a: Id, b: Id)
    requires p.byRef == q.byRef && ArrivedBefore(p, ref, a, b)
    ensures ArrivedBefore(q, ref, a, b)
  {
    var i, j :| 0 <= i < j < |RefIds(p, ref)| && RefIds(p, ref)[i] == a && RefIds(p, ref)[j] == b;
    assert RefIds(q, ref) == RefIds(p, ref);
  }

  lemma SettleBalanced(cfg: Config, p: Proj, l: Leg, now: Time)
    requires cfg.rules.Valid() && Inv(p) && l.id !in p.legs && Arriving(l) && Balanced(cfg.rules, p)
    ensures Balanced(cfg.rules, Settle(cfg, p, l, now, Decide(cfg.rules, p, l)))
  {
    hide Decide, Related, NewBreak, Evolves, LegsPlaced, MatchesLinked, BreaksLinked, OneOpenPerRef, MatchBalanced,
         Balanced, DeriveId, Arriving, LateMatch, Heals;
    var d := Decide(cfg.rules, p, l);
    var q := Settle(cfg, p, l, now, d);
    SettleEvolves(cfg, p, l, now);
    match d
    case Join(found) =>
      JoinBalanced(cfg.rules, p, l, now);
      AllKept(cfg.rules, p, q, {found.id});
    case Heal(r) =>
      HealFacts(cfg.rules, p, l);
      HealBalanced(cfg.rules, p, l, r, now);
      AllKept(cfg.rules, p, q, {LateMatch(cfg.rules, l, r, now).id});
    case _ => AllKept(cfg.rules, p, q, {});
  }

  lemma StepBalanced(cfg: Config, s: State, op: Op)
    requires cfg.rules.Valid() && GoodState(s) && GoodOp(op) && GoodClock(op) && Balanced(cfg.rules, s.p)
    ensures Balanced(cfg.rules, Step(cfg, s, op).p)
  {
    hide Ingest, Inv, Delivered, GoodLog, Numbered, Balanced, Evolves, Settle, Decide, Expire, Resolve, ReplayAll,
         ReplayBase, ApplyProj, GoodState, Ticks;
    if op.Arrive? {
      GoodInv(s);
      DeliveredArrives(op.leg);
      IngestBalanced(cfg, s, op.leg, op.now, false);
    } else if op.StartReplay? {
      var evs := ReplayRange(s.log, op.from);
      var part := if op.upTo < |evs| then evs[..op.upTo] else evs;
      var lo := if op.from < 1 then 1 else op.from;
      GoodLogOf(s);
      GoodPart(s.log, part);
      BaseGood(s, lo, op.now);
      BaseBalanced(cfg, s, lo, op.now);
      ReplayBalanced(cfg, ReplayBase(s, lo, op.now), part, op.clock);
    } else {
      GoodInv(s);
      StepEvolves(cfg, s, op);
      SameMatches(cfg, s, op);
      AllKept(cfg.rules, s.p, Step(cfg, s, op).p, {});
    }
  }

  lemma GoodInv(s: State)
    requires GoodState(s)
    ensures Inv(s.p)
  {
  }

  lemma GoodLogOf(s: State)
    requires GoodState(s)
    ensures GoodLog(s.log)
  {
  }

  lemma BaseBalanced(cfg: Config, s: State, from: nat, now: Time)
    ensures Balanced(cfg.rules, ReplayBase(s, from, now).p)
  {
  }

  lemma SameMatches(cfg: Config, s: State, op: Op)
    requires Inv(s.p) && !op.Arrive? && !op.StartReplay?
    ensures Step(cfg, s, op).p.matches == s.p.matches
  {
    hide Inv, NewBreak, Related, AppendEvents;
  }

  lemma IngestBalanced(cfg: Config, s: State, arriving: Leg, now: Time, replaying: bool)
    requires cfg.rules.Valid() && Inv(s.p) && Arriving(arriving) && Balanced(cfg.rules, s.p)
    ensures Balanced(cfg.rules, Ingest(cfg, s, arriving, now, replaying).p)
  {
    hide Ingest, Inv, Balanced, Settle, Decide, Arriving;
    IngestEffect(cfg, s, arriving, now, replaying);
    StampKeeps(arriving, now);
    if Stamp(arriving, now).id !in s.p.legs { SettleBalanced(cfg, s.p, Stamp(arriving, now), now); }
  }

  lemma ReplayOneBalanced(cfg: Config, s: State, ev: Event, now: Time)
    requires cfg.rules.Valid() && GoodState(s) && GoodEvent(ev) && Balanced(cfg.rules, s.p)
    ensures Balanced(cfg.rules, ReplayOne(cfg, s, ev, now).p)
  {
    hide Ingest, Inv, Delivered, GoodLog, Numbered, Redelivered, Balanced, Evolves, ApplyProj;
    match ev.payload
    case LegIngested(l) =>
      RedeliveredSame(l);
      DeliveredArrives(l);
      IngestBalanced(cfg, s, l, now, true);
    case BreakResolvedBy(id, reason, actor, at, m) =>
      if Reapply(s, ev.payload) != s {
        BreakUnderOwnId(s.p, id);
        ResolveSettles(s.p, id, reason, actor, at, []);
        CloseEvolves(s.p, id, reason, actor, at);
        AllKept(cfg.rules, s.p, Close(s.p, id, reason, actor, at), {});
      }
    case _ =>
  }

  lemma {:induction false} ReplayBalanced(cfg: Config, s: State, evs: seq<Event>, clock: nat -> Time)
    requires cfg.rules.Valid() && GoodState(s) && GoodLog(evs) && Ticks(clock) && Balanced(cfg.rules, s.p)
    ensures Balanced(cfg.rules, ReplayAll(cfg, s, evs, clock).p)
  {
    hide GoodState, ReplayOne, GoodEvent, Balanced;
    if evs != [] {
      var init, ev := evs[..|evs| - 1], evs[|evs| - 1];
      assert GoodLog(init) && GoodEvent(ev);
      ReplayBalanced(cfg, s, init, clock);
      ReplayAllGood(cfg, s, init, clock);
      ReplayOneBalanced(cfg, ReplayAll(cfg, s, init, clock), ev, clock(ev.seqNo));
    }
  }

  /** Every stored match, in every reachable state, balances under its own rule. */
  lemma {:induction false} EveryMatchBalances(cfg: Config, ops: seq<Op>)
    requires cfg.rules.Valid() && GoodOps(ops) && GoodClocks(ops)
    ensures Balanced(cfg.rules, Run(cfg, INIT, ops).p)
  {
    hide GoodState, Step, MatchBalanced;
    if ops != [] {
      var init, op := ops[..|ops| - 1], ops[|ops| - 1];
      assert op in ops && GoodOp(op) && GoodClock(op);
      EveryMatchBalances(cfg, init);
      RunGood(cfg, init);
      StepBalanced(cfg, Run(cfg, INIT, init), op);
    }
  }

  /** One leg of the match is the anchor: every leg has its currency and counterparty and is near it in date. */
  ghost predicate Anchored(rules: Rules, p: Proj, m: Match) {
    exists a :: a in m.legIds && a in p.legs && forall x :: x in m.legIds ==>
      && x in p.legs
      && p.legs[x].currency == p.legs[a].currency == m.currency && p.legs[x].counterparty == p.legs[a].counterparty
      && p.legs[a].valueDate - rules.windowDays <= p.legs[x].valueDate <= p.legs[a].valueDate + rules.windowDays
  }

  lemma BalancedIsAnchored(rules: Rules, p: Proj, m: Match)
    requires rules.Valid() && MatchBalanced(rules, p, m) && m.rule != T2Late
    ensures Anchored(rules, p, m)
  {
    hide DeriveId, Sort, SumAmounts, LaterFirst;
    var g :| F.Balances(rules, m, g) && StoredGrounds(p, g) && LaterFirst(p, m, g);
    F.GroundsIds(rules, m, g);
    var a := if g.PairOf? then g.l else g.anchor;
    assert a in F.LegsOf(g);
    forall x | x in m.legIds
      ensures x in p.legs && F.SameWindow(rules, a, p.legs[x]) && p.legs[x].currency == m.currency
    {
      var y :| y in F.LegsOf(g) && y.id == x;
      if g.ManyOf? && y != a {
        var i :| 0 <= i < |g.many| && g.many[i] == y;
        assert F.Part(rules, a, g.many[i]);
      }
    }
  }

  /** In every reachable state the legs of a match lie in the date window of one of them, late arrivals apart. */
  lemma MatchesStayNear(cfg: Config, ops: seq<Op>)
    requires cfg.rules.Valid() && GoodOps(ops) && GoodClocks(ops)
    ensures var p := Run(cfg, INIT, ops).p;
            forall id :: id in p.matches && p.matches[id].rule != T2Late ==> Anchored(cfg.rules, p, p.matches[id])
  {
    hide Run, MatchBalanced, Anchored;
    EveryMatchBalances(cfg, ops);
    var p := Run(cfg, INIT, ops).p;
    forall id | id in p.matches && p.matches[id].rule != T2Late ensures Anchored(cfg.rules, p, p.matches[id]) {
      BalancedIsAnchored(cfg.rules, p, p.matches[id]);
    }
  }
}
