/** Projections as a fold of the log, and the change sets seen as that fold. */
module EventSourcing {
  import opened Sequences
  import opened Domain
  import opened Identity
  import opened Persistence
  import opened Reconciliation
  import M = Matching
  import F = MatchingFacts

  // ---------------------------------------------------------------- reactions to events

  /** A new leg, open until another event moves it. */
  function Admit(p: Proj, l: Leg): Proj {
    Upsert(p, l.(status := Open))
  }

  function MatchedBy(l: Leg, matchId: Id): Leg { l.(status := Matched, matchId := matchId, breakId := "") }

  function BrokenBy(l: Leg, breakId: Id): Leg { l.(status := Broken, breakId := breakId) }

  function MarkMatched(p: Proj, m: Match): Proj {
    p.(legs := map id | id in p.legs :: if id in m.legIds then MatchedBy(p.legs[id], m.id) else p.legs[id],
       matches := p.matches[m.id := m])
  }

  function MarkBroken(p: Proj, b: Break): Proj {
    p.(legs := map id | id in p.legs :: if id in b.legIds then BrokenBy(p.legs[id], b.id) else p.legs[id],
       breaks := p.breaks[b.id := b])
  }

  function Close(p: Proj, id: Id, reason: string, actor: string, at: Time): Proj {
    if id in p.breaks then p.(breaks := p.breaks[id := Resolved(p.breaks[id], reason, actor, at)]) else p
  }

  /** How one event moves the projections; audit-only events move nothing. */
  function React(p: Proj, e: Payload): Proj {
    match e
    case LegIngested(l) => Admit(p, l)
    case MatchCreated(m) => MarkMatched(p, m)
    case BreakOpened(b) => MarkBroken(p, b)
    case BreakResolvedBy(id, reason, actor, at, _) => Close(p, id, reason, actor, at)
    case _ => p
  }

  /** The projections a log of events stands for. */
  function Fold(p: Proj, evs: seq<Event>): Proj {
    if evs == [] then p else React(Fold(p, evs[..|evs| - 1]), evs[|evs| - 1].payload)
  }

  lemma {:induction false} FoldAppend(p: Proj, a: seq<Event>, b: seq<Event>)
    ensures Fold(p, a + b) == Fold(Fold(p, a), b)
  {
    if b == [] {
      assert a + b == a;
    } else {
      FoldAppend(p, a, b[..|b| - 1]);
      assert (a + b)[..|a + b| - 1] == a + b[..|b| - 1];
    }
  }

  /** Only payloads matter to the fold. */
  lemma {:induction false} FoldPayloads(p: Proj, a: seq<Event>, b: seq<Event>)
    requires |a| == |b| && forall i :: 0 <= i < |a| ==> a[i].payload == b[i].payload
    ensures Fold(p, a) == Fold(p, b)
  {
    if a != [] { FoldPayloads(p, a[..|a| - 1], b[..|b| - 1]); }
  }

  lemma FoldLog(p: Proj, log: seq<Event>, evs: seq<Event>)
    ensures Fold(p, AppendEvents(log, evs)) == Fold(Fold(p, log), evs)
  {
    AppendExtends(log, evs);
    var r := AppendEvents(log, evs);
    assert r == log + r[|log|..];
    FoldAppend(p, log, r[|log|..]);
    FoldPayloads(Fold(p, log), r[|log|..], evs);
  }

  lemma FoldOne(p: Proj, a: Event)
    ensures Fold(p, [a]) == React(p, a.payload)
  {
    assert [a][..0] == [];
    assert Fold(p, []) == p;
  }

  lemma FoldTwo(p: Proj, a: Event, b: Event)
    ensures Fold(p, [a, b]) == React(React(p, a.payload), b.payload)
  {
    assert [a, b][..1] == [a];
    FoldOne(p, a);
  }

  // ---------------------------------------------------------------- change sets at map level

  /** What a decision does to the projections. */
  ghost function Settle(cfg: Config, p: Proj, l: Leg, now: Time, d: Decision): Proj {
    var related := Related(p, l.txnRef);
    match d
    case Reused => MarkBroken(Admit(p, l), NewBreak(cfg, DuplicateRef, related, [l], now))
    case Join(m) => MarkMatched(Admit(p, l), m.(matchedAt := now))
    case Conflict(partners) => MarkBroken(Admit(p, l), NewBreak(cfg, RefConflict, related, [l] + partners, now))
    case Heal(r) => Close(MarkMatched(Admit(p, l), LateMatch(cfg.rules, l, r, now)), r.breakId, LATE_REASON,
        SYSTEM_ACTOR, now)
    case Orphan => MarkBroken(Admit(p, l), NewBreak(cfg, RefConflict, related, [l], now))
    case Wait => Admit(p, l)
  }

  lemma {:induction false} UpsertHead(p: Proj, x: Leg, rest: seq<Leg>)
    ensures UpsertAll(p, [x] + rest) == UpsertAll(Upsert(p, x), rest)
  {
    if rest == [] {
      assert [x] + rest == [x];
      assert [x][..0] == [];
      assert UpsertAll(p, []) == p;
    } else {
      UpsertHead(p, x, rest[..|rest| - 1]);
      assert ([x] + rest)[..|[x] + rest| - 1] == [x] + rest[..|rest| - 1];
    }
  }

  /** Updating stored legs changes exactly those legs. */
  lemma {:induction false} UpsertStored(p: Proj, legs: seq<Leg>)
    requires forall x :: x in legs ==> x.id in p.legs
    requires NoDup(M.LegIds(legs))
    ensures var q := UpsertAll(p, legs);
            && q.byRef == p.byRef && q.legs.Keys == p.legs.Keys
            && (forall x :: x in legs ==> q.legs[x.id] == x)
            && (forall id :: id in p.legs && id !in M.LegIds(legs) ==> q.legs[id] == p.legs[id])
  {
    if legs != [] {
      var n := |legs| - 1;
      var init := legs[..n];
      assert forall i :: 0 <= i < n ==> M.LegIds(init)[i] == M.LegIds(legs)[i];
      UpsertStored(p, init);
      assert M.LegIds(legs)[n] == legs[n].id;
      forall x | x in init ensures x.id != legs[n].id {
        var i :| 0 <= i < n && init[i] == x;
        assert M.LegIds(legs)[i] == x.id;
      }
      forall id | id in M.LegIds(init) ensures id in M.LegIds(legs) {
        var i :| 0 <= i < n && M.LegIds(init)[i] == id;
        assert M.LegIds(legs)[i] == id;
      }
    }
  }

  lemma BrokenIds(legs: seq<Leg>, breakId: Id)
    ensures M.LegIds(AsBroken(legs, breakId)) == M.LegIds(legs)
    ensures forall x :: x in legs ==> BrokenBy(x, breakId) in AsBroken(legs, breakId)
    ensures forall y :: y in AsBroken(legs, breakId) ==> exists x :: x in legs && y == BrokenBy(x, breakId)
  {
    var q := AsBroken(legs, breakId);
    forall x | x in legs ensures BrokenBy(x, breakId) in q {
      var i :| 0 <= i < |legs| && legs[i] == x;
      assert q[i] == BrokenBy(x, breakId);
    }
    forall y | y in q ensures exists x :: x in legs && y == BrokenBy(x, breakId) {
      var i :| 0 <= i < |q| && q[i] == y;
      assert legs[i] in legs && y == BrokenBy(legs[i], breakId);
    }
  }

  /** Stored legs named by id. */
  ghost predicate AllStored(p: Proj, legs: seq<Leg>) {
    forall x :: x in legs ==> x.id in p.legs && p.legs[x.id] == x
  }

  lemma BreakStored(p: Proj, legs: seq<Leg>, breakId: Id)
    requires AllStored(p, legs) && NoDup(M.LegIds(legs))
    ensures var q := UpsertAll(p, AsBroken(legs, breakId));
            && q.byRef == p.byRef && q.legs.Keys == p.legs.Keys
            && forall id :: id in p.legs ==> q.legs[id] == if id in M.LegIds(legs) then BrokenBy(p.legs[id], breakId)
                else p.legs[id]
  {
    BrokenIds(legs, breakId);
    var rest := AsBroken(legs, breakId);
    forall y | y in rest ensures y.id in p.legs {
      var x :| x in legs && y == BrokenBy(x, breakId);
    }
    UpsertStored(p, rest);
    F.IdMembers(legs);
    var q := UpsertAll(p, rest);
    forall id | id in p.legs && id in M.LegIds(legs) ensures q.legs[id] == BrokenBy(p.legs[id], breakId) {
      var x :| x in legs && x.id == id;
      assert BrokenBy(x, breakId) in rest;
    }
  }

  lemma BrokenCons(l: Leg, partners: seq<Leg>, breakId: Id)
    ensures AsBroken([l] + partners, breakId) == [BrokenBy(l, breakId)] + AsBroken(partners, breakId)
    ensures M.LegIds([l] + partners) == [l.id] + M.LegIds(partners)
  {
  }

  lemma BreakSettles(p: Proj, l: Leg, partners: seq<Leg>, b: Break)
    requires l.id !in p.legs && AllStored(p, partners) && NoDup(M.LegIds(partners))
    requires b.legIds == M.LegIds([l] + partners)
    ensures var q, t := UpsertAll(p, AsBroken([l] + partners, b.id)), MarkBroken(Admit(p, l), b);
            q.legs == t.legs && q.byRef == t.byRef
  {
    BrokenCons(l, partners, b.id);
    UpsertHead(p, BrokenBy(l, b.id), AsBroken(partners, b.id));
    var base := Upsert(p, BrokenBy(l, b.id));
    forall x | x in partners ensures x.id in base.legs && base.legs[x.id] == x {}
    BreakStored(base, partners, b.id);
    SameAfterBreak(p, l, M.LegIds(partners), b, UpsertAll(base, AsBroken(partners, b.id)));
  }

  lemma SameAfterBreak(p: Proj, l: Leg, ids: seq<Id>, b: Break, q: Proj)
    requires l.id !in p.legs && l.id !in ids && b.legIds == [l.id] + ids
    requires var base := Upsert(p, BrokenBy(l, b.id));
             && q.byRef == base.byRef && q.legs.Keys == base.legs.Keys
             && forall id :: id in base.legs ==> q.legs[id] == if id in ids then BrokenBy(base.legs[id], b.id)
                 else base.legs[id]
    ensures var t := MarkBroken(Admit(p, l), b);
            q.legs == t.legs && q.byRef == t.byRef
  {
    var t := MarkBroken(Admit(p, l), b);
    assert q.legs.Keys == t.legs.Keys;
    assert forall id :: id in q.legs ==> q.legs[id] == t.legs[id];
  }

  lemma {:induction false} PartnersFacts(legs: map<Id, Leg>, ids: seq<Id>, self: Id, matchId: Id)
    requires forall id :: id in legs ==> legs[id].id == id
    requires NoDup(ids)
    ensures var ps := Partners(legs, ids, self, matchId);
            && NoDup(M.LegIds(ps))
            && (forall id :: id in M.LegIds(ps) <==> id in ids && id != self && id in legs)
            && (forall x :: x in ps ==> x.id in legs && x == legs[x.id].(status := Matched, matchId := matchId))
  {
    if ids != [] {
      var n := |ids| - 1;
      var init := ids[..n];
      PartnersFacts(legs, init, self, matchId);
      var before := Partners(legs, init, self, matchId);
      var ps := Partners(legs, ids, self, matchId);
      assert ids == init + [ids[n]];
      if ids[n] == self || ids[n] !in legs {
        assert ps == before;
      } else {
        assert M.LegIds(ps) == M.LegIds(before) + [ids[n]];
      }
    }
  }

  lemma MatchSettles(p: Proj, l: Leg, m: Match)
    requires Coherent(p) && l.id !in p.legs && l.breakId == "" && NoDup(m.legIds) && l.id in m.legIds
    requires forall id :: id in m.legIds && id != l.id ==> id in p.legs && p.legs[id].breakId == ""
    ensures var q := UpsertAll(p, [l.(status := Matched, matchId := m.id)] + Partners(p.legs, m.legIds, l.id, m.id));
            var t := MarkMatched(Admit(p, l), m);
            q.legs == t.legs && q.byRef == t.byRef
  {
    hide UpsertAll, Partners, M.LegIds;
    var first, rest := l.(status := Matched, matchId := m.id), Partners(p.legs, m.legIds, l.id, m.id);
    UpsertHead(p, first, rest);
    var base := Upsert(p, first);
    PartnersFacts(p.legs, m.legIds, l.id, m.id);
    UpsertStored(base, rest);
    var q, t := UpsertAll(base, rest), MarkMatched(Admit(p, l), m);
    F.IdMembers(rest);
    assert q.legs.Keys == t.legs.Keys;
    forall id | id in q.legs ensures q.legs[id] == t.legs[id] {
      if id in M.LegIds(rest) {
        var x :| x in rest && x.id == id;
        assert q.legs[id] == x == p.legs[id].(status := Matched, matchId := m.id) == MatchedBy(p.legs[id], m.id);
      } else if id == l.id {
        assert q.legs[id] == first == MatchedBy(l.(status := Open), m.id);
      } else {
        assert q.legs[id] == p.legs[id] && id !in m.legIds;
      }
    }
  }

  lemma HealSettles(p: Proj, l: Leg, r: Leg, m: Match)
    requires Coherent(p) && l.id !in p.legs && l.breakId == "" && r.id in p.legs && p.legs[r.id] == r
    requires forall id :: id in m.legIds <==> id == l.id || id == r.id
    ensures var q := UpsertAll(p, [l.(status := Matched, matchId := m.id), MatchedBy(r, m.id)]);
            var t := MarkMatched(Admit(p, l), m);
            q.legs == t.legs && q.byRef == t.byRef
  {
    var first, second := l.(status := Matched, matchId := m.id), MatchedBy(r, m.id);
    assert [first, second] == [first] + [second];
    UpsertHead(p, first, [second]);
    UpsertHead(Upsert(p, first), second, []);
    assert [second] + [] == [second];
    assert UpsertAll(Upsert(Upsert(p, first), second), []) == Upsert(Upsert(p, first), second);
  }
}
