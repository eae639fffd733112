/** The store: projections (legs, matches, breaks), the append-only log, and atomic change sets. */
module Persistence {
  import opened Sequences
  import opened Ordering
  import opened Domain
  import Q = OpenLegs

  /** The projections; `byRef` lists leg ids per txn_ref in arrival order. */
  datatype Proj = Proj(legs: map<Id, Leg>, byRef: map<string, seq<Id>>, matches: map<Id, Match>, breaks: map<Id, Break>)

  const EMPTY := Proj(map[], map[], map[], map[])

  datatype State = State(p: Proj, log: seq<Event>)

  /** One atomic unit of persistence. */
  datatype ChangeSet = ChangeSet(legs: seq<Leg>, matches: seq<Match>, breaks: seq<Break>, events: seq<Event>)

  function RefIds(p: Proj, ref: string): seq<Id> {
    if ref in p.byRef then p.byRef[ref] else []
  }

  function Lookup(legs: map<Id, Leg>, ids: seq<Id>): seq<Leg> {
    if ids == [] then []
    else
      var last := ids[|ids| - 1];
      Lookup(legs, ids[..|ids| - 1]) + if last in legs then [legs[last]] else []
  }

  /** Every stored leg with a txn_ref, in arrival order. */
  function Related(p: Proj, ref: string): seq<Leg> {
    Lookup(p.legs, RefIds(p, ref))
  }

  ghost function OpenSet(p: Proj): set<Leg> {
    set id | id in p.legs && p.legs[id].status == Open :: p.legs[id]
  }

  // ---------------------------------------------------------------- applying a change set

  function Upsert(p: Proj, l: Leg): Proj {
    p.(legs := p.legs[l.id := l],
       byRef := if l.id in p.legs then p.byRef else p.byRef[l.txnRef := RefIds(p, l.txnRef) + [l.id]])
  }

  function UpsertAll(p: Proj, legs: seq<Leg>): Proj {
    if legs == [] then p else Upsert(UpsertAll(p, legs[..|legs| - 1]), legs[|legs| - 1])
  }

  function PutMatches(ms: map<Id, Match>, new_: seq<Match>): map<Id, Match> {
    if new_ == [] then ms
    else PutMatches(ms, new_[..|new_| - 1])[new_[|new_| - 1].id := new_[|new_| - 1]]
  }

  function PutBreaks(bs: map<Id, Break>, new_: seq<Break>): map<Id, Break> {
    if new_ == [] then bs
    else PutBreaks(bs, new_[..|new_| - 1])[new_[|new_| - 1].id := new_[|new_| - 1]]
  }

  /** Appends events; the store assigns sequence numbers 1, 2, 3, ... */
  function AppendEvents(log: seq<Event>, evs: seq<Event>): seq<Event> {
    if evs == [] then log
    else
      var before := AppendEvents(log, evs[..|evs| - 1]);
      before + [evs[|evs| - 1].(seqNo := |before| + 1)]
  }

  function ApplyProj(p: Proj, cs: ChangeSet): Proj {
    var q := UpsertAll(p, cs.legs);
    q.(matches := PutMatches(p.matches, cs.matches), breaks := PutBreaks(p.breaks, cs.breaks))
  }

  function ApplyTo(s: State, cs: ChangeSet): State {
    State(ApplyProj(s.p, cs), AppendEvents(s.log, cs.events))
  }

  lemma {:induction false} UpsertAllKeepsRest(p: Proj, legs: seq<Leg>)
    ensures UpsertAll(p, legs).matches == p.matches && UpsertAll(p, legs).breaks == p.breaks
  {
    if legs != [] { UpsertAllKeepsRest(p, legs[..|legs| - 1]); }
  }

  /** The log is numbered 1, 2, 3, ... */
  ghost predicate Numbered(log: seq<Event>) {
    forall i :: 0 <= i < |log| ==> log[i].seqNo == i + 1
  }

  /** Appending extends the log, keeps the numbering and adds exactly the given payloads. */
  lemma {:induction false} AppendExtends(log: seq<Event>, evs: seq<Event>)
    ensures var r := AppendEvents(log, evs);
            && |r| == |log| + |evs|
            && log == r[..|log|]
            && (Numbered(log) ==> Numbered(r))
            && (forall i :: 0 <= i < |evs| ==> r[|log| + i].payload == evs[i].payload && r[|log| + i].at == evs[i].at)
  {
    if evs != [] { AppendExtends(log, evs[..|evs| - 1]); }
  }

  /** Ids listed under a txn_ref are stored, and legs are stored under their own id. */
  ghost predicate Coherent(p: Proj) {
    && (forall id :: id in p.legs ==> p.legs[id].id == id)
    && (forall ref, id :: ref in p.byRef && id in p.byRef[ref] ==> id in p.legs)
  }

  /** Matches and breaks are stored under their own ids. */
  ghost predicate OwnIds(p: Proj) {
    && (forall id :: id in p.matches ==> p.matches[id].id == id)
    && (forall id :: id in p.breaks ==> p.breaks[id].id == id)
  }

  lemma {:induction false} PutOwnIds(p: Proj, ms: seq<Match>, bs: seq<Break>)
    requires OwnIds(p)
    ensures forall id :: id in PutMatches(p.matches, ms) ==> PutMatches(p.matches, ms)[id].id == id
    ensures forall id :: id in PutBreaks(p.breaks, bs) ==> PutBreaks(p.breaks, bs)[id].id == id
    decreases |ms| + |bs|
  {
    if ms != [] { PutOwnIds(p, ms[..|ms| - 1], bs); }
    if bs != [] { PutOwnIds(p, ms, bs[..|bs| - 1]); }
  }

  lemma {:induction false} UpsertAllCoherent(p: Proj, legs: seq<Leg>)
    requires Coherent(p)
    ensures Coherent(UpsertAll(p, legs))
  {
    if legs != [] { UpsertAllCoherent(p, legs[..|legs| - 1]); }
  }

  lemma OpenSetDistinct(p: Proj)
    requires Coherent(p)
    ensures Q.DistinctIds(OpenSet(p))
  {
  }

  predicate LowerId(a: Leg, b: Leg) { StrLess(a.id, b.id) }

  lemma SortById(q: seq<Leg>)
    requires NoDup(q)
    ensures var r := Sort(q, LowerId);
            NoDup(r) && SetOf(r) == SetOf(q) && Sorted(r, LowerId)
  {
    StrWeakOrder();
    SortSorted(q, LowerId);
    SortPermutes(q, LowerId);
    NoDupMultiset(q);
    MultisetNoDup(Sort(q, LowerId), SetOf(q));
  }

  class Store {
    var legs: map<Id, Leg>
    var byRef: map<string, seq<Id>>
    var matches: map<Id, Match>
    var breaks: map<Id, Break>
    var events: seq<Event>

    ghost function Projections(): Proj
      reads this
    {
      Proj(legs, byRef, matches, breaks)
    }

    ghost function Contents(): State
      reads this
    {
      State(Projections(), events)
    }

    ghost predicate Valid()
      reads this
    {
      Coherent(Projections()) && OwnIds(Projections()) && Numbered(events)
    }

    constructor ()
      ensures Valid() && Contents() == State(EMPTY, [])
    {
      legs, byRef, matches, breaks, events := map[], map[], map[], map[], [];
    }

    /** Stores legs in order; a leg seen for the first time is also listed under its txn_ref. */
    method PutLegs(new_: seq<Leg>)
      modifies this
      ensures Projections() == UpsertAll(old(Projections()), new_) && events == old(events)
    {
      ghost var p, log := Projections(), events;
      for i := 0 to |new_|
        invariant Projections() == UpsertAll(p, new_[..i]) && events == log
      {
        var l := new_[i];
        if l.id !in legs {
          byRef := byRef[l.txnRef := (if l.txnRef in byRef then byRef[l.txnRef] else []) + [l.id]];
        }
        legs := legs[l.id := l];
        assert new_[..i + 1][..i] == new_[..i];
      }
      assert new_[..|new_|] == new_;
    }

    /** Matches and breaks replace what is stored under their ids. */
    method PutRows(ms: seq<Match>, bs: seq<Break>)
      modifies this`matches, this`breaks
      ensures matches == PutMatches(old(matches), ms) && breaks == PutBreaks(old(breaks), bs)
    {
      ghost var m0, b0 := matches, breaks;
      for i := 0 to |ms|
        invariant matches == PutMatches(m0, ms[..i]) && breaks == b0
      {
        matches := matches[ms[i].id := ms[i]];
        assert ms[..i + 1][..i] == ms[..i];
      }
      assert ms[..|ms|] == ms;
      for i := 0 to |bs|
        invariant breaks == PutBreaks(b0, bs[..i]) && matches == PutMatches(m0, ms)
      {
        breaks := breaks[bs[i].id := bs[i]];
        assert bs[..i + 1][..i] == bs[..i];
      }
      assert bs[..|bs|] == bs;
    }

    /** Appends events under the next sequence numbers. */
    method AppendLog(evs: seq<Event>)
      modifies this`events
      ensures events == AppendEvents(old(events), evs)
    {
      ghost var log := events;
      for i := 0 to |evs|
        invariant events == AppendEvents(log, evs[..i])
      {
        events := events + [evs[i].(seqNo := |events| + 1)];
        assert evs[..i + 1][..i] == evs[..i];
      }
      assert evs[..|evs|] == evs;
    }

    /** All or nothing: a failed apply changes nothing. */
    method Apply(cs: ChangeSet) returns (ok: bool)
      requires Valid()
      modifies this
      ensures Valid()
      ensures Contents() == if ok then ApplyTo(old(Contents()), cs) else old(Contents())
    {
      hide UpsertAll, PutMatches, PutBreaks, AppendEvents, Numbered;
      ok := *;
      if !ok { return; }
      ghost var p, log := Projections(), events;
      UpsertAllCoherent(p, cs.legs);
      UpsertAllKeepsRest(p, cs.legs);
      PutOwnIds(p, cs.matches, cs.breaks);
      AppendExtends(log, cs.events);
      PutLegs(cs.legs);
      PutRows(cs.matches, cs.breaks);
      AppendLog(cs.events);
    }

    method HasLeg(id: Id) returns (r: bool)
      ensures r <==> id in Projections().legs
    {
      r := id in legs;
    }

    method LegsByTxnRef(ref: string) returns (out: seq<Leg>)
      requires Valid()
      ensures out == Related(Projections(), ref)
    {
      var ids := if ref in byRef then byRef[ref] else [];
      out := [];
      for i := 0 to |ids|
        invariant out == Lookup(legs, ids[..i])
      {
        assert ids[i] in legs;
        out := out + [legs[ids[i]]];
        assert ids[..i + 1][..i] == ids[..i];
      }
      assert ids[..|ids|] == ids;
    }

    /** The open legs, by ascending id. */
    method OpenLegs() returns (out: seq<Leg>)
      requires Valid()
      ensures NoDup(out) && SetOf(out) == OpenSet(Projections()) && Sorted(out, LowerId)
    {
      out := [];
      var todo := legs.Keys;
      ghost var p := Projections();
      while todo != {}
        invariant todo <= legs.Keys
        invariant NoDup(out)
        invariant forall x :: x in out <==> x in OpenSet(p) && x.id !in todo
        decreases |todo|
      {
        var id :| id in todo;
        if legs[id].status == Open {
          out := out + [legs[id]];
        }
        todo := todo - {id};
      }
      assert SetOf(out) == OpenSet(p);
      SortById(out);
      out := Sort(out, LowerId);
    }

    method GetBreak(id: Id) returns (r: Option<Break>)
      ensures r == if id in Projections().breaks then Some(Projections().breaks[id]) else None
    {
      r := if id in breaks then Some(breaks[id]) else None;
    }

    /** One page of the log, starting at sequence number `from`. */
    method EventsFrom(from: int, limit: nat) returns (out: seq<Event>)
      ensures var lo := if from < 1 then 1 else from;
              if lo > |events| then out == []
              else
                && out <= events[lo - 1..]
                && |out| == if limit > 0 && |events| - lo + 1 > limit then limit else |events| - lo + 1
    {
      var lo := if from < 1 then 1 else from;
      if lo > |events| { return []; }
      out := events[lo - 1..];
      if limit > 0 && |out| > limit { out := out[..limit]; }
    }

    method LastSeq() returns (n: nat)
      ensures n == |events|
    {
      n := |events|;
    }

    /** Clears the projections and keeps the log, or fails and changes nothing. */
    method ResetProjections() returns (ok: bool)
      requires Valid()
      modifies this
      ensures Valid() && Contents() == if ok then State(EMPTY, old(events)) else old(Contents())
    {
      ok := *;
      if !ok { return; }
      legs, byRef, matches, breaks := map[], map[], map[], map[];
    }
  }
}
