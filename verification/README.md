# A verified model of the recon-stream engine

recon-stream reconciles transaction legs reported by different sources. One engine is the single
writer over a store of legs, matches, breaks and an append-only event log, and keeps an index of the
open legs. Each arriving leg is decided by ordered tiers (exact, tolerant, amount and date, subset
sum), becomes part of a match, opens or heals a break, or waits. Projections can be rebuilt by
replaying the log.

This project models that engine, its matcher, its index and the in-memory store, and proves what the
design promises about whole runs: nothing is matched twice, every match balances, no settlement is
overlooked, redelivery has one effect, the projections are a fold of the log, replay re-derives them
(with the exact condition), the classifier cannot influence matching, and disjoint streams do not
influence each other.

## How it is laid out

| file | content |
|---|---|
| `Sequences`, `Ordering` | filters, distinctness, string order, stable sort and its uniqueness |
| `Domain`, `Calendar`, `Identity` | legs, matches, breaks, events, rules; dates and numbers as text; content ids and derived ids |
| `SubsetSum` | the budgeted search, its node count, soundness, preference and completeness |
| `OpenLegs`, `Index` | the open legs as a set; the four-map index that refines it |
| `Matching`, `Matcher`, `MatchingFacts` | what the tiers decide; the loops that compute it; what it means |
| `Store`, `Reconciliation` | the store; one ingest, expiry, resolution and replay as state transitions |
| `EventSourcing`, `Lifecycle`, `Transitions` | the fold of the log, the linkage invariant, and that every transition keeps both |
| `Runs`, `RunTheorems`, `Balance`, `NoMissedSettlement`, `SubsetTier`, `Reports`, `Outcomes`, `Resolutions`, `Placement`, `RuleTable` | theorems about every reachable state and every step |
| `NonInterference`, `ReplayTheorems`, `ExactlyOnce`, `ArrivalTimes`, `Partition` | theorems that compare two runs |
| `Calls`, `Engine` | public calls as runs; the engine class, every method proved against the transitions |

`Engine`, `Index`, `Store` and the subset search are classes whose methods update fields as the
program does. `Engine.Valid()` says that the index holds exactly the open legs of the store; every
method keeps it, including when an apply fails or a batch, expiry or replay stops part way.

## Where code and documentation differ

Each difference has its failing input and the exact condition under which code and documentation agree.

- Replay is described as rebuilding all projections. It passes over `leg.expired` events
  (`internal/domain/recon/engine.go:534-536`), so a leg broken by window expiry comes back open:
  `ReplayTheorems.ReplayReproducesIff`, `ReplayTheorems.ExpiredLegIsReopened`.
- `Ingest` keeps a status, match id or break id that a leg brings along; only replay strips them
  (`internal/domain/recon/event.go:74`): `Placement.AlwaysKeptIff`,
  `Placement.CarriedMatchIdBreaksInvariant`. The theorems about runs take legs with these fields empty.
- The rule table links the parts of a settlement by its batch_ref or its txn_ref. A settlement leg that
  arrives last is compared by its settlement key only (`internal/domain/recon/matcher.go:126`):
  `RuleTable.TableLinkIff`, `RuleTable.WholeArrivesLast`.
- The rule table asks amount-date to see no same-amount open leg on the arriving side. The code looks
  only at those near the sole candidate, so the two differ when our side has such legs and all are far
  from it (`internal/domain/recon/matcher.go:101-105`):
  `RuleTable.AmountDateTableIff`, `RuleTable.FarOwnLegIsOverlooked`.
- Matching is said never to cross a window. Late arrivals are compared by currency, not by counterparty
  or date (`internal/domain/recon/engine.go:275-284`): `RuleTable.MatchesKeepWindowsIff`,
  `RuleTable.LateMatchMayCross`.
- Ids are said to tell different content apart. Text with NUL can be grouped in two ways:
  `Identity.IdUniqueIff`, `Identity.DeriveIdCollides`, `ExactlyOnce.RegroupedIsSwallowed`.
- A resolution names its reason and actor, but an operator may sign as the engine does
  (`internal/domain/recon/engine.go:445-461`): `Resolutions.SignaturesTellIff`,
  `Resolutions.ForgedSignature`.

## Model

| member | source | states |
|---|---|---|
| `NoMissedSettlement.NoSettlementMissed` | internal/domain/recon/matcher.go:120-171 | In every reachable state no open legs overlook settlement leg S: 2 to T3MaxSubset open legs of one other source in S's window that carry S's settlement key as batch, each smaller than S and near it in date, never sum to S within Tolerance(S). It supposes only that the rules keep the search within its node budget and that no pool was capped that was searched for a leg left waiting, in S's own window, for S's settlement key and in the source of the parts |
| `NoMissedSettlement.NoSettlementMissedByDefault` | internal/domain/recon/rules.go:44-53 | The same for the default rules, with no supposition about the budget |
| `NoMissedSettlement.WaitingMissesNothing` | internal/domain/recon/engine.go:324-332 | A leg that tier 3 passed over can be stored open without completing an overlooked settlement of a window, settlement key and source of parts, whichever of the two orientations it would have stood in, if no pool searched for these was capped |
| `SubsetTier.SubsetTierIff` | internal/domain/recon/matcher.go:112-171 | For rules whose search fits the node budget, tier 3 hits if and only if a qualifying set of open legs exists: 2 to T3MaxSubset legs of one other source that sum to the leg, or siblings that with it make up a larger settlement leg. Only legs count that fewer than T3MaxCandidates others of their pool come before in canonical order, which is what the candidate cap leaves |
| `SubsetTier.SubsetRuleFiresIff` | internal/domain/recon/matcher.go:20-43 | The fourth rule fires iff none of the first three does and a qualifying set of open legs exists |
| `SubsetTier.SubsetTierChoice` | internal/domain/recon/matcher.go:120-171 | Which match tier 3 finds: a sum of the arriving leg before a completion of another; the first source by name, the first settlement leg in canonical order; and among all qualifying sets, each listed by descending amount and canonical order, the one that has the larger or earlier leg where it first differs from any other, or ends there |
| `SubsetTier.OnlyQualified` | internal/domain/recon/matcher.go:112-171 | Whatever the rules and the budget, tier 3 hits only when a qualifying set exists |
| `RuleTable.TableLinkIff` | docs/adr/0002-deterministic-tiered-matching-rules.md:31-34 | The documented link, by batch_ref or txn_ref of the settlement leg, never misses a settlement leg exactly when the rules ask for no batch, or the leg names no other batch than its own txn_ref, or its amount has no parts |
| `RuleTable.NoneMissedByTheTable` | docs/adr/0002-deterministic-tiered-matching-rules.md:31-34 | For such legs no settlement is missed under the documented link in any reachable state |
| `RuleTable.WholeArrivesLast` | internal/domain/recon/matcher.go:126-141 | The failing case on a run: any settlement leg that names another batch and arrives after two parts carrying its txn_ref as batch waits beside them |
| `RuleTable.AmountDateTableIff` | internal/domain/recon/matcher.go:101-105 | Take the sole opposite candidate, neither ref known across. Code and rule table disagree on amount-date exactly when our side has other open legs of the same amount in the window and all of them lie outside the date window of that candidate |
| `RuleTable.FarOwnLegIsOverlooked` | internal/domain/recon/matcher.go:101-105 | The failing case on a run: amount-date fires although an open leg of our side in the same window has the same amount, because its date is far |
| `RuleTable.MatchesKeepWindowsIff` | docs/adr/0002-deterministic-tiered-matching-rules.md:27-29 | In every reachable state two legs of a match share their window iff they share the counterparty, and only late matches may not |
| `RuleTable.LateMatchMayCross` | internal/domain/recon/engine.go:275-284 | The failing case on a run: an expired leg and a late one of the same ref, currency and near amount are matched whatever their counterparties, so across windows when these differ |
| `ReplayTheorems.ReplayReproducesIff` | internal/domain/recon/engine.go:486-561 | After any history whose last replay, if there was one, was complete, Replay from event 1 gives back the legs, matches and breaks (manual resolutions included, clock readings aside) if and only if no stored break came from window expiry |
| `ReplayTheorems.ReplayReproducesExpiryFree` | internal/domain/recon/engine.go:486-561 | In such a history without expiry Replay reproduces the projections, and repeating it changes nothing further |
| `ReplayTheorems.LaterReplayLosesTheFirstLeg` | internal/domain/recon/engine.go:486-506 | Why the last replay has to be complete: after a replay from event 2 the first leg is gone, although nothing expired, and a replay from event 1 brings it back |
| `ReplayTheorems.ExpiredLegIsReopened` | internal/domain/recon/engine.go:534-536 | Concrete failure of the law: one leg, expired, is broken and after Replay open again, because leg.expired events are passed over |
| `ReplayTheorems.ReplayUndoesExpiry` | internal/domain/recon/engine.go:391-439 | In general: if the log re-derives a state, then after an expiry Replay gives back the legs of the state before it, while the store has the leg broken |
| `ReplayTheorems.ReplayReproduced` | internal/domain/recon/engine.go:486-561 | What Replay leaves is a fold over the old log alone, and the log it grew re-derives that state under any other clock |
| `ReplayTheorems.ResolveReproduced` | internal/domain/recon/engine.go:563-582 | A manual resolution survives replay: the state after it is re-derived from the log that records it |
| `ReplayTheorems.ReplaySkips` | internal/domain/recon/engine.go:520-536 | Events other than leg.ingested and manual break.resolved have no influence on a replay |
| `ReplayTheorems.ReplayQuiet` | internal/domain/recon/engine.go:480-485 | A replay keeps the old log as a prefix and adds no leg.ingested or leg.duplicate event and no manual resolution |
| `RunTheorems.ProjectionIsFoldOfLog` | internal/domain/recon/engine.go:195-333 | Without replays the stored legs, ref lists, matches and breaks equal a pure fold over the event log |
| `RunTheorems.StepFolds` | internal/domain/recon/engine.go:391-469 | Every single step (ingest, expiry, closing note, resolution) changes the projections exactly as the fold of the events it appends |
| `RunTheorems.RunEvolves` | internal/domain/recon/engine.go:226-333 | Between replays business content never changes, a matched leg is final, a broken leg leaves its break only into a match, stored matches never change, a break closes at most once and never reopens |
| `RunTheorems.NoLegInTwoMatches` | internal/domain/recon/engine.go:226-252 | In every reachable state, replays included, no leg id occurs in two matches |
| `RunTheorems.OpenBreakHoldsItsLegs` | internal/domain/recon/engine.go:347-375 | Every leg of an open break is broken, points back to that break and to no match |
| `RunTheorems.BreaksAccountForTheirLegs` | internal/domain/recon/engine.go:275-310 | Every break ever opened has one or two legs; each is still broken by it, or it is a single-leg break resolved with the engine's reason and actor whose leg is in a late-arrival match |
| `RunTheorems.BreaksNameTheirLegs` | internal/domain/recon/engine.go:353-365 | In every reachable state a break carries the currency and the counterparty of the stored leg it names first |
| `Resolutions.SignaturesTellIff` | internal/domain/recon/engine.go:286-310 | Along any run the signature of every break tells where its legs are (signed as a late arrival: its one leg is in a late-arrival match; otherwise: its legs are broken by it), at every point, if and only if no resolution that was accepted from an operator carries the engine's own reason and actor |
| `Resolutions.StepTellsIff` | internal/domain/recon/engine.go:445-469 | Step by step: from a state where this holds, and whose log records no such resolution, it is lost exactly by an operator's call that meets the guard (open break, reason and actor given) and signs as the engine |
| `Resolutions.ResolutionsTell` | internal/domain/recon/engine.go:286-310 | Unless an operator signs with the engine's own reason and actor, a break so signed has its one leg in a late-arrival match, and every other break, open or manually resolved, keeps its legs broken |
| `Resolutions.ForgedSignature` | internal/domain/recon/engine.go:445-461 | The failing input: an expired leg whose break an operator resolves signing like the engine, and the leg stays broken |
| `RunTheorems.OneOpenLegPerRef` | internal/domain/recon/engine.go:254-332 | At most one open leg per txn_ref in every reachable state, although no step checks it |
| `RunTheorems.ConflictIsAPair` | internal/domain/recon/engine.go:254-272 | A ref conflict has exactly one open partner, from another source |
| `Runs.RunGood` | internal/domain/recon/engine.go:168-582 | After any mix of ingest, expiry, closing, resolution and complete or interrupted replay steps every leg is in exactly one of open, matched, broken, linked both ways with its match or break, and the log is numbered 1, 2, 3, ... |
| `Balance.EveryMatchBalances` | internal/domain/recon/matcher.go:56-227 | Every stored match is justified by stored legs under its own rule: residual zero for T1 and amount-date, within the later-arriving leg's tolerance for ref-tolerant and late arrival, within the anchor's tolerance for T3 with 2 to T3MaxSubset distinct legs of one other source; same currency always, same counterparty and date window except for late arrival; amount-date pairs have different refs; residual and confidence are those of the rule table |
| `Balance.MatchesStayNear` | internal/domain/recon/rules.go:97-99 | In every reachable state one leg of a match anchors it: every leg has its currency and counterparty and a value date from windowDays before to windowDays after, both included; late arrivals apart |
| `Balance.AmountDateRefsDiffer` | internal/domain/recon/matcher.go:84-110 | An amount-date hit never pairs two legs of the same txn_ref |
| `NonInterference.ClassifierCannotInterfere` | docs/adr/0004-heuristic-break-classifier-behind-an-interface.md:21-23 | For any two pure classifiers and any run: same legs, matches, break ids, break legs and statuses, same log shape, same outcome reported for any next leg; only category, confidence, classifier id and an open break's reason may differ |
| `NonInterference.RunAgrees` | internal/domain/recon/engine.go:347-375 | The two-run law behind it, for any view that forgets labels, clock readings of matches and breaks, or both |
| `ExactlyOnce.RedeliveryHasOneEffect` | internal/domain/recon/engine.go:133-189 | Any number of crashed and repeated deliveries of a batch ends with exactly the projections of one uninterrupted delivery that reads each leg's clock when it was first handled, and the same log apart from leg.duplicate notes |
| `ArrivalTimes.RedeliveryIsAlike` | docs/adr/0003-at-least-once-ingest-with-content-hash-idempotency.md:15-24 | For all legs, with or without an ingestion time, the result agrees with any reference delivery except for clock readings and, when the classifier reads ingestion times, break labels; when all legs carry their ingestion time, break labels and ingestion times agree whatever the classifier reads |
| `ArrivalTimes.FindIgnoresArrivalTimes` | internal/domain/recon/matcher.go:20-43 | Every tier finds the same match whatever the ingestion times of the legs |
| `ArrivalTimes.DecideIgnoresArrivalTimes` | internal/domain/recon/engine.go:202-333 | The outcome, its partners and the healed leg do not depend on ingestion times |
| `ExactlyOnce.RegroupedIsSwallowed` | internal/domain/recon/engine.go:174-189 | For any stored leg with attributes there is a leg of other content, with NUL in its text, that has the same id; it is taken for a redelivery and changes nothing |
| `ExactlyOnce.DuplicateChangesNothing` | internal/domain/recon/engine.go:177-189 | A leg already stored changes no projection and appends one leg.duplicate event |
| `ExactlyOnce.RedeliveryIsQuiet` | internal/domain/recon/engine.go:177-189 | Redelivering any sequence of stored legs changes no projection and adds nothing but duplicate notes |
| `Partition.PartitionIndependence` | docs/architecture.md:124-130 | Any interleaving of two streams of arrivals, expiries, resolutions and notes, with disjoint window keys and txn_refs and arbitrary batch_refs, ends in the disjoint union of the legs, matches, breaks and open legs of running each alone |
| `Partition.StreamsStayApart` | internal/domain/recon/engine.go:168-333 | The same at every point of the interleaving and including the txn_ref lists |
| `Partition.FindUnion` | internal/domain/recon/index.go:91-133 | Matching gives the same answer when open legs of foreign windows and refs are added |
| `Partition.DecideLocal` | internal/domain/recon/engine.go:202-333 | All six outcomes of a leg depend on its own realm only |
| `Calls.HistoryIsRun` | internal/domain/recon/engine.go:133-561 | Every history of public calls, each cut short anywhere by a failed apply, a failed clearing of the projections, a cancellation or a crash, is a run of atomic steps, so that all theorems about runs hold for it |
| `Calls.EveryHistoryIsSafe` | internal/domain/recon/engine.go:133-561 | Hence the linkage invariant and the log numbering hold after every such history |
| `Calls.ExpireAllIsRun` | internal/domain/recon/engine.go:391-439 | Expiring a list of open legs one by one finds each of them still open and unchanged, and touches no other leg |
| `Calls.ExpiryTells` | internal/domain/recon/index.go:137-143 | After an expiry that is through, every leg that was open with an ingestion time at or before the cutoff is broken, alone in a new open break with the window trigger, and every other leg is as it was; one that was interrupted has done so to some of them and touched no younger leg |
| `Reports.OutcomeIff` | internal/domain/recon/engine.go:202-333 | The six outcomes, each with its exact condition on the stored legs: own source reused the ref; else a tier matches; else an open leg shares the ref; else a healable one does; else any stored leg does; else wait |
| `Reports.ReportIsTrue` | internal/domain/recon/engine.go:168-333 | Outcome, match id, break id and rule of every result describe the stored state: the match or break is new and holds the leg, the healed break was open and is resolved, a duplicate changed nothing |
| `Outcomes.IngestTells` | internal/domain/recon/engine.go:168-333 | One arriving leg, field by field, for each outcome: which legs get which status, match and break, what the new match or break holds (currency, counterparty, ids, times, and the category, confidence, classifier id and reason that the classifier answers on the legs as they arrived and the stored legs of the ref), which break is resolved with which reason and actor, and exactly which numbered events are logged |
| `Outcomes.OutcomeTells` | internal/domain/recon/engine.go:202-333 | The reported outcomes with the late-arrival condition in fields: a leg of another source, same ref and currency, amount within the tolerance of the arriving leg, alone in an open break |
| `Outcomes.KnownIff` | internal/domain/recon/engine.go:213-224 | What amount-date asks about a ref: whether some stored leg of that source carries it |
| `Outcomes.ExpireTells` | internal/domain/recon/engine.go:405-431 | One expiry, field by field: only this leg changes, into a new break with the classifier's answer, and both facts are logged |
| `Outcomes.ResolveTells` | internal/domain/recon/engine.go:445-469 | A manual resolution changes status, time, reason and actor of exactly that open break and logs them; a refused one changes nothing |
| `Outcomes.ReapplyTells` | internal/domain/recon/engine.go:567-582 | A logged manual resolution is applied again with its own time, to an open break only, without an event; one of a late arrival is not |
| `Placement.AlwaysKeptIff` | internal/domain/recon/engine.go:133-139 | Ingest does not strip match id and break id: a new leg keeps the linkage invariant in every state it can come into if and only if it carries neither |
| `Placement.CarriedMatchIdBreaksInvariant` | internal/domain/recon/engine.go:324-327 | Concrete failure: a first leg that carries a match id is stored with it, and the invariant no longer holds |
| `MatchingFacts.FindRefinesTiers` | internal/domain/recon/matcher.go:20-43 | First tier wins, stated in the fields of the open legs: T1 iff a leg of another source has the same ref, amount, currency and counterparty and a value date at most windowDays away; ref-tolerant iff no such leg but one within tolerance; amount-date iff neither but a sole partner; T3 iff none of these and the subset tier hits, which `SubsetTier.SubsetRuleFiresIff` turns into a condition on the open legs |
| `MatchingFacts.PairRuleChoice` | internal/domain/recon/matcher.go:56-110 | Which partner a pair rule takes: the first exact one in canonical order; the tolerant one of smallest residual, ties by canonical order; the sole amount partner; and the match made of it with residual and confidence |
| `MatchingFacts.Tier1Iff` | internal/domain/recon/matcher.go:56-62 | The exact tier hits iff some open leg of another source in the window has the same ref and amount |
| `MatchingFacts.Tier2RefIff` | internal/domain/recon/matcher.go:66-82 | The tolerant tier returns a leg of minimal residual among all tolerant partners, ties broken by canonical order |
| `MatchingFacts.BestIsMinimal` | internal/domain/recon/matcher.go:66-82 | The scan keeps the first candidate of smallest residual |
| `MatchingFacts.AmountDateIff` | internal/domain/recon/matcher.go:84-110 | Amount-date hits iff there is a unique equal-amount opposite leg in window, no same-source rival for it, and neither ref is known on the other source |
| `MatchingFacts.FindBalances` | internal/domain/recon/matcher.go:20-227 | Whatever tier hits, the match is made of the arriving leg and open legs and balances under its own rule |
| `MatchingFacts.GroundsIds` | internal/domain/recon/matcher.go:192-227 | The leg ids of a match are exactly those of its legs, each once |
| `Matcher.Find` | internal/domain/recon/matcher.go:20-43 | The method over the index returns what the function over the open legs says |
| `Matcher.InWindow` | internal/domain/recon/matcher.go:45-53 | Keeps exactly the candidates within the date window, in order |
| `Matcher.Tier2Ref` | internal/domain/recon/matcher.go:66-82 | The scanning loop computes the specified choice |
| `Matcher.Tier2AmountDate` | internal/domain/recon/matcher.go:89-110 | The counting and rival loops compute the specified decision |
| `Matcher.GroupBySource` | internal/domain/recon/matcher.go:274-280 | One nonempty group per source, each the legs of that source in order |
| `Matcher.SortedSources` | internal/domain/recon/matcher.go:282-289 | The group keys in ascending order, independent of map order |
| `Matcher.SumToOne` | internal/domain/recon/matcher.go:120-141 | Orientation (a): sources in ascending order, first subset that sums to the arriving leg |
| `Matcher.CompleteMany` | internal/domain/recon/matcher.go:142-171 | Orientation (b): settlement legs in canonical order, first subset that the arriving leg completes |
| `Matcher.Tier3` | internal/domain/recon/matcher.go:120-171 | Both orientations with and without the batch hint |
| `SubsetSum.SearchCorrect` | internal/domain/recon/matcher.go:233-272 | A hit is the first solution of the unpruned preorder over ascending index sequences; a miss with budget left proves that there is none; the budget is not used up when the tree is smaller |
| `SubsetSum.VisitSound` | internal/domain/recon/matcher.go:244-266 | A hit is an ascending index sequence of allowed size and sum, and spends budget |
| `SubsetSum.VisitBeats` | internal/domain/recon/matcher.go:244-266 | Pruning never changes the answer for positive amounts: against any competitor the search ran dry or answers it or something earlier |
| `SubsetSum.VisitCost` | internal/domain/recon/matcher.go:243-266 | The search visits at most Nodes(n, k) nodes |
| `SubsetSum.NodesIsBinomialSum` | internal/domain/recon/matcher.go:229-232 | Nodes(n, k) is the sum of the binomial coefficients C(n, 0) to C(n, k) |
| `SubsetSum.DefaultNodeCount` | internal/domain/recon/rules.go:44-53 | For 24 candidates and subsets of up to 6 that is 190,051, below the budget of 200,000 |
| `SubsetSum.FindSubsetSound` | internal/domain/recon/matcher.go:233-272 | A returned subset has distinct pool members, size in [minSize, maxSize] and sum within tolerance of the target |
| `SubsetSum.FindSubsetFirst` | internal/domain/recon/matcher.go:229-272 | A returned subset is the first valid index sequence in the preorder of the search, even when the budget was hit later |
| `SubsetSum.FindSubsetDescends` | internal/domain/recon/matcher.go:238-242 | The returned legs have non-increasing amounts, ties in the order of the pool |
| `SubsetSum.FindSubsetGreedy` | internal/domain/recon/matcher.go:233-272 | Against any other qualifying legs of the pool, listed by descending amount with ties in pool order, the returned ones have the larger amount, or the earlier leg of that amount, where the two first differ, or end there |
| `SubsetSum.FindSubsetComplete` | internal/domain/recon/matcher.go:233-272 | When the tree fits the budget, any qualifying subset of the pool forces a hit |
| `SubsetSum.Search.Dfs` | internal/domain/recon/matcher.go:244-266 | The recursive search with its shared budget and output stack: result, remaining budget and stack are those of the specification |
| `SubsetSum.RunSubsetSum` | internal/domain/recon/matcher.go:233-272 | The method returns the specified subset |
| `OpenIndex.Index.Add` | internal/domain/recon/index.go:36-54 | The three secondary maps stay the groupings of byID, so with no empty bucket, and the open legs gain the leg unless its id is present already |
| `OpenIndex.Index.Remove` | internal/domain/recon/index.go:57-77 | The three secondary maps stay the groupings of byID, so with no empty bucket, and the open legs lose exactly these ids; unknown ids are ignored |
| `OpenIndex.Index.Get` | internal/domain/recon/index.go:80-88 | The open leg of that id, or none |
| `OpenIndex.Index.Candidates` | internal/domain/recon/index.go:91-104 | The open legs of the same window and another source, in the unique order by value date, txn_ref and id, whatever order the maps are walked in |
| `OpenIndex.Index.CandidatesByRef` | internal/domain/recon/index.go:107-111 | Those of the same txn_ref, canonically ordered |
| `OpenIndex.Index.SameSourceInWindow` | internal/domain/recon/index.go:114-116 | The other open legs of the same window and source, canonically ordered |
| `OpenIndex.Index.ByRef` | internal/domain/recon/index.go:119-121 | The other open legs of the same txn_ref, any window and source, canonically ordered |
| `OpenIndex.Index.RefLegs` | internal/domain/recon/index.go:124-127 | All open legs of a txn_ref, canonically ordered |
| `OpenIndex.Index.ByBatch` | internal/domain/recon/index.go:130-133 | The other open legs of the batch in the leg's window, canonically ordered; nothing for an empty batch |
| `OpenIndex.Index.Expired` | internal/domain/recon/index.go:137-143 | Exactly the open legs ingested at or before the cutoff, that is at least as old as the given age, or as the window when the age is negative |
| `OpenIndex.Index.Collect` | internal/domain/recon/index.go:150-162 | The kept legs of a bucket in canonical order, independent of map iteration order |
| `OpenLegs.ListingFacts` | internal/domain/recon/index.go:178-188 | A canonical listing holds each leg of the set once and is sorted by value date, txn_ref and id |
| `OpenLegs.BeforeIff` | internal/domain/recon/index.go:178-188 | The canonical order in fields: earlier value date, then the txn_ref that comes first as text, then the id |
| `Ordering.StrLessIff` | internal/domain/recon/index.go:178-188 | Text is ordered by the first differing character, a proper prefix first |
| `Ordering.CanonUnique` | internal/domain/recon/index.go:178-188 | Sorting any listing of a set under a total order gives the same sequence, so the order in which a map is walked does not matter |
| `OpenIndex.GroupKeys` | internal/domain/recon/index.go:164-176 | A key is present exactly when its bucket is not empty |
| `Persistence.Store.Apply` | internal/adapters/memory/store.go:40-60 | The whole change set or nothing: legs, ref lists, matches, breaks and the numbered log are the specified ones |
| `Persistence.Store.HasLeg` | internal/adapters/memory/store.go:63-68 | Whether the id is stored |
| `Persistence.Store.LegsByTxnRef` | internal/adapters/memory/store.go:82-91 | The stored legs of a txn_ref in arrival order |
| `Persistence.Store.OpenLegs` | internal/adapters/memory/store.go:94-105 | Exactly the stored open legs, each once, sorted by id |
| `Persistence.Store.GetBreak` | internal/adapters/memory/store.go:119-127 | The stored break, or none |
| `Persistence.Store.EventsFrom` | internal/adapters/memory/store.go:172-186 | The events from a sequence number on, at most `limit` of them |
| `Persistence.Store.LastSeq` | internal/adapters/memory/store.go:189-193 | The number of the last event |
| `Persistence.Store.ResetProjections` | internal/adapters/memory/store.go:196-204 | Clears legs, ref lists, matches and breaks and keeps the log, or fails and changes nothing |
| `Persistence.AppendExtends` | internal/adapters/memory/store.go:54-58 | Appending keeps the old log as a prefix, keeps the numbering and adds exactly the given payloads |
| `ReconEngine.Engine.Create` | internal/domain/recon/engine.go:81-100 | Accepts exactly basis points 0 to 10,000, a tolerance of at least 0, 0 to 365 days, 2 to 64 candidates, subsets of 2 to 12 and a positive window length; then an engine whose empty index agrees with the store iff nothing is open |
| `ReconEngine.Engine.Rebuild` | internal/domain/recon/engine.go:116-129 | Whatever the index held, it then holds exactly the stored open legs |
| `ReconEngine.Engine.IngestOne` | internal/domain/recon/engine.go:168-333 | Dedupe and the six ordered outcomes as one atomic change; index and store agree afterwards, also when the apply fails, which changes nothing |
| `ReconEngine.Engine.IngestNew` | internal/domain/recon/engine.go:190-333 | The steps for a leg that is not stored yet take the first outcome that applies |
| `ReconEngine.Engine.SettleLate` | internal/domain/recon/engine.go:275-310 | A late arrival marks both legs matched, stores the match and resolves the break in one change |
| `ReconEngine.Engine.SettleJoin` | internal/domain/recon/engine.go:226-252 | A match marks all its legs and removes them from the index |
| `ReconEngine.Engine.SettleConflict` | internal/domain/recon/engine.go:254-272 | A ref conflict breaks the leg together with its open partners and removes them from the index |
| `ReconEngine.Engine.OpenBreak` | internal/domain/recon/engine.go:347-375 | The loops build the break and the marked legs of the change set, whose fields `Outcomes.IngestTells` and `Outcomes.ExpireTells` spell out |
| `ReconEngine.Engine.IngestBatch` | internal/domain/recon/engine.go:133-165 | All-or-nothing validation; then what was applied is a delivery of a prefix of the batch, with one correct result per leg; each counter is the number of results with its outcomes (duplicates, matched or healed, broken, waiting); no leg is skipped |
| `ReconEngine.Engine.Sweep` | internal/domain/recon/engine.go:378-380 | When through, breaks every leg that was open with an ingestion time at or before now minus the window, each alone with the window trigger; younger and settled legs are as they were, also when interrupted |
| `ReconEngine.Engine.CloseWindow` | internal/domain/recon/engine.go:384-389 | The same with the given age (0 when negative) in place of the window, and one closing event with count and age once all are through |
| `ReconEngine.Engine.Expire` | internal/domain/recon/engine.go:391-439 | The legs at or before the cutoff, in canonical order, each get a break of their own; an interruption leaves a prefix of them expired; a forced one that is through logs the closing last |
| `ReconEngine.Engine.ResolveBreak` | internal/domain/recon/engine.go:445-469 | Succeeds only for an open break with reason and actor, and then changes exactly that break and logs the resolution; every error leaves everything unchanged |
| `ReconEngine.Engine.ReapplyResolution` | internal/domain/recon/engine.go:567-582 | Restores a manual resolution on an open re-derived break without an audit event, and does nothing otherwise |
| `ReconEngine.Engine.ReplayPages` | internal/domain/recon/engine.go:507-558 | Paging terminates although the loop appends to the log it reads; each event from `from` to `through` is handled exactly once, in order, and no event appended on the way is handled |
| `ReconEngine.Engine.Replay` | internal/domain/recon/engine.go:486-561 | The state is that of folding the handled events over empty projections and each counter is the number of reports with its outcomes; a failure part way, or one to clear the projections, leaves index and store in agreement |
| `ReconEngine.TallyCounts` | internal/domain/recon/engine.go:536-553 | One report per replayed intake; matched counts those that joined a match or healed a break, breaks those that opened one, open those that wait |
| `ReconEngine.AcceptedIsGood` | internal/domain/recon/engine.go:134-139 | A batch of unplaced, NUL-free legs that validation accepts is what the theorems about histories ask of a call |
| `ReconEngine.ValidIff` | internal/domain/recon/leg.go:102-136 | A leg is valid iff source, txn_ref and counterparty are not blank, the amount is positive, the value date set and the currency three capital letters |
| `Transitions.PlanSettles` | internal/domain/recon/engine.go:195-333 | The rows a change set stores are those of the decision read as state transitions |
| `Transitions.SettleInv` | internal/domain/recon/engine.go:202-333 | Each of the six outcomes keeps the linkage invariant and the one-open-leg-per-ref invariant |
| `Transitions.ConflictFacts` | internal/domain/recon/engine.go:254-272 | In a linked state a ref conflict has one stored open partner of another source |
| `Transitions.WaitFacts` | internal/domain/recon/engine.go:312-332 | A leg waits only when no stored leg shares its txn_ref |
| `Lifecycle.HealLinked` | internal/domain/recon/engine.go:286-296 | Taking the leg of a single-leg break into a late match and closing the break keeps every link, and the match id is new |
| `Lifecycle.FreshMatchId` | internal/domain/recon/match.go:82-89 | A match over unmatched legs never reuses a stored match id |
| `Lifecycle.FreshBreakId` | internal/domain/recon/match.go:82-89 | A break over open legs never reuses a stored break id |
| `EventSourcing.MatchSettles` | internal/domain/recon/engine.go:228-241 | Storing the marked legs one by one equals marking them all at once |
| `Identity.ContentInjective` | internal/domain/recon/leg.go:141-160 | The framed byte string that is hashed determines every business field, for NUL-free text |
| `Identity.HashedFields` | internal/domain/recon/leg.go:141-166 | The hashed fields in their order, shown for a leg with one attribute, and the id as source, ref and digest |
| `Identity.IdInjective` | internal/domain/recon/leg.go:163-166 | Equal leg ids mean equal business content |
| `Identity.ComputeId` | internal/domain/recon/leg.go:141-166 | The loop over sorted attribute keys computes the id, whatever order the map is walked in |
| `Identity.DeriveIdIgnoresOrder` | internal/domain/recon/match.go:82-89 | The derived id does not depend on the order of the leg ids |
| `Identity.DeriveIdInjective` | internal/domain/recon/match.go:82-89 | For NUL-free leg ids the derived id determines the multiset of leg ids |
| `Identity.IdUniqueIff` | internal/domain/recon/leg.go:141-166 | A NUL-free leg is the only content with its id, among legs of any text, exactly when it has no attributes |
| `Identity.DeriveIdCollides` | internal/domain/recon/match.go:82-89 | With NUL in the text two different pairs of legs have ids that derive one match or break id |
| `Calendar.DateTextInjective` | internal/domain/recon/leg.go:55-55 | The YYYY-MM-DD text of a date determines the day |
| `Calendar.DateRoundTrip` | internal/domain/recon/leg.go:41-55 | The day number is recovered from year, month and day by the leap-year rules |
| `Calendar.DayZero` | internal/domain/recon/leg.go:41-55 | Day 0, the zero date, is 1 January of year 1 |
| `Domain.ToleranceRounds` | internal/domain/recon/rules.go:77-95 | The relative tolerance is amount times basis points over 10,000 rounded to the nearest integer, halves up, never more than the amount; the larger of it and the absolute tolerance counts |
| `Domain.TolerantConfidence` | internal/domain/recon/rules.go:102-116 | The nearest thousandth, halves up, to 950 minus 150 times the residual over the tolerance, so 950 at residual zero and 800 at the edge of tolerance and beyond |

## Left out

- SHA-256, its truncation to 12 hex digits and hex encoding: `Identity.Digest` is an injective stand-in; what is proved is about the byte strings that are hashed.
- Text with NUL in the theorems about runs: different legs can then share an id (`Identity.IdUniqueIff`), so these theorems take NUL-free text.
- 64-bit overflow of amounts and sums: integers are unbounded.
- Domain.TolerantConfidence: confidences are exact thousandths and tolerances exact integer roundings; the floating-point expressions agree below 2^53.
- Clocks and time zones: times are integers, 0 is the zero time, and clocks read more than 0; a date is its day number, and its text is modelled.
- JSON encoding: event payloads are datatype values, and aggregate ids of events are dropped.
- Trimming and case folding in `Leg.Validate`: legs are validated as they are; that direction is debit or credit is part of the type.
- Failing reads: `Apply` and `ResetProjections` can fail, at any time and changing nothing; a read error would stop an operation in the same places. The fail-closed branch of the ref lookup in `ingestOne` is therefore not modelled.
- ReplayTheorems.ReplayReproducesIff: leaves out histories whose last replay was interrupted or began at a later event; `ReplayTheorems.LaterReplayLosesTheFirstLeg` shows why, and `ReplayTheorems.ReplayReproduced` covers the next complete replay.
- NoMissedSettlement.NoSettlementMissed: says nothing about a window, settlement key and source of parts once a pool searched for them was capped, since a capped pool is searched in part only.
- Partition.PartitionIndependence: replays are left out, since a replay reads one log and clears everything.
- Go's sort functions: a stable insertion sort stands for them, and `Ordering.SortedUnique` shows that any correct sort gives the same listing wherever the order is total.
- Hooks, logging, contexts beyond stopping between legs, and the mutex: the engine is serialised already.
- The heuristic classifier: an arbitrary pure function stands for it.
- Postgres, Kafka, HTTP, configuration and metrics: wiring around the engine; redelivery is modelled as repeated calls.
- `ListBreaks`, `Stats`, `Age`, `GetLeg`, `GetMatch` and `All`: read-side members that would only add easy facts.
