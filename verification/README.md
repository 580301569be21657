# Exact market auditors: a Dafny model

The repository simulates an exchange and then rebuilds the run from its own event stream with exact, fail-closed
auditors.  This project models the auditors with the most state and arithmetic, and the actor runtime that orders the
events they read, and proves what they promise over whole runs.

Conventions shared by all modules:

- `Int64` fixes the machine integers.  Go's `/` and `big.Int.Quo` truncate toward zero (`Quo`); unchecked additions wrap
  (`Wrap`); checked operations return an `Option`.
- An error return is `None` or `false`; its message text is not modelled.  Preconditions are only those the source
  already relies on, so malformed input takes the error path.
- Code that updates fields, maps or buffers in place is a class or a method with a loop, specified by a function of the
  old state; run theorems are lemmas about those functions.
- Map iteration order is an arbitrary choice in the methods, so every result about them holds for every order.

What the modules establish:

- **PositionReplay.** A cost-basis ledger truncates at several points, yet over any run of accepted trades the cash paid
  plus the marked profit stays strictly within one unit of the exact rational value, so rounding never accumulates; over
  n accounts of a closed market the total stays strictly within n units.  Two defensive error returns cannot happen.
- **CrossVenueEdge, CrossVenueEpisodes, CrossVenueWorld, CrossVenueStages.** A streaming state machine over book
  transitions produces exactly the maximal runs of one positive route, and their total duration is the time, counted
  nanosecond by nanosecond, during which the latest books of both venues give a positive edge.  Strict time is within
  leg-side time, the stage decomposition keeps the registered predicate, and venue order does not matter.  Three
  defensive errors cannot happen.
- **BookReplay, Closeout.** The public replay and an actor that consumes every message hold the same book, which at each
  price is what the stream last said; the greedy liquidation of a displayed book is optimal and its rounding is bounded.
- **ActorResponses.** Fills and forced cancels that overtake their acceptance are buffered and replayed: none is lost,
  none is returned twice, none precedes its acceptance.
- **EvidenceDigest.** Four-limb carry addition is addition modulo 2^256, so a worker pool publishes one digest for every
  layout of records in files, every number of workers and every schedule; no schedule can run on or get stuck before
  publishing.
- **SubmissionJoin, PlacementJoin, TerminalGroups, RouterAccounts, JoinChain.** Four reconciliations compose: the two
  accounts' base changes add up to one lot per accepted buy less one per accepted sell, for any number of attempts.
- **CarryChoice.** Comparing net-carry numerators over different denominators is harmless, provided four taker fees do
  not wrap below zero; the condition is exact, and a policy and a decision show the failure.
- **Conservation.** If no bucket chain is broken and no sum overflows, reported and recorded holdings agree asset by asset.
- **CdfOrders, CdfLifecycle, CdfReconciliation, CdfEarlyFill.** Over every clean run of the supplier audit the live index,
  quantities and counters agree and the supplier's quote lags the exchange by exactly the fills it has not learned of.
  That last law holds in strict mode; outside it, it holds exactly when no fill was logged before its order was accepted,
  and a run that is clean to its end and reconciles shows that such a fill can occur.  When a clean run also passes the
  final reconciliation, every supplier has learned exactly what was executed, every quote agrees with the exchange, and
  every accepted order has ended.
- **CdfConcentration.** Book-mode times add up to the observed span and the streaming maximum is the longest interval
  without a two-sided book.
- **Timeline, Sums, Sorting, RouterEvidence** hold what several modules share.

## Model

| member | source | states |
|---|---|---|
| `Int64.TryAdd` | types/math.go:8-13 | the exact sum when it fits in 64 bits, otherwise nothing |
| `Int64.WrapIsCongruent` | analysis/crossvenue_paired_world.go:91-91 | unchecked 64-bit arithmetic keeps a value modulo 2^64, and exactly when it fits |
| `Int64.TrySub` | types/math.go:15-20 | the exact difference when it fits, except that the most negative subtrahend is always refused |
| `Int64.CheckedSub` | analysis/cdf_activation.go:5087-5095 | the exact difference whenever it fits, without that exception |
| `Int64.TryMulDiv` | types/math.go:38-61 | the truncated quotient of the exact product for a positive divisor, when it fits; computed through a two-word product |
| `Int64.TryMulBps` | types/math.go:141-143 | basis points of a value, truncated, when it fits |
| `PositionReplay.ExactPositionReplay.ApplyTrade` | analysis/exact_position_replay.go:37-115 | the in-place ledger after one trade, with its payment or failure, including the state left behind by a late failure |
| `PositionReplay.ExactPositionReplay.ApplyNonOpeningTrade` | analysis/exact_position_replay.go:117-165 | reductions, closes and flips through zero: realized cash is the truncated total less what was already paid |
| `PositionReplay.ExactPositionReplay.FinishLifecycle` | analysis/exact_position_replay.go:208-218 | the sub-unit remainder becomes the carry of the next lifecycle |
| `PositionReplay.ReplayIsExact` | analysis/exact_position_replay.go:75-102 | over any run of accepted trades, paid cash, carry, realized and basis numerators balance the exact value traded, the carry is below one unit and realized cash is the truncated total |
| `PositionReplay.NoDrift` | analysis/exact_position_replay.go:179-193 | total cash paid plus marked profit differs from the exact rational by strictly less than one unit, whatever the history |
| `PositionReplay.EntryIsBetween` | analysis/exact_position_replay.go:122-127 | the entry price lies between the lowest and highest price that opened or extended the current lifecycle, for prices of either sign |
| `PositionReplay.EntryNeverUnrepresentable` | analysis/exact_position_replay.go:94-97 | on every accepted history the next trade never fails with an unrepresentable entry price |
| `PositionReplay.CloseFailsOnlyOnCash` | analysis/exact_position_replay.go:141-164 | a close fails only when cash does not fit; finishing a lifecycle cannot fail |
| `PositionReplay.ClosedMarketNetsOut` | analysis/exact_position_replay.go:117-193 | when every trade is a buy for one account and an equal sell for another, positions and amounts spent sum to zero |
| `PositionReplay.ZeroSumAcrossAccounts` | analysis/exact_position_replay.go:117-193 | for n accounts of a closed market, cash plus marked profit at any common mark sums to strictly less than n in absolute value |
| `Timeline.MeasureCountsNanos` | analysis/crossvenue_paired_world.go:84-102 | adding up durations between samples equals counting the nanoseconds at which the last sample held, coincident samples included |
| `Timeline.MeasureOfUnion` | analysis/crossvenue_stage_diagnostic.go:89-98 | time in either of two states is at most the two times added and at least half of them |
| `CrossVenueEdge.EvaluateOneLotEdge` | analysis/crossvenue_opportunity.go:38-100 | the two-direction loop computes the evaluator's verdict and both directions |
| `CrossVenueEdge.VerdictIsTheBestDirection` | analysis/crossvenue_opportunity.go:81-97 | the verdict is positive exactly when some direction is, and is then the one with the larger edge, ties going to the smaller buying venue; otherwise it is the status that came closest, without a route |
| `CrossVenueEdge.SwapInvariant` | analysis/crossvenue_opportunity.go:45-98 | listing the venues the other way round, books included, leaves status, route and edge unchanged |
| `CrossVenueEdge.StrictImpliesLegSide` | analysis/crossvenue_opportunity.go:51-52 | whatever is positive under the two-sided rule is positive under the leg-side rule, with the same edge |
| `CrossVenueEdge.PositiveEdgeCrosses` | analysis/crossvenue_opportunity.go:57-81 | despite truncation and fees, a positive edge needs a bid strictly above the ask |
| `CrossVenueEpisodes.Reconstruct` | analysis/crossvenue_opportunity.go:137-184 | succeeds exactly on admissible streams and returns the episodes of the positive runs; the invalid-book error cannot happen |
| `CrossVenueEpisodes.SpansAreMaximalRuns` | analysis/crossvenue_opportunity.go:170-177 | spans are ordered, disjoint, maximal runs of one route and cover every positive sample |
| `CrossVenueEpisodes.SpansAreAllMaximalRuns` | analysis/crossvenue_opportunity.go:170-177 | a range is a span if and only if it is a maximal run of one route |
| `CrossVenueEpisodes.EpisodesAreDisjoint` | analysis/crossvenue_opportunity.go:109-122 | episodes are ordered and disjoint in time and in frames; only the last can be censored |
| `CrossVenueEpisodes.DurationIsMeasure` | analysis/crossvenue_paired_world.go:84-102 | total episode duration is the time in the positive state over the horizon |
| `CrossVenueEpisodes.EpisodesMeasurePositiveTime` | analysis/crossvenue_opportunity.go:137-184 | total episode duration is the number of nanoseconds at which the latest books of both venues give a positive edge |
| `CrossVenueEpisodes.EpisodesIgnoreVenueOrder` | analysis/crossvenue_opportunity.go:137-184 | the episode list does not depend on the order in which venues are listed |
| `CrossVenueWorld.SummarizeDurations` | analysis/crossvenue_paired_world.go:84-102 | an accepted total is the true total less 2^64 for each duration that wraps, with the censored count; when no duration wraps, acceptance means exactly that the episodes lie inside the horizon and fit it together |
| `CrossVenueWorld.NoneOverlong` | analysis/crossvenue_paired_world.go:91-91 | no duration wraps when episodes start at non-negative times, as reconstructed ones do |
| `CrossVenueWorld.StrictWithinLegSide` | analysis/crossvenue_paired_world.go:78-80 | strict positive time never exceeds leg-side positive time, and neither exceeds the horizon, so both defensive errors are unreachable |
| `CrossVenueWorld.Summarize` | analysis/crossvenue_paired_world.go:51-82 | succeeds exactly on declared, admissible worlds; every summary it returns passes the comparison's own validation |
| `CrossVenueWorld.SummaryIgnoresVenueOrder` | analysis/crossvenue_paired_world.go:161-163 | all counts and durations of a summary are unchanged when the pair is listed the other way round |
| `CrossVenueWorld.Compare` | analysis/crossvenue_paired_world.go:107-159 | succeeds exactly when every seed has one valid, compatible OFF and ON world; returns their contrasts by ascending seed |
| `CrossVenueWorld.ContrastsIgnoreOrder` | analysis/crossvenue_paired_world.go:111-158 | contrasts do not depend on the order of the worlds |
| `CrossVenueStages.ObserveAll` | analysis/crossvenue_stage_diagnostic.go:26-39 | one observation moves every tracker and its metric as specified |
| `CrossVenueStages.FollowToTheEnd` | analysis/crossvenue_stage_diagnostic.go:26-39 | a tracker earns the count, the total time and the zero-length count of the maximal runs of its condition |
| `CrossVenueStages.Diagnose` | analysis/crossvenue_stage_diagnostic.go:45-109 | succeeds exactly on well-formed evidence of both venues and returns the exposure of each stage, both directions added |
| `CrossVenueStages.FeeStageIsThePredicate` | analysis/crossvenue_stage_diagnostic.go:91-94 | the fee-positive stage is exactly the evaluator's positive direction: gross crossing and depth are implied |
| `CrossVenueStages.ExposuresNest` | analysis/crossvenue_stage_diagnostic.go:91-97 | fee time is within depth time, within gross time, within two-sided time, within twice the horizon |
| `CrossVenueStages.FeeExposureIsStrictTime` | analysis/crossvenue_stage_diagnostic.go:83-107 | strict positive time is at most fee exposure, which is at most twice strict positive time |
| `BookReplay.ValidateProjection` | analysis/crossvenue_public_replay.go:177-215 | accepts a public ladder exactly when it is the displayed projection of the full one, and returns it |
| `BookReplay.ProjectionIsPointwise` | analysis/crossvenue_public_replay.go:206-213 | acceptance means that at every price the public ladder displays what the full book shows |
| `BookReplay.BestOf` | analysis/crossvenue_public_replay.go:217-230 | one pass over a map in any order finds its best positive level |
| `BookReplay.BestIsUnique` | analysis/crossvenue_public_replay.go:217-230 | the best level does not depend on map iteration order |
| `BookReplay.SortedLevels` | analysis/crossvenue_public_replay.go:232-244 | all levels of a map, best first |
| `BookReplay.LevelsAreUnique` | analysis/crossvenue_public_replay.go:232-244 | the sorted levels do not depend on map iteration order |
| `BookReplay.TouchIsHead` | analysis/crossvenue_public_replay.go:217-244 | the touch is the head of the sorted levels, and absent exactly when there are none |
| `BookReplay.DepthState.Observe` | analysis/crossvenue_public_replay.go:110-145 | applies a snapshot or delta in place, or refuses it |
| `BookReplay.DepthState.Consume` | analysis/crossvenue_consumed_source.go:143-170 | what the actor's local book does with one message, refusing a delta before any snapshot |
| `BookReplay.Replay` | analysis/crossvenue_public_replay.go:84-158 | succeeds exactly on ordered, readable streams of both venues; reports each event's touch and both terminal ladders |
| `BookReplay.BookIsLastQuantity` | analysis/crossvenue_public_replay.go:110-145 | at every price the replayed book holds the last delta since the latest snapshot, absent if zero, otherwise what that snapshot's full ladder displays |
| `BookReplay.BooksArePositive` | analysis/crossvenue_public_replay.go:140-144 | a replayed book never holds a level without quantity |
| `BookReplay.ActorHoldsThePublicBook` | analysis/crossvenue_consumed_source.go:100-170 | from any snapshot on, an actor that consumes every message holds exactly the public book, whatever it held before |
| `BookReplay.ReplayFeedsEpisodes` | analysis/crossvenue_public_replay.go:146-148 | the reported transitions are admissible to the episode reconstruction |
| `BookReplay.LatestTouchIsTheBooks` | analysis/crossvenue_public_replay.go:146-148 | at every point the latest reported touch of a venue is the touch of its current book |
| `Closeout.ValueVenueLocalInventory` | analysis/crossvenue_closeout.go:40-126 | available exactly when the convention, book, depth and amounts allow it, and then worth quote change plus gross less fees; otherwise the reason is true of the input |
| `Closeout.CloseoutIsBest` | analysis/crossvenue_closeout.go:73-109 | an available closeout covers exactly the position and no other allocation over the displayed levels brings in more |
| `Closeout.CloseoutIsNearExact` | analysis/crossvenue_closeout.go:84-103 | gross cash differs from the exact value by less than one unit per level consumed |
| `Closeout.GrossIsNear` | analysis/crossvenue_closeout.go:84-103 | truncated notionals are at most the exact value and less than one unit per consumed level below it |
| `Closeout.ValuationIgnoresListing` | analysis/crossvenue_closeout.go:65-71 | for distinct prices neither availability nor value depends on the order in which levels are listed |
| `ActorResponses.BaseActor.DecodeResponse` | actor/actor.go:452-564 | the actor's maps and the returned events after one response |
| `ActorResponses.BaseActor.ApplyOrderEvent` | actor/actor.go:574-592 | a fill adds to the filled quantity with wrap-around; a full fill or cancel removes the order and its request |
| `ActorResponses.BaseActor.CancelOrder` | actor/actor.go:734-749 | the next value of the request counter, modulo 2^64, is filed against the order; after a wrap it may repeat an earlier one |
| `ActorResponses.RunStaysSeparated` | actor/actor.go:529-547 | no order is ever both active and buffered |
| `ActorResponses.NoticesConserved` | actor/actor.go:486-549 | per order, the notices returned followed by those still buffered are the notices received, in arrival order, each once |
| `ActorResponses.AcceptanceComesFirst` | actor/actor.go:473-492 | no fill or forced cancel is returned before its order's acceptance |
| `ActorResponses.FilledQuantityIsReturnedFills` | actor/actor.go:575-586 | an active order's filled quantity is the wrapped sum of the fills returned since its acceptance |
| `ActorResponses.RequestIndexIsInverse` | actor/actor.go:474-478 | with unique request and order identities, the request index and the active orders are mutually inverse |
| `EvidenceDigest.ArtifactSum256.AddLimbs` | analysis/evidenceartifact.go:34-50 | rippling a carry over four limbs adds modulo 2^256 |
| `EvidenceDigest.ArtifactSum256.Merge` | analysis/evidenceartifact.go:54-70 | merging adds digests modulo 2^256 and counts with wrap-around |
| `EvidenceDigest.ValueDeterminesLimbs` | analysis/evidenceartifact.go:72-78 | different residues have different limbs, hence different printed digests |
| `EvidenceDigest.HashFile` | analysis/evidenceartifact.go:125-144 | a readable file contributes the digest of its records; a blank record or a scan error fails it |
| `EvidenceDigest.DigestIsOfTheMultiset` | analysis/evidenceartifact.go:34-70 | digest and count depend only on the multiset of records |
| `EvidenceDigest.EverySchedulePublishesTheDigest` | analysis/evidenceartifact.go:83-123 | however workers interleave, a finished scan fails exactly when some file is corrupt, and otherwise its total is the digest of all records |
| `EvidenceDigest.SchedulesAreShort` | analysis/evidenceartifact.go:83-123 | a schedule takes at most two moves per file and one per worker |
| `EvidenceDigest.SomeMoveIsEnabled` | analysis/evidenceartifact.go:83-123 | until the scan has finished, some worker can move |
| `EvidenceDigest.EveryMaximalSchedulePublishes` | analysis/evidenceartifact.go:83-123 | a schedule that cannot be continued has finished, and so fails exactly on a corrupt file and otherwise publishes the digest of all records |
| `EvidenceDigest.EveryScheduleCompletes` | analysis/evidenceartifact.go:83-123 | every schedule can be continued to one that finishes |
| `EvidenceDigest.DigestIsIndependentOfLayout` | analysis/evidenceartifact.go:83-123 | any two layouts of the same records, worker counts and schedules publish one digest and one count |
| `SubmissionJoin.MatchComponents` | analysis/crossvenue_submission_join.go:126-146 | accepts exactly when every component repeats one of the two distinct feeds and none repeats another component |
| `SubmissionJoin.Bind` | analysis/crossvenue_submission_join.go:24-124 | returns the groups of the one binding of decisions to placements, or shows that no binding exists; the final unclaimed-placement test cannot fail |
| `SubmissionJoin.LegsArePlacements` | analysis/crossvenue_submission_join.go:99-122 | decisions and placements correspond one to one |
| `SubmissionJoin.LegSides` | analysis/crossvenue_submission_join.go:79-117 | the buy leg is a buy placement and the sell leg a sell placement |
| `PlacementJoin.Reconcile` | analysis/crossvenue_placement_join.go:28-119 | succeeds exactly when placements, acknowledgements and fills are consistent and every accepted order is filled to the lot; each result carries its acknowledgement and settled quantity |
| `TerminalGroups.AuditLeg` | analysis/crossvenue_terminal_groups.go:50-96 | a leg's result repeats its placement, and an accepted leg gathers all its fills, none already taken |
| `TerminalGroups.ReconcileTerminal` | analysis/crossvenue_terminal_groups.go:16-124 | the verdict on at most one attempt, or a proof that no pair of results settles it under the router's counters |
| `RouterAccounts.Balances` | analysis/crossvenue_accounts.go:134-167 | net holdings of an account exactly when it has no exposure, debt, lock or undeclared asset |
| `RouterAccounts.ReconcileAccounts` | analysis/crossvenue_accounts.go:31-115 | succeeds exactly when settled fills explain both accounts' base and quote changes |
| `RouterAccounts.BaseDeltasAreNetFills` | analysis/crossvenue_accounts.go:64-113 | the two base changes add up to the net signed quantity of all fills |
| `RouterAccounts.QuoteDeltasAreNetCash` | analysis/crossvenue_accounts.go:69-113 | the two quote changes add up to the truncated notionals of sales less purchases, less every fee |
| `JoinChain.BaseDeltasCountAcceptedLegs` | analysis/crossvenue_accounts.go:64-113 | when all joins succeed on the same inputs, the two base changes add up to one lot per accepted buy less one per accepted sell |
| `JoinChain.MatchedFokNetsToZero` | analysis/crossvenue_terminal_groups.go:98-106 | one attempt leaves one lot per accepted buy less one per accepted sell in net base; it is matched exactly when both legs were accepted, and then leaves zero |
| `JoinChain.TerminalRefusesOnlyCounters` | analysis/crossvenue_terminal_groups.go:28-123 | after the earlier joins succeed, one attempt always settles, so the terminal step can refuse it only because the counters disagree |
| `CarryChoice.EligibleIsNetBps` | analysis/dated_carry_p5.go:563-588 | a numerator passes its minimum exactly when the exact rational net carry in basis points reaches the required one |
| `CarryChoice.ChoiceIsLargest` | analysis/dated_carry_p5.go:529-561 | a candidate is chosen exactly when inputs and a touch are available; it is an available direction with the largest numerator |
| `CarryChoice.FairIffFourFeesStayNonNegative` | analysis/dated_carry_p5.go:575-575 | for a taker fee, the chosen candidate is eligible exactly when some direction is, under every admissible policy and decision, if and only if four fees do not wrap below zero |
| `CarryChoice.FairWhenFeeIsNonNegative` | analysis/dated_carry_p5.go:346-359 | non-negative cost components and uncrossed books make the choice fair for every decision |
| `CarryChoice.UnfairWhenFeeWraps` | analysis/dated_carry_p5.go:575-575 | a concrete policy and decision for every wrapping fee on which an eligible direction is passed over |
| `Conservation.AddValue` | analysis/conservation.go:331-338 | one key gains the amount when the sum fits; every other key is unchanged |
| `Conservation.VenueAudit.Observe` | analysis/conservation.go:605-701 | the accumulators after one movement: malformed, overflowing, unsupported or booked |
| `Conservation.VenueReport.AddLedgers` | analysis/conservation.go:956-997 | the reported side: every bucket of the first ledger of every named venue, whatever the map order |
| `Conservation.CountMapMismatches` | analysis/conservation.go:1187-1202 | the number of keys of either map that read differently, zero exactly when the maps agree with missing read as zero |
| `Conservation.CountChainMismatches` | analysis/conservation.go:1204-1232 | zero exactly when every bucket chains from zero to its reported balance in sequence order and no reported balance lacks a chain |
| `Conservation.ChainTelescopes` | analysis/conservation.go:1208-1219 | a chain's deltas add up to its terminal balance |
| `Conservation.EqualBucketsEqualAssets` | analysis/conservation.go:689-691 | ledgers that agree bucket by bucket agree asset by asset |
| `Conservation.ChainsImplyBalances` | analysis/conservation.go:1035-1037 | unbroken chains and no overflow force equal holdings, and equal fee revenue once every fee reason is audited |
| `Conservation.MeasureVenue` | analysis/conservation.go:605-701 | for movements in any order: no chain mismatch and no arithmetic failure imply no balance mismatch, and no fee mismatch without unsupported records |
| `CdfOrders.CdfAudit.ProcessAccepted` | analysis/cdf_activation.go:3299-3394 | the state after an acceptance, or one more check |
| `CdfOrders.CdfAudit.ProcessOrderFill` | analysis/cdf_activation.go:3420-3510 | the state after an exchange fill, closing the order when nothing remains |
| `CdfOrders.CdfAudit.ProcessCancelled` | analysis/cdf_activation.go:3534-3605 | the state after a forced or requested cancellation, with the captured quote in strict mode |
| `CdfOrders.CdfAudit.ProcessFill` | analysis/cdf_activation.go:2970-3126 | the state after the supplier learns of a fill, through its live quote or a captured one |
| `CdfOrders.CdfAudit.RecordOrderClosure` | analysis/cdf_activation.go:3737-3790 | counters and lifetimes of a filled, cancelled, forcibly cancelled or censored order move together or not at all |
| `CdfOrders.CdfAudit.ForgetLiveOrder` | analysis/cdf_activation.go:3701-3708 | the index entry goes only if it names that order |
| `CdfOrders.CdfAudit.ReconcileFills` | analysis/cdf_activation.go:4134-4240 | adds no check for fills and captured quotes exactly when both logs match record by record and every captured quote is drawn down; then resolves the open orders one by one, in whatever order the map yields them |
| `CdfLifecycle.CleanRunsHold` | analysis/cdf_activation.go:2271-2322 | over every clean run, in either mode, the whole lifecycle invariant holds |
| `CdfLifecycle.LiveIndexIsTheScan` | analysis/cdf_activation.go:3328-3341 | the live index agrees with a scan of all live orders: one or none per supplier |
| `CdfLifecycle.OrdersAddUp` | analysis/cdf_activation.go:3445-3509 | no order is both live and ended; filled plus remaining is the original quantity, and filled is what the exchange logged |
| `CdfLifecycle.AcceptedAreAccountedFor` | analysis/cdf_activation.go:3753-3785 | accepted orders are the live, filled, cancelled and forcibly cancelled ones, per supplier, in the counter's width |
| `CdfLifecycle.QuoteLagsByUnlearnedFills` | analysis/cdf_activation.go:3494-3497 | the quote exceeds the exchange remainder by executed less learned quantity, if and only if nothing was learned before acceptance; strict mode guarantees that |
| `CdfLifecycle.CapturedQuoteLags` | analysis/cdf_activation.go:3720-3735 | a quote captured at a cancellation lags in the same way for as long as it is kept |
| `CdfReconciliation.LearnedIsExecuted` | analysis/cdf_activation.go:4141-4163 | in either mode, after a clean run whose fill logs match, every supplier has learned exactly what the exchange executed, order by order |
| `CdfReconciliation.LiveQuotesAgree` | analysis/cdf_activation.go:4141-4163 | in strict mode every live quote then equals what rests at the exchange |
| `CdfReconciliation.CapturedQuotesAreDrawn` | analysis/cdf_activation.go:4192-4207 | in strict mode the test of captured quotes never fails by itself: it holds whenever the run is clean and the fill logs match |
| `CdfReconciliation.EveryAcceptedOrderEnds` | analysis/cdf_activation.go:4208-4238 | once the open orders are censored without a check, in any order, none is open and accepted orders are the filled, cancelled, forcibly cancelled and censored ones, per supplier, in the counter width |
| `CdfEarlyFill.LagFailsOutsideStrictMode` | analysis/cdf_activation.go:3052-3088 | a run outside strict mode that is clean to its end and passes the final reconciliation, in which the lag law fails just after an acceptance |
| `CdfConcentration.MeasureVenue` | analysis/cdf_activation.go:4390-4469 | every duration is the time in its state over the sorted observations, the longest gap is the longest run, and the limit test is exact |
| `CdfConcentration.NoHoles` | analysis/cdf_activation.go:4423-4430 | a positive interval starts where the previous one ended, so a gap restarts only at the very first interval |
| `CdfConcentration.ModesCoverTheSpan` | analysis/cdf_activation.go:4443-4458 | empty, bid-only, ask-only and two-sided time add up to terminal time less first observation, when positive |
| `CdfConcentration.DominantWithinActive` | analysis/cdf_activation.go:4431-4442 | dominant time is within active time on each side, and within the observed span |
| `CdfConcentration.LongestGapIsTheLongestInterval` | analysis/cdf_activation.go:4402-4456 | the streaming maximum is attained by, and bounds, every interval throughout which the book in force is not two-sided |

## Left out

- File reading, JSON decoding, manifests, SHA-256 and provenance checks: an unreadable record is a value of the model, and the record hash is an arbitrary function to four words.
- Goroutines, tickers, contexts and the bounded event channel of the actor: only the decoded responses and the worker pool's interleavings are modelled.
- Floating-point statistics (basis, exposure, metrics, hedging, book shape, target positions): depth shares are compared as exact reals instead.
- Error and check messages: an error is a missing result, a check is a count.
- Decisions, receipts, balance snapshots and depth observations of the supplier audit: submissions and withdrawals enter the model as events.
- Reprice bookkeeping and withdrawal counters of the supplier audit: they add checks but touch neither orders nor quotes, so clean runs of the source remain clean runs of the model.
- Participant flows, interest, funding and rounding parts of the conservation audit.
- Matching of evaluations to publications by fingerprint: the model starts from the messages an actor consumed.
- Summing closeouts over venues, contract-class tables and role tables.
- CrossVenueStages.Diagnose: does not return the number of evaluated transitions; times are unbounded integers, shown to be at most twice the horizon.
- Closeout.ValueVenueLocalInventory: an unavailable result carries its reason but not the partly accumulated totals.
- CdfConcentration.MeasureVenue: does not fix the order of observations equal in time and frame, where the source's stable sort keeps arrival order; durations are unbounded integers, shown to be at most the observed span.
- Conservation.MeasureVenue: counts only the arithmetic failures of the accumulators it models; the source's counter also includes others, so its zero implies the model's.
- Conservation.VenueAudit.Observe: omits the per-file sequence order, endowment and duplicate-fee counters, which do not feed the balances.
- CarryChoice.FairWhenFeeIsNonNegative: of the manifest checks only those on cost components, expiry and market age are assumed.
- ActorResponses.BaseActor.DecodeResponse: notices carry order, trade and request numbers, quantities and the full-fill mark; symbol, side, price, fee, time, reject reason and snapshots pass through the source unchanged and are not modelled.
- CdfOrders.CdfAudit.ProcessAccepted: omits the reprice bookkeeping, the decision an order came from and the total over all suppliers.
- CdfOrders.CdfAudit.ProcessOrderFill: omits the time of an order's first fill.
- CdfOrders.CdfAudit.ProcessCancelled: omits the withdrawal and reprice counters and the depth observation that follows.
- CdfOrders.CdfAudit.ProcessFill: omits the fill counter, position extremes and response windows.
- CdfOrders.CdfAudit.ReconcileFills: omits the attribution of volume and fees and the open-order totals, whose overflow would add checks; so a reconciliation that is clean in the source is clean here.  Resolved orders leave the live map, which the source keeps but reads no more.
