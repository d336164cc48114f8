# Morpho Vault V2 reallocator: verified model

This project models the planning and accounting core of a reallocator for Morpho vaults and proves what that
core promises. It has five parts.

- **Protocol arithmetic.** Share conversions with virtual offsets and opposing rounding, interest accrual with
  fee shares, the signed fixed-point Adaptive Curve rate model with its range-reduced exponential, and the supply
  and withdraw transitions of market adapters and of a wrapped EIP-4626 vault. Modules `Checked`, `SharePool`,
  `BlueMath`, `AdaptiveCurve`, `Market`, `VaultV1Adapter`, `VaultV2`.
- **Sequential simulator.** Markets, positions, the cap ledger, idle assets, locks and the shared token balance,
  driven by deallocations and then allocations. `Simulation` gives the value after each step, `Simulator` the
  mutable objects that follow it, `SimulationRuns` and `PlanGuarantees` what every accepted list keeps,
  `ExitCoverage` and `DepositHeadroom` the bisections for the largest exit and deposit, and `Conformance` the token
  transfers a plan must cause.
- **Bounded searches.** Candidate lattices and distributions (`Candidates`), allocation orders (`CapOrder`),
  movement candidates (`Movement`), lexicographic ranking (`Objective`) and the two-pass rate search
  (`RateSolver`). `Ordering` holds the vector and set orders they share.
- **Durable strategy state.** Rate episodes (`Episodes`) and top-K membership (`TopKTarget`, `TopK`).
- **Chain and publication protocols.** Block ingestion against an unreliable provider (`Chain`) and the API
  artifact cache with delayed writers (`ApiStore`).

Code that updates objects or runs loops is modelled by classes and methods whose `ensures` tie the new state to a
specification function; code made of expressions is modelled by functions. Except for block heights, all 64-, 128-
and 256-bit limits are written out, and every checked operation has its error path.

## What is given rather than modelled

- Addresses, tokens, markets and hashes are numbers. Hashing is injective, so digests of encodings are replaced by
  the encoded values.
- The projection that starts a simulation is an input. Loss bounds assume that each position's expected assets are
  those its shares are worth, as the projection produces them.
- Validated configuration bounds are assumptions where a result needs them: weights that add up to 10000, a
  smoothing factor of at most 10000, different markets for different positions, one loan token equal to the asset.
- The rate search takes service constraints and terminal shareholder value as arbitrary functions of the simulated
  state, and cap boundaries and reallocation capacities of the destinations as arbitrary maps.
- A provider answers each request arbitrarily, and every fetch, write and publication may fail.

## Where the code does not do what its text suggests

- A rewind trusts the height inside the header it takes as common ancestor. `Chain.MisnumberedAncestor` gives a poll
  that succeeds and leaves the cursor above every stored block; `Chain.RewindValidIff` gives the exact condition.
- A reopened movement is said to return to the tranche that authorised it. Both tranches have the same frozen
  budget, so `Episodes.PersistentReopensAsImmediate` holds, `Episodes.ReopenPhase` says exactly when the persistent
  phase comes back, and `Episodes.UnlockAddsNothing` shows that unlocking adds no budget.
- The bisection for the largest amount fails with an arithmetic error when its upper bound is the largest 256-bit
  value, whatever the predicate (`ExitCoverage.MonotoneMaximum`).
- A candidate lattice keeps zero, the minimum action and the maximum only when its limit admits all of them
  (`Candidates.LatticeHolds`, with `Candidates.LatticeLosesBoundary` as an instance).
- Two complete rate passes are reported incomplete when twice the node limit exceeds 64 bits
  (`RateSolver.CombineExactly`, with `RateSolver.CombineRefusesWideLimits` as an instance).
- The deposit bisection takes its test to be downward closed. `DepositHeadroom.ClosedExactly` says for which caps it
  is: those whose limit does not move with the total, or that hold at most one unit. For every other cap
  `DepositHeadroom.DepositNotClosed` gives a state in which 3 passes and 2 does not, and
  `DepositHeadroom.DepositNearlyClosed` says how far the test can be off. Through the wrapped vault it can fail even
  under a fixed limit (`DepositHeadroom.AdapterNotClosed`), exactly when one unit mints no share
  (`DepositHeadroom.AdapterClosedExactly`).

## Model

| member | source | states |
|---|---|---|
| BlueMath.MulDivDownIsFloor | src/morpho/blue_math.rs:17-26 | exact floor of the quotient; succeeds if and only if the denominator is nonzero and the product fits 256 bits |
| BlueMath.MulDivUpIsCeiling | src/morpho/blue_math.rs:28-43 | exact ceiling of the quotient; succeeds if and only if the rounded product fits 256 bits |
| BlueMath.DepositThenRedeem | src/morpho/blue_math.rs:94-123 | minting shares and redeeming them at the same totals never returns more than was paid |
| BlueMath.WithdrawCoversAssets | src/morpho/blue_math.rs:105-123 | the shares burned for a withdrawal are worth at least the withdrawn assets |
| AdaptiveCurve.RangeReduction | src/morpho/adaptive_curve.rs:72-112 | the truncating division picks the nearest multiple of ln 2, within -60 and 135, with a remainder of at most half of ln 2 either way |
| AdaptiveCurve.OctavesAscend | src/morpho/adaptive_curve.rs:72-112 | the largest value of one range-reduction piece is at most the smallest value of any later piece |
| AdaptiveCurve.WExpIsRaw | src/morpho/adaptive_curve.rs:72-112 | between the cut-offs no checked step or wrapping shift loses anything: the fixed-point code computes the unbounded polynomial and power-of-two scaling |
| AdaptiveCurve.RawAtUpperCutOff | src/morpho/adaptive_curve.rs:72-112 | the clamp constant is the value the formula has at the upper cut-off |
| AdaptiveCurve.WExpMonotone | src/morpho/adaptive_curve.rs:72-112 | for every signed 256-bit argument the exponential succeeds, is non-negative, at most the clamp value, and monotone across all pieces and cut-offs |
| AdaptiveCurve.CurveMonotone | src/morpho/adaptive_curve.rs:133-147 | the curve is monotone in target rate and error and lies between a quarter (rounded down) and four times the target rate |
| AdaptiveCurve.SpotRateMonotone | src/morpho/adaptive_curve.rs:207-215 | the spot rate is monotone in utilization and lies between a quarter (rounded down) and four times the target rate |
| AdaptiveCurve.NewRateMonotone | src/morpho/adaptive_curve.rs:149-155 | adapting a rate in the band succeeds for any exponent, stays in the band, is monotone, and is the identity at zero |
| AdaptiveCurve.AdaptTargetMonotone | src/morpho/adaptive_curve.rs:157-202 | for a stored rate that is zero or in the band and any elapsed time, ending and average target rate exist, stay in the band and are monotone in the error |
| AdaptiveCurve.UtilizationBounds | src/morpho/adaptive_curve.rs:157-202 | utilization of a market within uint128 with borrow at most supply exists and is at most one |
| AdaptiveCurve.BorrowRateTotal | src/morpho/adaptive_curve.rs:157-202 | for such a market, stored rate and elapsed time no checked step fails and the ending target rate is in the band |
| AdaptiveCurve.BorrowRateMonotone | src/morpho/adaptive_curve.rs:157-202 | at the same stored rate and elapsed time, higher utilization never gives a lower ending or average rate |
| Market.AllocateEffect | src/morpho/market_adapter.rs:78-119 | what a successful supply does to assets, shares, valuation and allocation change, with the minted shares as the exact floor and rates already refreshed |
| Market.DeallocateEffect | src/morpho/market_adapter.rs:121-165 | what a successful withdrawal does, with the burned shares as the exact ceiling, never more than the adapter owns |
| Market.AllocateLowersRates | src/morpho/market_adapter.rs:53-119 | supplying never raises utilization, borrow rate or supply rate |
| Market.DeallocateRaisesRates | src/morpho/market_adapter.rs:53-165 | withdrawing never lowers utilization, borrow rate or supply rate |
| Market.FeeSharesKeepPrice | src/morpho/fees.rs:35-86 | fee shares never lower the virtual share price and are worth at most the fee share of the interest |
| Market.AccrueKeepsPrice | src/morpho/fees.rs:35-86 | accrual adds the same interest to supply and borrow, mints exactly the fee shares and never lowers the virtual share price |
| Market.RunKeepsPrice | src/morpho/market_adapter.rs:78-165 | over every interleaving of successful accruals, supplies and withdrawals the virtual share price never falls |
| Market.BystanderNeverLoses | src/morpho/market_adapter.rs:36-45 | hence over every such run the asset value of any share amount never drops |
| VaultV1Adapter.ComputeVirtualShares | src/morpho/vault_v1_adapter.rs:36-44 | the multiplication loop gives ten to the decimals offset, and fails exactly when that exceeds 256 bits |
| VaultV1Adapter.PreviewsOppose | src/morpho/vault_v1_adapter.rs:62-92 | depositing and redeeming returns at most what was paid; the shares previewed for a withdrawal redeem to at least the assets |
| VaultV1Adapter.AllocateEffect | src/morpho/vault_v1_adapter.rs:101-164 | a deposit never lowers the wrapped share price, keeps a price of at most one, and loses at most the ceiling of the price |
| VaultV1Adapter.DeallocateEffect | src/morpho/vault_v1_adapter.rs:166-235 | a withdrawal never lowers the wrapped share price, keeps a price of at most one, and loses at most the ceiling of the price |
| VaultV2.FeeMintsKeepPrice | src/morpho/vault_v2.rs:56-101 | performance and management fee shares together are worth at most the fees and keep the price of the assets without fees |
| VaultV2.AccrualKeepsPrice | src/morpho/vault_v2.rs:28-101 | the accrued total is the real assets limited by the maximum rate, and after the mint (total+1)/(supply+virtual) is at least (assets without fees+1)/(old supply+virtual) |
| SimulationRuns.StepMovesCash | src/planner/simulator.rs:750-1147 | one action moves exactly its requested assets between idle and Morpho's balance and leaves locks alone |
| SimulationRuns.RunMovesIdle | src/planner/simulator.rs:1149-1184 | every accepted list moves idle by the signed sum of its requests and keeps the locks covered |
| SimulationRuns.RunConservesCash | src/planner/simulator.rs:1149-1184 | at the end of every accepted list idle plus Morpho's balance is unchanged, idle moved by the signed requests and still covers the locks |
| SimulationRuns.PrefixAccepted | src/planner/simulator.rs:1149-1184 | every prefix of an accepted list is accepted, so the run results hold at every prefix |
| SimulationRuns.RunKeepsAttribution | src/planner/simulator.rs:882-914 | through every accepted run a direct cap's ledger value minus the recorded allocations of the positions touching it is constant |
| SimulationRuns.RunKeepsInStep | src/planner/simulator.rs:750-1147 | through every accepted run the liquidity adapter's cap keeps holding exactly what the adapter records |
| SimulationRuns.RunAdmits | src/planner/simulator.rs:1066-1131 | at the end of every accepted run each cap touched by an allocation passes admission against the one write-once total |
| SimulationRuns.StepLoss | src/planner/simulator.rs:750-1147 | an action loses at most the ceiling of its pool's virtual share price; a direct allocation at most one unit |
| SimulationRuns.RunLoss | src/planner/simulator.rs:1149-1184 | when every touched pool is priced at or below one, a run loses at most one unit per action |
| PlanGuarantees.PlanConservesCash | src/planner/simulator.rs:205-272 | from the projection on, idle plus Morpho's balance equals the snapshot's and the verified locks stay covered |
| PlanGuarantees.PlanMovesIdle | src/planner/simulator.rs:1149-1184 | a plan changes idle assets by exactly the signed sum of its requests |
| PlanGuarantees.PlanKeepsCaps | src/planner/simulator.rs:1066-1131 | each cap's ledger changes by exactly what its positions' recorded allocations change, and every cap allocated into is admitted |
| PlanGuarantees.PlanLoss | src/planner/simulator.rs:1149-1184 | with projected valuations and pools priced at or below one, a plan's immediate loss is at most its number of actions |
| Simulator.SharedTokenLiquidity.RegisterBalance | src/planner/liquidity.rs:44-58 | a second observation of a token balance must agree with the first |
| Simulator.SharedTokenLiquidity.ConsumeAssets | src/planner/liquidity.rs:61-70 | takes exactly the assets from the shared balance or fails and changes nothing |
| Simulator.SharedTokenLiquidity.CreditAssets | src/planner/liquidity.rs:73-82 | returns exactly the assets to the shared balance or fails and changes nothing |
| Simulator.SimulationState.Deallocate | src/planner/simulator.rs:750-930 | the mutable state after a direct deallocation is the specified one |
| Simulator.SimulationState.DeallocateFromLiquidity | src/planner/simulator.rs:750-930 | the mutable state after a liquidity-adapter deallocation is the specified one |
| Simulator.SimulationState.EstablishTotal | src/planner/simulator.rs:932-1147 | the first allocation fixes the accrued total once; later ones reuse it |
| Simulator.SimulationState.Allocate | src/planner/simulator.rs:932-1147 | the mutable state after a direct allocation is the specified one, with every cap admitted |
| Simulator.SimulationState.AllocateIntoLiquidity | src/planner/simulator.rs:932-1147 | the mutable state after a liquidity-adapter allocation is the specified one |
| Simulator.RunActions | src/planner/simulator.rs:1149-1184 | the action loop with its phase and touched-position checks follows the specified run |
| ExitCoverage.MonotoneMaximum | src/planner/simulator.rs:616-641 | the bisection ends at an amount that passes (or zero) and whose successor fails (or is past the bound), for any predicate that does not fail; at the largest bound it always fails |
| ExitCoverage.BoundaryIsMaximum | src/planner/simulator.rs:616-641 | for a downward-closed predicate that amount separates exactly the passing from the failing amounts |
| ExitCoverage.WithdrawDownwardClosed | src/morpho/market_adapter.rs:121-165 | on uint128-bounded markets a smaller withdrawal succeeds whenever a larger one does |
| ExitCoverage.AtomicExitCoverage | src/planner/simulator.rs:521-576 | coverage is idle plus what the liquidity adapter or the direct adapter gives; for the direct adapter an amount is covered if and only if it can be withdrawn within the recorded valuation |
| ExitCoverage.ExitIsExact | src/planner/simulator.rs:521-576 | the bisection bounds never exclude an amount that could be withdrawn within the recorded valuation |
| ExitCoverage.CurrentValuationNeverBinds | src/planner/simulator.rs:521-576 | a current valuation never limits the exit below what the market allows |
| DepositHeadroom.RefreshTotal | src/morpho/market_adapter.rs:53-74 | rates of a solvent market within uint128 with its target rate unset or in the band refresh if and only if the fee is at most one |
| DepositHeadroom.ValueGrows | src/morpho/market_adapter.rs:78-119 | in a pool priced at or below one a larger deposit raises its owner's valuation by the difference, up to one unit |
| DepositHeadroom.AllocateSmaller | src/morpho/market_adapter.rs:78-119 | whenever a supply succeeds every smaller one does, with a valuation no higher and lower by at least the difference less one unit |
| DepositHeadroom.DepositNearlyClosed | src/planner/simulator.rs:485-518 | below a passing deposit every deposit passes that is far enough from it for each moving cap: (b - a) * (WAD - relative cap) at least WAD |
| DepositHeadroom.DepositDownwardClosed | src/planner/simulator.rs:485-518 | with caps whose limit is fixed or that hold at most one unit, every deposit below a passing one passes |
| DepositHeadroom.DepositNotClosed | src/planner/simulator.rs:485-518 | for every other cap there is a sound state in which a deposit of 3 passes and one of 2 does not |
| DepositHeadroom.ClosedExactly | src/planner/simulator.rs:485-518 | a cap keeps the test downward closed in every sound state if and only if its limit is fixed or it holds at most one unit |
| DepositHeadroom.AdapterSucceeds | src/morpho/vault_v1_adapter.rs:101-164 | below a successful deposit into the wrapped vault exactly those succeed that mint shares in the vault and its idle market |
| DepositHeadroom.AdapterNearlyClosed | src/planner/simulator.rs:448-462 | below a passing adapter deposit, one that is far enough from it for the relative cap passes if and only if it mints shares |
| DepositHeadroom.AdapterClosedExactly | src/planner/simulator.rs:448-462 | under a fixed limit everything below a passing adapter deposit passes if and only if one unit mints shares |
| DepositHeadroom.AdapterNotClosed | src/planner/simulator.rs:448-462 | in a wrapped vault priced above one a deposit of 3 can pass where 1 does not, under a fixed limit |
| DepositHeadroom.BoundaryIsLargest | src/planner/simulator.rs:485-518 | a larger deposit than the bisection finds passes only within the spacing of a moving cap; with fixed limits the search is exact |
| DepositHeadroom.BoundaryIsLargestThroughAdapter | src/planner/simulator.rs:448-462 | under a fixed limit a larger adapter deposit passes only if the search found nothing and one unit mints no share |
| DepositHeadroom.MaximumExecutableDeposit | src/planner/simulator.rs:418-519 | zero for closed gates, the remaining width without a liquidity adapter, errors for missing state and otherwise a boundary of the deposit test, largest in the sense of the two rows above |
| Conformance.TransfersBalance | src/reconciliation/conformance.rs:643-721 | with distinct parties the expected transfers net the vault by what was returned, Morpho by the opposite, and everyone else to zero |
| Conformance.TransfersMatchSimulation | src/reconciliation/conformance.rs:643-721 | the transfers of a simulated list net the vault by exactly the simulated idle change and Morpho by exactly the shared-balance change |
| Candidates.ProducedAreDistributions | src/planner/candidates.rs:111-166 | the vectors produced over all sinks are exactly those that add up to the total, stay within maxima and minimum action and take all but one entry from the lattices |
| Candidates.BoundedDistributions | src/planner/candidates.rs:111-166 | a returned list is sound, complete, duplicate-free and ordered; the search gives up exactly when an intermediate or final list would pass the limit |
| Candidates.LatticeHolds | src/planner/candidates.rs:37-109 | a lattice is ascending, within maximum and limit, contains zero, and contains all core boundaries exactly when the limit admits them; a small maximum is enumerated completely |
| Candidates.LatticeLosesBoundary | src/planner/candidates.rs:37-109 | a limit of two loses a core boundary of a ten-unit range with minimum action two |
| Candidates.PrefixSurvives | src/planner/candidates.rs:37-109 | all leading priorities survive the limited selection if and only if they are at most as many as the limit |
| Candidates.BuildLattice | src/planner/candidates.rs:37-109 | the priority loop builds exactly the specified lattice |
| CapOrder.CanonicalSorts | src/planner/cap_order.rs:25-48 | the canonical order is a stable, key-ordered permutation of the given actions |
| CapOrder.CanonicalForgetsOrder | src/planner/cap_order.rs:123-138 | when different actions have different keys, any listing of the same actions gives the same canonical order |
| CapOrder.TreeCountsPrefixes | src/planner/cap_order.rs:64-112 | the search tree over n indices has as many nodes as there are prefixes, the sum over k of n!/(n-k)! |
| CapOrder.CompletionsArePermutations | src/planner/cap_order.rs:64-112 | what the search reaches below a prefix is exactly its completions by each remaining index once, in strictly ascending lexicographic order |
| CapOrder.FeasibleMembers | src/planner/cap_order.rs:80-97 | an outcome is listed if and only if some order's simulation succeeds with it |
| CapOrder.Search.Visit | src/planner/cap_order.rs:64-112 | hands prefix and remaining set back unchanged, is complete exactly when the limit admits the whole subtree, appends exactly the feasible orders below (a prefix of them when cut off), and counts each seen prefix once |
| CapOrder.SearchAllocationOrders | src/planner/cap_order.rs:116-158 | fails exactly on wrong action kinds; complete exactly when the node limit is at least the number of prefixes, and then returns every feasible permutation once in lexicographic order |
| Movement.MarketMoves | src/planner/top_k_apy.rs:1095-1137 | in a candidate a market only drains or only fills, never past its target, its minimum position, its headroom or its action limit |
| Movement.DistanceFalls | src/planner/top_k_apy.rs:1161-1231 | the sum of distances to target falls by exactly what markets give plus what markets take |
| Movement.CandidateIsOneWay | src/planner/top_k_apy.rs:1095-1231 | no position of a candidate is both drained and filled |
| Movement.CandidateMoves | src/planner/top_k_apy.rs:1161-1231 | a candidate only drains or only fills each position, deallocates and allocates the same total and lowers the distance to target by exactly twice that total |
| Movement.MovementCandidates | src/planner/top_k_apy.rs:1078-1232 | every candidate of the search is such a movement, and a search that reports itself complete has tried every pair of distributions |
| Objective.RanksByKey | src/planner/objective.rs:42-118 | for every plan class the branching comparison is the lexicographic order of a single key |
| Objective.RanksStrictly | src/planner/objective.rs:42-118 | the ranking is a strict weak order for every plan class |
| Objective.BestReachesCheaply | src/planner/objective.rs:67-101 | when the target is reachable, a plan nothing outranks reaches it with the least movement |
| Objective.SpreadIsLargestGap | src/planner/objective.rs:122-133 | the spread is the largest gap between two values, attained, and zero for at most one value |
| Objective.RateSpread | src/planner/objective.rs:122-133 | the one-pass minimum and maximum give that spread |
| RateSolver.AcceptedFacts | src/planner/rate.rs:550-638 | an accepted candidate simulates successfully and meets the service, idle, loss, terminal-value and spread constraints with the metrics it reports |
| RateSolver.RejectCounts | src/planner/certificate.rs:39-48 | a rejection raises exactly one counter by one |
| RateSolver.Evaluate | src/planner/rate.rs:524-638 | every evaluated node is either kept or counted as a rejection, and no counter can overflow |
| RateSolver.ExamineAmount | src/planner/rate.rs:484-641 | an untruncated movement amount has every pair of distributions evaluated |
| RateSolver.ChooseBest | src/planner/rate.rs:647-660 | the linear scan returns a candidate that no other outranks |
| RateSolver.SearchRateRebalance | src/planner/rate.rs:264-666 | whatever is returned came from the frozen space; a complete search has nothing in that space that outranks its result and reports the target reachable exactly when it is |
| RateSolver.CombineExactly | src/planner/rate.rs:141-176 | two passes combine into an executable certificate if and only if both are complete and their limits add up within 64 bits; nodes and counters are then the sums |
| RateSolver.CombineRefusesWideLimits | src/planner/rate.rs:141-176 | two complete passes with a limit of 2^63 nodes are not executable together |
| RateSolver.SolveRateRebalance | src/planner/rate.rs:198-260 | an executable plan is the best of a complete final pass under the limit set by an executable full pass |
| RateSolver.FinalMovement | src/planner/rate.rs:178-260 | its movement is at most the tranche of the optimal movement and at most the unlocked budget |
| RateSolver.SearchedPlan | src/planner/rate.rs:264-666 | a plan never moves more than its budget and deallocates and allocates exactly its movement |
| RateSolver.PlanInDirection | src/planner/rate.rs:337-415 | every action drains a source or fills a destination of the frozen direction within minimum position, ceiling and action limit |
| RateSolver.FinalPassGuarantees | src/planner/rate.rs:198-260 | the movement can be reserved on the same episode, idle assets are unchanged, and the direction and limits hold |
| RateSolver.Build | src/planner/rate.rs:36-70 | a returned plan has all these guarantees and simulates under every projected scenario; errors only for a missing episode or projection |
| Episodes.StartIsValid | src/planner/episodes.rs:145-209 | starting succeeds exactly for non-empty disjoint directions with a positive lifetime, and then satisfies the invariant |
| Episodes.StepKeepsValid | src/planner/episodes.rs:212-465 | every operation, successful or not, keeps confirmed plus pending within the baseline, Complete exactly with a stop reason, ordered distinct events and the frozen fields; a failing one leaves both counters alone |
| Episodes.RunKeepsValid | src/planner/episodes.rs:212-465 | the same over every run of operations |
| Episodes.BaselineFrozenOnce | src/planner/episodes.rs:212-233 | once frozen, baseline and confirmation block never change again, whatever follows |
| Episodes.RunConservesMovement | src/planner/episodes.rs:308-375 | over every run confirmed plus pending is exactly what was reserved and not released |
| Episodes.AvailableExactly | src/planner/episodes.rs:282-305 | the available budget is the whole remainder in both active phases, and missing exactly when a closed episode has moved anything |
| Episodes.UnlockAddsNothing | src/planner/episodes.rs:378-384 | unlocking the persistent phase does not change the available budget |
| Episodes.ReserveWithinBudget | src/planner/episodes.rs:308-318 | exactly which reservations succeed |
| Episodes.ReopenUndoesConfirm | src/planner/episodes.rs:331-375 | a reserved, confirmed and orphaned movement is pending again and nothing else changed |
| Episodes.ReopenPhase | src/planner/episodes.rs:348-375 | reopening with the recorded budget ends in the persistent phase exactly when later confirmations have outgrown the totals at the reservation |
| Episodes.PersistentReopensAsImmediate | src/planner/episodes.rs:348-375 | a movement reserved in the persistent phase and orphaned at once reopens as immediate |
| Episodes.TornConfirmation | src/planner/episodes.rs:331-343 | on arbitrary values a failing confirmation drops the reservation exactly when the confirmed total would overflow |
| Episodes.ShortConfirmationSpan | src/planner/episodes.rs:240-279 | short confirmation takes a block span of at least the required length and freezes the given nonzero baseline |
| Episodes.ObservationFollows | src/planner/episodes.rs:240-279 | an accepted new observation is strictly higher, not earlier, and linked when it is the direct successor |
| Episodes.RetainedKeepsOrder | src/planner/episodes.rs:437-442 | a rewind keeps exactly the events on the surviving chain, and they are a prefix of the record |
| Episodes.ReadyMeansSpread | src/planner/episodes.rs:388-434 | ready evidence consists of different transactions after the confirmation block whose first and last delimit the span |
| Episodes.DirectionsNeverCross | src/planner/episodes.rs:445-459 | over a whole run no accepted candidate drains a market that another accepted candidate fills |
| Episodes.RateSignalEpisode.ConfirmShortly | src/planner/episodes.rs:212-233 | the object after short confirmation is the specified value |
| Episodes.RateSignalEpisode.ObserveShortConfirmation | src/planner/episodes.rs:240-279 | the object after an observation, including what a failure leaves, is the specified value |
| Episodes.RateSignalEpisode.ReservePending | src/planner/episodes.rs:308-318 | the object after a reservation is the specified value |
| Episodes.RateSignalEpisode.ReleasePending | src/planner/episodes.rs:321-328 | the object after a release is the specified value |
| Episodes.RateSignalEpisode.ConfirmPendingMovement | src/planner/episodes.rs:331-343 | the object after a confirmation is the specified value |
| Episodes.RateSignalEpisode.ReopenConfirmed | src/planner/episodes.rs:348-375 | the object after a reopening is the specified value |
| Episodes.RateSignalEpisode.RecordIndependentEvent | src/planner/episodes.rs:388-417 | the object after an event, duplicate or not, is the specified value |
| Episodes.RateSignalEpisode.RewindIndependentEvents | src/planner/episodes.rs:437-442 | the filtering loop keeps exactly the surviving events |
| TopKTarget.SmoothedBetween | src/planner/top_k_apy.rs:247-257 | a smoothed rate falls at once, rises by the floor of the configured fraction, never exceeds the current rate and fails only on overflow |
| TopKTarget.ProbeLowersRate | src/planner/top_k_apy.rs:723-749 | the post-probe rate never exceeds the current rate |
| TopKTarget.ProbeFacts | src/planner/top_k_apy.rs:682-722 | an eligible market is seeded and has a capacity within ceiling and caps that can reach its minimum position |
| TopKTarget.CollectAgain | src/planner/top_k_apy.rs:750-787 | collecting again in the same block from the stored rates gives the same evidence |
| TopKTarget.RankSorts | src/planner/top_k_apy.rs:776-781 | ranking keeps the evidence and orders it strictly by rate and identifier |
| TopKTarget.BoostedSums | src/planner/top_k_apy.rs:323-350 | boosting validated weights never fails, gives the top market the boost, keeps the others in proportion by floors, and adds up to 10000 |
| TopKTarget.BoostWeights | src/planner/top_k_apy.rs:323-350 | the boosting loop computes those weights |
| TopKTarget.WeightsSum | src/planner/top_k_apy.rs:289-350 | effective weights match the selection in number and add up to 10000 |
| TopKTarget.AmountsSum | src/planner/top_k_apy.rs:366-395 | every amount but the last is the floor of its share, the last is at least its share, and together they are exactly the direct assets |
| TopKTarget.AllocateTargets | src/planner/top_k_apy.rs:366-395 | the allocation loop computes those targets |
| TopKTarget.TargetsSum | src/planner/top_k_apy.rs:366-395 | targets cover exactly the selected markets and add up to the direct assets |
| TopKTarget.ScoreWithinWad | src/planner/top_k_apy.rs:397-420 | the score is at most one and zero on target |
| TopK.ProposedShape | src/planner/top_k_apy.rs:459-587 | a proposal is the leading markets or the present fully eligible selection, has three or four different markets, and the leading markets propose themselves |
| TopK.ChangeClearsThresholds | src/planner/top_k_apy.rs:523-657 | a fully eligible selection of the right size changes only when every replacement and every promotion clears all three thresholds |
| TopK.GateMembership | src/planner/top_k_apy.rs:535-586 | the two gating loops compute the specified decision |
| TopK.ProposeMembership | src/planner/top_k_apy.rs:459-587 | the whole proposal is the specified one |
| TopK.CollectEvidence | src/planner/top_k_apy.rs:680-775 | the evidence loop, which updates smoothed rates as it goes, gives the specified evidence and leaves exactly its rates |
| TopK.ObserveTopKTarget | src/planner/top_k_apy.rs:666-864 | the step-by-step observation returns the specified memory, target and reason |
| TopK.ObserveTwice | src/planner/top_k_apy.rs:666-864 | observing the same state twice at one head returns the same memory, target and reason through every branch |
| TopK.AdvanceMoves | src/planner/top_k_apy.rs:788-845 | one observation's effect on selection, pending list, waiting time and generation, from its proposal alone |
| TopK.RunIsValid | src/planner/top_k_apy.rs:666-864 | in every run from empty memory a pending list is backed by every proposal since the time it records |
| TopK.SelectionChanges | src/planner/top_k_apy.rs:659-845 | in every run from empty memory the selection changes only when a selected market left the eligible evidence, or when every proposal since some observation was exactly the adopted list and the confirmation time has passed; the generation rises by exactly one per change; the list is empty or three or four different markets |
| TopK.GenerationCounts | src/planner/top_k_apy.rs:788-845 | in every run the generation is the number of selection changes |
| TopK.ObservedTarget | src/planner/top_k_apy.rs:846-863 | a target hands out exactly the direct assets to exactly the selected markets, with a score of at most one |
| Chain.RewindValidIff | src/storage/actor.rs:2965-3165 | a rewind keeps blocks consecutive, linked and topped by the cursor if and only if the ancestor's own height holds a block with its hash |
| Chain.ApplyKeepsValid | src/storage/actor.rs:2764-2818 | storing a linked successor keeps the store valid and every earlier block |
| Chain.CatchUpKeepsValid | src/chain/heads.rs:593-654 | whatever is answered and wherever it fails, catching up only appends, keeps the store valid, and ends at the requested head when it succeeds |
| Chain.AncestorIsHighest | src/chain/reorg.rs:10-33 | against a fixed view the search returns the highest agreeing stored height of its window, and reports a deep reorganisation only if none agrees |
| Chain.PollKeepsValid | src/chain/heads.rs:220-279 | one poll, whatever it is answered and wherever it fails, keeps stored blocks consecutive and linked as long as the ancestor it rewinds to is stored at its own height |
| Chain.RunKeepsValid | src/chain/heads.rs:220-279 | the same over every run of polls, under the guard of RewindValidIff at each rewind |
| Chain.NumberedAncestor | src/chain/reorg.rs:10-33 | an ancestor found by a provider that numbers its headers carries the height where it was found and is stored there |
| Chain.NumberedRun | src/chain/heads.rs:220-279 | a provider that numbers its headers by the requested height meets the guard in every run |
| Chain.MisnumberedAncestor | src/chain/heads.rs:688-713 | without that guard a successful poll can leave an invalid store |
| Chain.PollReachesHead | src/chain/heads.rs:220-279 | if the ancestor it rewinds to carries the height where it was found, a successful poll ends at the latest header's height, and with its hash unless the provider contradicted that header |
| Chain.PollSynchronises | src/chain/heads.rs:220-279 | against one linked view a successful poll leaves every stored block equal to the view's; without faults it fails only when no stored height in the window agrees |
| Chain.Ingestion.CatchUpBlocks | src/chain/heads.rs:593-654 | the catch-up loop follows the specified steps |
| Chain.Ingestion.FindAncestor | src/chain/reorg.rs:10-33 | the descending loop follows the specified search |
| Chain.Ingestion.RewindAndReplayFrom | src/chain/heads.rs:688-713 | rewind and replay follow the specified steps |
| Chain.Ingestion.PollOnce | src/chain/heads.rs:220-279 | one poll follows the specified steps |
| ApiStore.StepKeepsValid | src/api/routes.rs:106-320 | every operation keeps snapshot and rates together and bound by hash, and any plan bound to the snapshot context and revisions |
| ApiStore.RunKeepsValid | src/api/routes.rs:106-320 | the same over every interleaving |
| ApiStore.RunEpoch | src/api/routes.rs:128-149 | an epoch never falls and rises in a run if and only if the vault was rewound |
| ApiStore.StaleTokenRefused | src/api/routes.rs:155-201 | a token issued before a rewind of its vault is never accepted after it |
| ApiStore.RunAdvances | src/api/routes.rs:155-201 | within one epoch snapshot and projection heights never regress and never change hash |
| ApiStore.ValidatedIffPublished | src/api/routes.rs:209-224 | from an empty store a validated state exists if and only if a snapshot was published since the last rewind, and it is the cached pair |
| ApiStore.StepAdvancesPlan | src/api/routes.rs:245-264 | a cached plan is only replaced by one of a later snapshot or generation |
| ApiStore.ClearsExactly | src/api/routes.rs:276-313 | clearing removes the named plan or every plan up to a generation, and nothing else |
| ApiStore.StepIsLocal | src/api/routes.rs:106-320 | an operation touches only the vault it names |
| ApiStore.ApiDataStore.CaptureEpoch | src/api/routes.rs:106-121 | the store after taking a token is the specified one |
| ApiStore.ApiDataStore.Rewind | src/api/routes.rs:128-149 | the store after a rewind is the specified one |
| ApiStore.ApiDataStore.Record | src/api/routes.rs:155-201 | the store after a publication, accepted or not, is the specified one |
| ApiStore.ApiDataStore.CachePlan | src/api/routes.rs:245-264 | the store after offering a plan is the specified one |

## Left out

- Chain: block heights are unbounded, so saturation at the largest 64-bit height is not modelled; logs, receipts and their checks only appear as steps that may fail.
- Chain: the sparse latest-only catch-up, which leaves gaps on purpose.
- CapOrder.SearchAllocationOrders: a prefix is remembered as a vector, not as a digest of its encoding.
- Movement.MovementCandidates: destinations are taken in identifier order from a duplicate-free selection, which is the order the code sorts them into.
- RateSolver.Build: service constraints and terminal shareholder value are arbitrary functions of the state; of the constraints, exit coverage and deposit headroom are modelled on their own.
- TopK.ObserveTopKTarget: the cap-limited headroom of a market is an input, and so is the map of current assets.
- ExitCoverage.AtomicExitCoverage: its direct-adapter equivalence is stated for markets within uint128, where withdrawals are downward closed.
- DepositHeadroom.MaximumExecutableDeposit: with moving limits it is exact only up to the stated spacing, and an absent wrapped-vault share for small deposits can make it return zero, as in the code.
- Capital deployment and liquidity maintenance solvers: the same search shape as the rate search with more filters.
- Receipt conformance beyond expected transfers: event decoding and matching.
- Storage compaction, transactions, reservations and the release gate.
- Configuration parsing, providers, HTTP routes, alerts, signing and supervision.
- Contents of hashes and certificates.
