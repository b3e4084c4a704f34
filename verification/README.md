# Trading-lab backend: a verified model

This project models the parts of the backend that keep money, history and
limits straight, and proves what they promise over every run.

- **Copy-control arm (CPY-02)** (`CopyControl*.dfy`). A $100 book mirrors the
  positions of a leading book. Signals open and close pairs; a reconciler reads
  the two books and tops up capital or trims exposure. A tick is a sequence of
  actions that commits whole or not at all. Proved: the book's invariant over
  every history of ticks, exactly-once answers under any replay or reordering
  of the signals, convergence of the reconciler in two ticks while only the
  leader stands still, independence of missed ticks, exactly which fills that
  takes, and the exact cases in which a tick aborts or a trim is refused.
- **Virtual fills** (`Lab.dfy`). Buying and selling against pool depth, closing,
  trimming and settling a position, and what reported equity counts.
- **Compounding ratchet** (`Compound*.dfy`). Each wallet has a ledger of cycles.
  Proved: the whole-run ledger and cash invariant, the telescoping sum of gains,
  geometric growth of the base, and that every interleaving of workers behind
  the transaction-scoped try-lock equals the committed ticks run one by one.
  `CompoundRuns.dfy` gives runs from a fresh wallet where the documentation fails.
- **Event cycle** (`Detector.dfy`, `EventCycle.dfy`, `EventHistory.dfy`). A diff
  of two states feeds an append-only log and a cache committed together. Proved:
  replaying a token's rows gives exactly the history of committed observations,
  under crashes and per-token failures; and when overlapping cycles break that.
- **Rate limiter** (`RateLimiter.dfy`). INCR with TTL is one step and EXPIRE is
  another. Proved over every interleaving: the limit per key lifetime, the
  sharp bound per window, and recovery of a key left without a TTL.
- **Live broadcaster** (`Broadcaster.dfy`). Bounded queues, subscribers coming
  and going, one listener task.
- **Frozen-position audit** (`FrozenAudit.dfy`). The first-breach replay loop.
- **Analyst ensemble** (`Lifecycle.dfy`, `Analysts.dfy`, `Ensemble.dfy`,
  `EnsembleBounds.dfy`) and **sizing** (`Sizing.dfy`).

The `*Facts.dfy` files (`CopyControlFacts`, `CompoundFacts`, `DetectorFacts`,
`AnalystFacts`) say of each step, in terms of the columns it reads and writes,
when it happens and what it leaves, so that the theorems over runs rest on steps
whose effect is stated apart from their definition.

Code that changes things in place is a class or a method with loops, proved
against a function on values; the theorems are about those functions. Decimals
are `real`. Clocks, quotes, marks, draws, exit rules and what a worker observes
are parameters, so every theorem holds for all of them.

Every lemma carries `{:induction false}`: each proof is the one written down.
`dafny verify dfyconfig.toml` checks the whole project.

## Where the code and its own documentation disagree

The model follows the code in each case.

- The control's draw excludes only the mints it holds now
  (`backend/app/copycontrol/service.py:208-215`), while `uq_lab_position_once`
  (`backend/app/models/lab.py:211`) allows a mint once ever. Drawing the mint of
  a closed pair raises and rolls the tick back, and the arm stands still until a
  tick draws something else (`OpenRaisesExactly`, `ReusedTokenAbortsTheTick`,
  `AbortedTicksChangeNothing`).
- `_match_exposure` may ask for a fraction of 1, which `trim_manually` refuses
  (`backend/app/lab/service.py:1107`), so a leader at zero would never be matched
  by a trim (`ExposureIsMatchedExactlyWhenLeaderHolds`). That input is
  hypothetical: nothing in the repository writes a remaining quantity of zero,
  since a close leaves it alone and a trim sells less than all.
- Equity is documented as cash plus what the book could be sold for
  (`backend/app/lab/service.py:1371-1379`), but a settled position's stored value
  also includes proceeds already in cash (`backend/app/lab/service.py:947`), so
  part sales count twice while the position stays open, and in the very tick of
  a partial exit the slice just sold counts twice as well. The control arm trims,
  so it reaches such books (`ReportedEquityCountsTrimsTwice`,
  `TrimmedPairIsOverstated`). Under the ratchet it takes a registry whose exits
  set `partial_at`; the engine supports the rule, no shipped registry uses it
  (`SettledEquityExceedsRealisedBy`, `TrueWorthExactlyWhenNothingSold`,
  `PhantomTarget`).
- Realised equity is documented as lower than the equity that tripped the target
  by the impact of closing (`backend/app/models/compound.py:56-58`). The mark
  already includes impact, so the two are equal when nothing was banked and the
  marks stand still between settlement and sale (`RealisedIsEquityLessBanked`,
  `RatchetCompoundsInFull`). They are read separately
  (`backend/app/lab/service.py:932` and `:1055`), so a print in between moves
  the sale either way (`SettledEquityExceedsRealisedBy`, `MovedMarkTarget`).
- "No new cycle while positions are open" (`backend/app/compound/service.py:26`)
  holds exactly when every open position can be marked
  (`BooksAreFlatExactlyWhenMarkable`, `CycleOpensOverAnOpenPosition`).
- The rate limiter's docstring says increment and expiry are pipelined; the
  expiry is sent separately (`backend/app/core/redis.py:77-88`).
- Nothing serialises event cycles (`backend/app/events/scheduler.py:34`); two
  that overlap can leave a record no later cycle repairs
  (`OverlappingCyclesCorruptTheRecord`, `TwoFirstSightings`).
- `stop` clears subscribers after releasing the lock
  (`backend/app/core/events.py:143-150`), so a client waiting in `subscribe` is
  left on a live listener with a queue nobody fills. A client stays registered
  exactly when no stop clears the set and it does not leave
  (`RegisteredExactlyWhenNotCleared`, `DeafClientIsReachable`).
- `subscribe` registers its queue before the `try` that removes it
  (`backend/app/core/events.py:225-231`). A client cancelled while it awaits
  `start` leaves its queue registered until a stop clears the set
  (`GoneButRegisteredExactlyWhen`, `CancelledClientStaysRegistered`).
- `backend/app/analysts/risk.py:147` takes the worst severity alphabetically,
  against the order in `backend/app/analysts/base.py:115-119`. It only words the
  reason; the model uses the explicit order.

## Model

| member | source | states |
|---|---|---|
| `Lab.ImpactBounds` | backend/app/lab/execution.py:29-46 | depth impact always costs something and never takes everything: what a fill yields lies strictly between zero and both the amount and the pool's depth |
| `Lab.BuyPaysForItsImpact` | backend/app/lab/execution.py:33-38 | units bought, times a price moved by the stake over a twenty-fourth of the pool, come to the stake less the 0.3% fee |
| `Lab.SaleIsCutByItsImpact` | backend/app/lab/execution.py:41-46 | what a sale fetches, times its own impact, is its worth at the print less the fee |
| `Lab.RoundTripLoses` | backend/app/lab/execution.py:33-46 | buying and selling back at one print always loses both fees at least |
| `Lab.NothingForNothing` | backend/app/lab/execution.py:33-46 | nothing is bought or fetched exactly when the amount, the price or the pool is not positive |
| `Lab.FillIsCapped` | backend/app/lab/execution.py:66-71 | a level exit fills at the print, capped at 15% over its trigger |
| `Lab.TrimSellsItsSlice` | backend/app/lab/service.py:1086-1152 | a trim takes the asked fraction off the remainder and banks what that slice fetches on its own |
| `Lab.TrimPaysForItsSlice` | backend/app/lab/service.py:1086-1152 | a trim pays what selling its slice alone fetches, less than closing the position at the same mark |
| `Lab.TrimRefuses` | backend/app/lab/service.py:1107-1152 | when a trim sells nothing, in order, and what it writes otherwise |
| `Lab.ClosePaysForTheRest` | backend/app/lab/service.py:1043-1078 | a close pays what the remainder fetches, nothing for a dead pool, and records all the position ever paid |
| `Lab.SettlementHolds` | backend/app/lab/service.py:934-992 | a dead pool closes the position for nothing; a position held is stored at banked proceeds plus its worth |
| `Lab.SettlementTakesPart` | backend/app/lab/service.py:968-983 | a partial exit sells its fraction at the capped price after the whole was stored |
| `Lab.SettlementCloses` | backend/app/lab/service.py:985-1003 | a full exit sells everything at the capped price and records all the position ever paid |
| `Lab.SettleMarks` | backend/app/lab/service.py:906-1011 | a settlement without a partial sale banks nothing, and a position left open keeps its holding and stores banked proceeds plus what it could be sold for |
| `Lab.ReportedIsExecutablePlusBanked` | backend/app/lab/service.py:1371-1379 | the reported value of a marked book is its executable value plus everything banked on positions still open |
| `CopyControl.ReleaseFraction` | backend/app/copycontrol/service.py:412-428 | the fraction to sell is in (0,1], below 1 exactly when the leader still holds something, and lands on the leader's share |
| `CopyControl.SoundMirror` | backend/app/copycontrol/service.py:434-452 | handling a signal keeps every position well formed |
| `CopyControl.SoundReconcile` | backend/app/copycontrol/service.py:344-390 | a reconciling visit never raises and keeps every position well formed |
| `CopyControlFacts.OpeningWrites` | backend/app/copycontrol/service.py:191-257 | when an opening opens, its guards held, and the new pair and the cash are these, column by column |
| `CopyControlFacts.OpeningDrawsBySignature` | backend/app/copycontrol/service.py:166-219 | the token is the one the signature picks among those neither held nor the leader's |
| `CopyControlFacts.OpeningRefuses` | backend/app/copycontrol/service.py:191-223 | each refusal happens exactly on its reason, in order, and changes nothing |
| `CopyControlFacts.TopUpWrites` | backend/app/copycontrol/service.py:298-321 | a visit tops up exactly when the leader is ahead, the gap is in cash and the token has a price; size, both quantities, entry price, stored value and cash afterwards, the rest unchanged |
| `CopyControlFacts.TopUpSellsNothing` | backend/app/copycontrol/service.py:311-319 | a pair that holds all it bought still does after a top-up |
| `CopyControlFacts.TrimWrites` | backend/app/copycontrol/service.py:412-430 | a visit sells exactly when the leader's share is smaller but not nothing and the mark is live; it lands on his share and is paid for that slice |
| `CopyControlFacts.CloseWrites` | backend/app/copycontrol/service.py:323-342 | a close pays and records what its pair fetches and touches no other |
| `CopyControlFacts.SettlementWrites` | backend/app/lab/service.py:934-1003 | a settlement of a pair by the state of its mark and its age, column by column |
| `CopyControlFacts.SignalsAreDispatched` | backend/app/copycontrol/service.py:445-451 | which signals open, which close, and which do nothing |
| `CopyControlFacts.RunsGoInTurn` | backend/app/copycontrol/service.py:444-460 | actions are taken in turn, a raise rolls the tick back, ticks follow one another |
| `CopyControlFacts.UnitsLeaveByTrimsAlone` | backend/app/copycontrol/service.py:311-319 | over every run the units sold of a pair change by its trims and by nothing else |
| `CopyControlFacts.TrimsSell` | backend/app/copycontrol/service.py:412-430 | every trim does sell something |
| `CopyControlSafety.OpenIsSafe` | backend/app/copycontrol/service.py:179-257 | opening keeps cash non-negative, the accounts balanced, at most ten open, open mints and leaders distinct, and never buys the leader's own mint |
| `CopyControlSafety.CloseIsSafe` | backend/app/copycontrol/service.py:323-342 | closing keeps the same invariant and changes nothing already closed |
| `CopyControlSafety.ReconcileIsSafe` | backend/app/copycontrol/service.py:273-321 | topping up and trimming keep the same invariant |
| `CopyControlSafety.SettleIsSafe` | backend/app/lab/service.py:906-1011 | settling a pair keeps the same invariant |
| `CopyControlSafety.EveryHistoryIsSafe` | backend/app/copycontrol/service.py:204-257 | over every history of ticks, aborted ones included, the invariant holds and every pair keeps its identity, its stake and banked money only grow, and once closed it never changes |
| `CopyControlSafety.HistoryIsCommittedRun` | backend/app/copycontrol/scheduler.py:31-60 | aborted ticks leave no trace: the book is the one the committed actions alone produce |
| `CopyControlSafety.EffectIsNew` | backend/app/copycontrol/service.py:94-117 | a signal opens only where the leader position was never paired, and closes only where no closed pair exists |
| `CopyControlSafety.EachLeaderIsAnsweredOnce` | backend/app/copycontrol/service.py:191-192 | for any signals, replayed, duplicated or reordered over any ticks, a leader position is opened against at most once and closed by signal at most once |
| `CopyControlSafety.StaysClosed` | backend/app/copycontrol/service.py:107-117 | where nothing is open for a leader and no opening signal for it comes, nothing is ever open for it again |
| `CopyControlSafety.CloseEmptiesExactlyWhenMarkable` | backend/app/copycontrol/service.py:333-342 | a close leaves nothing of the leader's open exactly when the pair it closes could be marked |
| `CopyControlSafety.CloseInBatchLeavesNothingOpen` | backend/app/copycontrol/service.py:445-452 | if the pair a close meets can be marked then and no opening follows the close in the batch, no open pair remains for that leader |
| `CopyControlSafety.CapitalNeverExceedsTheLeader` | backend/app/copycontrol/service.py:298-321 | while leader stakes are positive and only grow, no pair in any run holds more capital than its leader |
| `CopyControlSafety.NoHistoryOutspendsTheLeader` | backend/app/copycontrol/service.py:200-206 | the same from the starting book over whole histories of ticks |
| `CopyControlSafety.OpenRaisesExactly` | backend/app/models/lab.py:210-214 | opening aborts the tick exactly when the draw picks the mint of a pair that has closed |
| `CopyControlSafety.ReusedTokenAbortsTheTick` | backend/app/copycontrol/service.py:208-219 | a reachable book and a signal whose tick aborts |
| `CopyControlSafety.AbortedTicksChangeNothing` | backend/app/copycontrol/service.py:434-460 | while every tick aborts, whatever each of them reads, the book does not change |
| `CopyControlSafety.SettleMarksEveryPair` | backend/app/lab/service.py:906-1011 | with every open pair markable, settling leaves each one stored at its mark |
| `CopyControlSafety.ReportedEquityCountsTrimsTwice` | backend/app/lab/service.py:1371-1379 | after settling, reported value exceeds executable value by what open pairs have banked; they agree exactly when no open pair has banked anything |
| `CopyControlSafety.TrimmedPairIsOverstated` | backend/app/copycontrol/service.py:392-430 | a history from the starting book, of an opening, a trim and a settlement, after which reported value is above executable value |
| `CopyControlConvergence.ExposureIsMatchedExactlyWhenLeaderHolds` | backend/app/copycontrol/service.py:392-430 | with a live mark, exposure matching only sells and lands on the smaller of the two shares; the share ends at most the leader's exactly when the leader still holds something |
| `CopyControlConvergence.TopUpReachesTheLeader` | backend/app/copycontrol/service.py:298-321 | a funded top-up with a price brings the pair to the leader's size for exactly the gap |
| `CopyControlConvergence.OneVisit` | backend/app/copycontrol/service.py:375-389 | given the one fill this visit needs, it changes its own pair only, spends at most the gap, equalises size, and matches a pair already of equal size |
| `CopyControlConvergence.TwoVisitsMatchExactlyWhenServed` | backend/app/copycontrol/service.py:375-430 | with the gap funded, two visits, each with its own prices and marks, match a pair exactly under a condition on the pair before the first and the two markets |
| `CopyControlConvergence.PassIsARun` | backend/app/copycontrol/service.py:344-390 | a reconciling pass is the run of its visits and never aborts |
| `CopyControlConvergence.OnePass` | backend/app/copycontrol/service.py:344-390 | after one funded pass, each row with its own market, every visited pair has its leader's size and pairs that already had it are matched |
| `CopyControlConvergence.MatchedPassDoesNothing` | backend/app/copycontrol/service.py:383-389 | a matched book is a fixpoint of the pass in any order and any market |
| `CopyControlConvergence.QuietTickIsTwoPasses` | backend/app/copycontrol/service.py:454-460 | a tick without signals commits and is its reconciling pass followed by its settlement |
| `CopyControlConvergence.SettlementsKeep` | backend/app/lab/service.py:906-1011 | a settlement closes pairs or leaves their capital, quantity and holding as they were |
| `CopyControlConvergence.TwoTicksConverge` | backend/app/copycontrol/service.py:434-460 | with only the leaders fixed, cash sufficient and each visit's own fill available, two whole ticks with different clocks, prices, marks, row orders and settlements match every open pair |
| `CopyControlConvergence.MatchedForGood` | backend/app/copycontrol/service.py:434-460 | every later run of ticks against those leaders, in any markets, keeps the book matched and trades nothing but exits |
| `CopyControlConvergence.MissedTicksDoNotMatter` | backend/app/copycontrol/service.py:292-297 | two books with different pasts that see different markets end with equal sizes against the same leader |
| `CopyControlService.ControlArm.OpenPair` | backend/app/copycontrol/service.py:179-257 | the in-place opening is the specified one: new state, outcome, or abort with no change |
| `CopyControlService.ControlArm.CloseAnswering` | backend/app/copycontrol/service.py:323-342 | the in-place close is the specified one |
| `CopyControlService.ControlArm.VisitPair` | backend/app/copycontrol/service.py:375-430 | one reconciling visit, field by field, is the specified one |
| `CopyControlService.ControlArm.Reconcile` | backend/app/copycontrol/service.py:344-390 | the loop over pairs is the specified pass |
| `CopyControlService.ControlArm.Settle` | backend/app/lab/service.py:906-1011 | the settling loop is the specified pass over its rows |
| `CopyControlService.ControlArm.MirrorBatch` | backend/app/copycontrol/service.py:445-452 | the loop over signals is the run of its actions and aborts exactly when that run does |
| `CopyControlService.ControlArm.Tick` | backend/app/copycontrol/service.py:434-460 | a tick is one transaction over signals, reconciliation and settlement, and keeps the invariant |
| `CopyControlService.TickGoesInOrder` | backend/app/copycontrol/service.py:444-460 | signals in their order, then the reconciliation of what they left, then the settlement of that |
| `CopyControlService.PassesGoInTurn` | backend/app/copycontrol/service.py:375-390 | a loop over the book takes its rows in turn |
| `CompoundLedger.SweepKeepsTheBooks` | backend/app/compound/service.py:130-149 | a sweep over the book conserves stakes and credits and keeps every position well formed |
| `CompoundLedger.BankKeepsTheBooks` | backend/app/compound/service.py:175-188 | the target test keeps the wallet's accounts and ledger, and banks exactly one cycle or changes nothing |
| `CompoundLedger.TickIsSafe` | backend/app/compound/service.py:151-200 | a tick keeps cycles numbered 1..n with only the last running, bases and targets chained, past entries untouched, and banks at most one cycle |
| `CompoundLedger.EveryRunIsSafe` | backend/app/compound/service.py:97-200 | the same over every run of ticks |
| `CompoundFacts.CycleOpensFrom` | backend/app/compound/service.py:97-128 | the first cycle is $100 to $110, a running one is kept, the next is numbered on from what the last realised |
| `CompoundFacts.OrdersAreFilledInTurn` | backend/app/lab/service.py:747-839 | an order is filled exactly when its stake is in cash and it has a price; the position it leaves; orders in turn |
| `CompoundFacts.SweepAddsUp` | backend/app/compound/service.py:137-149 | a sweep pays the sum of its sales and counts them |
| `CompoundFacts.DesksOffer` | backend/app/compound/service.py:143-146 | the settlement applies the exit rule at the tick's mark, the sale of the book closes at the sale's mark |
| `CompoundFacts.TradeGoesInOrder` | backend/app/compound/service.py:167-168 | orders fill before the book settles, so what is bought is marked in the same tick |
| `CompoundFacts.TickGoesInOrder` | backend/app/compound/service.py:165-188 | the cycle opens, the wallet trades, the target is tested |
| `CompoundFacts.EquityAddsUp` | backend/app/lab/service.py:1371-1379 | equity is cash plus each open position's stored value, or its stake |
| `CompoundFacts.BankingWrites` | backend/app/compound/service.py:175-188 | a wallet banks exactly when its equity reached the target; what the cycle, the wallet and the next cycle then hold |
| `CompoundLedger.GainsTelescope` | backend/app/compound/service.py:115-121 | realised minus base summed over banked cycles is the current base minus the starting equity |
| `CompoundLedger.FreshCycleIsNotAlreadyReached` | backend/app/compound/service.py:181-188 | just after banking, the new base is the equity held, and if positive it is strictly under the new target |
| `CompoundLedger.RealisedIsEquityLessOverstatement` | backend/app/compound/service.py:177-184 | selling any book realises reported equity less what the stored values of the sold positions overstate |
| `CompoundLedger.SettledEquityExceedsRealisedBy` | backend/app/lab/service.py:934-983 | whatever the exit rules did and however marks moved before the sale, the equity tested against the target exceeds what selling realises by what still open positions had banked before, the worth of any slice sold in that tick, the move of their marks, and the age of values the settlement could not refresh |
| `CompoundLedger.TrueWorthExactlyWhenNothingSold` | backend/app/lab/service.py:947-983 | at a price that stands still a settled position is stored at its true worth exactly when it closed, or had sold nothing before and sells no part now |
| `CompoundLedger.RealisedIsEquityLessBanked` | backend/app/compound/service.py:177-184 | for a book stored at the marks of the sale the difference is what the sold positions had banked; realised and reported agree exactly when that is nothing |
| `CompoundRuns.PhantomTarget` | backend/app/compound/service.py:177-188 | a run from a fresh wallet, with a purchase and a partial exit, that trips its $110 target and banks under $108 |
| `CompoundRuns.MovedMarkTarget` | backend/app/compound/service.py:177-188 | a run from a fresh wallet without part sales that trips its $110 target and banks under $100, the marks having fallen before the sale |
| `CompoundLedger.BooksAreFlatExactlyWhenMarkable` | backend/app/compound/service.py:130-149 | after banking no position is open exactly when every open one could be marked |
| `CompoundRuns.CycleOpensOverAnOpenPosition` | backend/app/compound/service.py:175-188 | a run from a fresh wallet that banks and opens the next cycle with a position still open |
| `CompoundLedger.BaseGrowsGeometrically` | backend/app/compound/service.py:115-121 | if each sale loses at most a share s of marked equity, base n is at least start times (multiple times (1-s)) to the n |
| `CompoundLedger.RatchetCompoundsLessItsLosses` | backend/app/compound/service.py:165-198 | over every run, partials and moving marks included, base n is at least start times (multiple times (1-s)) to the n, s bounding what a sale at a target test loses |
| `CompoundLedger.RatchetCompoundsInFull` | backend/app/compound/service.py:165-198 | over every run without partial sales whose marks stand still between settlement and sale, each cycle realises what it tripped on and base n is at least start times the multiple to the n |
| `CompoundService.SellEach` | backend/app/compound/service.py:137-149 | the selling loop yields the swept book and the count of positions closed |
| `CompoundService.Registry.SellBook` | backend/app/compound/service.py:130-149 | selling one wallet's book in place leaves every other wallet alone |
| `CompoundService.Registry.BankWallet` | backend/app/compound/service.py:175-188 | banking one wallet is the specified step and leaves every other wallet unchanged |
| `CompoundService.Registry.Pass` | backend/app/compound/service.py:151-200 | however the three phases interleave wallets, each ends where its own turn alone takes it; without the ratchet only trading and settling happen |
| `CompoundService.TurnWithoutRatchet` | backend/app/compound/service.py:171-175 | with the ratchet off a turn buys and settles, and opens, banks and sells nothing else |
| `CompoundScheduler.ProgramIsTick` | backend/app/compound/service.py:165-198 | the statement list a worker executes adds up to one tick of every wallet |
| `CompoundScheduler.OneStep` | backend/app/compound/scheduler.py:46-60 | acquiring, being refused, executing, committing or failing keeps exclusion and serialisation, and only a commit changes the database |
| `CompoundScheduler.CommitPublishesTheTick` | backend/app/compound/scheduler.py:56-57 | a finished worker that commits makes the database its whole tick, is recorded, and frees the lock |
| `CompoundScheduler.OnlyCommitsPublish` | backend/app/compound/scheduler.py:53-60 | no other step publishes or records anything; a failure frees the lock |
| `CompoundScheduler.LockIsGrantedWhenFree` | backend/app/compound/scheduler.py:48-55 | an idle worker gets the lock exactly when nobody has it, and otherwise does nothing |
| `CompoundScheduler.RecordIsWhoCommitted` | backend/app/compound/scheduler.py:40-60 | over every run the record is exactly the ticks that reached their commit, in order |
| `CompoundScheduler.LoneWorkerRunsTheTick` | backend/app/compound/scheduler.py:46-57 | from any free lock, one worker's acquire, statements and commit end at the tick of every wallet |
| `CompoundScheduler.EveryInterleavingIsSerial` | backend/app/compound/scheduler.py:40-60 | for every interleaving of any workers the database equals the committed ticks run one after another |
| `CompoundScheduler.SerialTicksAreSafe` | backend/app/compound/service.py:151-200 | serial ticks of a whole registry keep every wallet's ledger and only extend it |
| `CompoundScheduler.NoInterleavingCorruptsALedger` | backend/app/compound/scheduler.py:40-60 | from fresh wallets, no interleaving breaks a ledger or an account |
| `Detector.BuildDimensions` | backend/app/events/detector.py:268-320 | the loop emits, in order, one event per dimension that moved materially |
| `Detector.DetectIsSilentOnEqualStates` | backend/app/events/detector.py:110-135 | equal states produce no event |
| `Detector.DetectIsMirrorSymmetricExactly` | backend/app/events/detector.py:128-216 | swapping the states reverses each event in place exactly when the exit level does not move between two levels that are neither clear nor elevated |
| `Detector.KindsAreDistinctExactly` | backend/app/events/detector.py:191-320 | the kinds of one diff are pairwise distinct exactly when exit watch and the risk score do not report the same direction of risk |
| `DetectorFacts.FirstSightingIsAllThereIs` | backend/app/events/detector.py:110-128 | a first sighting is one event and nothing else |
| `DetectorFacts.MissionComesFirst` | backend/app/events/detector.py:55-160 | between known, different missions the first event is a notable promotion exactly when the new one stands later in the order, else an urgent downgrade |
| `DetectorFacts.KindAppearsExactly` | backend/app/events/detector.py:138-348 | each kind appears exactly when that change happened, told from the two states with the thresholds written out |
| `DetectorFacts.EventsTellWhatHappened` | backend/app/events/detector.py:138-348 | every event carries its kind's severity, its analyst and the values it went from and to |
| `EventCycle.EventOrchestrator.DiffToken` | backend/app/events/orchestrator.py:116-155 | one observed token is diffed against the cache, recorded and queued for caching |
| `EventCycle.EventOrchestrator.RunCycle` | backend/app/events/orchestrator.py:96-161 | a cycle lands whole or not at all, and every count of its summary is fixed: hits, misses, failures, changed, recorded and skipped |
| `EventCycle.RecordOnlyAppends` | backend/app/events/repository.py:113-144 | recording only appends, at most one row per event |
| `EventCycle.StateKeepsTheVerdict` | backend/app/events/orchestrator.py:202-215 | the state kept of an observation is the verdict field by field, without exit severity |
| `EventHistory.RecordForToken` | backend/alembic/versions/20260730_0937_7969db20724a_watchlists_and_intelligence_events.py:108-110 | events of distinct kinds at a new time all land and touch no other token's rows |
| `EventHistory.ScanIsPerToken` | backend/app/events/orchestrator.py:116-155 | a scan gives each token its own events, all of them, for every batch of distinct mints |
| `EventHistory.ScanCaches` | backend/app/events/orchestrator.py:140-155 | after a scan the cache holds the new state of each observed token and the old one of the rest |
| `EventHistory.MoveTellsTheHistoryExactly` | backend/app/events/detector.py:138-160 | a path keeps telling the history exactly when the logged move starts where the history stands |
| `EventHistory.FaithfulExactlyWhenReadIsCurrent` | backend/app/events/orchestrator.py:110-155 | a committed cycle keeps a token's record faithful exactly when the mission it read is the one committed when it writes |
| `EventHistory.LogIsTheHistory` | backend/app/events/orchestrator.py:96-161 | over every run with aborts and per-token failures, replaying a token's rows gives exactly the destuttered history of committed missions, chained, and the cache holds its end |
| `EventHistory.NoEventIsSkipped` | backend/app/events/repository.py:113-144 | in such a run the deduplication key never drops an event |
| `EventHistory.StaleCommitIsNeverRepaired` | backend/app/events/orchestrator.py:116-155 | after one commit from a read that is not where the history stands, no later run of cycles makes the token's rows tell any history |
| `EventHistory.OverlappingCyclesCorruptTheRecord` | backend/app/events/scheduler.py:34-50 | two cycles that read the same cache, the first moving a token both observe, leave that token's record wrong for good |
| `EventHistory.TwoFirstSightings` | backend/app/events/scheduler.py:34-50 | two overlapping first sightings from an empty store are such a case |
| `RateLimiter.RunKeepsInv` | backend/app/core/redis.py:72-92 | every interleaving keeps lifetimes at least a window apart, hits inside their lifetime and tickets distinct |
| `RateLimiter.StepsWrite` | backend/app/core/redis.py:81-88 | what INCR, EXPIRE, a death and the clock each leave, field by field |
| `RateLimiter.LifetimeAdmitsTheLimit` | backend/app/core/redis.py:81-92 | a key lifetime admits at most the limit |
| `RateLimiter.WindowAdmitsUnderTwiceTheLimit` | backend/app/core/redis.py:72-92 | any interval of one window admits at most twice the limit less one |
| `RateLimiter.EveryInterleavingIsLimited` | backend/app/core/redis.py:72-92 | both bounds and the spacing, from an empty server, for every interleaving of requests, delayed expiries, deaths and clock steps |
| `RateLimiter.BoundIsMet` | backend/app/core/redis.py:72-92 | a run that admits exactly twice the limit less one in a window |
| `RateLimiter.NextCompletedRequestSetsATtl` | backend/app/core/redis.py:86-88 | whatever happens meanwhile, a request that finds no TTL and completes leaves a living key with a full window |
| `RateLimiter.TtlIsNeverLost` | backend/app/core/redis.py:86-88 | once set, a lifetime's TTL stays set in every run |
| `RateLimiter.Redis.IncrAndTtl` | backend/app/core/redis.py:81-84 | the pipelined pair counts the request and reports the key's TTL, if any |
| `RateLimiter.Redis.ExpireIn` | backend/app/core/redis.py:86-88 | the expiry is the specified step, and does nothing to a key that is gone |
| `RateLimiter.Redis.CheckRateLimit` | backend/app/core/redis.py:72-92 | one uninterrupted call keeps the invariant, allows exactly up to the limit, reports what remains, and leaves a TTL that ends in the future |
| `Broadcaster.OthersDoNotMatter` | backend/app/core/events.py:212-231 | a client's queue and receipts depend only on the steps that concern it, whoever else joins or leaves |
| `Broadcaster.NothingIsLostUncounted` | backend/app/core/events.py:212-220 | what a client holds plus what it was refused is what it heard, and no queue exceeds 100 |
| `Broadcaster.DeliveredInOrder` | backend/app/core/events.py:212-231 | in every run received plus queued is an in-order part of what was fanned out while registered |
| `Broadcaster.NothingIsLostExactlyWhenNeverFull` | backend/app/core/events.py:212-220 | a client holds everything it heard exactly when it never found its queue full |
| `Broadcaster.HeardIsTheStay` | backend/app/core/events.py:212-231 | a client hears exactly the events fanned out from its joining to its leaving or the next clearing |
| `Broadcaster.QueueFillsInOrder` | backend/app/core/events.py:212-218 | events fanned out to a registered client stand in its queue in order, up to 100 |
| `Broadcaster.PutAll` | backend/app/core/events.py:213-218 | the loop puts the event in every registered queue with room, in any order, leaves every other queue alone, and counts exactly the full ones |
| `Broadcaster.LiveEventBroadcaster.FanOutEvent` | backend/app/core/events.py:212-220 | the object's fan-out is that step of the state machine |
| `Broadcaster.LiveEventBroadcaster.TakeOne` | backend/app/core/events.py:222-231 | a client takes its oldest event |
| `Broadcaster.LiveEventBroadcaster.Subscribe` | backend/app/core/events.py:222-227 | a new client starts registered with an empty queue |
| `Broadcaster.LiveEventBroadcaster.Unsubscribe` | backend/app/core/events.py:230-231 | a leaving client is no longer registered and nobody else changes |
| `Broadcaster.LiveEventBroadcaster.Clear` | backend/app/core/events.py:150-150 | nobody is registered any more, and the queues keep what they hold |
| `Broadcaster.MovesWrite` | backend/app/core/events.py:137-151 | what each move of start, stop, subscription and end leaves: the lock, the listener field, the callers and the registrations |
| `Broadcaster.AtMostOneListener` | backend/app/core/events.py:137-151 | over every interleaving of starts, stops and task ends at most one listener is live |
| `Broadcaster.NeverRegisteredAgain` | backend/app/core/events.py:222-231 | a call whose queue has been removed is never registered again |
| `Broadcaster.RegisteredExactlyWhenNotCleared` | backend/app/core/events.py:143-151 | a registered client is still registered after a run exactly when no stop cleared the set in it and the client did not leave |
| `Broadcaster.GoneButRegisteredExactlyWhen` | backend/app/core/events.py:222-231 | a departed client is still registered exactly when it was cancelled while waiting for the listener to start and no stop cleared the set |
| `Broadcaster.CancelledClientStaysRegistered` | backend/app/core/events.py:225-231 | the run that brings an idle broadcaster there |
| `Broadcaster.StopDeafensAWaitingClient` | backend/app/core/events.py:143-150 | a client waiting behind a stop ends up on a live listener, unregistered for good |
| `Broadcaster.DeafClientIsReachable` | backend/app/core/events.py:137-151 | the run that brings an idle broadcaster there |
| `FrozenAudit.Replay` | backend/scripts/pw_frozen_audit.py:78-106 | the loop answers with the earliest breach, its rule in order target, stop, trail on the running peak, expiry |
| `FrozenAudit.RecoveredExitIsTheFirstBreach` | backend/scripts/pw_frozen_audit.py:84-102 | which of the four comparisons held at the exit, that none did before, and the peak it was measured on |
| `FrozenAudit.PeakIsTheGreatest` | backend/scripts/pw_frozen_audit.py:82-86 | the peak is the greatest of the entry and the prices so far |
| `FrozenAudit.AnswerIsUnique` | backend/scripts/pw_frozen_audit.py:78-106 | a series has one answer |
| `FrozenAudit.ElseBranchIsDead` | backend/scripts/pw_frozen_audit.py:103-106 | the branch after the loop never fires |
| `FrozenAudit.LaterObservationsChangeNothing` | backend/scripts/pw_frozen_audit.py:84-102 | extending the series past a breach never changes the answer |
| `FrozenAudit.OpenExactlyWhenNoPrefixBreaches` | backend/scripts/pw_frozen_audit.py:78-106 | a non-empty series is legitimately open exactly when every prefix is |
| `Lifecycle.RiseGivesNothingBack` | backend/app/analysts/lifecycle.py:124-125 | with the peak a running maximum, a rise holds the whole of its peak or at least as large a share of it as before |
| `Lifecycle.RiseIsADowngradeExactlyWhen` | backend/app/analysts/lifecycle.py:108-139 | a rise lowers the mission rank exactly when the launch window ran out on a project still under its detection price |
| `Lifecycle.RiseIsNeverLoggedAsADowngrade` | backend/app/events/detector.py:138-160 | on one side of the launch window a rise is never logged as a downgrade |
| `Lifecycle.StateSays` | backend/app/analysts/lifecycle.py:108-139 | each mission state, told from the observations with its thresholds |
| `Analysts.LiquidityReading` | backend/app/analysts/liquidity.py:47-130 | the reading is sane and on the scale, and raises a critical warning exactly for a readable pool under $5,000 |
| `Analysts.MomentumReading` | backend/app/analysts/momentum.py:39-138 | the reading is sane and on the scale and never critical |
| `Analysts.LifecycleReading` | backend/app/analysts/lifecycle.py:142-219 | the reading is sane and never critical |
| `AnalystFacts.LiquiditySays` | backend/app/analysts/liquidity.py:47-130 | when liquidity reads, its confidence, and exactly when it warns of what |
| `AnalystFacts.MomentumSays` | backend/app/analysts/momentum.py:39-138 | when momentum reads, its confidence, and exactly when it warns of what |
| `AnalystFacts.LifecycleSays` | backend/app/analysts/lifecycle.py:142-219 | the lifecycle score and confidence, and exactly when it warns of what |
| `AnalystFacts.RiskSays` | backend/app/analysts/risk.py:58-167 | the risk score from structure, veto, exit watch and clone, and its confidence |
| `AnalystFacts.RiskWarnsOf` | backend/app/analysts/risk.py:64-142 | exactly when each risk warning is raised |
| `AnalystFacts.HoldersSay` | backend/app/analysts/holders.py:59-80 | holders never score and always say the data is not collected |
| `AnalystFacts.ColumnsAreTheFigures` | backend/app/analysts/momentum.py:42-44 | the three columns hold each observation's own liquidity, price and volume |
| `AnalystFacts.KnownOne` | backend/app/analysts/liquidity.py:50-50 | a figure counts as reported exactly when it is there |
| `AnalystFacts.KnownAppend` | backend/app/analysts/liquidity.py:50-50 | the reported figures are gathered in order |
| `Analysts.RiskAlwaysSpeaks` | backend/app/analysts/risk.py:50-167 | risk always scores in 0..100, a veto caps it at 50, and it is critical exactly on veto, elevated exit watch or high clone risk |
| `Analysts.AnalyseRisk` | backend/app/analysts/risk.py:58-167 | the penalties and warnings gathered step by step are the specified reading |
| `Analysts.CriticalOnItsOwn` | backend/app/analysts/research.py:137-146 | priority is critical exactly when some reading carries a critical warning |
| `Analysts.AnalyseResearch` | backend/app/analysts/research.py:66-155 | the accumulated score, confidence, warnings and priority are the specified ones, and below critical the priority returned follows the score returned |
| `AnalystFacts.ScoreIsMadeOf` | backend/app/analysts/research.py:72-135 | the research score in its parts, from counts of warnings, changes, spread and coverage |
| `AnalystFacts.ScoresAppend` | backend/app/analysts/research.py:99-99 | the scores read are gathered reading by reading, in order |
| `AnalystFacts.ScoreOfOne` | backend/app/analysts/research.py:99-99 | one reading gives its score when it has one, and its own warnings |
| `AnalystFacts.MoreNeverScoresLess` | backend/app/analysts/research.py:85-118 | more critical warnings, cautions, changes, spread or coverage never lower it |
| `AnalystFacts.PriorityFollowsTheScore` | backend/app/analysts/research.py:137-146 | without a critical warning priority is high from 55, medium from 30 and low under that |
| `Ensemble.Combine` | backend/app/analysts/orchestrator.py:182-205 | the loop yields the renormalised weighted mean and the share of declared weight applied |
| `Ensemble.MeanOfWhatWasRead` | backend/app/analysts/orchestrator.py:182-205 | the mean lies between the least and the greatest score that was read; unavailable is not zero |
| `Ensemble.OrderedWarnings` | backend/app/analysts/orchestrator.py:208-215 | the nested loop yields the first warning of each code, sorted worst first |
| `Ensemble.WorstFirstIsAStableSort` | backend/app/analysts/orchestrator.py:215-215 | sorted by rank, a permutation, and stable |
| `AnalystFacts.WorstComeFirst` | backend/app/analysts/orchestrator.py:215-215 | before a critical warning only critical ones are listed, and before a caution no remark |
| `AnalystFacts.FirstGivenIsKept` | backend/app/analysts/orchestrator.py:208-215 | the first warning under a code is the one kept, after those given before it |
| `Ensemble.Assess` | backend/app/analysts/orchestrator.py:105-179 | running the analysts and combining them is the specified verdict, whose priority below critical follows its research score |
| `EnsembleBounds.ScoreLiesAmongTheReadings` | backend/app/analysts/orchestrator.py:105-205 | for every project the score exists and lies between the least and greatest available score |
| `AnalystFacts.CombinedIs` | backend/app/analysts/orchestrator.py:182-205 | 30 parts liquidity, 28 momentum, 24 risk and 10 lifecycle, over the parts that could be read |
| `AnalystFacts.VerdictScoreIs` | backend/app/analysts/orchestrator.py:147-170 | the verdict's score and coverage are the combination of those readings |
| `AnalystFacts.MeanOfSix` | backend/app/analysts/orchestrator.py:157-162 | the verdict's confidence is the mean of the claims of those that answered, capped by coverage |
| `AnalystFacts.VerdictPriorityFollowsTheScore` | backend/app/analysts/orchestrator.py:218-222 | the verdict's priority below critical follows the score of its research reading |
| `AnalystFacts.VerdictStateIs` | backend/app/analysts/orchestrator.py:148-155 | the verdict's state classifies exactly what was observed |
| `EnsembleBounds.CoverageIs` | backend/app/analysts/orchestrator.py:199-200 | coverage computed from what was reported alone, always between 24 and 92 |
| `EnsembleBounds.ConfidenceIsCapped` | backend/app/analysts/orchestrator.py:157-162 | confidence exists, is at least 20, at most 90 and never above coverage |
| `EnsembleBounds.PriorityIsCriticalExactly` | backend/app/analysts/orchestrator.py:208-222 | critical priority, a critical warning at the head of the list, and a veto, elevated exit, high clone risk or thin pool in the inputs are equivalent |
| `EnsembleBounds.VetoPropagates` | backend/app/analysts/orchestrator.py:105-222 | with a veto the state is RECON or LOST_CONTACT, priority is critical, the list starts critical and the score is at most 2000/23 |
| `EnsembleBounds.VetoBoundIsMet` | backend/app/analysts/orchestrator.py:182-205 | a vetoed project perfect otherwise scores exactly 2000/23 |
| `EnsembleBounds.WarningsAreListedOnce` | backend/app/analysts/orchestrator.py:208-215 | every code raised is listed exactly once, nothing is invented, worst first |
| `Sizing.GrowthMultiplier` | backend/app/sizing.py:61-82 | the doubling loop returns two to the highest rung reached up to the ceiling, else 1 |
| `Sizing.Rung` | backend/app/sizing.py:70-82 | the rung is reached and every higher one up to the ceiling is not |
| `Sizing.LadderIs` | backend/app/sizing.py:61-82 | the multiplier is the highest power of two, up to the ceiling, that the equity covers in base sizes |
| `Sizing.LadderIsMonotone` | backend/app/sizing.py:61-82 | more equity never means a smaller multiplier, between 1 and the ceiling |
| `Sizing.LadderBracketsTheProportion` | backend/app/sizing.py:97-124 | from base equity up the ladder is at most the proportion, and the proportion under twice the ladder below the ceiling |
| `Sizing.LadderStartsAtOne` | backend/app/sizing.py:70-71 | without figures or below twice the base the stake is the base |
| `Sizing.ProportionIs` | backend/app/sizing.py:97-124 | the proportion is equity over base, capped, one without figures and nothing at a loss of everything |

## Left out

- Decimal precision and column rounding: amounts are reals; the two-decimal rounding of cached scores is not modelled.
- The scan window and the limit of 200 signals per tick (`backend/app/copycontrol/service.py:70-92`): a tick's batch is any sequence of signals.
- Several spec versions of the control strategy sharing one name: the book has one row.
- The random draw: an element of the candidate pool, fixed by signature and pool.
- Marking a position, exit rules and judging entries (`_mark`, `evaluate_exit`, `evaluate_due`): they are parameters; a settlement may hold, sell part or sell all.
- Breakers, feature flags, activation, equity snapshots, outcome counters and logging.
- A broken uniqueness constraint other than the position one aborting a tick.
- Isolation levels beyond the exclusion the advisory lock gives: a worker reads its own writes over committed rows.
- Redis TTL granularity, failover and eviction: time is an integer clock and a key expires at its instant.
- Redis channels, reconnection and payload parsing of the broadcaster: a fanned-out event is given.
- The radar dimension engines: their scores enter as values on the 0..100 scale they declare.
- Reason texts, evidence lists, summaries and warning messages of the analysts.
- `scaled` in sizing, the audit script's counters and printing, the depth and copy-control schedulers' copies of the lock protocol.
- Watchlists, HTTP endpoints, authentication, collectors, migrations other than their unique constraints, and the frontend.
