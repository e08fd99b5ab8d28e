# honorbet payout and wager acceptance, modelled in Dafny

This project models two parts of the honorbet REST backend.

- **Paying out a bet** (`src/services/payout.service.js`). The tips on a solved or aborted
  bet are grouped into answer stacks (one per catalogue answer or per scale value). For a
  scale bet the stacks are sorted by distance to the correct value. They are then split
  into winners and losers. Winners are priced with their odds, and the smaller of the
  possible gain and the possible loss is shared out. Finally the member balances and the
  tip diffs are written. Bets wait in a queue and are paid one at a time.
- **Accepting a wager** (`createTip`, `catalogueTipCreate`, `scaleTipCreate` and
  `getScaleInterval` of `src/controllers/tip.controller.js`). A request is checked, the
  member is debited, a tip is created or topped up, and the bet's and the answer's
  counters are raised.

Money is modelled as exact `real`s. Ids are integers. A JavaScript `NaN` or `undefined`
that the code produces is an explicit constructor: `JsValue.Number(None)` for the
accumulator of the reduce at payout.service.js:164, `Threshold.NotANumber` for the
threshold computed from it, `Cap.Unassigned` for the cap lines 102-111 leave unset, and
`Distribution.NotANumber` for the diffs that follow.

Five places in the code depart from what its authors evidently meant (see Findings). On
the payout path (the threshold, the cap, the title shortening of payout.service.js:67 and
the queue handler) the operations take a `Reading`: `AsWritten` follows the code and
`Intended` the evident intent, and the end-to-end properties are proved for both. The
wager path follows the interval filter of tip.controller.js:101 as written.

Files and modules:

| file | module | models |
|---|---|---|
| `wrappers.dfy` | `Wrappers` | `Option` |
| `records.dfy` | `Records` | tips, bets, answers, stakes |
| `partition.dfy` | `Partition` | grouping tips into stacks (getAndSortTips, lines 145-155) |
| `proximity.dfy` | `Proximity` | sortProximity and its sort (lines 194-204) |
| `classify.dfy` | `Classification` | the win threshold and the winner/loser loop (lines 160-189) |
| `distribution.dfy` | `Distribution` | setPossibleGainAndLoss and setActualGainAndLoss |
| `settlement.dfy` | `Settlement` | getSettlement, extractTipsFromSettlement and the end-to-end properties |
| `payout.dfy` | `Payout` | payoutBet's writes, the bet queue and processNextBet |
| `interval.dfy` | `Intervals` | getScaleInterval and the interval filter |
| `wagers.dfy` | `Wagers` | createTip, catalogueTipCreate and scaleTipCreate as a state transition |

Where an operation changes state step by step, the model is imperative.

- `Payout.Ledger` and `Payout.PayoutService` are classes whose methods update fields.
- `Wagers.TipService` holds the stored members, tips, bets and tickers.
- The settlement stages are methods with loops. Each is proved equal to a recursive
  specification function, and the properties are proved as lemmas about those functions.

The model also follows the code, with no alternative reading, where it departs from the
behaviour its design describes in these ways:

- A scale stack is added to the running pot before it is compared with the threshold
  (lines 172-173), and ties with the last winner also win (lines 175-178).
- A member is credited the tip's `inc` (line 57), which is stake plus diff, not the diff.
- `removeFromQueue` removes every copy of an id (lines 14-18).
- `payoutBet` does not check `isPaid`, so paying a bet twice credits twice
  (`Payout.PayingTwice`).
- The member update has no upsert: a missing member is not created (line 57).
- The request's game id is never checked against the bet's game (tip.controller.js:30).
- The writes are not transactional. The session's transaction is started, but no write is
  given the session (payout.service.js:63-65, tip.controller.js:49-65).
- A wager on a bet of neither known type debits the member and creates no tip
  (`Wagers.UnrecognisedKeepsStake`).
- A scale answer below every interval fails after the debit and the tip write
  (`Wagers.FailedWager`).

## Model

| member | source | states |
|---|---|---|
| `Records.Abs` | src/services/payout.service.js:199 | the absolute value is non-negative and equals the value or its negation |
| `Records.SumCurrencyAppend` | src/services/payout.service.js:152-154 | the sum of stakes is additive over concatenation |
| `Records.SumCurrencyPositive` | src/services/payout.service.js:152-154 | a non-empty list of positive stakes has a positive sum |
| `Partition.IndexOfKey` | src/services/payout.service.js:149 | `stacks.find` by answer: a found index holds the answer; no index exactly when no stack has it |
| `Partition.IndexOfKeyOpened` | src/services/payout.service.js:149-150 | after a new stack is opened for a missing answer, that answer is found at the end |
| `Partition.GroupTips` | src/services/payout.service.js:145-155 | the grouping loop computes `Group` |
| `Partition.FirstAppearancesFacts` | src/services/payout.service.js:149-150 | the answers kept are exactly those present, with no duplicates |
| `Partition.GroupAnswers` | src/services/payout.service.js:145-155 | the stacks' answers are the tips' answers in order of first appearance |
| `Partition.WithKeyAbsent` | src/services/payout.service.js:145-155 | no tips are selected for an answer nobody chose |
| `Partition.GroupStacks` | src/services/payout.service.js:145-155 | the stacks are well formed with distinct answers; each holds exactly its answer's tips in order, is non-empty, has sum equal to its stakes, and has no proximity yet |
| `Partition.TotalSumUpdate` | src/services/payout.service.js:152-154 | replacing one stack changes the total by the difference of sums |
| `Partition.GroupTotal` | src/services/payout.service.js:145-155 | the stacks' total equals the sum of all stakes |
| `Partition.AddTipTotal` | src/services/payout.service.js:145-155 | adding a tip to the stacks raises their total by its stake |
| `Partition.FlatTipsUpdate` | src/services/payout.service.js:152-154 | replacing one stack changes the flattened tips by that stack's tips |
| `Partition.FlatTipsContains` | src/services/payout.service.js:145-155 | every stack's tips are part of the flattened tips |
| `Partition.BumpFlatTips` | src/services/payout.service.js:152-154 | adding a tip to a stack adds exactly that tip to the flattened tips |
| `Partition.GroupStepFlatTips` | src/services/payout.service.js:145-155 | grouping one more tip adds exactly that tip |
| `Partition.GroupPermutation` | src/services/payout.service.js:145-155 | the stacks hold every tip exactly once (a permutation) |
| `Proximity.InsertByProximity` | src/services/payout.service.js:199 | insertion lengthens by one |
| `Proximity.SortByProximity` | src/services/payout.service.js:199 | the sort keeps the length |
| `Proximity.SortProximity` | src/services/payout.service.js:194-204 | is the ranked stable sort of the measured stacks; a permutation of the input up to the proximity fields; every stack measured; sorted by ascending distance; rank equals position |
| `Proximity.InsertPermutation` | src/services/payout.service.js:199 | insertion adds exactly the inserted stack |
| `Proximity.InsertSorted` | src/services/payout.service.js:199 | insertion into a sorted sequence keeps it sorted |
| `Proximity.SortPermutationSorted` | src/services/payout.service.js:199 | the sort is a permutation and its result is sorted |
| `Proximity.AtDistanceAppend` | src/services/payout.service.js:199 | the stacks at a given distance split over concatenation |
| `Proximity.AtDistanceAbove` | src/services/payout.service.js:199 | no stack lies at a distance below every stack's distance |
| `Proximity.InsertStable` | src/services/payout.service.js:199 | insertion places a stack after those at the same distance |
| `Proximity.InsertFront` | src/services/payout.service.js:199 | a stack nearer than the head of a sorted run is put first, and the run keeps no stack at its distance |
| `Proximity.InsertBehind` | src/services/payout.service.js:199 | a stack not nearer than the head is inserted into the tail, and the stacks at each distance keep their order |
| `Proximity.SortStable` | src/services/payout.service.js:199 | the sort is stable: stacks at equal distance keep their grouping order |
| `Proximity.SplitAt` | src/services/payout.service.js:199 | removing one stack removes exactly it, also with proximity cleared |
| `Proximity.BaresPermutation` | src/services/payout.service.js:194-204 | permuted stacks stay permuted with proximity cleared |
| `Proximity.PermutationRest` | src/services/payout.service.js:199 | taking the same stack out of two permutations of each other leaves permutations |
| `Proximity.BaresRestore` | src/services/payout.service.js:194-204 | putting that stack back keeps the multisets equal with proximity cleared |
| `Proximity.SortMeasured` | src/services/payout.service.js:196-202 | sorting and ranking keep every stack's measured distance |
| `Proximity.SortFacts` | src/services/payout.service.js:194-204 | measure, sort and rank give a permutation of the input that is measured and sorted |
| `Classification.ReducedPotNaN` | src/services/payout.service.js:164 | the reduce, run step by step from the number 0, yields 0 for no stacks and NaN otherwise, never the stacks' total |
| `Classification.ScaleFlags` | src/services/payout.service.js:171-181 | one win flag per stack |
| `Classification.WinnerFlags` | src/services/payout.service.js:166-189 | one flag per stack |
| `Classification.WinnerFlagsStep` | src/services/payout.service.js:166-189 | the flags of a prefix extend by the next stack's flag |
| `Classification.Classify` | src/services/payout.service.js:166-189 | the loop's winners and losers are `Winners` and `Losers` |
| `Classification.Judge` | src/services/payout.service.js:167-183 | one stack's verdict is its winner flag, and the running pot, the last verdict and the last proximity advance to the next stack |
| `Classification.PickSnoc` | src/services/payout.service.js:185-188 | one more stack joins the winners exactly when flagged, and the losers otherwise |
| `Classification.ScaleVerdictAt` | src/services/payout.service.js:172-178 | a scale stack's verdict compares the pot including it with the threshold, or ties it with a preceding winner |
| `Classification.PickMembers` | src/services/payout.service.js:185-188 | a stack is picked exactly when some position holds it with the wanted flag |
| `Classification.PickPartition` | src/services/payout.service.js:185-188 | winners and losers together are a permutation of the flagged stacks |
| `Classification.ClassifyPartition` | src/services/payout.service.js:166-189 | every stack ends up as a winner or a loser, exactly once |
| `Classification.PickConstant` | src/services/payout.service.js:185-188 | constant flags put all stacks on one side |
| `Classification.NoWinnersUnlessKnown` | src/services/payout.service.js:167-168 | an aborted bet, or one of unknown type, has no winners and every stack loses |
| `Classification.CatalogueWinners` | src/services/payout.service.js:169-170 | on a catalogue bet a stack wins if and only if its answer is a correct answer, and loses otherwise |
| `Classification.ScaleFlagsPrefix` | src/services/payout.service.js:171-181 | a stack's flag depends only on the stacks before it |
| `Classification.ScaleFlagsStep` | src/services/payout.service.js:172-181 | a stack wins if the pot so far stays below the threshold, or ties with a preceding winner |
| `Classification.ReachesStep` | src/services/payout.service.js:172-181 | the closed form obeys the same step |
| `Classification.ScaleFlagsClosedForm` | src/services/payout.service.js:171-181 | a stack's flag is set if and only if `Reaches` holds for it |
| `Classification.TotalSumGrows` | src/services/payout.service.js:172 | with positive sums the running pot strictly grows |
| `Classification.ScaleFlagsMonotone` | src/services/payout.service.js:171-181 | with positive sums a winner is preceded only by winners |
| `Classification.PickSplit` | src/services/payout.service.js:185-188 | flags of this shape split the stacks into a prefix and a suffix |
| `Classification.AllTrueBefore` | src/services/payout.service.js:171-181 | under monotone flags every earlier flag is set |
| `Classification.ScaleWinnersPrefix` | src/services/payout.service.js:166-189 | on a scale bet the winners are exactly the closest stacks, a prefix of the sorted stacks |
| `Classification.NaNThresholdNoWinner` | src/services/payout.service.js:164 | a NaN threshold makes no stack win |
| `Classification.ZeroThresholdNoWinner` | src/services/payout.service.js:164 | a zero threshold makes no positive stack win |
| `Classification.AsWrittenScaleAllLose` | src/services/payout.service.js:164 | with the threshold as written, no scale stack wins |
| `Classification.AsWrittenThresholdCounterexample` | src/services/payout.service.js:164 | two stacks where the intended threshold has a winner and the written one has none |
| `Distribution.SetPossibleGainAndLoss` | src/services/payout.service.js:206-232 | the loop over winners and losers computes `Priced` |
| `Distribution.PriceWinnersNonePropagates` | src/services/payout.service.js:210-219 | once a winner has no odds, the whole pricing throws |
| `Distribution.PriceWinnersFacts` | src/services/payout.service.js:210-219 | priced winners keep their stacks, carry the stack's odds, and have gain `GainOf(odds, sum)` |
| `Distribution.LossTotalIsStake` | src/services/payout.service.js:221-231 | the possible loss is the losers' total stake |
| `Distribution.WinStakesIsStake` | src/services/payout.service.js:216-231 | the winners' sum is their total stake |
| `Distribution.PricedFacts` | src/services/payout.service.js:206-232 | a priced settlement keeps winners and losers, totals their stakes and possible loss, and records each winner's odds |
| `Distribution.PricedFails` | src/services/payout.service.js:211-214 | pricing throws if and only if some winner has no odds |
| `Distribution.PriceWinnersMissing` | src/services/payout.service.js:211-214 | the same, for the winners loop |
| `Distribution.ActualCap` | src/services/payout.service.js:102-111 | the shared amount is non-negative, at most each positive side, one of the two when both are positive, and 0 otherwise |
| `Distribution.CapAsWrittenGap` | src/services/payout.service.js:102-111 | as written the cap is unassigned exactly when both sides are equal and positive, and agrees with `ActualCap` otherwise |
| `Distribution.CapAsWrittenCounterexample` | src/services/payout.service.js:102-111 | gain 50 against loss 50 leaves the cap unassigned as written, and 50 as intended |
| `Distribution.PayTips` | src/services/payout.service.js:116-119 | one paid tip per tip |
| `Distribution.PayWinners` | src/services/payout.service.js:113-121 | one paid stack per winner |
| `Distribution.PayLosers` | src/services/payout.service.js:123-131 | one paid stack per loser |
| `Distribution.LossTotalPositive` | src/services/payout.service.js:221-231 | positive losses have a positive total |
| `Distribution.PayWinnersStep` | src/services/payout.service.js:113-121 | paying one more winner appends its paid stack |
| `Distribution.PayLosersStep` | src/services/payout.service.js:123-131 | paying one more loser appends its paid stack |
| `Distribution.PayStack` | src/services/payout.service.js:116-119 | the per-tip loop pays `PayTips` and adds its diffs to the running total |
| `Distribution.PayWinnerStacks` | src/services/payout.service.js:113-121 | the winners loop pays `PayWinners` and totals their diffs |
| `Distribution.PayWinnerStack` | src/services/payout.service.js:114-120 | one winning stack gets its share of the gain and pays it over its tips, totalling their diffs |
| `Distribution.PayWinnersExtend` | src/services/payout.service.js:113-121 | one more winner appends its paid stack and adds its diffs to the total |
| `Distribution.PaidWinnerDiffs` | src/services/payout.service.js:114-120 | a winning stack's tip diffs add up to its share of the gain |
| `Distribution.PayLoserStack` | src/services/payout.service.js:124-130 | one losing stack gets its share of the loss and charges it over its tips, totalling their diffs |
| `Distribution.PayLosersExtend` | src/services/payout.service.js:123-131 | one more loser appends its paid stack and adds its diffs to the total |
| `Distribution.PaidLoserDiffs` | src/services/payout.service.js:124-130 | a losing stack's tip diffs add up to minus its share of the loss |
| `Distribution.BalancedSides` | src/services/payout.service.js:98-137 | a balanced outcome pays the winners and the losers with the capped amount, which is the same on both sides |
| `Distribution.GainOfNonNegative` | src/services/payout.service.js:210-219 | odds of at least 1 on a non-negative stake give a non-negative gain |
| `Distribution.PayLoserStacks` | src/services/payout.service.js:123-131 | the losers loop pays `PayLosers` and totals their diffs |
| `Distribution.SetActualGainAndLoss` | src/services/payout.service.js:98-137 | the function computes `Distribute` under the reading: as written, an unassigned cap gives NaN diffs |
| `Distribution.ShareAdd` | src/services/payout.service.js:114-118 | proportional shares add up |
| `Distribution.ShareNegate` | src/services/payout.service.js:127 | a negated amount gives a negated share |
| `Distribution.ShareCancel` | src/services/payout.service.js:114-118 | the whole gets everything; the whole part of an amount is the amount |
| `Distribution.ShareMonotone` | src/services/payout.service.js:114-127 | shares are non-negative and grow with the amount |
| `Distribution.ShareOfGain` | src/services/payout.service.js:114-117 | the share of a stack's gain for a tip is the tip's own gain at the same odds |
| `Distribution.PayTipsAt` | src/services/payout.service.js:116-119 | paid tip j is tip j paid |
| `Distribution.PayWinnersAt` | src/services/payout.service.js:113-121 | paid winner i is winner i paid |
| `Distribution.PayLosersAt` | src/services/payout.service.js:123-131 | paid loser i is loser i paid |
| `Distribution.PayTipsTotal` | src/services/payout.service.js:116-119 | a stack's diffs add up to its share |
| `Distribution.PayWinnersTotal` | src/services/payout.service.js:113-121 | the winners' diffs add up to the share of the actual gain |
| `Distribution.PayLosersTotal` | src/services/payout.service.js:123-131 | the losers' diffs add up to minus the share of the actual loss |
| `Distribution.GainTotalEmpty` | src/services/payout.service.js:226-231 | no winners, no possible gain |
| `Distribution.DistributeBalances` | src/services/payout.service.js:98-137 | the diffs are NaN exactly when there are winners and the possible gain is 0 or, as written, when gain and loss are equal and positive; the balance check never fails; when balanced, gain = loss = cap and winners' and losers' diffs cancel |
| `Distribution.CurrencyAtMostSum` | src/services/payout.service.js:152-154 | a positive stake is at most its stack's sum |
| `Distribution.SumCurrencyNonNegative` | src/services/payout.service.js:152-154 | positive stakes have a non-negative sum |
| `Distribution.LossAtMostTotal` | src/services/payout.service.js:221-231 | a loser's possible loss is at most the total |
| `Distribution.GainTotalNonNegative` | src/services/payout.service.js:216-231 | non-negative gains have a non-negative total |
| `Distribution.LoserRefundBounds` | src/services/payout.service.js:123-131 | a loser loses at most its stake, and gets back between 0 and its stake |
| `Distribution.WinnerGainBounds` | src/services/payout.service.js:113-121 | with odds of at least 1 a winner gains between 0 and its own possible gain, and is credited stake plus gain |
| `Distribution.NoWinnersRefund` | src/services/payout.service.js:102-131 | with no winners every loser gets its stake back with diff 0 |
| `Intervals.LastAtMost` | src/controllers/tip.controller.js:168-171 | the match found is an index of the answers |
| `Intervals.ScaleInterval` | src/controllers/tip.controller.js:165-181 | an interval found has an index of the answers |
| `Intervals.GetScaleInterval` | src/controllers/tip.controller.js:165-181 | the loop computes `ScaleInterval` |
| `Intervals.LastAtMostFacts` | src/controllers/tip.controller.js:168-178 | nothing is found exactly when every boundary exceeds the value; otherwise the found boundary is at most the value and every later one exceeds it |
| `Intervals.SameInterval` | src/controllers/tip.controller.js:99-181 | on ascending boundaries a value lies in its own interval, and a tip lies in it exactly when it maps to the same interval |
| `Intervals.BelowEveryBoundary` | src/controllers/tip.controller.js:165-181 | a value below the first boundary finds no interval |
| `Intervals.AsWrittenDiffers` | src/controllers/tip.controller.js:101 | the written filter differs from the intended one exactly when the next boundary is 0 and the tip is at or above 0 |
| `Intervals.AsWrittenCounterexample` | src/controllers/tip.controller.js:101 | boundaries -10, 0, 10: a tip at 5 is in the interval of -5 as written, not as intended |
| `Wagers.FindTip` | src/controllers/tip.controller.js:47-102 | `findOne` returns the first matching tip; none means no tip matches |
| `Wagers.CatalogueCreate` | src/controllers/tip.controller.js:74-94 | touches only tips and the bet; never fails |
| `Wagers.ScaleCreate` | src/controllers/tip.controller.js:96-121 | touches only tips and the bet |
| `Wagers.WithMember` | src/controllers/tip.controller.js:37-39 | after finding or creating it, the member exists |
| `Wagers.Joined` | src/controllers/tip.controller.js:37-39 | the member exists with its funds (the game's start currency if new) |
| `Wagers.TipService.CreateTip` | src/controllers/tip.controller.js:11-72 | the new state and response are `CreateTipSpec` of the old state |
| `Wagers.TipService.Accept` | src/controllers/tip.controller.js:47-65 | the new state and response after the checks are `AcceptSpec` of the old state |
| `Wagers.TipService.Place` | src/controllers/tip.controller.js:51-55 | placing the tip by the bet's type gives the store, tip and failure of `PlaceByType` |
| `Wagers.TipService.Count` | src/controllers/tip.controller.js:57-65 | the counter updates give the store of `Counted` |
| `Wagers.PlaceByType` | src/controllers/tip.controller.js:51-55 | placing a tip leaves members, games and tickers alone and keeps the set of bets |
| `Wagers.Counted` | src/controllers/tip.controller.js:57-65 | counting leaves members, tips and games alone, keeps every bet's type, and touches only the wagered bet |
| `Wagers.TipService.CatalogueTipCreate` | src/controllers/tip.controller.js:74-94 | the new state and tip id are `CatalogueCreate` of the old state |
| `Wagers.TipService.ScaleTipCreate` | src/controllers/tip.controller.js:96-121 | the new state, tip id and failure are `ScaleCreate` of the old state |
| `Wagers.Admission` | src/controllers/tip.controller.js:12-45 | a wager is not rejected exactly when it passes every check; then it proceeds with the joined member |
| `Wagers.AcceptNeverRejects` | src/controllers/tip.controller.js:47-65 | past the checks no rejection is possible |
| `Wagers.RejectionsWriteNothing` | src/controllers/tip.controller.js:12-45 | a rejection writes nothing, except that a stake rejection may already have created the member |
| `Wagers.StakeRejections` | src/controllers/tip.controller.js:41-45 | too little currency is rejected first; otherwise a non-positive stake is rejected |
| `Wagers.AcceptEffects` | src/controllers/tip.controller.js:47-65 | the member is debited the stake; the tip is placed for known types only; the response; a failure leaves bets and tickers alone; other bets are untouched |
| `Wagers.PlaceByTypeEffects` | src/controllers/tip.controller.js:51-55 | the tip is placed for known types only; placing fails exactly for a scale answer below every interval; a failure leaves the bets alone; other bets are untouched |
| `Wagers.CatalogueEffects` | src/controllers/tip.controller.js:74-94 | a catalogue wager places the tip on its answer and touches only its own bet |
| `Wagers.ScaleEffects` | src/controllers/tip.controller.js:96-121 | a scale wager places the tip on its value, and fails exactly when the value is below every interval, leaving the bets alone |
| `Wagers.AcceptCounts` | src/controllers/tip.controller.js:57-65 | the ticker goes up by 1, the bet's member count by 1 only for a first tip, and its pot by the stake |
| `Wagers.CatalogueCounters` | src/controllers/tip.controller.js:84-91 | the answer's member count goes up only for a first tip on it, and its pot by the stake |
| `Wagers.ScaleCounters` | src/controllers/tip.controller.js:100-118 | the interval's member count goes up exactly when the filter of line 101, as written, finds no tip of the user, and its pot by the stake |
| `Wagers.IntervalTipSameInterval` | src/controllers/tip.controller.js:100-101 | on rising boundaries whose next boundary is not 0, the filter finds a tip of the user exactly when one of the user's answers maps to the same interval |
| `Wagers.BetStakeAppend` | src/controllers/tip.controller.js:87-109 | a new tip adds its stake to its bet's stake |
| `Wagers.BetStakeTopUp` | src/controllers/tip.controller.js:81-106 | a top-up changes the bet's stake by the difference |
| `Wagers.UsersAppend` | src/controllers/tip.controller.js:87-109 | a new tip adds its user to the bet's users |
| `Wagers.UsersTopUp` | src/controllers/tip.controller.js:81-106 | a top-up keeps the bet's users |
| `Wagers.HasTipOnUsers` | src/controllers/tip.controller.js:47-59 | a user has a tip on a bet exactly when the user is among the bet's users |
| `Wagers.PlaceTipTotals` | src/controllers/tip.controller.js:79-110 | placing adds the stake to that bet only and adds the user only to that bet |
| `Wagers.PlaceTipShape` | src/controllers/tip.controller.js:79-110 | stakes stay positive and ids stay positions; a tip is new exactly when no tip matched |
| `Wagers.PlaceTipNoDuplicates` | src/controllers/tip.controller.js:76-110 | no user holds two tips on the same answer of a bet |
| `Wagers.AcceptTips` | src/controllers/tip.controller.js:47-65 | accepting keeps stakes positive and ids as positions |
| `Wagers.AcceptNoDuplicates` | src/controllers/tip.controller.js:47-65 | accepting keeps one tip per user and answer |
| `Wagers.AcceptBetTotals` | src/controllers/tip.controller.js:57-62 | a created wager keeps each bet's pot equal to its tips' stakes and its member count equal to its users |
| `Wagers.UntouchedTotals` | src/controllers/tip.controller.js:57-62 | a bet the wager does not touch keeps its pot equal to its stakes and its count equal to its users |
| `Wagers.TouchedTotals` | src/controllers/tip.controller.js:57-62 | the wagered bet's pot and member count match its tips after the wager |
| `Wagers.CreateTipKeepsValid` | src/controllers/tip.controller.js:11-72 | every non-failing request keeps the store valid |
| `Wagers.WagerMovesStake` | src/controllers/tip.controller.js:37-62 | an admitted wager debits the member, raises the bet's pot unless it failed, and adds the stake to the bet's tips for known types |
| `Wagers.FailedWager` | src/controllers/tip.controller.js:99-118 | a wager fails exactly when an admitted scale answer has no interval; then bets and tickers are unchanged but the tip is written |
| `Wagers.UnrecognisedKeepsStake` | src/controllers/tip.controller.js:51-55 | a bet of neither type answers Created with no tip and writes no tip |
| `Settlement.GroupNumeric` | src/services/payout.service.js:145-155 | scale tips that all carry a value give numeric stacks |
| `Settlement.KnownWinners` | src/services/payout.service.js:166-168 | a bet of unknown type has no winners |
| `Settlement.WithKeyFrom` | src/services/payout.service.js:145-155 | a stack's tips come from the bet's tips |
| `Settlement.GroupSound` | src/services/payout.service.js:145-155 | every stack is non-empty, has positive tips and a sum equal to its stakes |
| `Settlement.ArrangedSound` | src/services/payout.service.js:145-158 | the same after sorting |
| `Settlement.PickSound` | src/services/payout.service.js:185-188 | the same for winners and losers |
| `Settlement.PricedSound` | src/services/payout.service.js:206-232 | a priced settlement is funded and consistent with positive tips |
| `Settlement.StacksSound` | src/services/payout.service.js:206-232 | priced stacks built from sound stacks are funded and carry positive tips |
| `Settlement.GetAndSortTips` | src/services/payout.service.js:139-192 | throws exactly when a tip lacks its answer; otherwise yields the arranged winners and losers under the reading |
| `Settlement.GetSettlement` | src/services/payout.service.js:38-45 | getSettlement's three stages compute `Settle` under the reading, with the threshold of the reduce as written or the intended one |
| `Settlement.ExtractTipsFromSettlement` | src/services/payout.service.js:87-96 | the loops compute the winners' then losers' tips, stack by stack |
| `Settlement.FlatPaidAppend` | src/services/payout.service.js:88-93 | flattening is additive over concatenation |
| `Settlement.PaidSumsAppend` | src/services/payout.service.js:87-96 | diffs, credits and tips are additive over concatenation |
| `Settlement.FlatPaidDiffs` | src/services/payout.service.js:87-96 | the flattened diffs add up to the stacks' diffs |
| `Settlement.PayTipsTips` | src/services/payout.service.js:116-128 | paying keeps the tips, and credits stake plus diff in total |
| `Settlement.FlatTipsAppend` | src/services/payout.service.js:88 | flattening stacks is additive over concatenation |
| `Settlement.FlatPaidFacts` | src/services/payout.service.js:87-96 | flattened payments are the flattened tips, and credits total stakes plus diffs |
| `Settlement.PaidWinnersOwn` | src/services/payout.service.js:113-121 | each paid winner pays its own tips |
| `Settlement.PaidLoserOwn` | src/services/payout.service.js:124-130 | a paid loser keeps its stack and its tips, and its incs are its stakes plus its diffs |
| `Settlement.PaidLosersOwn` | src/services/payout.service.js:123-131 | each paid loser pays its own tips |
| `Settlement.SplitAtTips` | src/services/payout.service.js:199 | removing one stack removes exactly its tips |
| `Settlement.FlatTipsPermutation` | src/services/payout.service.js:199 | permuted stacks flatten to permuted tips |
| `Settlement.FlatTipsBares` | src/services/payout.service.js:194-204 | proximity fields do not change the tips |
| `Settlement.SumCurrencyPermutation` | src/services/payout.service.js:152-154 | permuted tips have the same total stake |
| `Settlement.ArrangedTips` | src/services/payout.service.js:145-158 | the arranged stacks hold every tip exactly once |
| `Settlement.SplitTips` | src/services/payout.service.js:139-192 | winners and losers together hold every tip exactly once |
| `Settlement.SettleThrows` | src/services/payout.service.js:38-214 | settlement throws exactly when a tip lacks its answer, or a winner of a known type has no odds, under either reading |
| `Settlement.SettledParts` | src/services/payout.service.js:38-45 | a settled bet was priced soundly and distributed in balance |
| `Settlement.DistributedSides` | src/services/payout.service.js:113-131 | each distributed side pays its own stacks |
| `Settlement.SettledSides` | src/services/payout.service.js:38-45 | a settled bet's sides pay exactly the classified winners and losers, under either reading |
| `Settlement.SettledPaid` | src/services/payout.service.js:38-49 | the extracted tips are the winners' then losers' tips, and their credits are stakes plus diffs |
| `Settlement.SettleZeroSum` | src/services/payout.service.js:38-134 | a settled bet's diffs sum to 0, under either reading |
| `Settlement.SettlePaysEveryTip` | src/services/payout.service.js:38-96 | every tip of the bet is paid exactly once, under either reading |
| `Settlement.SettleReturnsPot` | src/services/payout.service.js:38-57 | the credits add up to exactly the pot, under either reading |
| `Settlement.FlatPaidRefunds` | src/services/payout.service.js:87-96 | refunded stacks flatten to refunded tips |
| `Settlement.AbortedRefunds` | src/services/payout.service.js:167-168 | an aborted bet is settled with no winners, and every tip is refunded its stake, under either reading |
| `Settlement.AsWrittenScaleNoWinners` | src/services/payout.service.js:164-181 | as written, a scale bet that is not aborted has no winners, so a settled one pays every tip as a loser |
| `Payout.Credit` | src/services/payout.service.js:57-64 | a member write never creates a member |
| `Payout.ApplyCredits` | src/services/payout.service.js:64 | the member writes create no member |
| `Payout.BulkRequests` | src/services/payout.service.js:55-59 | the loop builds exactly the member and tip writes |
| `Payout.ShortTitle` | src/services/payout.service.js:67 | the intended shortening keeps at most 50 characters: the title itself, or its first 48 and two dots |
| `Payout.Ledger.PayoutBet` | src/services/payout.service.js:47-77 | the tip writes, then the member writes, then the paid flag are applied up to the step that fails, and none is undone; it throws exactly when a step fails or, as written, the title exceeds 50 characters |
| `Payout.Ledger.WriteTips` | src/services/payout.service.js:63 | the tip bulk write sets each written diff and changes nothing else |
| `Payout.Ledger.WriteMembers` | src/services/payout.service.js:64 | the member bulk write adds each written inc and changes nothing else |
| `Payout.ApplyCreditsValue` | src/services/payout.service.js:57-64 | an existing member is credited the sum of its writes |
| `Payout.PayingTwice` | src/services/payout.service.js:47-65 | paying the same writes twice credits twice |
| `Payout.RefundedStake` | src/services/payout.service.js:57-64 | a refund credits each member exactly its stake |
| `Payout.ApplyDiffsFacts` | src/services/payout.service.js:58-63 | the tip writes touch exactly their ids; untouched ids keep their diff; the last write wins |
| `Payout.ApplyDiffsKeys` | src/services/payout.service.js:58-63 | the tip writes add exactly their ids |
| `Payout.ApplyDiffsUntouched` | src/services/payout.service.js:58-63 | an id no write names keeps its diff |
| `Payout.ApplyDiffsLast` | src/services/payout.service.js:58-63 | the last write to an id decides its diff |
| `Payout.PayoutService.AddToQueue` | src/services/payout.service.js:10-12 | the id is appended to the queue |
| `Payout.PayoutService.RemoveFromQueue` | src/services/payout.service.js:14-18 | the queue becomes `Without` the id |
| `Payout.PayoutService.ProcessNextBet` | src/services/payout.service.js:20-36 | an empty queue changes nothing; otherwise the queue is `QueueAfterAsWritten` of whether the payout threw (as written) or `QueueAfter` (intended); a settled bet's writes are applied up to the failing step, and the head is marked paid only if all succeed; otherwise the ledger is unchanged |
| `Payout.WithoutFacts` | src/services/payout.service.js:14-18 | removal drops every copy of the id and keeps every other id with its count |
| `Payout.WithoutCount` | src/services/payout.service.js:14-18 | removal drops every copy of the id and keeps the count of every other id |
| `Payout.WithoutMembers` | src/services/payout.service.js:14-18 | an id is left in the queue exactly when it was there and is not the removed one |
| `Payout.WithoutShorter` | src/services/payout.service.js:14-18 | removal never lengthens the queue, and shortens it when the id was queued |
| `Payout.WithoutIdempotent` | src/services/payout.service.js:14-18 | removing twice is removing once |
| `Payout.WithoutAppend` | src/services/payout.service.js:14-18 | removal distributes over concatenation |
| `Payout.WithoutAbsent` | src/services/payout.service.js:14-18 | removing an absent id changes nothing |
| `Payout.AddThenRemove` | src/services/payout.service.js:10-18 | adding then removing an id is removing it |
| `Payout.QueueAfterRemovesOnlyHead` | src/services/payout.service.js:20-36 | processing shrinks the queue and removes only the head's copies |
| `Payout.AsWrittenSkipsNextBet` | src/services/payout.service.js:27-33 | queue [1, 2] with a failed payout ends empty as written, and [2] as intended |
| `Payout.LongTitleThrows` | src/services/payout.service.js:67 | a title over 50 characters makes a healthy payout throw as written, which drops bet 2 of queue [1, 2]; as intended it does not throw |
| `Payout.AsWrittenDiffers` | src/services/payout.service.js:27-33 | the written queue differs from the intended one exactly when the payout threw and another bet was waiting |

## Left out

- The database, the sockets, logging and console output are not modelled. Reads become parameters: `getBetById`, `getTipsByBetIdLean`, `findOne` lookups and the game's start currency. Writes become updates of the model's maps and sequences.
- Re-reading the tips and the bet after a payout (payout.service.js:79-81), and the socket message after a wager (tip.controller.js:67-70), are not modelled; they only read and notify.
- The captcha service (tip.controller.js:19) becomes the request's `captchaVerified` flag. The clock (`getTimeDifferenceToNow`, line 34) becomes its `deadlinePassed` flag.
- Floating point is not modelled. Money is exact `real`, so the shares of lines 114-127 have no rounding error; `Math.floor` at line 173 is modelled exactly.
- Decimal128 parsing (`parseFloat(x.toString())`) is modelled as the decimal value itself.
- Concurrency is not modelled: the writes are not transactional, so two requests can interleave. Each transition is atomic in the model.
- `Payout.PayoutService.ProcessNextBet`: when the diffs are NaN (winners with no possible gain or, as written, equal positive gain and loss), the code still writes NaN credits and diffs and sets `isPaid`; reals have no NaN, so the model leaves the ledger unchanged and keeps only whether payoutBet throws.
- `Payout.Ledger.PayoutBet`: which database step fails, if any, is a parameter (`StoreFault`); the log entry, the commit and the re-reads after it (lines 68-81) are modelled only as a step that may fail after every write.
- `Wagers.FailedWager`: with no interval the code increments `scale_answers.undefined.memberCount`; the model takes the database to reject that update, so the bets stay unchanged and the wager fails after the tip is written.
- The error at payout.service.js:134 is a ReferenceError: building the message of the global `Error` reads `totalGains` and `totalLosses`, which are never declared. The model records only that settlement throws (`Thrown`) and nothing is written.
- `Wagers.TipService.CreateTip`: requires the request to carry the answer field of its bet's type, and a catalogue answer the bet lists (`Fits`). Without them the code writes to paths such as `catalogue_answers.undefined`, which depend on the database layer.
- `Wagers.FindTip`: when several documents match, `findOne` is modelled as returning the first in insertion order.
- Which tip ids the database assigns: a new tip's id is its position in the tip list.

## Findings

| source | as written | input that shows it | evidently intended | confidence | as-written member | corrected member |
|---|---|---|---|---|---|---|
| src/services/payout.service.js:164 | the reduce starts from the number 0 and reads `.sum` of its accumulator, which is undefined, so the pot and the threshold are NaN whenever there is a stack, and no scale stack ever wins | a scale bet with stacks of 1 and 9 and win rate 100: no winner | the threshold is `floor(pot × winRate / 100)`, so the closest stacks win | not executed | `Classification.ReducedPotNaN`, `Settlement.AsWrittenScaleNoWinners` | `Classification.IntendedThreshold`, `Classification.ScaleWinnersPrefix` |
| src/services/payout.service.js:102-111 | with equal positive possible gain and loss neither branch assigns the cap, so every diff is NaN and the check at line 133 lets it through | 50 staked by winners at odds 2 against 50 staked by losers | the cap is the common value | not executed | `Distribution.ActualCapAsWritten`, `Distribution.CapAsWrittenCounterexample` | `Distribution.ActualCap`, `Distribution.DistributeBalances` |
| src/controllers/tip.controller.js:101 | the interval filter tests `interval.to` for truthiness, so an upper bound of 0 is dropped | boundaries -10, 0, 10 and an earlier tip at 5: the user is counted as already in the interval of -5 | the filter has an upper bound whenever a next boundary exists | not executed | `Intervals.InIntervalAsWritten`, `Intervals.AsWrittenCounterexample` | `Intervals.InInterval`, `Intervals.SameInterval` |
| src/services/payout.service.js:27-33 | after line 27 removes the head, a throw from `payoutBet` makes the catch remove the new head too, which is never paid | queue [1, 2] and a failed payout of bet 1: the queue ends empty | only the bet being processed leaves the queue | not executed | `Payout.QueueAfterAsWritten`, `Payout.AsWrittenSkipsNextBet` | `Payout.QueueAfter`, `Payout.QueueAfterRemovesOnlyHead` |
| src/services/payout.service.js:67 | a title longer than 50 characters is shortened with `sustr`, which strings do not have, so payoutBet throws after every write and line 33 then drops the next queued bet | a bet titled with 51 characters, paid with bet 2 waiting: bet 1 is paid, bet 2 leaves the queue unpaid | the title is shortened with `substr` to 48 characters and two dots | not executed | `Payout.PayoutThrows`, `Payout.LongTitleThrows` | `Payout.ShortTitle`, `Payout.Ledger.PayoutBet` |
