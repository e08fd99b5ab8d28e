/**
 * The gain/loss distributor of payout.service.js: setPossibleGainAndLoss (lines 206-232)
 * prices the classified stacks, and setActualGainAndLoss (lines 98-137) caps the money that
 * moves, shares it across stacks and tips in proportion, and checks that it balances.
 */
module Distribution {
  import opened Wrappers
  import opened Records
  import opened Partition

  /** A winning stack with its odds and `possibleGain` (lines 212-216). */
  datatype WinStack = WinStack(stack: Stack, odds: real, possibleGain: real)

  /** A losing stack with its `possibleLoss` (line 227). */
  datatype LoseStack = LoseStack(stack: Stack, possibleLoss: real)

  /** A settlement after setPossibleGainAndLoss: the group totals of lines 221-231. */
  datatype Possible = Possible(winners: seq<WinStack>, winnersSum: real, possibleGain: real,
                               losers: seq<LoseStack>, losersSum: real, possibleLoss: real)

  /** A tip with the `diff` and `inc` written onto it (lines 117-118, 127-128). */
  datatype PaidTip = PaidTip(tip: Tip, diff: real, inc: real)

  /** A stack with its `actualGain` or `actualLoss` (lines 114, 124) and its paid tips. */
  datatype PaidStack = PaidStack(stack: Stack, actual: real, tips: seq<PaidTip>)

  /** What setActualGainAndLoss ends with: a balanced settlement; diffs that are NaN, which
      the check of line 133 lets through; or a failed balance check, which throws. */
  datatype Distribution =
    | Balanced(winners: seq<PaidStack>, losers: seq<PaidStack>, actualGain: real, actualLoss: real)
    | NotANumber
    | Unbalanced(total: real)

  // ---------------------------------------------------------------------------------------
  // Phase A: possible gain and loss

  /** The odds of a winning stack (lines 211-214): the answer's entry in
      `catalogue_answers`, or the bet-wide scale odds. `None` is the TypeError of reading
      `.odds` of a missing catalogue entry. */
  function OddsOf(bet: Bet, s: Stack): Option<real>
    requires bet.betType != Unrecognised
  {
    if bet.betType == Scale then Some(bet.scaleOptions.odds)
    else if s.answer.Choice? && s.answer.id in bet.catalogueAnswers then Some(bet.catalogueAnswers[s.answer.id].odds)
    else None
  }

  /** The winning stacks, priced; `None` if one of them has no odds. */
  function PriceWinners(bet: Bet, winners: seq<Stack>): Option<seq<WinStack>>
    requires bet.betType == Unrecognised ==> winners == []
    decreases |winners|
  {
    if winners == [] then Some([])
    else
      var last := winners[|winners| - 1];
      var earlier := PriceWinners(bet, winners[..|winners| - 1]);
      var odds := OddsOf(bet, last);
      if earlier.None? || odds.None? then None
      else Some(earlier.value + [WinStack(last, odds.value, GainOf(odds.value, last.sum))])
  }

  /** `(stack.odds - 1) * stack.sum` (line 216) */
  function GainOf(odds: real, sum: real): real
  {
    (odds - 1.0) * sum
  }

  /** Odds of at least 1 never promise a negative gain. */
  lemma GainOfNonNegative(odds: real, sum: real)
    requires odds >= 1.0 && sum >= 0.0
    ensures GainOf(odds, sum) >= 0.0
  {
  }

  /** `amount * (part / whole)`: the proportional share of lines 114, 117, 124 and 127. */
  function Share(amount: real, part: real, whole: real): real
    requires whole != 0.0
  {
    amount * (part / whole)
  }

  function PriceLosers(losers: seq<Stack>): (r: seq<LoseStack>)
    ensures |r| == |losers| && forall i :: 0 <= i < |losers| ==> r[i] == LoseStack(losers[i], losers[i].sum)
  {
    seq(|losers|, i requires 0 <= i < |losers| => LoseStack(losers[i], losers[i].sum))
  }

  function GainTotal(ws: seq<WinStack>): real
    decreases |ws|
  {
    if ws == [] then 0.0 else GainTotal(ws[..|ws| - 1]) + ws[|ws| - 1].possibleGain
  }

  function WinStakes(ws: seq<WinStack>): real
    decreases |ws|
  {
    if ws == [] then 0.0 else WinStakes(ws[..|ws| - 1]) + ws[|ws| - 1].stack.sum
  }

  function LossTotal(ls: seq<LoseStack>): real
    decreases |ls|
  {
    if ls == [] then 0.0 else LossTotal(ls[..|ls| - 1]) + ls[|ls| - 1].possibleLoss
  }

  /** What setPossibleGainAndLoss computes; `None` when it throws. */
  function Priced(bet: Bet, winners: seq<Stack>, losers: seq<Stack>): Option<Possible>
    requires bet.betType == Unrecognised ==> winners == []
  {
    match PriceWinners(bet, winners)
    case None => None
    case Some(ws) =>
      var ls := PriceLosers(losers);
      Some(Possible(ws, WinStakes(ws), GainTotal(ws), ls, LossTotal(ls), LossTotal(ls)))
  }

  /** setPossibleGainAndLoss (lines 206-232). */
  method SetPossibleGainAndLoss(bet: Bet, winners: seq<Stack>, losers: seq<Stack>) returns (r: Option<Possible>)
    requires bet.betType == Unrecognised ==> winners == []
    ensures r == Priced(bet, winners, losers)
  {
    var possibleGainSum, sumSum := 0.0, 0.0;
    var ws: seq<WinStack> := [];
    for n := 0 to |winners|
      invariant PriceWinners(bet, winners[..n]) == Some(ws)
      invariant possibleGainSum == GainTotal(ws) && sumSum == WinStakes(ws)
    {
      var stack := winners[n];
      assert winners[..n + 1][..n] == winners[..n];
      assert winners[..n + 1][n] == stack;
      var odds: real;
      match OddsOf(bet, stack) {
        case None =>
          assert PriceWinners(bet, winners[..n + 1]).None?;
          PriceWinnersNonePropagates(bet, winners, n + 1);
          return None;
        case Some(o) =>
          odds := o;
      }
      var possibleGain := GainOf(odds, stack.sum);
      assert OddsOf(bet, stack) == Some(odds);
      assert winners[..n + 1] != [] && winners[..n + 1][n] == stack;
      assert PriceWinners(bet, winners[..n + 1]) == Some(ws + [WinStack(stack, odds, possibleGain)]);
      assert (ws + [WinStack(stack, odds, possibleGain)])[..|ws|] == ws;
      ws := ws + [WinStack(stack, odds, possibleGain)];
      sumSum := sumSum + stack.sum;
      possibleGainSum := possibleGainSum + possibleGain;
    }
    assert winners[..|winners|] == winners;
    var possibleLossSum := 0.0;
    var ls: seq<LoseStack> := [];
    for n := 0 to |losers|
      invariant ls == PriceLosers(losers[..n]) && possibleLossSum == LossTotal(ls)
    {
      var stack := losers[n];
      assert PriceLosers(losers[..n + 1]) == PriceLosers(losers[..n]) + [LoseStack(stack, stack.sum)];
      ls := ls + [LoseStack(stack, stack.sum)];
      possibleLossSum := possibleLossSum + stack.sum;
      assert ls[..|ls| - 1] == PriceLosers(losers[..n]);
    }
    assert losers[..|losers|] == losers;
    r := Some(Possible(ws, sumSum, possibleGainSum, ls, possibleLossSum, possibleLossSum));
  }

  lemma {:induction false} PriceWinnersNonePropagates(bet: Bet, winners: seq<Stack>, n: nat)
    requires bet.betType == Unrecognised ==> winners == []
    requires n <= |winners| && PriceWinners(bet, winners[..n]).None?
    ensures PriceWinners(bet, winners).None?
    decreases |winners| - n
  {
    if n < |winners| {
      assert winners[..n + 1][..n] == winners[..n];
      PriceWinnersNonePropagates(bet, winners, n + 1);
    } else {
      assert winners[..n] == winners;
    }
  }

  /** The priced settlement is internally consistent: every stack's share and every group
      total is what lines 212-231 define. */
  predicate Consistent(p: Possible)
  {
    (forall i :: 0 <= i < |p.winners| ==>
       p.winners[i].possibleGain == GainOf(p.winners[i].odds, p.winners[i].stack.sum)) &&
    (forall i :: 0 <= i < |p.losers| ==> p.losers[i].possibleLoss == p.losers[i].stack.sum) &&
    p.possibleGain == GainTotal(p.winners) && p.winnersSum == WinStakes(p.winners) &&
    p.possibleLoss == LossTotal(p.losers) && p.losersSum == p.possibleLoss
  }

  /** Every priced stack holds tips whose stakes add up to its positive sum. */
  predicate Funded(p: Possible)
  {
    (forall i :: 0 <= i < |p.winners| ==>
       p.winners[i].stack.sum > 0.0 && SumCurrency(p.winners[i].stack.tips) == p.winners[i].stack.sum) &&
    (forall i :: 0 <= i < |p.losers| ==>
       p.losers[i].stack.sum > 0.0 && SumCurrency(p.losers[i].stack.tips) == p.losers[i].stack.sum)
  }

  function WinnerStacks(ws: seq<WinStack>): (r: seq<Stack>)
    ensures |r| == |ws| && forall i :: 0 <= i < |ws| ==> r[i] == ws[i].stack
  {
    seq(|ws|, i requires 0 <= i < |ws| => ws[i].stack)
  }

  function LoserStacks(ls: seq<LoseStack>): (r: seq<Stack>)
    ensures |r| == |ls| && forall i :: 0 <= i < |ls| ==> r[i] == ls[i].stack
  {
    seq(|ls|, i requires 0 <= i < |ls| => ls[i].stack)
  }

  lemma {:induction false} PriceWinnersFacts(bet: Bet, winners: seq<Stack>)
    requires bet.betType == Unrecognised ==> winners == []
    requires PriceWinners(bet, winners).Some?
    ensures var ws := PriceWinners(bet, winners).value;
      WinnerStacks(ws) == winners &&
      (forall i :: 0 <= i < |ws| ==> Some(ws[i].odds) == OddsOf(bet, winners[i]) &&
                                     ws[i].possibleGain == GainOf(ws[i].odds, ws[i].stack.sum))
    decreases |winners|
  {
    if winners != [] {
      var n := |winners| - 1;
      PriceWinnersFacts(bet, winners[..n]);
      var ws := PriceWinners(bet, winners).value;
      assert ws[..n] == PriceWinners(bet, winners[..n]).value;
      assert WinnerStacks(ws) == WinnerStacks(ws[..n]) + [winners[n]];
      assert winners == winners[..n] + [winners[n]];
    }
  }

  lemma {:induction false} LossTotalIsStake(ls: seq<LoseStack>)
    requires forall i :: 0 <= i < |ls| ==> ls[i].possibleLoss == ls[i].stack.sum
    ensures LossTotal(ls) == TotalSum(LoserStacks(ls))
    decreases |ls|
  {
    if ls != [] {
      var n := |ls| - 1;
      LossTotalIsStake(ls[..n]);
      assert LoserStacks(ls[..n]) == LoserStacks(ls)[..n];
    }
  }

  lemma {:induction false} WinStakesIsStake(ws: seq<WinStack>)
    ensures WinStakes(ws) == TotalSum(WinnerStacks(ws))
    decreases |ws|
  {
    if ws != [] {
      var n := |ws| - 1;
      WinStakesIsStake(ws[..n]);
      assert WinnerStacks(ws[..n]) == WinnerStacks(ws)[..n];
    }
  }

  /** setPossibleGainAndLoss keeps the winners and losers in order, prices every winner at
      `(odds - 1) * sum` with the odds of its answer and every loser at its sum, and its totals
      are the plain sums of stakes and possible gains and losses. */
  lemma PricedFacts(bet: Bet, winners: seq<Stack>, losers: seq<Stack>)
    requires bet.betType == Unrecognised ==> winners == []
    requires Priced(bet, winners, losers).Some?
    ensures Consistent(Priced(bet, winners, losers).value)
    ensures WinnerStacks(Priced(bet, winners, losers).value.winners) == winners
    ensures LoserStacks(Priced(bet, winners, losers).value.losers) == losers
    ensures Priced(bet, winners, losers).value.winnersSum == TotalSum(winners)
    ensures Priced(bet, winners, losers).value.possibleLoss == TotalSum(losers)
    ensures forall i :: 0 <= i < |winners| ==>
      Some(Priced(bet, winners, losers).value.winners[i].odds) == OddsOf(bet, winners[i])
  {
    var ws := PriceWinners(bet, winners).value;
    var ls := PriceLosers(losers);
    PriceWinnersFacts(bet, winners);
    WinStakesIsStake(ws);
    LossTotalIsStake(ls);
    assert LoserStacks(ls) == losers;
  }

  /** setPossibleGainAndLoss throws exactly when some winning stack has no odds. */
  lemma PricedFails(bet: Bet, winners: seq<Stack>, losers: seq<Stack>)
    requires bet.betType == Unrecognised ==> winners == []
    ensures Priced(bet, winners, losers).None? <==> exists i :: 0 <= i < |winners| && OddsOf(bet, winners[i]).None?
  {
    PriceWinnersMissing(bet, winners);
  }

  lemma {:induction false} PriceWinnersMissing(bet: Bet, winners: seq<Stack>)
    requires bet.betType == Unrecognised ==> winners == []
    ensures PriceWinners(bet, winners).None? <==> exists i :: 0 <= i < |winners| && OddsOf(bet, winners[i]).None?
    decreases |winners|
  {
    if winners != [] {
      var n := |winners| - 1;
      PriceWinnersMissing(bet, winners[..n]);
      if exists i :: 0 <= i < n && OddsOf(bet, winners[..n][i]).None? {
        var i :| 0 <= i < n && OddsOf(bet, winners[..n][i]).None?;
        assert OddsOf(bet, winners[i]).None?;
      }
      if exists i :: 0 <= i < |winners| && OddsOf(bet, winners[i]).None? {
        var i :| 0 <= i < |winners| && OddsOf(bet, winners[i]).None?;
        if i < n {
          assert winners[..n][i] == winners[i];
        }
      }
    }
  }

  // ---------------------------------------------------------------------------------------
  // Phase B: the cap

  /** What lines 102-111 leave in `actualGain` and `actualLoss`: both set to the same value,
      or left unassigned when the totals are equal and positive. */
  datatype Cap = Cap(gain: real, loss: real) | Unassigned

  /** Lines 102-111 as written. */
  function ActualCapAsWritten(possibleGain: real, possibleLoss: real): Cap
  {
    if possibleGain <= 0.0 || possibleLoss <= 0.0 then Cap(0.0, 0.0)
    else if possibleGain < possibleLoss then Cap(possibleGain, possibleGain)
    else if possibleGain > possibleLoss then Cap(possibleLoss, possibleLoss)
    else Unassigned
  }

  /** The cap evidently intended: nothing moves if either side has nothing at stake,
      otherwise the smaller of the two totals. */
  function ActualCap(possibleGain: real, possibleLoss: real): (r: real)
    ensures r >= 0.0
    ensures possibleGain > 0.0 ==> r <= possibleGain
    ensures possibleLoss > 0.0 ==> r <= possibleLoss
    ensures possibleGain > 0.0 && possibleLoss > 0.0 ==> r == possibleGain || r == possibleLoss
    ensures possibleGain <= 0.0 || possibleLoss <= 0.0 ==> r == 0.0
  {
    if possibleGain <= 0.0 || possibleLoss <= 0.0 then 0.0
    else if possibleGain < possibleLoss then possibleGain
    else possibleLoss
  }

  /** The cap as written agrees with the intended one except when the two totals are equal
      and positive, where it assigns nothing. */
  lemma CapAsWrittenGap(possibleGain: real, possibleLoss: real)
    ensures ActualCapAsWritten(possibleGain, possibleLoss).Unassigned? <==> possibleGain == possibleLoss > 0.0
    ensures ActualCapAsWritten(possibleGain, possibleLoss).Cap? ==>
      ActualCapAsWritten(possibleGain, possibleLoss) ==
        Cap(ActualCap(possibleGain, possibleLoss), ActualCap(possibleGain, possibleLoss))
  {
  }

  /** A tie: 50 staked by winners at odds 2 against 50 staked by losers. */
  lemma CapAsWrittenCounterexample()
    ensures ActualCapAsWritten(50.0, 50.0) == Unassigned && ActualCap(50.0, 50.0) == 50.0
  {
  }

  // ---------------------------------------------------------------------------------------
  // Phase B: the distribution

  /** One tip with `diff = share * (currency / sum)` and `inc = diff + currency` (lines
      117-118 with `share = stack.actualGain`, lines 127-128 with `share = -stack.actualLoss`). */
  function PayTip(t: Tip, share: real, sum: real): PaidTip
    requires sum != 0.0
  {
    PaidTip(t, Share(share, t.currency, sum), Share(share, t.currency, sum) + t.currency)
  }

  function PayTips(tips: seq<Tip>, share: real, sum: real): (r: seq<PaidTip>)
    requires sum != 0.0
    ensures |r| == |tips|
    decreases |tips|
  {
    if tips == [] then []
    else PayTips(tips[..|tips| - 1], share, sum) + [PayTip(tips[|tips| - 1], share, sum)]
  }

  /** A winning stack's `actualGain`, its share of the capped gain (line 114), and its tips. */
  function PayWinner(w: WinStack, gain: real, possibleGain: real): PaidStack
    requires possibleGain != 0.0 && w.stack.sum != 0.0
  {
    var actual := Share(gain, w.possibleGain, possibleGain);
    PaidStack(w.stack, actual, PayTips(w.stack.tips, actual, w.stack.sum))
  }

  /** A losing stack's `actualLoss`, its share of the capped loss (line 124), and its tips. */
  function PayLoser(l: LoseStack, loss: real, possibleLoss: real): PaidStack
    requires possibleLoss != 0.0 && l.stack.sum != 0.0
  {
    var actual := Share(loss, l.possibleLoss, possibleLoss);
    PaidStack(l.stack, actual, PayTips(l.stack.tips, -actual, l.stack.sum))
  }

  function PayWinners(ws: seq<WinStack>, gain: real, possibleGain: real): (r: seq<PaidStack>)
    requires ws != [] ==> possibleGain != 0.0
    requires forall i :: 0 <= i < |ws| ==> ws[i].stack.sum != 0.0
    ensures |r| == |ws|
    decreases |ws|
  {
    if ws == [] then []
    else PayWinners(ws[..|ws| - 1], gain, possibleGain) + [PayWinner(ws[|ws| - 1], gain, possibleGain)]
  }

  function PayLosers(ls: seq<LoseStack>, loss: real, possibleLoss: real): (r: seq<PaidStack>)
    requires ls != [] ==> possibleLoss != 0.0
    requires forall i :: 0 <= i < |ls| ==> ls[i].stack.sum != 0.0
    ensures |r| == |ls|
    decreases |ls|
  {
    if ls == [] then []
    else PayLosers(ls[..|ls| - 1], loss, possibleLoss) + [PayLoser(ls[|ls| - 1], loss, possibleLoss)]
  }

  function DiffSum(pts: seq<PaidTip>): real
    decreases |pts|
  {
    if pts == [] then 0.0 else DiffSum(pts[..|pts| - 1]) + pts[|pts| - 1].diff
  }

  /** The sum of every diff of every stack, stack by stack. */
  function StackDiffs(ps: seq<PaidStack>): real
    decreases |ps|
  {
    if ps == [] then 0.0 else StackDiffs(ps[..|ps| - 1]) + DiffSum(ps[|ps| - 1].tips)
  }

  lemma StackDiffsSnoc(ps: seq<PaidStack>, x: PaidStack)
    ensures StackDiffs(ps + [x]) == StackDiffs(ps) + DiffSum(x.tips)
  {
    assert (ps + [x])[..|ps|] == ps;
  }

  /** What setActualGainAndLoss ends with, given the evidently intended cap. */
  function DistributeCapped(p: Possible): Distribution
    requires Funded(p) && Consistent(p)
  {
    if p.winners != [] && p.possibleGain == 0.0 then NotANumber
    else
      var cap := ActualCap(p.possibleGain, p.possibleLoss);
      var winners := PayWinners(p.winners, cap, p.possibleGain);
      var losers := (LossTotalPositive(p.losers); PayLosers(p.losers, cap, p.possibleLoss));
      var total := StackDiffs(winners) + StackDiffs(losers);
      if Abs(total) > 0.001 then Unbalanced(total) else Balanced(winners, losers, cap, cap)
  }

  /** What setActualGainAndLoss ends with under `reading`: as written, equal positive totals
      leave the cap unassigned (lines 102-111), so every diff is NaN and passes the check of
      line 133; otherwise the outcome with the evidently intended cap. */
  function Distribute(p: Possible, reading: Reading): Distribution
    requires Funded(p) && Consistent(p)
  {
    if reading == AsWritten && ActualCapAsWritten(p.possibleGain, p.possibleLoss).Unassigned? then NotANumber
    else DistributeCapped(p)
  }

  /** The two sides of a balanced distribution, each paid by its own loop. */
  lemma BalancedSides(p: Possible)
    requires Funded(p) && Consistent(p) && DistributeCapped(p).Balanced?
    ensures p.winners != [] ==>
      p.possibleGain != 0.0 &&
      DistributeCapped(p).winners == PayWinners(p.winners, ActualCap(p.possibleGain, p.possibleLoss), p.possibleGain)
    ensures p.winners == [] ==> DistributeCapped(p).winners == []
    ensures p.losers != [] ==>
      p.possibleLoss > 0.0 &&
      DistributeCapped(p).losers == PayLosers(p.losers, ActualCap(p.possibleGain, p.possibleLoss), p.possibleLoss)
    ensures p.losers == [] ==> DistributeCapped(p).losers == []
    ensures DistributeCapped(p).actualGain == DistributeCapped(p).actualLoss == ActualCap(p.possibleGain, p.possibleLoss)
  {
    if p.losers != [] {
      LossTotalPositive(p.losers);
    }
  }

  lemma {:induction false} LossTotalPositive(ls: seq<LoseStack>)
    requires forall i :: 0 <= i < |ls| ==> ls[i].possibleLoss > 0.0
    ensures ls != [] ==> LossTotal(ls) > 0.0
    decreases |ls|
  {
    if |ls| > 1 {
      LossTotalPositive(ls[..|ls| - 1]);
    }
  }

  lemma PayWinnersStep(ws: seq<WinStack>, gain: real, possibleGain: real, n: nat)
    requires possibleGain != 0.0 && forall i :: 0 <= i < |ws| ==> ws[i].stack.sum != 0.0
    requires n < |ws|
    ensures PayWinners(ws[..n + 1], gain, possibleGain) ==
      PayWinners(ws[..n], gain, possibleGain) + [PayWinner(ws[n], gain, possibleGain)]
  {
    assert ws[..n + 1][..n] == ws[..n];
    assert ws[..n + 1] != [] && ws[..n + 1][n] == ws[n];
  }

  lemma PayLosersStep(ls: seq<LoseStack>, loss: real, possibleLoss: real, n: nat)
    requires possibleLoss != 0.0 && forall i :: 0 <= i < |ls| ==> ls[i].stack.sum != 0.0
    requires n < |ls|
    ensures PayLosers(ls[..n + 1], loss, possibleLoss) ==
      PayLosers(ls[..n], loss, possibleLoss) + [PayLoser(ls[n], loss, possibleLoss)]
  {
    assert ls[..n + 1][..n] == ls[..n];
    assert ls[..n + 1] != [] && ls[..n + 1][n] == ls[n];
  }

  /** The winners loop of lines 113-121 after one more stack. */
  lemma PayWinnersExtend(ws: seq<WinStack>, gain: real, possibleGain: real, n: nat, paid: seq<PaidStack>, next: PaidStack)
    requires possibleGain != 0.0 && forall i :: 0 <= i < |ws| ==> ws[i].stack.sum != 0.0
    requires n < |ws| && paid == PayWinners(ws[..n], gain, possibleGain) && next == PayWinner(ws[n], gain, possibleGain)
    ensures PayWinners(ws[..n + 1], gain, possibleGain) == paid + [next]
    ensures StackDiffs(paid + [next]) == StackDiffs(paid) + DiffSum(next.tips)
  {
    PayWinnersStep(ws, gain, possibleGain, n);
    StackDiffsSnoc(paid, next);
  }

  /** The losers loop of lines 123-131 after one more stack. */
  lemma PayLosersExtend(ls: seq<LoseStack>, loss: real, possibleLoss: real, n: nat, paid: seq<PaidStack>, next: PaidStack)
    requires possibleLoss != 0.0 && forall i :: 0 <= i < |ls| ==> ls[i].stack.sum != 0.0
    requires n < |ls| && paid == PayLosers(ls[..n], loss, possibleLoss) && next == PayLoser(ls[n], loss, possibleLoss)
    ensures PayLosers(ls[..n + 1], loss, possibleLoss) == paid + [next]
    ensures StackDiffs(paid + [next]) == StackDiffs(paid) + DiffSum(next.tips)
  {
    PayLosersStep(ls, loss, possibleLoss, n);
    StackDiffsSnoc(paid, next);
  }

  lemma PayWinnerIs(w: WinStack, gain: real, possibleGain: real, share: real, tips: seq<PaidTip>)
    requires possibleGain != 0.0 && w.stack.sum != 0.0
    requires share == Share(gain, w.possibleGain, possibleGain)
    requires tips == PayTips(w.stack.tips, share, w.stack.sum)
    ensures PayWinner(w, gain, possibleGain) == PaidStack(w.stack, share, tips)
  {
  }

  lemma PayLoserIs(l: LoseStack, loss: real, possibleLoss: real, share: real, tips: seq<PaidTip>)
    requires possibleLoss != 0.0 && l.stack.sum != 0.0
    requires share == Share(loss, l.possibleLoss, possibleLoss)
    requires tips == PayTips(l.stack.tips, -share, l.stack.sum)
    ensures PayLoser(l, loss, possibleLoss) == PaidStack(l.stack, share, tips)
  {
  }

  /** The tips loop of one stack (lines 116-120 and 126-130), adding to the running total. */
  method PayStack(tips: seq<Tip>, share: real, sum: real, total0: real) returns (paid: seq<PaidTip>, total: real)
    requires sum != 0.0
    ensures paid == PayTips(tips, share, sum) && total == total0 + DiffSum(paid)
  {
    paid, total := [], total0;
    for n := 0 to |tips|
      invariant paid == PayTips(tips[..n], share, sum) && total == total0 + DiffSum(paid)
    {
      var tip := tips[n];
      var diff := Share(share, tip.currency, sum);
      var inc := diff + tip.currency;
      assert tips[..n + 1][..n] == tips[..n];
      assert PayTip(tip, share, sum) == PaidTip(tip, diff, inc);
      assert tips[..n + 1] != [] && tips[..n + 1][n] == tip;
      assert PayTips(tips[..n + 1], share, sum) == PayTips(tips[..n], share, sum) + [PayTip(tip, share, sum)];
      assert PayTips(tips[..n + 1], share, sum) == paid + [PaidTip(tip, diff, inc)];
      assert (paid + [PaidTip(tip, diff, inc)])[..|paid|] == paid;
      paid := paid + [PaidTip(tip, diff, inc)];
      total := total + diff;
    }
    assert tips[..|tips|] == tips;
  }

  /** One winning stack (lines 114-120): its share of the gain, then its tips. */
  method PayWinnerStack(w: WinStack, actualGain: real, possibleGain: real) returns (paid: PaidStack, total: real)
    requires possibleGain != 0.0 && w.stack.sum != 0.0
    ensures paid == PayWinner(w, actualGain, possibleGain) && total == DiffSum(paid.tips)
  {
    var stackGain := Share(actualGain, w.possibleGain, possibleGain);
    var tips;
    tips, total := PayStack(w.stack.tips, stackGain, w.stack.sum, 0.0);
    PayWinnerIs(w, actualGain, possibleGain, stackGain, tips);
    paid := PaidStack(w.stack, stackGain, tips);
  }

  /** One losing stack (lines 124-130): its share of the loss, then its tips. */
  method PayLoserStack(l: LoseStack, actualLoss: real, possibleLoss: real) returns (paid: PaidStack, total: real)
    requires possibleLoss != 0.0 && l.stack.sum != 0.0
    ensures paid == PayLoser(l, actualLoss, possibleLoss) && total == DiffSum(paid.tips)
  {
    var stackLoss := Share(actualLoss, l.possibleLoss, possibleLoss);
    var tips;
    tips, total := PayStack(l.stack.tips, -stackLoss, l.stack.sum, 0.0);
    PayLoserIs(l, actualLoss, possibleLoss, stackLoss, tips);
    paid := PaidStack(l.stack, stackLoss, tips);
  }

  /** The winners loop of lines 113-121. */
  method PayWinnerStacks(ws: seq<WinStack>, actualGain: real, possibleGain: real) returns (paid: seq<PaidStack>, total: real)
    requires ws != [] ==> possibleGain != 0.0
    requires forall i :: 0 <= i < |ws| ==> ws[i].stack.sum != 0.0
    ensures paid == PayWinners(ws, actualGain, possibleGain) && total == StackDiffs(paid)
  {
    paid, total := [], 0.0;
    for n := 0 to |ws|
      invariant paid == PayWinners(ws[..n], actualGain, possibleGain)
      invariant total == StackDiffs(paid)
    {
      var next, subtotal := PayWinnerStack(ws[n], actualGain, possibleGain);
      PayWinnersExtend(ws, actualGain, possibleGain, n, paid, next);
      paid := paid + [next];
      total := total + subtotal;
    }
    assert ws[..|ws|] == ws;
  }

  /** The losers loop of lines 123-131. */
  method PayLoserStacks(ls: seq<LoseStack>, actualLoss: real, possibleLoss: real) returns (paid: seq<PaidStack>, total: real)
    requires ls != [] ==> possibleLoss != 0.0
    requires forall i :: 0 <= i < |ls| ==> ls[i].stack.sum != 0.0
    ensures paid == PayLosers(ls, actualLoss, possibleLoss) && total == StackDiffs(paid)
  {
    paid, total := [], 0.0;
    for n := 0 to |ls|
      invariant paid == PayLosers(ls[..n], actualLoss, possibleLoss)
      invariant total == StackDiffs(paid)
    {
      var next, subtotal := PayLoserStack(ls[n], actualLoss, possibleLoss);
      PayLosersExtend(ls, actualLoss, possibleLoss, n, paid, next);
      paid := paid + [next];
      total := total + subtotal;
    }
    assert ls[..|ls|] == ls;
  }

  /** setActualGainAndLoss (lines 98-137) under `reading`. */
  method SetActualGainAndLoss(p: Possible, reading: Reading) returns (d: Distribution)
    requires Funded(p) && Consistent(p)
    ensures d == Distribute(p, reading)
  {
    if p.winners != [] && p.possibleGain == 0.0 {
      // 0 * (stack.possibleGain / 0) at line 114 is NaN, and so is every diff after it
      CapAsWrittenGap(p.possibleGain, p.possibleLoss);
      return NotANumber;
    }
    var actualGain, actualLoss;
    if reading == AsWritten {
      CapAsWrittenGap(p.possibleGain, p.possibleLoss);
      match ActualCapAsWritten(p.possibleGain, p.possibleLoss)
      case Unassigned =>
        // undefined * share is NaN for every tip, and `Math.abs(NaN) > 0.001` is false
        return NotANumber;
      case Cap(gain, loss) =>
        actualGain, actualLoss := gain, loss;
    } else {
      actualGain := ActualCap(p.possibleGain, p.possibleLoss);
      actualLoss := actualGain;
    }
    d := ShareOut(p, actualGain, actualLoss);
  }

  /** Lines 113-136: pay the winners their share of `actualGain` and the losers theirs of
      `actualLoss`, then check that the diffs balance. */
  method ShareOut(p: Possible, actualGain: real, actualLoss: real) returns (d: Distribution)
    requires Funded(p) && Consistent(p) && !(p.winners != [] && p.possibleGain == 0.0)
    requires actualGain == actualLoss == ActualCap(p.possibleGain, p.possibleLoss)
    ensures d == DistributeCapped(p)
  {
    var winners, gainTotal := PayWinnerStacks(p.winners, actualGain, p.possibleGain);
    LossTotalPositive(p.losers);
    var losers, lossTotal := PayLoserStacks(p.losers, actualLoss, p.possibleLoss);
    var total := gainTotal + lossTotal;
    if Abs(total) > 0.001 {
      return Unbalanced(total);
    }
    d := Balanced(winners, losers, actualGain, actualLoss);
  }

  // ---------------------------------------------------------------------------------------
  // Arithmetic of proportional shares

  lemma ShareAdd(amount: real, a: real, b: real, whole: real)
    requires whole != 0.0
    ensures Share(amount, a, whole) + Share(amount, b, whole) == Share(amount, a + b, whole)
  {
    assert a / whole + b / whole == (a + b) / whole;
    assert amount * (a / whole) + amount * (b / whole) == amount * (a / whole + b / whole);
  }

  lemma ShareNegate(amount: real, part: real, whole: real)
    requires whole != 0.0
    ensures Share(-amount, part, whole) == -Share(amount, part, whole)
  {
  }

  /** A share of `whole` in proportion `part / whole` is `part`; all of `whole` is `amount`. */
  lemma ShareCancel(amount: real, part: real, whole: real)
    requires whole != 0.0
    ensures Share(whole, part, whole) == part
    ensures Share(amount, whole, whole) == amount
  {
    assert whole * (part / whole) == part;
    assert whole / whole == 1.0;
  }

  lemma ShareMonotone(amount: real, top: real, part: real, whole: real)
    requires whole > 0.0 && part >= 0.0 && 0.0 <= amount <= top
    ensures 0.0 <= Share(amount, part, whole) <= Share(top, part, whole)
  {
    var q := part / whole;
    assert q >= 0.0;
    assert amount * q <= top * q;
  }

  /** `Share((odds - 1) * sum, currency, sum) == (odds - 1) * currency` */
  lemma ShareOfGain(odds: real, currency: real, sum: real)
    requires sum != 0.0
    ensures Share(GainOf(odds, sum), currency, sum) == GainOf(odds, currency)
  {
    assert ((odds - 1.0) * sum) * (currency / sum) == (odds - 1.0) * (sum * (currency / sum));
    assert sum * (currency / sum) == currency;
  }

  // ---------------------------------------------------------------------------------------
  // Properties of the distribution

  lemma {:induction false} PayTipsAt(tips: seq<Tip>, share: real, sum: real, j: nat)
    requires sum != 0.0 && j < |tips|
    ensures PayTips(tips, share, sum)[j] == PayTip(tips[j], share, sum)
    decreases |tips|
  {
    var n := |tips| - 1;
    if j < n {
      PayTipsAt(tips[..n], share, sum, j);
    }
  }

  lemma {:induction false} PayWinnersAt(ws: seq<WinStack>, gain: real, possibleGain: real, i: nat)
    requires possibleGain != 0.0 && forall k :: 0 <= k < |ws| ==> ws[k].stack.sum != 0.0
    requires i < |ws|
    ensures PayWinners(ws, gain, possibleGain)[i] == PayWinner(ws[i], gain, possibleGain)
    decreases |ws|
  {
    var n := |ws| - 1;
    if i < n {
      PayWinnersAt(ws[..n], gain, possibleGain, i);
    }
  }

  lemma {:induction false} PayLosersAt(ls: seq<LoseStack>, loss: real, possibleLoss: real, i: nat)
    requires possibleLoss != 0.0 && forall k :: 0 <= k < |ls| ==> ls[k].stack.sum != 0.0
    requires i < |ls|
    ensures PayLosers(ls, loss, possibleLoss)[i] == PayLoser(ls[i], loss, possibleLoss)
    decreases |ls|
  {
    var n := |ls| - 1;
    if i < n {
      PayLosersAt(ls[..n], loss, possibleLoss, i);
    }
  }

  /** The diffs of one stack's tips add up to the stack's share. */
  lemma {:induction false} PayTipsTotal(tips: seq<Tip>, share: real, sum: real)
    requires sum != 0.0
    ensures DiffSum(PayTips(tips, share, sum)) == Share(share, SumCurrency(tips), sum)
    decreases |tips|
  {
    if tips != [] {
      var n := |tips| - 1;
      var paid := PayTips(tips, share, sum);
      assert DiffSum(paid) == DiffSum(PayTips(tips[..n], share, sum)) + Share(share, tips[n].currency, sum) by {
        assert paid[..n] == PayTips(tips[..n], share, sum);
      }
      var c0, c := SumCurrency(tips[..n]), tips[n].currency;
      assert SumCurrency(tips) == c0 + c;
      assert DiffSum(PayTips(tips[..n], share, sum)) + Share(share, c, sum) == Share(share, c0 + c, sum) by {
        PayTipsTotal(tips[..n], share, sum);
        ShareAdd(share, c0, c, sum);
      }
    } else {
      assert Share(share, 0.0, sum) == 0.0;
    }
  }

  /** One winning stack's diffs add up to its share of the capped gain. */
  lemma PaidWinnerDiffs(w: WinStack, gain: real, possibleGain: real)
    requires possibleGain != 0.0 && w.stack.sum != 0.0 && SumCurrency(w.stack.tips) == w.stack.sum
    ensures DiffSum(PayWinner(w, gain, possibleGain).tips) == Share(gain, w.possibleGain, possibleGain)
  {
    var actual := Share(gain, w.possibleGain, possibleGain);
    PayTipsTotal(w.stack.tips, actual, w.stack.sum);
    ShareCancel(actual, 0.0, w.stack.sum);
  }

  /** One losing stack's diffs add up to minus its share of the capped loss. */
  lemma PaidLoserDiffs(l: LoseStack, loss: real, possibleLoss: real)
    requires possibleLoss != 0.0 && l.stack.sum != 0.0 && SumCurrency(l.stack.tips) == l.stack.sum
    ensures DiffSum(PayLoser(l, loss, possibleLoss).tips) == -Share(loss, l.possibleLoss, possibleLoss)
  {
    var actual := Share(loss, l.possibleLoss, possibleLoss);
    PayTipsTotal(l.stack.tips, -actual, l.stack.sum);
    ShareCancel(-actual, 0.0, l.stack.sum);
  }

  /** The winners' diffs add up to the capped gain in proportion to the stacks' possible
      gains; the losers' diffs to minus the capped loss in proportion to their possible losses. */
  lemma {:induction false} PayWinnersTotal(ws: seq<WinStack>, gain: real, possibleGain: real)
    requires possibleGain != 0.0
    requires forall k :: 0 <= k < |ws| ==> ws[k].stack.sum != 0.0 && SumCurrency(ws[k].stack.tips) == ws[k].stack.sum
    ensures StackDiffs(PayWinners(ws, gain, possibleGain)) == Share(gain, GainTotal(ws), possibleGain)
    decreases |ws|
  {
    if ws != [] {
      var n := |ws| - 1;
      var paid := PayWinners(ws, gain, possibleGain);
      assert StackDiffs(paid) ==
             StackDiffs(PayWinners(ws[..n], gain, possibleGain)) + DiffSum(PayWinner(ws[n], gain, possibleGain).tips) by {
        assert paid[..n] == PayWinners(ws[..n], gain, possibleGain);
      }
      var g0, g := GainTotal(ws[..n]), ws[n].possibleGain;
      assert GainTotal(ws) == g0 + g;
      assert StackDiffs(PayWinners(ws[..n], gain, possibleGain)) + DiffSum(PayWinner(ws[n], gain, possibleGain).tips) ==
             Share(gain, g0 + g, possibleGain) by {
        PayWinnersTotal(ws[..n], gain, possibleGain);
        PaidWinnerDiffs(ws[n], gain, possibleGain);
        ShareAdd(gain, g0, g, possibleGain);
      }
    } else {
      assert Share(gain, 0.0, possibleGain) == 0.0;
    }
  }

  lemma {:induction false} PayLosersTotal(ls: seq<LoseStack>, loss: real, possibleLoss: real)
    requires possibleLoss != 0.0
    requires forall k :: 0 <= k < |ls| ==> ls[k].stack.sum != 0.0 && SumCurrency(ls[k].stack.tips) == ls[k].stack.sum
    ensures StackDiffs(PayLosers(ls, loss, possibleLoss)) == -Share(loss, LossTotal(ls), possibleLoss)
    decreases |ls|
  {
    if ls != [] {
      var n := |ls| - 1;
      var paid := PayLosers(ls, loss, possibleLoss);
      assert StackDiffs(paid) ==
             StackDiffs(PayLosers(ls[..n], loss, possibleLoss)) + DiffSum(PayLoser(ls[n], loss, possibleLoss).tips) by {
        assert paid[..n] == PayLosers(ls[..n], loss, possibleLoss);
      }
      var l0, l := LossTotal(ls[..n]), ls[n].possibleLoss;
      assert LossTotal(ls) == l0 + l;
      assert StackDiffs(PayLosers(ls[..n], loss, possibleLoss)) + DiffSum(PayLoser(ls[n], loss, possibleLoss).tips) ==
             -Share(loss, l0 + l, possibleLoss) by {
        PayLosersTotal(ls[..n], loss, possibleLoss);
        PaidLoserDiffs(ls[n], loss, possibleLoss);
        ShareAdd(loss, l0, l, possibleLoss);
      }
    } else {
      assert Share(loss, 0.0, possibleLoss) == 0.0;
    }
  }

  lemma {:induction false} GainTotalEmpty(ws: seq<WinStack>)
    requires ws == []
    ensures GainTotal(ws) == 0.0
  {
  }

  /** The distribution is NaN exactly when there are winners but nothing to gain or, as
      written, when the totals are equal and positive; otherwise it balances: the winners'
      diffs add up to the capped gain, the losers' diffs to minus the same amount, so the
      check of line 133 never fails. */
  lemma DistributeBalances(p: Possible, reading: Reading)
    requires Funded(p) && Consistent(p)
    ensures Distribute(p, reading).NotANumber? <==>
      (p.winners != [] && p.possibleGain == 0.0) ||
      (reading == AsWritten && p.possibleGain == p.possibleLoss > 0.0)
    ensures !Distribute(p, reading).Unbalanced?
    ensures Distribute(p, reading).Balanced? ==>
      var d := Distribute(p, reading);
      d.actualGain == d.actualLoss == ActualCap(p.possibleGain, p.possibleLoss) &&
      StackDiffs(d.winners) == d.actualGain && StackDiffs(d.losers) == -d.actualLoss &&
      StackDiffs(d.winners) + StackDiffs(d.losers) == 0.0
  {
    CapAsWrittenGap(p.possibleGain, p.possibleLoss);
    if !(p.winners != [] && p.possibleGain == 0.0) {
      var cap := ActualCap(p.possibleGain, p.possibleLoss);
      if p.winners != [] {
        PayWinnersTotal(p.winners, cap, p.possibleGain);
        ShareCancel(cap, 0.0, p.possibleGain);
      } else {
        GainTotalEmpty(p.winners);
        assert cap == 0.0;
      }
      if p.losers != [] {
        LossTotalPositive(p.losers);
        PayLosersTotal(p.losers, cap, p.possibleLoss);
        ShareCancel(cap, 0.0, p.possibleLoss);
      } else {
        assert p.possibleLoss == 0.0 && cap == 0.0;
      }
    }
  }

  lemma {:induction false} CurrencyAtMostSum(tips: seq<Tip>, j: nat)
    requires PositiveStakes(tips) && j < |tips|
    ensures tips[j].currency <= SumCurrency(tips)
    decreases |tips|
  {
    var n := |tips| - 1;
    if j < n {
      CurrencyAtMostSum(tips[..n], j);
      if n > 0 {
        SumCurrencyNonNegative(tips[..n]);
      }
    } else if n > 0 {
      SumCurrencyNonNegative(tips[..n]);
    }
  }

  lemma {:induction false} SumCurrencyNonNegative(tips: seq<Tip>)
    requires PositiveStakes(tips)
    ensures SumCurrency(tips) >= 0.0
    decreases |tips|
  {
    if tips != [] {
      SumCurrencyNonNegative(tips[..|tips| - 1]);
    }
  }

  lemma {:induction false} LossAtMostTotal(ls: seq<LoseStack>, i: nat)
    requires forall k :: 0 <= k < |ls| ==> ls[k].possibleLoss > 0.0
    requires i < |ls|
    ensures ls[i].possibleLoss <= LossTotal(ls)
    decreases |ls|
  {
    var n := |ls| - 1;
    if n > 0 {
      LossTotalPositive(ls[..n]);
      if i < n {
        LossAtMostTotal(ls[..n], i);
      }
    }
  }

  lemma {:induction false} GainTotalNonNegative(ws: seq<WinStack>)
    requires forall k :: 0 <= k < |ws| ==> ws[k].possibleGain >= 0.0
    ensures GainTotal(ws) >= 0.0
    decreases |ws|
  {
    if ws != [] {
      GainTotalNonNegative(ws[..|ws| - 1]);
    }
  }

  /** Every stake in the priced settlement is positive. */
  predicate PositiveTips(p: Possible)
  {
    (forall i :: 0 <= i < |p.winners| ==> PositiveStakes(p.winners[i].stack.tips)) &&
    (forall i :: 0 <= i < |p.losers| ==> PositiveStakes(p.losers[i].stack.tips))
  }

  /** A losing tip keeps between nothing and all of its stake: `0 <= inc <= currency`. */
  lemma LoserRefundBounds(p: Possible, i: nat, j: nat)
    requires Funded(p) && Consistent(p) && PositiveTips(p)
    requires DistributeCapped(p).Balanced? && i < |DistributeCapped(p).losers| && j < |DistributeCapped(p).losers[i].tips|
    ensures var t := DistributeCapped(p).losers[i].tips[j];
      -t.tip.currency <= t.diff <= 0.0 && 0.0 <= t.inc <= t.tip.currency
  {
    BalancedSides(p);
    var cap := ActualCap(p.possibleGain, p.possibleLoss);
    var l := p.losers[i];
    LossTotalPositive(p.losers);
    PayLosersAt(p.losers, cap, p.possibleLoss, i);
    var actual := Share(cap, l.possibleLoss, p.possibleLoss);
    PayTipsAt(l.stack.tips, -actual, l.stack.sum, j);
    var c := l.stack.tips[j].currency;
    LossAtMostTotal(p.losers, i);
    ShareMonotone(cap, p.possibleLoss, l.possibleLoss, p.possibleLoss);
    ShareCancel(cap, l.possibleLoss, p.possibleLoss);
    CurrencyAtMostSum(l.stack.tips, j);
    ShareMonotone(actual, l.stack.sum, c, l.stack.sum);
    ShareCancel(actual, c, l.stack.sum);
    ShareNegate(actual, c, l.stack.sum);
  }

  /** A winning tip at odds of at least 1 gains between nothing and its full odds:
      `0 <= diff <= (odds - 1) * currency`. */
  lemma WinnerGainBounds(p: Possible, i: nat, j: nat)
    requires Funded(p) && Consistent(p) && PositiveTips(p)
    requires forall k :: 0 <= k < |p.winners| ==> p.winners[k].odds >= 1.0
    requires DistributeCapped(p).Balanced? && i < |DistributeCapped(p).winners| && j < |DistributeCapped(p).winners[i].tips|
    ensures var t := DistributeCapped(p).winners[i].tips[j];
      0.0 <= t.diff <= GainOf(p.winners[i].odds, t.tip.currency) && t.inc == t.tip.currency + t.diff
  {
    BalancedSides(p);
    var cap := ActualCap(p.possibleGain, p.possibleLoss);
    var w := p.winners[i];
    PayWinnersAt(p.winners, cap, p.possibleGain, i);
    var actual := Share(cap, w.possibleGain, p.possibleGain);
    PayTipsAt(w.stack.tips, actual, w.stack.sum, j);
    var c := w.stack.tips[j].currency;
    assert forall k :: 0 <= k < |p.winners| ==> p.winners[k].possibleGain >= 0.0 by {
      forall k | 0 <= k < |p.winners| ensures p.winners[k].possibleGain >= 0.0 {
        GainOfNonNegative(p.winners[k].odds, p.winners[k].stack.sum);
      }
    }
    GainTotalNonNegative(p.winners);
    ShareMonotone(cap, p.possibleGain, w.possibleGain, p.possibleGain);
    ShareCancel(cap, w.possibleGain, p.possibleGain);
    CurrencyAtMostSum(w.stack.tips, j);
    ShareMonotone(actual, w.possibleGain, c, w.stack.sum);
    ShareOfGain(w.odds, c, w.stack.sum);
  }

  /** With no winners nothing moves: every tip gets its stake back. */
  lemma NoWinnersRefund(p: Possible, i: nat, j: nat)
    requires Funded(p) && Consistent(p) && p.winners == []
    requires DistributeCapped(p).Balanced? && i < |DistributeCapped(p).losers| && j < |DistributeCapped(p).losers[i].tips|
    ensures DistributeCapped(p).losers[i].tips[j].diff == 0.0
    ensures DistributeCapped(p).losers[i].tips[j].inc == DistributeCapped(p).losers[i].tips[j].tip.currency
  {
    BalancedSides(p);
    GainTotalEmpty(p.winners);
    var l := p.losers[i];
    LossTotalPositive(p.losers);
    PayLosersAt(p.losers, 0.0, p.possibleLoss, i);
    PayTipsAt(l.stack.tips, -Share(0.0, l.possibleLoss, p.possibleLoss), l.stack.sum, j);
  }
}
