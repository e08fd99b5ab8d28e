/**
 * getSettlement and extractTipsFromSettlement of payout.service.js (lines 38-45, 87-96): the
 * settlement stages run one after the other on a bet's tips, and the settled stacks are
 * flattened, winners first, into the list of tips the payout writes.
 */
module Settlement {
  import opened Wrappers
  import opened Records
  import opened Partition
  import opened Proximity
  import opened Classification
  import opened Distribution

  /** What getSettlement ends with: the paid stacks; a thrown error; or diffs that are NaN,
      which nothing in getSettlement detects. */
  datatype Outcome =
    | Settled(winners: seq<PaidStack>, losers: seq<PaidStack>)
    | Thrown
    | NotANumberDiffs

  /** Every tip has an outcome key; a scale tip without `answerDecimal` makes line 153 throw. */
  predicate AllKeyed(betType: BetType, tips: seq<Tip>)
  {
    forall i :: 0 <= i < |tips| ==> HasKey(betType, tips[i])
  }

  lemma GroupNumeric(tips: seq<Tip>)
    requires AllKeyed(Scale, tips)
    ensures NumericAnswers(Group(Scale, tips))
  {
    var g := Group(Scale, tips);
    GroupAnswers(Scale, tips);
    FirstAppearancesFacts(Keys(Scale, tips));
    forall i | 0 <= i < |g| ensures g[i].answer.Point? {
      assert Answers(g)[i] == g[i].answer;
      assert g[i].answer in Keys(Scale, tips);
      var j :| 0 <= j < |tips| && Keys(Scale, tips)[j] == g[i].answer;
    }
  }

  /** The stacks of lines 145-158: grouped, and for a scale bet sorted by proximity. */
  function Arranged(bet: Bet, tips: seq<Tip>): seq<Stack>
    requires AllKeyed(bet.betType, tips)
  {
    var stacks := Group(bet.betType, tips);
    if bet.betType == Scale then
      GroupNumeric(tips);
      Ranked(SortByProximity(WithProximity(stacks, bet.correctAnswerDecimal)))
    else stacks
  }

  /** The threshold of line 173: from the pot the reduce of line 164 yields as written, or
      from the pot it evidently intends. */
  function ThresholdOf(bet: Bet, stacks: seq<Stack>, reading: Reading): Threshold
  {
    match reading
    case AsWritten => AsWrittenThreshold(stacks, bet.scaleOptions.winRate)
    case Intended => IntendedThreshold(stacks, bet.scaleOptions.winRate)
  }

  function ArrangedWinners(bet: Bet, tips: seq<Tip>, reading: Reading): seq<Stack>
    requires AllKeyed(bet.betType, tips)
  {
    Winners(bet, Arranged(bet, tips), ThresholdOf(bet, Arranged(bet, tips), reading))
  }

  function ArrangedLosers(bet: Bet, tips: seq<Tip>, reading: Reading): seq<Stack>
    requires AllKeyed(bet.betType, tips)
  {
    Losers(bet, Arranged(bet, tips), ThresholdOf(bet, Arranged(bet, tips), reading))
  }

  lemma KnownWinners(bet: Bet, tips: seq<Tip>, reading: Reading)
    requires AllKeyed(bet.betType, tips)
    ensures bet.betType == Unrecognised ==> ArrangedWinners(bet, tips, reading) == []
  {
    if bet.betType == Unrecognised {
      NoWinnersUnlessKnown(bet, Arranged(bet, tips), ThresholdOf(bet, Arranged(bet, tips), reading));
    }
  }

  /** The settlement after setPossibleGainAndLoss (lines 39-40). */
  function PricedOf(bet: Bet, tips: seq<Tip>, reading: Reading): Option<Possible>
    requires AllKeyed(bet.betType, tips)
  {
    KnownWinners(bet, tips, reading);
    Priced(bet, ArrangedWinners(bet, tips, reading), ArrangedLosers(bet, tips, reading))
  }

  /** A stack as grouping leaves it: positive tips adding up to its positive sum. */
  predicate Sound(s: Stack)
  {
    s.sum > 0.0 && s.sum == SumCurrency(s.tips) && PositiveStakes(s.tips)
  }

  lemma {:induction false} WithKeyFrom(betType: BetType, tips: seq<Tip>, k: Key, t: Tip)
    requires t in WithKey(betType, tips, k)
    ensures t in tips
    decreases |tips|
  {
    var n := |tips| - 1;
    if t != tips[n] {
      WithKeyFrom(betType, tips[..n], k, t);
    }
  }

  lemma GroupSound(betType: BetType, tips: seq<Tip>)
    requires PositiveStakes(tips)
    ensures forall i :: 0 <= i < |Group(betType, tips)| ==> Sound(Group(betType, tips)[i])
  {
    var g := Group(betType, tips);
    GroupStacks(betType, tips);
    forall i | 0 <= i < |g| ensures Sound(g[i]) {
      forall j | 0 <= j < |g[i].tips| ensures g[i].tips[j].currency > 0.0 {
        WithKeyFrom(betType, tips, g[i].answer, g[i].tips[j]);
      }
      SumCurrencyPositive(g[i].tips);
    }
  }

  lemma ArrangedSound(bet: Bet, tips: seq<Tip>)
    requires AllKeyed(bet.betType, tips) && PositiveStakes(tips)
    ensures forall i :: 0 <= i < |Arranged(bet, tips)| ==> Sound(Arranged(bet, tips)[i])
  {
    var g := Group(bet.betType, tips);
    GroupSound(bet.betType, tips);
    if bet.betType == Scale {
      GroupNumeric(tips);
      var r := Arranged(bet, tips);
      SortFacts(WithProximity(g, bet.correctAnswerDecimal), bet.correctAnswerDecimal, g);
      forall i | 0 <= i < |r| ensures Sound(r[i]) {
        assert Bares(r)[i] in multiset(Bares(g));
        var j :| 0 <= j < |g| && Bares(g)[j] == Bares(r)[i];
        assert Bare(g[j]) == Bare(r[i]);
      }
    }
  }

  lemma PickSound(stacks: seq<Stack>, flags: seq<bool>, want: bool)
    requires |flags| == |stacks| && forall i :: 0 <= i < |stacks| ==> Sound(stacks[i])
    ensures forall i :: 0 <= i < |Pick(stacks, flags, want)| ==> Sound(Pick(stacks, flags, want)[i])
  {
    var picked := Pick(stacks, flags, want);
    forall i | 0 <= i < |picked| ensures Sound(picked[i]) {
      PickMembers(stacks, flags, want, picked[i]);
    }
  }

  /** The priced settlement meets what setActualGainAndLoss needs. */
  lemma PricedSound(bet: Bet, tips: seq<Tip>, reading: Reading)
    requires AllKeyed(bet.betType, tips) && PositiveStakes(tips) && PricedOf(bet, tips, reading).Some?
    ensures Funded(PricedOf(bet, tips, reading).value) && Consistent(PricedOf(bet, tips, reading).value)
    ensures PositiveTips(PricedOf(bet, tips, reading).value)
  {
    var stacks := Arranged(bet, tips);
    var t := ThresholdOf(bet, stacks, reading);
    var flags := WinnerFlags(bet, stacks, t);
    var winners, losers := ArrangedWinners(bet, tips, reading), ArrangedLosers(bet, tips, reading);
    KnownWinners(bet, tips, reading);
    assert forall i :: 0 <= i < |winners| ==> Sound(winners[i]) by {
      ArrangedSound(bet, tips);
      PickSound(stacks, flags, true);
    }
    assert forall i :: 0 <= i < |losers| ==> Sound(losers[i]) by {
      ArrangedSound(bet, tips);
      PickSound(stacks, flags, false);
    }
    PricedFacts(bet, winners, losers);
    StacksSound(PricedOf(bet, tips, reading).value, winners, losers);
  }

  /** A settlement whose stacks are all sound is funded and holds positive tips. */
  lemma StacksSound(p: Possible, winners: seq<Stack>, losers: seq<Stack>)
    requires WinnerStacks(p.winners) == winners && LoserStacks(p.losers) == losers
    requires forall i :: 0 <= i < |winners| ==> Sound(winners[i])
    requires forall i :: 0 <= i < |losers| ==> Sound(losers[i])
    ensures Funded(p) && PositiveTips(p)
  {
    assert forall i :: 0 <= i < |p.winners| ==> p.winners[i].stack == winners[i];
    assert forall i :: 0 <= i < |p.losers| ==> p.losers[i].stack == losers[i];
  }

  /** What getSettlement (lines 38-45) computes for a bet's tips under `reading`. */
  function Settle(bet: Bet, tips: seq<Tip>, reading: Reading): Outcome
    requires PositiveStakes(tips)
  {
    if !AllKeyed(bet.betType, tips) then Thrown
    else match PricedOf(bet, tips, reading)
      case None => Thrown
      case Some(p) =>
        PricedSound(bet, tips, reading);
        match Distribute(p, reading)
        case Balanced(winners, losers, _, _) => Settled(winners, losers)
        case NotANumber => NotANumberDiffs
        case Unbalanced(_) => Thrown
  }

  /** getAndSortTips (lines 139-192): group the tips, sort a scale bet's stacks by proximity,
      and split them into winners and losers; `None` when a tip lacks its answer, so that
      line 153 throws. */
  method GetAndSortTips(bet: Bet, tips: seq<Tip>, reading: Reading) returns (r: Option<(seq<Stack>, seq<Stack>)>)
    ensures r.None? <==> !AllKeyed(bet.betType, tips)
    ensures r.Some? ==>
      AllKeyed(bet.betType, tips) && r.value == (ArrangedWinners(bet, tips, reading), ArrangedLosers(bet, tips, reading))
  {
    if exists i :: 0 <= i < |tips| && !HasKey(bet.betType, tips[i]) {
      // the first such tip makes line 153 throw
      return None;
    }
    var stacks := GroupTips(bet.betType, tips);
    if bet.betType == Scale {
      GroupNumeric(tips);
      stacks := SortProximity(stacks, bet.correctAnswerDecimal);
    }
    var threshold := ThresholdOf(bet, stacks, reading);
    var winners, losers := Classify(bet, stacks, threshold);
    r := Some((winners, losers));
  }

  /** getSettlement (lines 38-45): getAndSortTips, then setPossibleGainAndLoss, then
      setActualGainAndLoss. Stakes are positive, as wager acceptance guarantees. */
  method GetSettlement(bet: Bet, tips: seq<Tip>, reading: Reading) returns (r: Outcome)
    requires PositiveStakes(tips)
    ensures r == Settle(bet, tips, reading)
  {
    var sorted := GetAndSortTips(bet, tips, reading);
    if sorted.None? {
      return Thrown;
    }
    var (winners, losers) := sorted.value;
    KnownWinners(bet, tips, reading);
    var possible := SetPossibleGainAndLoss(bet, winners, losers);
    if possible.None? {
      return Thrown;
    }
    PricedSound(bet, tips, reading);
    var d := SetActualGainAndLoss(possible.value, reading);
    match d {
      case Balanced(w, l, _, _) => r := Settled(w, l);
      case NotANumber => r := NotANumberDiffs;
      case Unbalanced(_) => r := Thrown;
    }
  }

  // ---------------------------------------------------------------------------------------
  // Flattening

  /** All paid tips, stack by stack. */
  function FlatPaid(stacks: seq<PaidStack>): seq<PaidTip>
    decreases |stacks|
  {
    if stacks == [] then [] else FlatPaid(stacks[..|stacks| - 1]) + stacks[|stacks| - 1].tips
  }

  /** extractTipsFromSettlement (lines 87-96). */
  method ExtractTipsFromSettlement(winners: seq<PaidStack>, losers: seq<PaidStack>) returns (tips: seq<PaidTip>)
    ensures tips == FlatPaid(winners + losers)
  {
    var stacks := winners + losers;
    tips := [];
    for n := 0 to |stacks|
      invariant tips == FlatPaid(stacks[..n])
    {
      ghost var before := tips;
      var stack := stacks[n];
      for m := 0 to |stack.tips|
        invariant tips == before + stack.tips[..m]
      {
        tips := tips + [stack.tips[m]];
        assert stack.tips[..m + 1] == stack.tips[..m] + [stack.tips[m]];
      }
      assert stack.tips[..|stack.tips|] == stack.tips;
      assert stacks[..n + 1][..n] == stacks[..n];
    }
    assert stacks[..|stacks|] == stacks;
  }

  lemma {:induction false} FlatPaidAppend(a: seq<PaidStack>, b: seq<PaidStack>)
    ensures FlatPaid(a + b) == FlatPaid(a) + FlatPaid(b)
    decreases |b|
  {
    if b == [] {
      assert a + b == a;
    } else {
      var n := |b| - 1;
      assert (a + b)[..|a + b| - 1] == a + b[..n];
      FlatPaidAppend(a, b[..n]);
    }
  }

  /** The tips a payout list is about. */
  function TipsOf(pts: seq<PaidTip>): (r: seq<Tip>)
    ensures |r| == |pts| && forall i :: 0 <= i < |pts| ==> r[i] == pts[i].tip
  {
    seq(|pts|, i requires 0 <= i < |pts| => pts[i].tip)
  }

  /** The total balance increment of a payout list. */
  function IncTotal(pts: seq<PaidTip>): real
    decreases |pts|
  {
    if pts == [] then 0.0 else IncTotal(pts[..|pts| - 1]) + pts[|pts| - 1].inc
  }

  lemma {:induction false} PaidSumsAppend(a: seq<PaidTip>, b: seq<PaidTip>)
    ensures DiffSum(a + b) == DiffSum(a) + DiffSum(b)
    ensures IncTotal(a + b) == IncTotal(a) + IncTotal(b)
    ensures TipsOf(a + b) == TipsOf(a) + TipsOf(b)
    decreases |b|
  {
    if b == [] {
      assert a + b == a;
    } else {
      var n := |b| - 1;
      assert (a + b)[..|a + b| - 1] == a + b[..n];
      PaidSumsAppend(a, b[..n]);
    }
  }

  lemma {:induction false} FlatPaidDiffs(stacks: seq<PaidStack>)
    ensures DiffSum(FlatPaid(stacks)) == StackDiffs(stacks)
    decreases |stacks|
  {
    if stacks != [] {
      var n := |stacks| - 1;
      FlatPaidDiffs(stacks[..n]);
      PaidSumsAppend(FlatPaid(stacks[..n]), stacks[n].tips);
    }
  }

  lemma {:induction false} PayTipsTips(tips: seq<Tip>, share: real, sum: real)
    requires sum != 0.0
    ensures TipsOf(PayTips(tips, share, sum)) == tips
    ensures IncTotal(PayTips(tips, share, sum)) == SumCurrency(tips) + DiffSum(PayTips(tips, share, sum))
    decreases |tips|
  {
    if tips != [] {
      var n := |tips| - 1;
      PayTipsTips(tips[..n], share, sum);
      var paid := PayTips(tips, share, sum);
      assert paid[..n] == PayTips(tips[..n], share, sum);
      PaidSumsAppend(paid[..n], [paid[n]]);
      assert paid == paid[..n] + [paid[n]];
      assert tips == tips[..n] + [tips[n]];
    }
  }

  lemma {:induction false} FlatTipsAppend(a: seq<Stack>, b: seq<Stack>)
    ensures FlatTips(a + b) == FlatTips(a) + FlatTips(b)
    decreases |b|
  {
    if b == [] {
      assert a + b == a;
    } else {
      var n := |b| - 1;
      assert (a + b)[..|a + b| - 1] == a + b[..n];
      FlatTipsAppend(a, b[..n]);
    }
  }

  /** The stacks a list of paid stacks is about. */
  function StacksOf(ps: seq<PaidStack>): (r: seq<Stack>)
    ensures |r| == |ps| && forall i :: 0 <= i < |ps| ==> r[i] == ps[i].stack
  {
    seq(|ps|, i requires 0 <= i < |ps| => ps[i].stack)
  }

  /** Every paid stack pays exactly its own tips, each at its stake plus its diff. */
  predicate PaysOwnTips(ps: seq<PaidStack>)
  {
    forall k :: 0 <= k < |ps| ==>
      TipsOf(ps[k].tips) == ps[k].stack.tips &&
      IncTotal(ps[k].tips) == SumCurrency(ps[k].stack.tips) + DiffSum(ps[k].tips)
  }

  lemma {:induction false} FlatPaidFacts(ps: seq<PaidStack>)
    requires PaysOwnTips(ps)
    ensures TipsOf(FlatPaid(ps)) == FlatTips(StacksOf(ps))
    ensures IncTotal(FlatPaid(ps)) == SumCurrency(FlatTips(StacksOf(ps))) + StackDiffs(ps)
    decreases |ps|
  {
    if ps != [] {
      var n := |ps| - 1;
      assert PaysOwnTips(ps[..n]) by {
        forall k | 0 <= k < n ensures ps[..n][k] == ps[k] { }
      }
      var m, last := ps[..n], ps[n];
      FlatPaidFacts(m);
      var flat, stacks := FlatPaid(m), FlatTips(StacksOf(m));
      assert FlatPaid(ps) == flat + last.tips;
      assert FlatTips(StacksOf(ps)) == stacks + last.stack.tips by {
        assert StacksOf(ps)[..n] == StacksOf(m);
      }
      assert TipsOf(last.tips) == last.stack.tips;
      assert IncTotal(last.tips) == SumCurrency(last.stack.tips) + DiffSum(last.tips);
      assert TipsOf(flat + last.tips) == TipsOf(flat) + TipsOf(last.tips) &&
             IncTotal(flat + last.tips) == IncTotal(flat) + IncTotal(last.tips) by {
        PaidSumsAppend(flat, last.tips);
      }
      assert SumCurrency(stacks + last.stack.tips) == SumCurrency(stacks) + SumCurrency(last.stack.tips) by {
        SumCurrencyAppend(stacks, last.stack.tips);
      }
    }
  }

  lemma PaidWinnersOwn(ws: seq<WinStack>, gain: real, possibleGain: real)
    requires possibleGain != 0.0 && forall k :: 0 <= k < |ws| ==> ws[k].stack.sum != 0.0
    ensures PaysOwnTips(PayWinners(ws, gain, possibleGain))
    ensures StacksOf(PayWinners(ws, gain, possibleGain)) == WinnerStacks(ws)
  {
    var paid := PayWinners(ws, gain, possibleGain);
    forall k | 0 <= k < |ws|
      ensures TipsOf(paid[k].tips) == paid[k].stack.tips
      ensures IncTotal(paid[k].tips) == SumCurrency(paid[k].stack.tips) + DiffSum(paid[k].tips)
      ensures paid[k].stack == ws[k].stack
    {
      var share := Share(gain, ws[k].possibleGain, possibleGain);
      assert paid[k] == PaidStack(ws[k].stack, share, PayTips(ws[k].stack.tips, share, ws[k].stack.sum)) by {
        PayWinnersAt(ws, gain, possibleGain, k);
      }
      PayTipsTips(ws[k].stack.tips, share, ws[k].stack.sum);
    }
  }

  lemma PaidLoserOwn(l: LoseStack, loss: real, possibleLoss: real)
    requires possibleLoss != 0.0 && l.stack.sum != 0.0
    ensures var paid := PayLoser(l, loss, possibleLoss);
      paid.stack == l.stack && TipsOf(paid.tips) == paid.stack.tips &&
      IncTotal(paid.tips) == SumCurrency(paid.stack.tips) + DiffSum(paid.tips)
  {
    PayTipsTips(l.stack.tips, -Share(loss, l.possibleLoss, possibleLoss), l.stack.sum);
  }

  lemma PaidLosersOwn(ls: seq<LoseStack>, loss: real, possibleLoss: real)
    requires possibleLoss != 0.0 && forall k :: 0 <= k < |ls| ==> ls[k].stack.sum != 0.0
    ensures PaysOwnTips(PayLosers(ls, loss, possibleLoss))
    ensures StacksOf(PayLosers(ls, loss, possibleLoss)) == LoserStacks(ls)
  {
    var paid := PayLosers(ls, loss, possibleLoss);
    forall k | 0 <= k < |ls|
      ensures TipsOf(paid[k].tips) == paid[k].stack.tips
      ensures IncTotal(paid[k].tips) == SumCurrency(paid[k].stack.tips) + DiffSum(paid[k].tips)
      ensures paid[k].stack == ls[k].stack
    {
      PayLosersAt(ls, loss, possibleLoss, k);
      PaidLoserOwn(ls[k], loss, possibleLoss);
    }
  }

  // ---------------------------------------------------------------------------------------
  // Permutations

  lemma SplitAtTips(b: seq<Stack>, j: nat)
    requires j < |b|
    ensures multiset(b) == multiset(b[..j] + b[j + 1..]) + multiset{b[j]}
    ensures multiset(FlatTips(b)) == multiset(FlatTips(b[..j] + b[j + 1..])) + multiset(b[j].tips)
  {
    var front, back, x := b[..j], b[j + 1..], b[j];
    Extract(b, j);
    assert FlatTips(b) == FlatTips(front) + x.tips + FlatTips(back) by {
      var lead := front + [x];
      assert lead[..|lead| - 1] == front;
      FlatTipsAppend(lead, back);
    }
    assert FlatTips(front + back) == FlatTips(front) + FlatTips(back) by {
      FlatTipsAppend(front, back);
    }
  }

  /** Reordering stacks reorders their tips. */
  lemma {:induction false} FlatTipsPermutation(a: seq<Stack>, b: seq<Stack>)
    requires multiset(a) == multiset(b)
    ensures multiset(FlatTips(a)) == multiset(FlatTips(b))
    decreases |a|
  {
    if a != [] {
      var n := |a| - 1;
      var x := a[n];
      assert x in multiset(b);
      var j :| 0 <= j < |b| && b[j] == x;
      var rest := b[..j] + b[j + 1..];
      SplitAtTips(a, n);
      SplitAtTips(b, j);
      assert a[..n] + a[n + 1..] == a[..n];
      assert multiset(a[..n]) == multiset(rest) by {
        assert multiset(a[..n]) == multiset(a[..n]) + multiset{x} - multiset{x};
        assert multiset(rest) == multiset(rest) + multiset{x} - multiset{x};
      }
      FlatTipsPermutation(a[..n], rest);
    }
  }

  lemma {:induction false} FlatTipsBares(stacks: seq<Stack>)
    ensures FlatTips(Bares(stacks)) == FlatTips(stacks)
    decreases |stacks|
  {
    if stacks != [] {
      var n := |stacks| - 1;
      assert Bares(stacks)[..n] == Bares(stacks[..n]);
      FlatTipsBares(stacks[..n]);
    }
  }

  /** A sum of stakes does not depend on the order of the tips. */
  lemma {:induction false} SumCurrencyPermutation(a: seq<Tip>, b: seq<Tip>)
    requires multiset(a) == multiset(b)
    ensures SumCurrency(a) == SumCurrency(b)
    decreases |a|
  {
    if a != [] {
      var n := |a| - 1;
      var x := a[n];
      assert x in multiset(b);
      var j :| 0 <= j < |b| && b[j] == x;
      var rest := b[..j] + b[j + 1..];
      Extract(b, j);
      assert multiset(a[..n]) == multiset(rest) by {
        assert a == a[..n] + [x];
        assert multiset(a[..n]) + multiset{x} == multiset(rest) + multiset{x};
        assert multiset(a[..n]) == multiset(a[..n]) + multiset{x} - multiset{x};
        assert multiset(rest) == multiset(rest) + multiset{x} - multiset{x};
      }
      SumCurrencyPermutation(a[..n], rest);
      assert SumCurrency(b) == SumCurrency(rest) + x.currency by {
        SumCurrencyAppend(b[..j] + [x], b[j + 1..]);
        SumCurrencyAppend(b[..j], [x]);
        SumCurrencyAppend(b[..j], b[j + 1..]);
        assert [x][..0] == [];
      }
    }
  }

  /** The arranged stacks hold every tip of the bet exactly once. */
  lemma ArrangedTips(bet: Bet, tips: seq<Tip>)
    requires AllKeyed(bet.betType, tips)
    ensures multiset(FlatTips(Arranged(bet, tips))) == multiset(tips)
  {
    var g := Group(bet.betType, tips);
    GroupPermutation(bet.betType, tips);
    if bet.betType == Scale {
      GroupNumeric(tips);
      var r := Arranged(bet, tips);
      SortFacts(WithProximity(g, bet.correctAnswerDecimal), bet.correctAnswerDecimal, g);
      FlatTipsPermutation(Bares(r), Bares(g));
      FlatTipsBares(r);
      FlatTipsBares(g);
    }
  }

  /** The winners' and then the losers' stacks hold every tip of the bet exactly once. */
  lemma SplitTips(bet: Bet, tips: seq<Tip>, reading: Reading)
    requires AllKeyed(bet.betType, tips)
    ensures multiset(FlatTips(ArrangedWinners(bet, tips, reading)) + FlatTips(ArrangedLosers(bet, tips, reading))) == multiset(tips)
  {
    var stacks := Arranged(bet, tips);
    var w, l := ArrangedWinners(bet, tips, reading), ArrangedLosers(bet, tips, reading);
    ClassifyPartition(bet, stacks, ThresholdOf(bet, stacks, reading));
    FlatTipsPermutation(w + l, stacks);
    FlatTipsAppend(w, l);
    ArrangedTips(bet, tips);
  }

  // ---------------------------------------------------------------------------------------
  // End-to-end properties

  /** getSettlement throws exactly when a scale tip has no answer, or a winning catalogue
      stack's answer has no entry in `catalogue_answers`; it never fails the balance check. */
  lemma SettleThrows(bet: Bet, tips: seq<Tip>, reading: Reading)
    requires PositiveStakes(tips)
    ensures Settle(bet, tips, reading).Thrown? <==>
      !AllKeyed(bet.betType, tips) ||
      (bet.betType != Unrecognised &&
       exists i :: 0 <= i < |ArrangedWinners(bet, tips, reading)| && OddsOf(bet, ArrangedWinners(bet, tips, reading)[i]).None?)
  {
    if AllKeyed(bet.betType, tips) {
      KnownWinners(bet, tips, reading);
      PricedFails(bet, ArrangedWinners(bet, tips, reading), ArrangedLosers(bet, tips, reading));
      if PricedOf(bet, tips, reading).Some? {
        PricedSound(bet, tips, reading);
        DistributeBalances(PricedOf(bet, tips, reading).value, reading);
      }
    }
  }

  /** The parts of a settled outcome as the distributor produced them. */
  lemma SettledParts(bet: Bet, tips: seq<Tip>, reading: Reading)
    requires PositiveStakes(tips) && Settle(bet, tips, reading).Settled?
    ensures AllKeyed(bet.betType, tips) && PricedOf(bet, tips, reading).Some?
    ensures Funded(PricedOf(bet, tips, reading).value) && Consistent(PricedOf(bet, tips, reading).value)
    ensures Distribute(PricedOf(bet, tips, reading).value, reading) ==
      Balanced(Settle(bet, tips, reading).winners, Settle(bet, tips, reading).losers,
               Distribute(PricedOf(bet, tips, reading).value, reading).actualGain, Distribute(PricedOf(bet, tips, reading).value, reading).actualLoss)
  {
    PricedSound(bet, tips, reading);
  }

  /** Each side of a balanced distribution pays exactly the tips of its priced stacks. */
  lemma DistributedSides(p: Possible)
    requires Funded(p) && Consistent(p) && DistributeCapped(p).Balanced?
    ensures PaysOwnTips(DistributeCapped(p).winners) && StacksOf(DistributeCapped(p).winners) == WinnerStacks(p.winners)
    ensures PaysOwnTips(DistributeCapped(p).losers) && StacksOf(DistributeCapped(p).losers) == LoserStacks(p.losers)
  {
    var cap := ActualCap(p.possibleGain, p.possibleLoss);
    BalancedSides(p);
    if p.winners != [] {
      PaidWinnersOwn(p.winners, cap, p.possibleGain);
    }
    if p.losers != [] {
      PaidLosersOwn(p.losers, cap, p.possibleLoss);
    }
  }

  /** Each side of a settled bet pays exactly the tips of the arranged winners and losers. */
  lemma SettledSides(bet: Bet, tips: seq<Tip>, reading: Reading)
    requires PositiveStakes(tips) && Settle(bet, tips, reading).Settled?
    ensures AllKeyed(bet.betType, tips)
    ensures PaysOwnTips(Settle(bet, tips, reading).winners) && StacksOf(Settle(bet, tips, reading).winners) == ArrangedWinners(bet, tips, reading)
    ensures PaysOwnTips(Settle(bet, tips, reading).losers) && StacksOf(Settle(bet, tips, reading).losers) == ArrangedLosers(bet, tips, reading)
  {
    SettledParts(bet, tips, reading);
    KnownWinners(bet, tips, reading);
    PricedFacts(bet, ArrangedWinners(bet, tips, reading), ArrangedLosers(bet, tips, reading));
    DistributedSides(PricedOf(bet, tips, reading).value);
  }

  /** The paid tips of a settled bet, and their increments, side by side. */
  lemma SettledPaid(bet: Bet, tips: seq<Tip>, reading: Reading)
    requires PositiveStakes(tips) && Settle(bet, tips, reading).Settled?
    ensures AllKeyed(bet.betType, tips)
    ensures TipsOf(FlatPaid(Settle(bet, tips, reading).winners + Settle(bet, tips, reading).losers)) ==
      FlatTips(ArrangedWinners(bet, tips, reading)) + FlatTips(ArrangedLosers(bet, tips, reading))
    ensures IncTotal(FlatPaid(Settle(bet, tips, reading).winners + Settle(bet, tips, reading).losers)) ==
      SumCurrency(FlatTips(ArrangedWinners(bet, tips, reading))) + SumCurrency(FlatTips(ArrangedLosers(bet, tips, reading))) +
      (StackDiffs(Settle(bet, tips, reading).winners) + StackDiffs(Settle(bet, tips, reading).losers))
  {
    var o := Settle(bet, tips, reading);
    SettledSides(bet, tips, reading);
    FlatPaidFacts(o.winners);
    FlatPaidFacts(o.losers);
    FlatPaidAppend(o.winners, o.losers);
    PaidSumsAppend(FlatPaid(o.winners), FlatPaid(o.losers));
  }

  /** A settled bet is zero-sum: the diffs of all tips it pays add up to exactly 0. */
  lemma SettleZeroSum(bet: Bet, tips: seq<Tip>, reading: Reading)
    requires PositiveStakes(tips) && Settle(bet, tips, reading).Settled?
    ensures DiffSum(FlatPaid(Settle(bet, tips, reading).winners + Settle(bet, tips, reading).losers)) == 0.0
  {
    SettledParts(bet, tips, reading);
    var o := Settle(bet, tips, reading);
    DistributeBalances(PricedOf(bet, tips, reading).value, reading);
    FlatPaidAppend(o.winners, o.losers);
    PaidSumsAppend(FlatPaid(o.winners), FlatPaid(o.losers));
    FlatPaidDiffs(o.winners);
    FlatPaidDiffs(o.losers);
  }

  /** A settled bet pays out every tip of the bet exactly once, winners first. */
  lemma SettlePaysEveryTip(bet: Bet, tips: seq<Tip>, reading: Reading)
    requires PositiveStakes(tips) && Settle(bet, tips, reading).Settled?
    ensures multiset(TipsOf(FlatPaid(Settle(bet, tips, reading).winners + Settle(bet, tips, reading).losers))) == multiset(tips)
    ensures AllKeyed(bet.betType, tips) &&
      TipsOf(FlatPaid(Settle(bet, tips, reading).winners + Settle(bet, tips, reading).losers)) ==
      FlatTips(ArrangedWinners(bet, tips, reading)) + FlatTips(ArrangedLosers(bet, tips, reading))
  {
    SettledPaid(bet, tips, reading);
    SplitTips(bet, tips, reading);
  }

  /** A settled bet hands back exactly the pot: the increments of all paid tips add up to the
      total stake of the bet. */
  lemma SettleReturnsPot(bet: Bet, tips: seq<Tip>, reading: Reading)
    requires PositiveStakes(tips) && Settle(bet, tips, reading).Settled?
    ensures IncTotal(FlatPaid(Settle(bet, tips, reading).winners + Settle(bet, tips, reading).losers)) == SumCurrency(tips)
  {
    SettledPaid(bet, tips, reading);
    SettledParts(bet, tips, reading);
    DistributeBalances(PricedOf(bet, tips, reading).value, reading);
    var wt, lt := FlatTips(ArrangedWinners(bet, tips, reading)), FlatTips(ArrangedLosers(bet, tips, reading));
    SumCurrencyAppend(wt, lt);
    SplitTips(bet, tips, reading);
    SumCurrencyPermutation(wt + lt, tips);
  }

  /** As written, a scale bet that is not aborted never has a winner: a settled one pays every
      tip as a loser. As intended its closest stacks win (`ScaleWinnersPrefix`). */
  lemma AsWrittenScaleNoWinners(bet: Bet, tips: seq<Tip>)
    requires PositiveStakes(tips) && AllKeyed(bet.betType, tips)
    requires bet.betType == Scale && !bet.isAborted
    ensures ArrangedWinners(bet, tips, AsWritten) == []
    ensures Settle(bet, tips, AsWritten).Settled? ==> Settle(bet, tips, AsWritten).winners == []
  {
    var stacks := Arranged(bet, tips);
    ArrangedSound(bet, tips);
    if stacks != [] {
      AsWrittenScaleAllLose(bet, stacks);
    }
    if Settle(bet, tips, AsWritten).Settled? {
      SettledSides(bet, tips, AsWritten);
    }
  }

  /** Every paid tip gets exactly its stake back. */
  predicate Refunds(pts: seq<PaidTip>)
  {
    forall i :: 0 <= i < |pts| ==> pts[i].diff == 0.0 && pts[i].inc == pts[i].tip.currency
  }

  lemma {:induction false} FlatPaidRefunds(ps: seq<PaidStack>)
    requires forall k :: 0 <= k < |ps| ==> Refunds(ps[k].tips)
    ensures Refunds(FlatPaid(ps))
    decreases |ps|
  {
    if ps != [] {
      var n := |ps| - 1;
      FlatPaidRefunds(ps[..n]);
      var front: seq<PaidTip>, last: seq<PaidTip> := FlatPaid(ps[..n]), ps[n].tips;
      assert FlatPaid(ps) == front + last;
      forall i | 0 <= i < |front + last|
        ensures (front + last)[i].diff == 0.0 && (front + last)[i].inc == (front + last)[i].tip.currency
      {
        if i >= |front| {
          assert (front + last)[i] == last[i - |front|];
        }
      }
    }
  }

  /** A priced settlement with no winners is distributed in balance under either reading,
      and every tip of it is refunded. */
  lemma NoWinnersRefunds(p: Possible, reading: Reading)
    requires Funded(p) && Consistent(p) && p.winners == []
    ensures Distribute(p, reading).Balanced? && Distribute(p, reading).winners == []
    ensures Refunds(FlatPaid(Distribute(p, reading).winners + Distribute(p, reading).losers))
  {
    GainTotalEmpty(p.winners);
    DistributeBalances(p, reading);
    BalancedSides(p);
    var d := DistributeCapped(p);
    forall k | 0 <= k < |d.losers| ensures Refunds(d.losers[k].tips) {
      forall j | 0 <= j < |d.losers[k].tips|
        ensures d.losers[k].tips[j].diff == 0.0 && d.losers[k].tips[j].inc == d.losers[k].tips[j].tip.currency
      {
        NoWinnersRefund(p, k, j);
      }
    }
    FlatPaidRefunds(d.losers);
    assert d.winners + d.losers == d.losers;
  }

  /** An aborted bet always settles (unless a scale tip lacks its answer), with no winners,
      and every tip of it is refunded: diff 0 and increment equal to its stake. */
  lemma AbortedRefunds(bet: Bet, tips: seq<Tip>, reading: Reading)
    requires PositiveStakes(tips) && bet.isAborted && AllKeyed(bet.betType, tips)
    ensures Settle(bet, tips, reading).Settled? && Settle(bet, tips, reading).winners == []
    ensures Refunds(FlatPaid(Settle(bet, tips, reading).winners + Settle(bet, tips, reading).losers))
  {
    var stacks := Arranged(bet, tips);
    NoWinnersUnlessKnown(bet, stacks, ThresholdOf(bet, stacks, reading));
    KnownWinners(bet, tips, reading);
    PricedFails(bet, ArrangedWinners(bet, tips, reading), ArrangedLosers(bet, tips, reading));
    PricedSound(bet, tips, reading);
    PricedFacts(bet, ArrangedWinners(bet, tips, reading), ArrangedLosers(bet, tips, reading));
    NoWinnersRefunds(PricedOf(bet, tips, reading).value, reading);
  }
}
