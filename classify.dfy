/**
 * The winner/loser split of getAndSortTips (payout.service.js, lines 160-191): every stack is
 * classified once, in order, as a winner or a loser of the bet.
 */
module Classification {
  import opened Wrappers
  import opened Records
  import opened Partition

  /** The pot a scale bet's accumulated stakes are compared against: an integer bound, or
      JavaScript's NaN, against which every comparison is false. */
  datatype Threshold = Limit(bound: int) | NotANumber

  /** `accumulatedPot < threshold` */
  predicate Below(accumulated: real, t: Threshold)
  {
    t.Limit? && accumulated < t.bound as real
  }

  /** A JavaScript value as the `reduce` of line 164 meets it: a number (`None` is NaN), or a
      stack object with its `sum`. */
  datatype JsValue = Number(value: Option<real>) | StackObject(stack: Stack)

  /** `v.sum`: a stack object's sum. A number has no `sum` property, and `undefined` plus a
      number is NaN, so the addition it takes part in yields `None`. */
  function SumField(v: JsValue): Option<real>
  {
    if v.StackObject? then Some(v.stack.sum) else None
  }

  /** The reducer of line 164, `(prev, curr) => prev.sum + curr.sum`. */
  function PotStep(prev: JsValue, curr: Stack): JsValue
  {
    match SumField(prev)
    case Some(x) => Number(Some(x + curr.sum))
    case None => Number(None)
  }

  /** `stacks.reduce(PotStep, init)`, left to right. */
  function Reduce(stacks: seq<Stack>, init: JsValue): JsValue
    decreases |stacks|
  {
    if stacks == [] then init else PotStep(Reduce(stacks[..|stacks| - 1], init), stacks[|stacks| - 1])
  }

  /** `inPot` of line 164: the reduce starts from the number 0. */
  function ReducedPot(stacks: seq<Stack>): JsValue
  {
    Reduce(stacks, Number(Some(0.0)))
  }

  /** The first step reads `.sum` of the number 0, and every later step `.sum` of NaN: the
      pot is 0 for no stacks and NaN for any stack. */
  lemma {:induction false} ReducedPotNaN(stacks: seq<Stack>)
    ensures ReducedPot(stacks) == if stacks == [] then Number(Some(0.0)) else Number(None)
    ensures stacks != [] ==> ReducedPot(stacks) != Number(Some(TotalSum(stacks)))
    decreases |stacks|
  {
    if stacks != [] {
      ReducedPotNaN(stacks[..|stacks| - 1]);
    }
  }

  /** `Math.floor(inPot * (winRate / 100))` with the pot of line 164, as written. */
  function AsWrittenThreshold(stacks: seq<Stack>, winRate: real): Threshold
  {
    match ReducedPot(stacks)
    case Number(Some(pot)) => Limit((pot * (winRate / 100.0)).Floor)
    case _ => NotANumber
  }

  /** The threshold evidently intended: the floor of the winning share of the whole pot. */
  function IntendedThreshold(stacks: seq<Stack>, winRate: real): Threshold
  {
    Limit((TotalSum(stacks) * (winRate / 100.0)).Floor)
  }

  /** `bet.correctAnswerIds.includes(stack.answer)` */
  predicate IsCorrect(bet: Bet, k: Key)
  {
    k.Choice? && k.id in bet.correctAnswerIds
  }

  /** The scale verdicts (lines 172-180): a stack wins when the pot accumulated up to and
      including it stays below the threshold, or when it ties in proximity with the previous
      stack and that stack won. */
  function ScaleFlags(stacks: seq<Stack>, t: Threshold): (r: seq<bool>)
    ensures |r| == |stacks|
    decreases |stacks|
  {
    if stacks == [] then []
    else
      var n := |stacks| - 1;
      var earlier := ScaleFlags(stacks[..n], t);
      earlier + [Below(TotalSum(stacks), t) ||
                 (n > 0 && earlier[n - 1] && stacks[n].proximity == stacks[n - 1].proximity)]
  }

  /** The verdict of lines 167-183 for every stack. */
  function WinnerFlags(bet: Bet, stacks: seq<Stack>, t: Threshold): (r: seq<bool>)
    ensures |r| == |stacks|
  {
    if bet.isAborted then seq(|stacks|, i => false)
    else match bet.betType
      case Catalogue => seq(|stacks|, i requires 0 <= i < |stacks| => IsCorrect(bet, stacks[i].answer))
      case Scale => ScaleFlags(stacks, t)
      case Unrecognised => seq(|stacks|, i => false)
  }

  /** The stacks whose verdict is `want`, in order. */
  function Pick(stacks: seq<Stack>, flags: seq<bool>, want: bool): seq<Stack>
    requires |flags| == |stacks|
    decreases |stacks|
  {
    if stacks == [] then []
    else
      var n := |stacks| - 1;
      Pick(stacks[..n], flags[..n], want) + (if flags[n] == want then [stacks[n]] else [])
  }

  function Winners(bet: Bet, stacks: seq<Stack>, t: Threshold): seq<Stack>
  {
    Pick(stacks, WinnerFlags(bet, stacks, t), true)
  }

  function Losers(bet: Bet, stacks: seq<Stack>, t: Threshold): seq<Stack>
  {
    Pick(stacks, WinnerFlags(bet, stacks, t), false)
  }

  /** The scale verdict of the stack at `n`, in terms of the stacks before it. */
  lemma ScaleVerdictAt(stacks: seq<Stack>, t: Threshold, n: nat)
    requires n < |stacks|
    ensures var prefix := stacks[..n + 1];
      TotalSum(prefix) == TotalSum(stacks[..n]) + stacks[n].sum &&
      ScaleFlags(prefix, t)[n] == (Below(TotalSum(prefix), t) ||
        (n > 0 && ScaleFlags(stacks[..n], t)[n - 1] && stacks[n].proximity == stacks[n - 1].proximity))
  {
    assert stacks[..n + 1][..n] == stacks[..n];
  }

  /** Classifying the stack at `n` appends it to the side its verdict picks. */
  lemma PickSnoc(bet: Bet, stacks: seq<Stack>, t: Threshold, n: nat)
    requires n < |stacks|
    ensures var f := WinnerFlags(bet, stacks[..n + 1], t)[n];
      Pick(stacks[..n + 1], WinnerFlags(bet, stacks[..n + 1], t), true) ==
        Pick(stacks[..n], WinnerFlags(bet, stacks[..n], t), true) + (if f then [stacks[n]] else []) &&
      Pick(stacks[..n + 1], WinnerFlags(bet, stacks[..n + 1], t), false) ==
        Pick(stacks[..n], WinnerFlags(bet, stacks[..n], t), false) + (if f then [] else [stacks[n]])
  {
    WinnerFlagsStep(bet, stacks, t, n);
    assert stacks[..n + 1][..n] == stacks[..n];
  }

  lemma WinnerFlagsStep(bet: Bet, stacks: seq<Stack>, t: Threshold, n: nat)
    requires n < |stacks|
    ensures WinnerFlags(bet, stacks[..n + 1], t) == WinnerFlags(bet, stacks[..n], t) + [WinnerFlags(bet, stacks[..n + 1], t)[n]]
  {
    assert stacks[..n + 1][..n] == stacks[..n];
  }

  /** Lines 167-183 for the stack at `n`: its verdict, and the scale state carried to the
      next stack. */
  method Judge(bet: Bet, stacks: seq<Stack>, t: Threshold, n: nat,
               accumulatedPot: real, lastStackIsWinner: bool, lastProximity: Option<real>)
    returns (isWinner: bool, pot: real, last: bool, proximity: Option<real>)
    requires n < |stacks|
    requires !bet.isAborted && bet.betType == Scale ==>
      accumulatedPot == TotalSum(stacks[..n]) &&
      lastStackIsWinner == (n > 0 && ScaleFlags(stacks[..n], t)[n - 1]) &&
      (n > 0 ==> lastProximity == stacks[n - 1].proximity)
    ensures isWinner == WinnerFlags(bet, stacks[..n + 1], t)[n]
    ensures !bet.isAborted && bet.betType == Scale ==>
      pot == TotalSum(stacks[..n + 1]) && last == ScaleFlags(stacks[..n + 1], t)[n] &&
      proximity == stacks[n].proximity
  {
    var stack := stacks[n];
    pot, last, proximity := accumulatedPot, lastStackIsWinner, lastProximity;
    if bet.isAborted {
      isWinner := false;
    } else if bet.betType == Catalogue {
      isWinner := stack.answer.Choice? && stack.answer.id in bet.correctAnswerIds;
      assert stacks[..n + 1][n] == stack;
    } else if bet.betType == Scale {
      ScaleVerdictAt(stacks, t, n);
      pot := accumulatedPot + stack.sum;
      isWinner := Below(pot, t);
      if !isWinner && lastStackIsWinner && stack.proximity == lastProximity {
        isWinner := true;
      }
      last := isWinner;
      proximity := stack.proximity;
    } else {
      isWinner := false;
    }
  }

  /** The classification loop of getAndSortTips (lines 162-189), with the scale threshold of
      line 173 passed in. */
  method Classify(bet: Bet, stacks: seq<Stack>, t: Threshold) returns (winners: seq<Stack>, losers: seq<Stack>)
    ensures winners == Winners(bet, stacks, t)
    ensures losers == Losers(bet, stacks, t)
  {
    winners, losers := [], [];
    var accumulatedPot := 0.0;
    var lastStackIsWinner := false;
    var lastProximity: Option<real> := None;
    for n := 0 to |stacks|
      invariant winners == Pick(stacks[..n], WinnerFlags(bet, stacks[..n], t), true)
      invariant losers == Pick(stacks[..n], WinnerFlags(bet, stacks[..n], t), false)
      invariant !bet.isAborted && bet.betType == Scale ==>
        accumulatedPot == TotalSum(stacks[..n]) &&
        lastStackIsWinner == (n > 0 && ScaleFlags(stacks[..n], t)[n - 1]) &&
        (n > 0 ==> lastProximity == stacks[n - 1].proximity)
    {
      var stack := stacks[n];
      var isWinner;
      isWinner, accumulatedPot, lastStackIsWinner, lastProximity :=
        Judge(bet, stacks, t, n, accumulatedPot, lastStackIsWinner, lastProximity);
      PickSnoc(bet, stacks, t, n);
      if isWinner {
        winners := winners + [stack];
      } else {
        losers := losers + [stack];
      }
    }
    assert stacks[..|stacks|] == stacks;
  }

  // ---------------------------------------------------------------------------------------
  // Properties of the classification

  lemma {:induction false} PickMembers(stacks: seq<Stack>, flags: seq<bool>, want: bool, x: Stack)
    requires |flags| == |stacks|
    ensures x in Pick(stacks, flags, want) <==> exists i :: 0 <= i < |stacks| && stacks[i] == x && flags[i] == want
    decreases |stacks|
  {
    if stacks != [] {
      var n := |stacks| - 1;
      PickMembers(stacks[..n], flags[..n], want, x);
      if x in Pick(stacks[..n], flags[..n], want) {
        var i :| 0 <= i < n && stacks[..n][i] == x && flags[..n][i] == want;
        assert stacks[i] == x && flags[i] == want;
      }
      if exists i :: 0 <= i < |stacks| && stacks[i] == x && flags[i] == want {
        var i :| 0 <= i < |stacks| && stacks[i] == x && flags[i] == want;
        if i < n {
          assert stacks[..n][i] == x && flags[..n][i] == want;
        }
      }
    }
  }

  /** Winners and losers split the stacks: together they are a permutation of them. */
  lemma {:induction false} PickPartition(stacks: seq<Stack>, flags: seq<bool>)
    requires |flags| == |stacks|
    ensures multiset(Pick(stacks, flags, true)) + multiset(Pick(stacks, flags, false)) == multiset(stacks)
    decreases |stacks|
  {
    if stacks != [] {
      var n := |stacks| - 1;
      PickPartition(stacks[..n], flags[..n]);
      assert stacks == stacks[..n] + [stacks[n]];
    }
  }

  lemma ClassifyPartition(bet: Bet, stacks: seq<Stack>, t: Threshold)
    ensures multiset(Winners(bet, stacks, t)) + multiset(Losers(bet, stacks, t)) == multiset(stacks)
  {
    PickPartition(stacks, WinnerFlags(bet, stacks, t));
  }

  lemma {:induction false} PickConstant(stacks: seq<Stack>, flags: seq<bool>, b: bool)
    requires |flags| == |stacks| && forall i :: 0 <= i < |flags| ==> flags[i] == b
    ensures Pick(stacks, flags, b) == stacks && Pick(stacks, flags, !b) == []
    decreases |stacks|
  {
    if stacks != [] {
      var n := |stacks| - 1;
      PickConstant(stacks[..n], flags[..n], b);
      assert stacks == stacks[..n] + [stacks[n]];
    }
  }

  /** An aborted bet, or a bet of an unrecognised type, has no winners: every stack loses. */
  lemma NoWinnersUnlessKnown(bet: Bet, stacks: seq<Stack>, t: Threshold)
    requires bet.isAborted || bet.betType == Unrecognised
    ensures Winners(bet, stacks, t) == [] && Losers(bet, stacks, t) == stacks
  {
    PickConstant(stacks, WinnerFlags(bet, stacks, t), false);
  }

  /** A catalogue stack wins exactly when its answer is one of the correct ones. */
  lemma CatalogueWinners(bet: Bet, stacks: seq<Stack>, t: Threshold, s: Stack)
    requires !bet.isAborted && bet.betType == Catalogue
    ensures s in Winners(bet, stacks, t) <==> s in stacks && IsCorrect(bet, s.answer)
    ensures s in Losers(bet, stacks, t) <==> s in stacks && !IsCorrect(bet, s.answer)
  {
    var flags := WinnerFlags(bet, stacks, t);
    PickMembers(stacks, flags, true, s);
    PickMembers(stacks, flags, false, s);
    if s in stacks {
      var i :| 0 <= i < |stacks| && stacks[i] == s;
      assert flags[i] == IsCorrect(bet, s.answer);
    }
  }

  /** The pot accumulated up to and including stack `j` (line 172). */
  function Accumulated(stacks: seq<Stack>, j: nat): real
    requires j < |stacks|
  {
    TotalSum(stacks[..j + 1])
  }

  /** Two neighbours at the same distance from the correct answer. */
  predicate Tied(stacks: seq<Stack>, k: nat)
    requires 0 < k < |stacks|
  {
    stacks[k].proximity == stacks[k - 1].proximity
  }

  lemma ScaleFlagsPrefix(stacks: seq<Stack>, t: Threshold, n: nat, i: nat)
    requires i < n <= |stacks|
    ensures ScaleFlags(stacks[..n], t)[i] == ScaleFlags(stacks, t)[i]
    decreases |stacks| - n
  {
    if n < |stacks| {
      ScaleFlagsPrefix(stacks, t, n + 1, i);
      assert stacks[..n + 1][..n] == stacks[..n];
    } else {
      assert stacks[..n] == stacks;
    }
  }

  /** Every stack after `j` up to `i` ties with its predecessor. */
  predicate TiedFrom(stacks: seq<Stack>, j: nat, i: nat)
    requires i < |stacks|
  {
    forall k :: j < k <= i ==> Tied(stacks, k)
  }

  /** Some stack `j` at or before `i` had the accumulated pot below the threshold, and the
      stacks from `j` to `i` all tie. */
  predicate Reaches(stacks: seq<Stack>, t: Threshold, i: nat)
    requires i < |stacks|
  {
    exists j :: 0 <= j <= i && Below(Accumulated(stacks, j), t) && TiedFrom(stacks, j, i)
  }

  lemma ScaleFlagsStep(stacks: seq<Stack>, t: Threshold, i: nat)
    requires i < |stacks|
    ensures ScaleFlags(stacks, t)[i] ==
      (Below(Accumulated(stacks, i), t) || (i > 0 && ScaleFlags(stacks, t)[i - 1] && Tied(stacks, i)))
  {
    ScaleFlagsPrefix(stacks, t, i + 1, i);
    var p := stacks[..i + 1];
    assert p[..i] == stacks[..i];
    if i > 0 {
      ScaleFlagsPrefix(stacks, t, i, i - 1);
    }
  }

  lemma ReachesStep(stacks: seq<Stack>, t: Threshold, i: nat)
    requires i < |stacks|
    ensures Reaches(stacks, t, i) ==
      (Below(Accumulated(stacks, i), t) || (i > 0 && Reaches(stacks, t, i - 1) && Tied(stacks, i)))
  {
    if Reaches(stacks, t, i) && !Below(Accumulated(stacks, i), t) {
      var j :| 0 <= j <= i && Below(Accumulated(stacks, j), t) && TiedFrom(stacks, j, i);
      assert j < i;
      assert TiedFrom(stacks, j, i - 1);
    }
    if Below(Accumulated(stacks, i), t) {
      assert TiedFrom(stacks, i, i);
    }
    if i > 0 && Reaches(stacks, t, i - 1) && Tied(stacks, i) {
      var j :| 0 <= j <= i - 1 && Below(Accumulated(stacks, j), t) && TiedFrom(stacks, j, i - 1);
      assert TiedFrom(stacks, j, i);
    }
  }

  /** Closed form of the scale verdicts: stack `i` wins iff some stack `j` at or before it
      had the accumulated pot below the threshold and every stack from `j` to `i` ties with
      its predecessor. */
  lemma {:induction false} ScaleFlagsClosedForm(stacks: seq<Stack>, t: Threshold, i: nat)
    requires i < |stacks|
    ensures ScaleFlags(stacks, t)[i] <==> Reaches(stacks, t, i)
    decreases i
  {
    ScaleFlagsStep(stacks, t, i);
    ReachesStep(stacks, t, i);
    if i > 0 {
      ScaleFlagsClosedForm(stacks, t, i - 1);
    }
  }

  /** Prefix sums of positive stacks grow strictly. */
  lemma {:induction false} TotalSumGrows(stacks: seq<Stack>, i: nat, j: nat)
    requires i < j <= |stacks|
    requires forall k :: 0 <= k < |stacks| ==> stacks[k].sum > 0.0
    ensures TotalSum(stacks[..i]) < TotalSum(stacks[..j])
    decreases j - i
  {
    assert stacks[..j][..j - 1] == stacks[..j - 1];
    if i < j - 1 {
      TotalSumGrows(stacks, i, j - 1);
    }
  }

  /** With positive stakes no scale stack wins after a losing one. */
  lemma ScaleFlagsMonotone(stacks: seq<Stack>, t: Threshold, i: nat)
    requires 0 < i < |stacks|
    requires forall k :: 0 <= k < |stacks| ==> stacks[k].sum > 0.0
    ensures ScaleFlags(stacks, t)[i] ==> ScaleFlags(stacks, t)[i - 1]
  {
    ScaleFlagsStep(stacks, t, i);
    ScaleFlagsStep(stacks, t, i - 1);
    TotalSumGrows(stacks, i, i + 1);
  }

  lemma {:induction false} PickSplit(stacks: seq<Stack>, flags: seq<bool>)
    requires |flags| == |stacks|
    requires forall i :: 0 < i < |flags| ==> flags[i] ==> flags[i - 1]
    ensures Pick(stacks, flags, true) + Pick(stacks, flags, false) == stacks
    decreases |stacks|
  {
    if stacks != [] {
      var n := |stacks| - 1;
      var s', f' := stacks[..n], flags[..n];
      PickSplit(s', f');
      if flags[n] {
        assert forall i :: 0 <= i < n ==> f'[i] by {
          forall i | 0 <= i < n ensures f'[i] {
            AllTrueBefore(flags, n, i);
          }
        }
        PickConstant(s', f', true);
      }
      assert stacks == s' + [stacks[n]];
    }
  }

  lemma {:induction false} AllTrueBefore(flags: seq<bool>, n: nat, i: nat)
    requires i <= n < |flags| && flags[n]
    requires forall i :: 0 < i < |flags| ==> flags[i] ==> flags[i - 1]
    ensures flags[i]
    decreases n - i
  {
    if i < n {
      AllTrueBefore(flags, n - 1, i);
    }
  }

  /** With positive stakes the scale winners are a prefix of the proximity order and the
      losers the rest: `winners + losers == stacks`. */
  lemma ScaleWinnersPrefix(bet: Bet, stacks: seq<Stack>, t: Threshold)
    requires !bet.isAborted && bet.betType == Scale
    requires forall k :: 0 <= k < |stacks| ==> stacks[k].sum > 0.0
    ensures Winners(bet, stacks, t) + Losers(bet, stacks, t) == stacks
  {
    var flags := WinnerFlags(bet, stacks, t);
    forall i | 0 < i < |flags| ensures flags[i] ==> flags[i - 1] {
      ScaleFlagsMonotone(stacks, t, i);
    }
    PickSplit(stacks, flags);
  }

  /** Against a NaN threshold no scale stack ever wins. */
  lemma {:induction false} NaNThresholdNoWinner(stacks: seq<Stack>)
    ensures forall i :: 0 <= i < |stacks| ==> !ScaleFlags(stacks, NotANumber)[i]
    decreases |stacks|
  {
    if stacks != [] {
      NaNThresholdNoWinner(stacks[..|stacks| - 1]);
    }
  }

  lemma {:induction false} ZeroThresholdNoWinner(stacks: seq<Stack>, n: nat)
    requires n <= |stacks|
    requires forall k :: 0 <= k < |stacks| ==> stacks[k].sum > 0.0
    ensures forall i :: 0 <= i < n ==> !ScaleFlags(stacks, Limit(0))[i]
    decreases n
  {
    if n > 0 {
      ZeroThresholdNoWinner(stacks, n - 1);
      ScaleFlagsStep(stacks, Limit(0), n - 1);
      TotalSumGrows(stacks, 0, n);
      assert stacks[..0] == [];
    }
  }

  /** As written, a non-empty scale bet has no winners at all; with positive stakes this is
      exactly the outcome of a zero threshold. */
  lemma AsWrittenScaleAllLose(bet: Bet, stacks: seq<Stack>)
    requires !bet.isAborted && bet.betType == Scale && stacks != []
    requires forall k :: 0 <= k < |stacks| ==> stacks[k].sum > 0.0
    ensures Winners(bet, stacks, AsWrittenThreshold(stacks, bet.scaleOptions.winRate)) == []
    ensures Winners(bet, stacks, Limit(0)) == []
  {
    ReducedPotNaN(stacks);
    NaNThresholdNoWinner(stacks);
    PickConstant(stacks, WinnerFlags(bet, stacks, NotANumber), false);
    ZeroThresholdNoWinner(stacks, |stacks|);
    PickConstant(stacks, WinnerFlags(bet, stacks, Limit(0)), false);
  }

  /** Two stacks holding 1 and 9 with a win rate of 100%: the intended threshold (10) makes
      the nearer stack a winner; the threshold as written makes both lose. */
  lemma AsWrittenThresholdCounterexample()
    ensures var bet := Bet(0, Scale, true, false, [], map[], [], 0.0, ScaleOptions(100.0, 2.0), 2, 10.0, "");
            var a := Stack(Point(0.0), 1.0, [], Some(0.0), Some(0));
            var b := Stack(Point(1.0), 9.0, [], Some(1.0), Some(1));
            Winners(bet, [a, b], IntendedThreshold([a, b], 100.0)) == [a] &&
            Winners(bet, [a, b], AsWrittenThreshold([a, b], 100.0)) == []
  {
    var bet := Bet(0, Scale, true, false, [], map[], [], 0.0, ScaleOptions(100.0, 2.0), 2, 10.0, "");
    var a := Stack(Point(0.0), 1.0, [], Some(0.0), Some(0));
    var b := Stack(Point(1.0), 9.0, [], Some(1.0), Some(1));
    var s := [a, b];
    assert s[..1] == [a];
    assert TotalSum([a]) == 1.0;
    assert TotalSum(s) == 10.0;
    assert IntendedThreshold(s, 100.0) == Limit(10);
    assert ScaleFlags([a], Limit(10)) == [true];
    assert ScaleFlags(s, Limit(10)) == [true, false];
    assert WinnerFlags(bet, s, Limit(10)) == [true, false];
    assert Pick([a], [true], true) == [a];
    ReducedPotNaN(s);
    NaNThresholdNoWinner(s);
    PickConstant(s, WinnerFlags(bet, s, NotANumber), false);
  }
}
