/**
 * The stack partitioner of payout.service.js (getAndSortTips, lines 139-155): a bet's tips are
 * grouped into stacks, one per outcome key, each carrying the total stake on that outcome.
 */
module Partition {
  import opened Wrappers
  import opened Records

  /** The outcome a tip is grouped by: `answerId` for catalogue bets, the numeric
      `answerDecimal` for scale bets; `Undefined` is JavaScript's `undefined`. */
  datatype Key = Choice(id: int) | Point(value: real) | Undefined

  /** A stack: the tips on one outcome and their total stake. Sorting a scale bet's stacks
      adds `proximity` and `proximityRank` (payout.service.js:197, 202). */
  datatype Stack = Stack(answer: Key, sum: real, tips: seq<Tip>,
                         proximity: Option<real>, proximityRank: Option<nat>)

  /** A scale tip without `answerDecimal` yields NaN at line 147, which no stack matches; the
      lookup at line 152 then fails and line 153 throws. Every other tip has a usable key. */
  predicate HasKey(betType: BetType, t: Tip)
  {
    !(betType == Scale && t.answerDecimal.None?)
  }

  function KeyOf(betType: BetType, t: Tip): Key
  {
    match betType
    case Catalogue => if t.answerId.Some? then Choice(t.answerId.value) else Undefined
    case Scale => if t.answerDecimal.Some? then Point(t.answerDecimal.value) else Undefined
    case Unrecognised => Undefined
  }

  function Keys(betType: BetType, tips: seq<Tip>): (r: seq<Key>)
    ensures |r| == |tips| && forall i :: 0 <= i < |tips| ==> r[i] == KeyOf(betType, tips[i])
  {
    seq(|tips|, i requires 0 <= i < |tips| => KeyOf(betType, tips[i]))
  }

  function Answers(stacks: seq<Stack>): (r: seq<Key>)
    ensures |r| == |stacks| && forall i :: 0 <= i < |stacks| ==> r[i] == stacks[i].answer
  {
    seq(|stacks|, i requires 0 <= i < |stacks| => stacks[i].answer)
  }

  /** `stacks.find(t => t.answer == answer)`, as a position. */
  function IndexOfKey(stacks: seq<Stack>, k: Key): (r: Option<nat>)
    ensures r.Some? ==> r.value < |stacks| && stacks[r.value].answer == k
    ensures r.None? <==> k !in Answers(stacks)
    decreases |stacks|
  {
    if stacks == [] then None
    else if stacks[0].answer == k then Some(0)
    else match IndexOfKey(stacks[1..], k)
      case None => (assert Answers(stacks) == [stacks[0].answer] + Answers(stacks[1..]); None)
      case Some(j) => Some(j + 1)
  }

  /** A stack with one more tip and its stake (lines 153-154). */
  function Grown(s: Stack, t: Tip): Stack
  {
    Stack(s.answer, s.sum + t.currency, s.tips + [t], s.proximity, s.proximityRank)
  }

  /** Adds a tip's stake and the tip to the stack at position `i`. */
  function Bump(stacks: seq<Stack>, i: nat, t: Tip): (r: seq<Stack>)
    requires i < |stacks|
  {
    stacks[i := Grown(stacks[i], t)]
  }

  /** The empty stack that line 150 opens for a key seen for the first time. */
  function Opening(k: Key): Stack
  {
    Stack(k, 0.0, [], None, None)
  }

  /** One turn of the grouping loop (lines 146-154): open a stack for a new key, then add
      the tip to the stack of its key. */
  function AddTip(stacks: seq<Stack>, k: Key, t: Tip): (r: seq<Stack>)
  {
    match IndexOfKey(stacks, k)
    case Some(i) => Bump(stacks, i, t)
    case None => Bump(stacks + [Opening(k)], |stacks|, t)
  }

  lemma IndexOfKeyOpened(stacks: seq<Stack>, k: Key)
    requires IndexOfKey(stacks, k).None?
    ensures IndexOfKey(stacks + [Opening(k)], k) == Some(|stacks|)
    decreases |stacks|
  {
    if stacks != [] {
      assert (stacks + [Opening(k)])[1..] == stacks[1..] + [Opening(k)];
      assert Answers(stacks) == [stacks[0].answer] + Answers(stacks[1..]);
      IndexOfKeyOpened(stacks[1..], k);
    }
  }

  /** The stacks the grouping loop builds from `tips`, in order. */
  function Group(betType: BetType, tips: seq<Tip>): seq<Stack>
    decreases |tips|
  {
    if tips == [] then []
    else
      var last := tips[|tips| - 1];
      AddTip(Group(betType, tips[..|tips| - 1]), KeyOf(betType, last), last)
  }

  /** The tips whose key is `k`, in their original order. */
  function WithKey(betType: BetType, tips: seq<Tip>, k: Key): seq<Tip>
    decreases |tips|
  {
    if tips == [] then []
    else
      var last := tips[|tips| - 1];
      WithKey(betType, tips[..|tips| - 1], k) + (if KeyOf(betType, last) == k then [last] else [])
  }

  /** The keys in order of first appearance, each once. */
  function FirstAppearances(ks: seq<Key>): seq<Key>
    decreases |ks|
  {
    if ks == [] then []
    else
      var seen := FirstAppearances(ks[..|ks| - 1]);
      if ks[|ks| - 1] in seen then seen else seen + [ks[|ks| - 1]]
  }

  function TotalSum(stacks: seq<Stack>): real
    decreases |stacks|
  {
    if stacks == [] then 0.0 else TotalSum(stacks[..|stacks| - 1]) + stacks[|stacks| - 1].sum
  }

  /** All tips of all stacks, stack by stack. */
  function FlatTips(stacks: seq<Stack>): seq<Tip>
    decreases |stacks|
  {
    if stacks == [] then [] else FlatTips(stacks[..|stacks| - 1]) + stacks[|stacks| - 1].tips
  }

  predicate DistinctAnswers(stacks: seq<Stack>)
  {
    forall i, j :: 0 <= i < j < |stacks| ==> stacks[i].answer != stacks[j].answer
  }

  /** Stack sums agree with their tips and no two stacks share an outcome. */
  predicate WellFormed(stacks: seq<Stack>)
  {
    DistinctAnswers(stacks) &&
    forall i :: 0 <= i < |stacks| ==> stacks[i].sum == SumCurrency(stacks[i].tips)
  }

  /** The grouping loop of getAndSortTips (lines 145-155). */
  method GroupTips(betType: BetType, tips: seq<Tip>) returns (stacks: seq<Stack>)
    ensures stacks == Group(betType, tips)
  {
    stacks := [];
    for n := 0 to |tips|
      invariant stacks == Group(betType, tips[..n])
    {
      var tip := tips[n];
      var answer := KeyOf(betType, tip);
      var i: nat;
      match IndexOfKey(stacks, answer) {
        case None =>
          stacks := stacks + [Opening(answer)];
          i := |stacks| - 1;
        case Some(j) =>
          i := j;
      }
      stacks := Bump(stacks, i, tip);
      assert tips[..n + 1][..n] == tips[..n];
    }
    assert tips[..|tips|] == tips;
  }

  // ---------------------------------------------------------------------------------------
  // Properties of the grouping

  lemma {:induction false} FirstAppearancesFacts(ks: seq<Key>)
    ensures forall k :: k in FirstAppearances(ks) <==> k in ks
    ensures forall i, j :: 0 <= i < j < |FirstAppearances(ks)| ==> FirstAppearances(ks)[i] != FirstAppearances(ks)[j]
    decreases |ks|
  {
    if ks != [] {
      FirstAppearancesFacts(ks[..|ks| - 1]);
      assert ks == ks[..|ks| - 1] + [ks[|ks| - 1]];
    }
  }

  /** One turn of the loop keeps the outcomes and appends a new one at the end. */
  lemma AddTipAnswers(stacks: seq<Stack>, k: Key, t: Tip)
    ensures Answers(AddTip(stacks, k, t)) ==
      if k in Answers(stacks) then Answers(stacks) else Answers(stacks) + [k]
  {
    var r := AddTip(stacks, k, t);
    if k in Answers(stacks) {
      assert Answers(r) == Answers(stacks);
    } else {
      assert Answers(r) == Answers(stacks) + [k];
    }
  }

  /** One turn of the loop grows the stack of the tip's outcome, or opens one at the end. */
  lemma AddTipAt(stacks: seq<Stack>, k: Key, t: Tip)
    requires DistinctAnswers(stacks)
    ensures |AddTip(stacks, k, t)| == |stacks| + (if k in Answers(stacks) then 0 else 1)
    ensures forall i :: 0 <= i < |stacks| ==>
      AddTip(stacks, k, t)[i] == if stacks[i].answer == k then Grown(stacks[i], t) else stacks[i]
    ensures k !in Answers(stacks) ==> AddTip(stacks, k, t)[|stacks|] == Grown(Opening(k), t)
  {
  }

  /** The stacks' outcomes are the tips' keys in order of first appearance, so every key
      has a stack and no two stacks share a key. */
  lemma {:induction false} GroupAnswers(betType: BetType, tips: seq<Tip>)
    ensures Answers(Group(betType, tips)) == FirstAppearances(Keys(betType, tips))
    decreases |tips|
  {
    if tips != [] {
      var prefix, last := tips[..|tips| - 1], tips[|tips| - 1];
      var ks := Keys(betType, tips);
      GroupAnswers(betType, prefix);
      AddTipAnswers(Group(betType, prefix), KeyOf(betType, last), last);
      assert ks[..|ks| - 1] == Keys(betType, prefix);
    }
  }

  lemma {:induction false} WithKeyAbsent(betType: BetType, tips: seq<Tip>, k: Key)
    requires k !in Keys(betType, tips)
    ensures WithKey(betType, tips, k) == []
    decreases |tips|
  {
    if tips != [] {
      var prefix := tips[..|tips| - 1];
      assert forall i :: 0 <= i < |prefix| ==> Keys(betType, prefix)[i] == Keys(betType, tips)[i];
      WithKeyAbsent(betType, prefix, k);
      assert Keys(betType, tips)[|tips| - 1] == KeyOf(betType, tips[|tips| - 1]);
    }
  }

  /** The stacks' outcomes are pairwise distinct. */
  lemma GroupDistinct(betType: BetType, tips: seq<Tip>)
    ensures DistinctAnswers(Group(betType, tips))
  {
    var g := Group(betType, tips);
    GroupAnswers(betType, tips);
    FirstAppearancesFacts(Keys(betType, tips));
    assert forall i :: 0 <= i < |g| ==> Answers(g)[i] == g[i].answer;
  }

  /** The stacks' tips, one stack at a time: how stack `i` of the grouped `tips` relates to
      the stacks of all tips but the last. */
  predicate StackHolds(betType: BetType, tips: seq<Tip>, s: Stack)
  {
    s.tips == WithKey(betType, tips, s.answer) && s.sum == SumCurrency(s.tips) &&
    s.tips != [] && s.proximity.None? && s.proximityRank.None?
  }

  /** Selecting by an outcome, one tip at a time. */
  lemma WithKeyStep(betType: BetType, tips: seq<Tip>, k: Key)
    requires tips != []
    ensures WithKey(betType, tips, k) ==
      WithKey(betType, tips[..|tips| - 1], k) + (if KeyOf(betType, tips[|tips| - 1]) == k then [tips[|tips| - 1]] else [])
  {
  }

  /** The stack the last tip joins. */
  lemma GrownHolds(betType: BetType, tips: seq<Tip>, s: Stack)
    requires tips != [] && KeyOf(betType, tips[|tips| - 1]) == s.answer
    requires StackHolds(betType, tips[..|tips| - 1], s)
    ensures StackHolds(betType, tips, Grown(s, tips[|tips| - 1]))
  {
    var g := Grown(s, tips[|tips| - 1]);
    WithKeyStep(betType, tips, s.answer);
    assert g.tips[..|g.tips| - 1] == s.tips;
  }

  /** A stack the last tip does not join. */
  lemma KeptHolds(betType: BetType, tips: seq<Tip>, s: Stack)
    requires tips != [] && KeyOf(betType, tips[|tips| - 1]) != s.answer
    requires StackHolds(betType, tips[..|tips| - 1], s)
    ensures StackHolds(betType, tips, s)
  {
    WithKeyStep(betType, tips, s.answer);
  }

  /** The stack the last tip opens. */
  lemma OpenedHolds(betType: BetType, tips: seq<Tip>)
    requires tips != []
    requires KeyOf(betType, tips[|tips| - 1]) !in Answers(Group(betType, tips[..|tips| - 1]))
    ensures StackHolds(betType, tips, Grown(Opening(KeyOf(betType, tips[|tips| - 1])), tips[|tips| - 1]))
  {
    var prefix, last := tips[..|tips| - 1], tips[|tips| - 1];
    var k := KeyOf(betType, last);
    var g := Grown(Opening(k), last);
    assert k !in Keys(betType, prefix) by {
      GroupAnswers(betType, prefix);
      FirstAppearancesFacts(Keys(betType, prefix));
    }
    WithKeyAbsent(betType, prefix, k);
    WithKeyStep(betType, tips, k);
    assert g.tips == [last];
    assert g.tips[..0] == [];
  }

  lemma GroupStackStep(betType: BetType, tips: seq<Tip>, g0: seq<Stack>, i: nat)
    requires tips != [] && i < |Group(betType, tips)| && g0 == Group(betType, tips[..|tips| - 1])
    requires forall j :: 0 <= j < |g0| ==> StackHolds(betType, tips[..|tips| - 1], g0[j])
    ensures StackHolds(betType, tips, Group(betType, tips)[i])
  {
    var prefix, last := tips[..|tips| - 1], tips[|tips| - 1];
    var k := KeyOf(betType, last);
    GroupDistinct(betType, prefix);
    AddTipAt(g0, k, last);
    if i < |g0| {
      if g0[i].answer == k {
        GrownHolds(betType, tips, g0[i]);
      } else {
        KeptHolds(betType, tips, g0[i]);
      }
    } else {
      OpenedHolds(betType, tips);
    }
  }

  /** Each stack holds exactly the tips with its outcome, in order, and its sum is their
      total stake; the stacks' outcomes are pairwise distinct. */
  lemma {:induction false} GroupStacks(betType: BetType, tips: seq<Tip>)
    ensures WellFormed(Group(betType, tips))
    ensures forall i :: 0 <= i < |Group(betType, tips)| ==>
      Group(betType, tips)[i].tips == WithKey(betType, tips, Group(betType, tips)[i].answer) &&
      Group(betType, tips)[i].tips != [] &&
      Group(betType, tips)[i].proximity.None? && Group(betType, tips)[i].proximityRank.None?
    decreases |tips|
  {
    GroupDistinct(betType, tips);
    if tips != [] {
      GroupStacks(betType, tips[..|tips| - 1]);
      forall i | 0 <= i < |Group(betType, tips)| ensures StackHolds(betType, tips, Group(betType, tips)[i]) {
        GroupStackStep(betType, tips, Group(betType, tips[..|tips| - 1]), i);
      }
    }
  }

  lemma {:induction false} TotalSumUpdate(stacks: seq<Stack>, i: nat, x: Stack)
    requires i < |stacks|
    ensures TotalSum(stacks[i := x]) == TotalSum(stacks) - stacks[i].sum + x.sum
    decreases |stacks|
  {
    var n := |stacks| - 1;
    if i < n {
      assert stacks[i := x][..n] == stacks[..n][i := x];
      TotalSumUpdate(stacks[..n], i, x);
    } else {
      assert stacks[i := x][..n] == stacks[..n];
    }
  }

  /** One turn of the grouping loop adds the tip's stake to the stacks' total. */
  lemma AddTipTotal(stacks: seq<Stack>, k: Key, t: Tip)
    ensures TotalSum(AddTip(stacks, k, t)) == TotalSum(stacks) + t.currency
  {
    match IndexOfKey(stacks, k)
    case Some(i) =>
      TotalSumUpdate(stacks, i, Grown(stacks[i], t));
    case None =>
      var ready := stacks + [Opening(k)];
      assert TotalSum(ready) == TotalSum(stacks) by {
        assert ready[..|ready| - 1] == stacks;
      }
      TotalSumUpdate(ready, |stacks|, Grown(Opening(k), t));
  }

  /** The stacks' sums add up to the bet's total stake. */
  lemma {:induction false} GroupTotal(betType: BetType, tips: seq<Tip>)
    ensures TotalSum(Group(betType, tips)) == SumCurrency(tips)
    decreases |tips|
  {
    if tips != [] {
      var prefix, last := tips[..|tips| - 1], tips[|tips| - 1];
      GroupTotal(betType, prefix);
      AddTipTotal(Group(betType, prefix), KeyOf(betType, last), last);
    }
  }

  lemma {:induction false} FlatTipsUpdate(stacks: seq<Stack>, i: nat, x: Stack)
    requires i < |stacks|
    ensures multiset(FlatTips(stacks[i := x])) == multiset(FlatTips(stacks)) - multiset(stacks[i].tips) + multiset(x.tips)
    decreases |stacks|
  {
    var n := |stacks| - 1;
    if i < n {
      assert stacks[i := x][..n] == stacks[..n][i := x];
      FlatTipsUpdate(stacks[..n], i, x);
      FlatTipsContains(stacks[..n], i);
    } else {
      assert stacks[i := x][..n] == stacks[..n];
    }
  }

  lemma {:induction false} FlatTipsContains(stacks: seq<Stack>, i: nat)
    requires i < |stacks|
    ensures multiset(stacks[i].tips) <= multiset(FlatTips(stacks))
    decreases |stacks|
  {
    var n := |stacks| - 1;
    if i < n {
      FlatTipsContains(stacks[..n], i);
    }
  }

  lemma BumpFlatTips(stacks: seq<Stack>, i: nat, t: Tip)
    requires i < |stacks|
    ensures multiset(FlatTips(Bump(stacks, i, t))) == multiset(FlatTips(stacks)) + multiset{t}
  {
    var x := Bump(stacks, i, t)[i];
    FlatTipsUpdate(stacks, i, x);
    FlatTipsContains(stacks, i);
    assert multiset(x.tips) == multiset(stacks[i].tips) + multiset{t};
  }

  lemma GroupStepFlatTips(betType: BetType, tips: seq<Tip>)
    requires tips != []
    ensures multiset(FlatTips(Group(betType, tips))) ==
            multiset(FlatTips(Group(betType, tips[..|tips| - 1]))) + multiset{tips[|tips| - 1]}
  {
    var prefix, last := tips[..|tips| - 1], tips[|tips| - 1];
    var k := KeyOf(betType, last);
    var g0 := Group(betType, prefix);
    var ready := if IndexOfKey(g0, k).None? then g0 + [Opening(k)] else g0;
    var i := if IndexOfKey(g0, k).None? then |g0| else IndexOfKey(g0, k).value;
    assert FlatTips(ready) == FlatTips(g0) by {
      if IndexOfKey(g0, k).None? {
        assert ready[..|ready| - 1] == g0;
      }
    }
    assert Group(betType, tips) == Bump(ready, i, last);
    BumpFlatTips(ready, i, last);
  }

  /** Every tip lands in exactly one stack: the stacks' tips, taken together, are the bet's
      tips with the same multiplicities. */
  lemma {:induction false} GroupPermutation(betType: BetType, tips: seq<Tip>)
    ensures multiset(FlatTips(Group(betType, tips))) == multiset(tips)
    decreases |tips|
  {
    if tips != [] {
      var prefix, last := tips[..|tips| - 1], tips[|tips| - 1];
      calc == {
        multiset(FlatTips(Group(betType, tips)));
        { GroupStepFlatTips(betType, tips); }
        multiset(FlatTips(Group(betType, prefix))) + multiset{last};
        { GroupPermutation(betType, prefix); }
        multiset(prefix) + multiset{last};
        { assert tips == prefix + [last]; }
        multiset(tips);
      }
    }
  }
}
