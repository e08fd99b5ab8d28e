/**
 * sortProximity of payout.service.js (lines 194-204): a scale bet's stacks get their distance
 * to the correct answer, are sorted by it (Array.prototype.sort, which is stable), and are
 * numbered in that order.
 */
module Proximity {
  import opened Wrappers
  import opened Records
  import opened Partition

  /** Every stack of a scale bet has a numeric outcome. */
  predicate NumericAnswers(stacks: seq<Stack>)
  {
    forall i :: 0 <= i < |stacks| ==> stacks[i].answer.Point?
  }

  /** `Math.abs(stack.answer - correctAnswerDecimal)` */
  function Distance(s: Stack, correct: real): real
    requires s.answer.Point?
  {
    Abs(s.answer.value - correct)
  }

  /** The proximity the sort compares; every stack it sees has one. */
  function Prox(s: Stack): real
  {
    if s.proximity.Some? then s.proximity.value else 0.0
  }

  function WithProximity(stacks: seq<Stack>, correct: real): (r: seq<Stack>)
    requires NumericAnswers(stacks)
    ensures |r| == |stacks|
    ensures forall i :: 0 <= i < |stacks| ==>
      r[i] == Stack(stacks[i].answer, stacks[i].sum, stacks[i].tips, Some(Distance(stacks[i], correct)), stacks[i].proximityRank)
  {
    seq(|stacks|, i requires 0 <= i < |stacks| =>
      Stack(stacks[i].answer, stacks[i].sum, stacks[i].tips, Some(Distance(stacks[i], correct)), stacks[i].proximityRank))
  }

  function Ranked(stacks: seq<Stack>): (r: seq<Stack>)
    ensures |r| == |stacks|
    ensures forall i :: 0 <= i < |stacks| ==>
      r[i] == Stack(stacks[i].answer, stacks[i].sum, stacks[i].tips, stacks[i].proximity, Some(i))
  {
    seq(|stacks|, i requires 0 <= i < |stacks| =>
      Stack(stacks[i].answer, stacks[i].sum, stacks[i].tips, stacks[i].proximity, Some(i)))
  }

  /** Places `x` after every element whose proximity is not larger than its own: one step of
      a stable sort under the comparator of line 199. */
  function InsertByProximity(x: Stack, sorted: seq<Stack>): (r: seq<Stack>)
    ensures |r| == |sorted| + 1
    decreases |sorted|
  {
    if sorted == [] then [x]
    else if Prox(sorted[0]) > Prox(x) then [x] + sorted
    else [sorted[0]] + InsertByProximity(x, sorted[1..])
  }

  /** `stacks.sort(...)` of line 199, as a stable insertion sort. */
  function SortByProximity(stacks: seq<Stack>): (r: seq<Stack>)
    ensures |r| == |stacks|
    decreases |stacks|
  {
    if stacks == [] then []
    else InsertByProximity(stacks[|stacks| - 1], SortByProximity(stacks[..|stacks| - 1]))
  }

  predicate SortedByProximity(stacks: seq<Stack>)
  {
    forall i, j :: 0 <= i < j < |stacks| ==> Prox(stacks[i]) <= Prox(stacks[j])
  }

  /** A stack without the fields the sort adds. */
  function Bare(s: Stack): Stack
  {
    Stack(s.answer, s.sum, s.tips, None, None)
  }

  function Bares(stacks: seq<Stack>): (r: seq<Stack>)
    ensures |r| == |stacks| && forall i :: 0 <= i < |stacks| ==> r[i] == Bare(stacks[i])
  {
    seq(|stacks|, i requires 0 <= i < |stacks| => Bare(stacks[i]))
  }

  /** The stacks at distance `d`, in order. */
  function AtDistance(stacks: seq<Stack>, d: real): seq<Stack>
    decreases |stacks|
  {
    if stacks == [] then []
    else (if Prox(stacks[0]) == d then [stacks[0]] else []) + AtDistance(stacks[1..], d)
  }

  /** sortProximity (lines 194-204): the three loops over the stacks. */
  method SortProximity(stacks: seq<Stack>, correct: real) returns (r: seq<Stack>)
    requires NumericAnswers(stacks)
    ensures r == Ranked(SortByProximity(WithProximity(stacks, correct)))
    ensures multiset(Bares(r)) == multiset(Bares(stacks))
    ensures forall i :: 0 <= i < |r| ==> Measured(r[i], correct)
    ensures SortedByProximity(r)
    ensures forall i :: 0 <= i < |r| ==> r[i].proximityRank == Some(i)
  {
    r := stacks;
    for i := 0 to |r|
      invariant |r| == |stacks|
      invariant forall j :: 0 <= j < i ==> r[j] == WithProximity(stacks, correct)[j]
      invariant forall j :: i <= j < |r| ==> r[j] == stacks[j]
    {
      r := r[i := Stack(r[i].answer, r[i].sum, r[i].tips, Some(Abs(r[i].answer.value - correct)), r[i].proximityRank)];
    }
    assert r == WithProximity(stacks, correct);
    ghost var proximate := r;
    r := SortByProximity(r);
    ghost var sorted := r;
    for i := 0 to |r|
      invariant |r| == |sorted|
      invariant forall j :: 0 <= j < i ==> r[j] == Ranked(sorted)[j]
      invariant forall j :: i <= j < |r| ==> r[j] == sorted[j]
    {
      r := r[i := Stack(r[i].answer, r[i].sum, r[i].tips, r[i].proximity, Some(i))];
    }
    assert r == Ranked(sorted);
    SortFacts(proximate, correct, stacks);
  }

  // ---------------------------------------------------------------------------------------
  // Properties of the sort

  lemma {:induction false} InsertPermutation(x: Stack, sorted: seq<Stack>)
    ensures multiset(InsertByProximity(x, sorted)) == multiset(sorted) + multiset{x}
    decreases |sorted|
  {
    if sorted != [] && Prox(sorted[0]) <= Prox(x) {
      InsertPermutation(x, sorted[1..]);
      assert sorted == [sorted[0]] + sorted[1..];
    }
  }

  lemma {:induction false} InsertSorted(x: Stack, sorted: seq<Stack>)
    requires SortedByProximity(sorted)
    ensures SortedByProximity(InsertByProximity(x, sorted))
    decreases |sorted|
  {
    if sorted != [] && Prox(sorted[0]) <= Prox(x) {
      InsertSorted(x, sorted[1..]);
      InsertPermutation(x, sorted[1..]);
      var rest := InsertByProximity(x, sorted[1..]);
      forall i | 0 <= i < |rest| ensures Prox(sorted[0]) <= Prox(rest[i]) {
        assert rest[i] in multiset(sorted[1..]) + multiset{x};
        if rest[i] != x {
          var j :| 0 <= j < |sorted[1..]| && sorted[1..][j] == rest[i];
          assert sorted[j + 1] == rest[i];
        }
      }
    }
  }

  /** The sort returns a permutation of its input, ordered by proximity. */
  lemma {:induction false} SortPermutationSorted(stacks: seq<Stack>)
    ensures multiset(SortByProximity(stacks)) == multiset(stacks)
    ensures SortedByProximity(SortByProximity(stacks))
    decreases |stacks|
  {
    if stacks != [] {
      var prefix, last := stacks[..|stacks| - 1], stacks[|stacks| - 1];
      SortPermutationSorted(prefix);
      InsertPermutation(last, SortByProximity(prefix));
      InsertSorted(last, SortByProximity(prefix));
      assert stacks == prefix + [last];
    }
  }

  lemma {:induction false} AtDistanceAppend(a: seq<Stack>, b: seq<Stack>, d: real)
    ensures AtDistance(a + b, d) == AtDistance(a, d) + AtDistance(b, d)
    decreases |a|
  {
    if a != [] {
      var x, tail := a[0], a[1..];
      var head := if Prox(x) == d then [x] else [];
      var rest, later := AtDistance(tail, d), AtDistance(b, d);
      assert AtDistance(a + b, d) == head + AtDistance(tail + b, d) by {
        assert a + b == [x] + (tail + b);
        AtDistanceCons(x, tail + b, d);
      }
      AtDistanceAppend(tail, b, d);
      assert AtDistance(a, d) == head + rest by {
        assert a == [x] + tail;
        AtDistanceCons(x, tail, d);
      }
      AppendAssoc(head, rest, later);
    } else {
      assert a + b == b;
    }
  }

  lemma AppendAssoc(a: seq<Stack>, b: seq<Stack>, c: seq<Stack>)
    ensures a + (b + c) == (a + b) + c
  {
  }

  lemma {:induction false} AtDistanceAbove(sorted: seq<Stack>, d: real)
    requires forall i :: 0 <= i < |sorted| ==> Prox(sorted[i]) > d
    ensures AtDistance(sorted, d) == []
    decreases |sorted|
  {
    if sorted != [] {
      AtDistanceAbove(sorted[1..], d);
    }
  }

  lemma AtDistanceCons(x: Stack, rest: seq<Stack>, d: real)
    ensures AtDistance([x] + rest, d) == (if Prox(x) == d then [x] else []) + AtDistance(rest, d)
  {
    assert ([x] + rest)[1..] == rest;
  }

  /** Inserting in front of a sorted run whose head is farther away. */
  lemma InsertFront(x: Stack, sorted: seq<Stack>, d: real)
    requires SortedByProximity(sorted) && sorted != [] && Prox(sorted[0]) > Prox(x)
    ensures AtDistance(InsertByProximity(x, sorted), d) ==
            AtDistance(sorted, d) + (if Prox(x) == d then [x] else [])
  {
    AtDistanceCons(x, sorted, d);
    if Prox(x) == d {
      assert forall i :: 0 <= i < |sorted| ==> Prox(sorted[i]) > d by {
        forall i | 0 <= i < |sorted| ensures Prox(sorted[i]) > d {
          assert i == 0 || Prox(sorted[0]) <= Prox(sorted[i]);
        }
      }
      AtDistanceAbove(sorted, d);
    }
  }

  /** One step behind a nearer (or equally near) head, given the step for the tail. */
  lemma InsertBehind(x: Stack, sorted: seq<Stack>, d: real)
    requires sorted != [] && Prox(sorted[0]) <= Prox(x)
    requires AtDistance(InsertByProximity(x, sorted[1..]), d) ==
             AtDistance(sorted[1..], d) + (if Prox(x) == d then [x] else [])
    ensures AtDistance(InsertByProximity(x, sorted), d) ==
            AtDistance(sorted, d) + (if Prox(x) == d then [x] else [])
  {
    var head, tail := sorted[0], sorted[1..];
    var ins := InsertByProximity(x, tail);
    var first := if Prox(head) == d then [head] else [];
    var own := if Prox(x) == d then [x] else [];
    var near, rest := AtDistance(ins, d), AtDistance(tail, d);
    assert AtDistance(InsertByProximity(x, sorted), d) == first + near by {
      assert InsertByProximity(x, sorted) == [head] + ins;
      AtDistanceCons(head, ins, d);
    }
    assert AtDistance(sorted, d) == first + rest by {
      AtDistanceCons(head, tail, d);
      assert [head] + tail == sorted;
    }
    assert near == rest + own;
    AppendAssoc(first, rest, own);
  }

  lemma SortedTail(sorted: seq<Stack>)
    requires SortedByProximity(sorted) && sorted != []
    ensures SortedByProximity(sorted[1..])
  {
    assert forall i :: 0 <= i < |sorted| - 1 ==> sorted[1..][i] == sorted[i + 1];
  }

  lemma {:induction false} InsertStable(x: Stack, sorted: seq<Stack>, d: real)
    requires SortedByProximity(sorted)
    ensures AtDistance(InsertByProximity(x, sorted), d) ==
            AtDistance(sorted, d) + (if Prox(x) == d then [x] else [])
    decreases |sorted|
  {
    if sorted == [] {
      AtDistanceCons(x, [], d);
    } else if Prox(sorted[0]) > Prox(x) {
      InsertFront(x, sorted, d);
    } else {
      SortedTail(sorted);
      InsertStable(x, sorted[1..], d);
      InsertBehind(x, sorted, d);
    }
  }

  /** The sort is stable: stacks at the same distance keep their relative order. */
  lemma {:induction false} SortStable(stacks: seq<Stack>, d: real)
    ensures AtDistance(SortByProximity(stacks), d) == AtDistance(stacks, d)
    decreases |stacks|
  {
    if stacks != [] {
      var prefix, last := stacks[..|stacks| - 1], stacks[|stacks| - 1];
      assert AtDistance(SortByProximity(stacks), d) ==
             AtDistance(prefix, d) + (if Prox(last) == d then [last] else []) by {
        SortStable(prefix, d);
        SortPermutationSorted(prefix);
        InsertStable(last, SortByProximity(prefix), d);
      }
      assert AtDistance(stacks, d) == AtDistance(prefix, d) + (if Prox(last) == d then [last] else []) by {
        assert stacks == prefix + [last];
        AtDistanceAppend(prefix, [last], d);
        assert [last][1..] == [];
      }
    }
  }

  /** Taking one element out of a sequence, before or after stripping. */
  lemma SplitAt(b: seq<Stack>, j: nat)
    requires j < |b|
    ensures multiset(b) == multiset(b[..j] + b[j + 1..]) + multiset{b[j]}
    ensures multiset(Bares(b)) == multiset(Bares(b[..j] + b[j + 1..])) + multiset{Bare(b[j])}
  {
    Extract(b, j);
    var bb := Bares(b);
    assert multiset(bb) == multiset(bb[..j] + bb[j + 1..]) + multiset{bb[j]} by {
      Extract(bb, j);
    }
    assert Bares(b[..j] + b[j + 1..]) == bb[..j] + bb[j + 1..];
  }

  /** Taking the last stack of `a` out of both sides of a permutation. */
  lemma PermutationRest(a: seq<Stack>, b: seq<Stack>, j: nat)
    requires multiset(a) == multiset(b) && a != [] && j < |b| && b[j] == a[|a| - 1]
    ensures multiset(a[..|a| - 1]) == multiset(b[..j] + b[j + 1..])
  {
    var n, x := |a| - 1, a[|a| - 1];
    var init, rest := a[..n], b[..j] + b[j + 1..];
    SplitAt(a, n);
    SplitAt(b, j);
    assert a[..n] + a[n + 1..] == init;
    assert multiset(init) == multiset(init) + multiset{x} - multiset{x};
    assert multiset(rest) == multiset(rest) + multiset{x} - multiset{x};
  }

  /** Putting the stack taken out by `PermutationRest` back, stripped. */
  lemma BaresRestore(a: seq<Stack>, b: seq<Stack>, j: nat)
    requires a != [] && j < |b| && b[j] == a[|a| - 1]
    requires multiset(Bares(a[..|a| - 1])) == multiset(Bares(b[..j] + b[j + 1..]))
    ensures multiset(Bares(a)) == multiset(Bares(b))
  {
    var n := |a| - 1;
    SplitAt(a, n);
    SplitAt(b, j);
    assert a[..n] + a[n + 1..] == a[..n];
  }

  /** Stripping the sort's fields maps permutations to permutations. */
  lemma {:induction false} BaresPermutation(a: seq<Stack>, b: seq<Stack>)
    requires multiset(a) == multiset(b)
    ensures multiset(Bares(a)) == multiset(Bares(b))
    decreases |a|
  {
    if a != [] {
      var x := a[|a| - 1];
      assert x in multiset(b) by {
        assert x in multiset(a);
      }
      var j :| 0 <= j < |b| && b[j] == x;
      PermutationRest(a, b, j);
      BaresPermutation(a[..|a| - 1], b[..j] + b[j + 1..]);
      BaresRestore(a, b, j);
    }
  }

  /** A stack carrying its own distance to the correct answer. */
  predicate Measured(s: Stack, correct: real)
  {
    s.answer.Point? && s.proximity == Some(Distance(s, correct))
  }

  lemma SortMeasured(stacks: seq<Stack>, correct: real)
    requires forall j :: 0 <= j < |stacks| ==> Measured(stacks[j], correct)
    ensures forall i :: 0 <= i < |stacks| ==> Measured(Ranked(SortByProximity(stacks))[i], correct)
  {
    var sorted := SortByProximity(stacks);
    forall i | 0 <= i < |sorted| ensures Measured(Ranked(sorted)[i], correct) {
      assert sorted[i] in stacks by {
        SortPermutationSorted(stacks);
        assert sorted[i] in multiset(sorted);
      }
    }
  }

  /** The sorted stacks, once stripped of the fields the sort adds, are a permutation of the
      input, and carry its distances to the correct answer in non-decreasing order. */
  lemma SortFacts(proximate: seq<Stack>, correct: real, stacks: seq<Stack>)
    requires NumericAnswers(stacks) && proximate == WithProximity(stacks, correct)
    ensures multiset(Bares(Ranked(SortByProximity(proximate)))) == multiset(Bares(stacks))
    ensures forall i :: 0 <= i < |stacks| ==> Measured(Ranked(SortByProximity(proximate))[i], correct)
    ensures SortedByProximity(Ranked(SortByProximity(proximate)))
  {
    var sorted := SortByProximity(proximate);
    var r := Ranked(sorted);
    assert multiset(Bares(r)) == multiset(Bares(stacks)) by {
      SortPermutationSorted(proximate);
      BaresPermutation(sorted, proximate);
      assert Bares(r) == Bares(sorted);
      assert Bares(stacks) == Bares(proximate);
    }
    assert forall j :: 0 <= j < |proximate| ==> Measured(proximate[j], correct);
    SortMeasured(proximate, correct);
    assert SortedByProximity(r) by {
      SortPermutationSorted(proximate);
      assert forall i :: 0 <= i < |r| ==> Prox(r[i]) == Prox(sorted[i]);
    }
  }
}
