/**
 * getScaleInterval of tip.controller.js (lines 165-181): which interval of a scale bet an
 * answer falls into, and the interval filter scaleTipCreate builds from it (line 101).
 */
module Intervals {
  import opened Wrappers
  import opened Records

  /** The returned `{index, from, to}`; `NoInterval` is all three `undefined` (no answer's
      `from` is at most the value). `to` is `None` for the last interval (`null`). */
  datatype Interval = Interval(index: nat, from: real, to: Option<real>) | NoInterval

  /** The largest index whose `from` is at most `value`. */
  function LastAtMost(answers: seq<ScaleAnswer>, value: real): (r: Option<nat>)
    ensures r.Some? ==> r.value < |answers|
    decreases |answers|
  {
    if answers == [] then None
    else if value >= answers[|answers| - 1].from then Some(|answers| - 1)
    else LastAtMost(answers[..|answers| - 1], value)
  }

  /** The interval starting at answer `i`; it ends where the next answer (always truthy)
      starts. */
  function IntervalAt(answers: seq<ScaleAnswer>, found: Option<nat>): Interval
  {
    match found
    case None => NoInterval
    case Some(i) =>
      if i < |answers| then
        Interval(i, answers[i].from, if i + 1 < |answers| then Some(answers[i + 1].from) else None)
      else NoInterval
  }

  /** What getScaleInterval returns for `value`. */
  function ScaleInterval(value: real, answers: seq<ScaleAnswer>): (r: Interval)
    ensures r.Interval? ==> r.index < |answers|
  {
    IntervalAt(answers, LastAtMost(answers, value))
  }

  /** getScaleInterval (lines 165-181): every index whose `from` the value reaches
      overwrites the result, so the last one wins. */
  method GetScaleInterval(value: real, answers: seq<ScaleAnswer>) returns (r: Interval)
    ensures r == ScaleInterval(value, answers)
  {
    r := NoInterval;
    for i := 0 to |answers|
      invariant r == IntervalAt(answers, LastAtMost(answers[..i], value))
    {
      assert answers[..i + 1][..i] == answers[..i];
      if value >= answers[i].from {
        var to := if i + 1 < |answers| then Some(answers[i + 1].from) else None;
        r := Interval(i, answers[i].from, to);
      }
    }
    assert answers[..|answers|] == answers;
  }

  /** `LastAtMost` is the largest index whose `from` the value reaches, and `None` exactly
      when it reaches none. */
  lemma {:induction false} LastAtMostFacts(answers: seq<ScaleAnswer>, value: real)
    ensures LastAtMost(answers, value).None? <==> forall j :: 0 <= j < |answers| ==> answers[j].from > value
    ensures LastAtMost(answers, value).Some? ==>
      var i := LastAtMost(answers, value).value;
      answers[i].from <= value && forall j :: i < j < |answers| ==> answers[j].from > value
    decreases |answers|
  {
    if answers != [] {
      var n := |answers| - 1;
      LastAtMostFacts(answers[..n], value);
      assert forall j :: 0 <= j < n ==> answers[..n][j] == answers[j];
    }
  }

  /** The boundaries of a scale bet rise strictly. */
  predicate Ascending(answers: seq<ScaleAnswer>)
  {
    forall i, j :: 0 <= i < j < |answers| ==> answers[i].from < answers[j].from
  }

  /** The query filter of line 101 as evidently intended: answers from `from` up to, but not
      including, `to`, and with no upper bound for the last interval. */
  predicate InInterval(d: real, iv: Interval)
  {
    iv.Interval? && iv.from <= d && (iv.to.None? || d < iv.to.value)
  }

  /** With rising boundaries the value lies in its own interval, and any answer lies in it
      exactly when getScaleInterval puts that answer in the same interval. */
  lemma SameInterval(answers: seq<ScaleAnswer>, value: real, d: real)
    requires Ascending(answers)
    ensures ScaleInterval(value, answers).Interval? ==> InInterval(value, ScaleInterval(value, answers))
    ensures InInterval(d, ScaleInterval(value, answers)) <==>
      ScaleInterval(value, answers).Interval? && ScaleInterval(d, answers) == ScaleInterval(value, answers)
  {
    LastAtMostFacts(answers, value);
    LastAtMostFacts(answers, d);
    var iv, jv := ScaleInterval(value, answers), ScaleInterval(d, answers);
    if iv.Interval? && jv.Interval? {
      var i, j := iv.index, jv.index;
      if i < j {
        assert answers[i + 1].from <= answers[j].from;
      } else if j < i {
        assert answers[j + 1].from <= answers[i].from;
      }
    }
  }

  /** An answer below every boundary has no interval. */
  lemma BelowEveryBoundary(answers: seq<ScaleAnswer>, value: real)
    requires Ascending(answers) && answers != [] && value < answers[0].from
    ensures ScaleInterval(value, answers) == NoInterval
  {
    forall j | 0 <= j < |answers| ensures answers[j].from > value {
      if j > 0 {
        assert answers[0].from < answers[j].from;
      }
    }
    LastAtMostFacts(answers, value);
  }

  /** The filter of line 101 as written: `interval.to ?` tests truthiness, and a next
      boundary of exactly 0 is falsy, so the filter then has no upper bound. */
  predicate InIntervalAsWritten(d: real, iv: Interval)
  {
    iv.Interval? && iv.from <= d && (iv.to.None? || iv.to.value == 0.0 || d < iv.to.value)
  }

  /** The two filters differ only when the next boundary is 0. */
  lemma AsWrittenDiffers(d: real, iv: Interval)
    ensures InIntervalAsWritten(d, iv) != InInterval(d, iv) <==>
      iv.Interval? && iv.from <= d && iv.to == Some(0.0) && d >= 0.0
  {
  }

  /** With boundaries -10, 0 and 10, a user who already holds a tip at 5 (second interval)
      and now answers -5 (first interval) is taken to have a tip in the first interval, so
      that interval's member count is not incremented. */
  lemma AsWrittenCounterexample()
    ensures var answers := [ScaleAnswer(-10.0, 0, 0.0), ScaleAnswer(0.0, 0, 0.0), ScaleAnswer(10.0, 0, 0.0)];
      ScaleInterval(-5.0, answers) == Interval(0, -10.0, Some(0.0)) &&
      ScaleInterval(5.0, answers) == Interval(1, 0.0, Some(10.0)) &&
      InIntervalAsWritten(5.0, ScaleInterval(-5.0, answers)) &&
      !InInterval(5.0, ScaleInterval(-5.0, answers))
  {
    var answers := [ScaleAnswer(-10.0, 0, 0.0), ScaleAnswer(0.0, 0, 0.0), ScaleAnswer(10.0, 0, 0.0)];
    assert answers[..2][..1] == answers[..1];
    assert LastAtMost(answers[..1], -5.0) == Some(0);
    assert LastAtMost(answers[..2], -5.0) == Some(0);
    assert LastAtMost(answers, -5.0) == Some(0);
    assert LastAtMost(answers[..2], 5.0) == Some(1);
    assert LastAtMost(answers, 5.0) == Some(1);
  }
}
