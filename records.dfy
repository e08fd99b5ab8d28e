/**
 * The records shared by settlement and wager acceptance: tips (the wager schema of
 * src/models/tip.model.js) and bets, with money as exact reals.
 */
module Records {
  import opened Wrappers

  type BetId = int
  type UserId = int
  type GameId = int
  type TipId = int

  /** A member document is found by game and user. */
  type MemberKey = (GameId, UserId)

  /** `bet.betType`; any string other than the two known ones is `Unrecognised`. */
  datatype BetType = Catalogue | Scale | Unrecognised

  /** A wager. `answerId` is set for catalogue bets, `answerDecimal` for scale bets. */
  datatype Tip = Tip(id: TipId, betId: BetId, userId: UserId, gameId: GameId,
                     answerId: Option<int>, answerDecimal: Option<real>, currency: real)

  /** One entry of `bet.catalogue_answers`. */
  datatype CatalogueAnswer = CatalogueAnswer(odds: real, memberCount: int, inPot: real)

  /** One entry of `bet.scale_answers`: an interval starting at `from`. */
  datatype ScaleAnswer = ScaleAnswer(from: real, memberCount: int, inPot: real)

  /** `bet.scale_options`: the share of the pot that wins (0-100) and the bet-wide odds. */
  datatype ScaleOptions = ScaleOptions(winRate: real, odds: real)

  datatype Bet = Bet(gameId: GameId, betType: BetType, isSolved: bool, isAborted: bool,
                     correctAnswerIds: seq<int>, catalogueAnswers: map<int, CatalogueAnswer>,
                     scaleAnswers: seq<ScaleAnswer>, correctAnswerDecimal: real,
                     scaleOptions: ScaleOptions, memberCount: int, inPot: real, title: string)

  /** Which behaviour an operation follows where the code departs from what its authors
      evidently meant (the Findings of README.md): the code as written, or the intended one. */
  datatype Reading = AsWritten | Intended

  function Abs(x: real): (r: real)
    ensures r >= 0.0 && (r == x || r == -x)
  {
    if x < 0.0 then -x else x
  }

  /** The total stake of a list of tips. */
  function SumCurrency(tips: seq<Tip>): real
    decreases |tips|
  {
    if tips == [] then 0.0 else SumCurrency(tips[..|tips| - 1]) + tips[|tips| - 1].currency
  }

  /** Every stake is positive, as wager acceptance guarantees (tip.controller.js:44). */
  predicate PositiveStakes(tips: seq<Tip>)
  {
    forall i :: 0 <= i < |tips| ==> tips[i].currency > 0.0
  }

  lemma {:induction false} SumCurrencyAppend(a: seq<Tip>, b: seq<Tip>)
    ensures SumCurrency(a + b) == SumCurrency(a) + SumCurrency(b)
    decreases |b|
  {
    if b == [] {
      assert a + b == a;
    } else {
      var b' := b[..|b| - 1];
      assert (a + b)[..|a + b| - 1] == a + b';
      SumCurrencyAppend(a, b');
    }
  }

  lemma {:induction false} SumCurrencyPositive(tips: seq<Tip>)
    requires PositiveStakes(tips) && tips != []
    ensures SumCurrency(tips) > 0.0
    decreases |tips|
  {
    if |tips| > 1 {
      SumCurrencyPositive(tips[..|tips| - 1]);
    }
  }

  /** Taking element j out of a sequence: what is left, and the multiset it accounts for. */
  lemma Extract<T>(b: seq<T>, j: nat)
    requires j < |b|
    ensures b == b[..j] + [b[j]] + b[j + 1..]
    ensures multiset(b) == multiset(b[..j] + b[j + 1..]) + multiset{b[j]}
  {
    assert b == b[..j] + b[j..];
    assert b[j..] == [b[j]] + b[j + 1..];
  }
}
