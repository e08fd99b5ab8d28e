/**
 * createTip, catalogueTipCreate and scaleTipCreate of tip.controller.js (lines 11-121):
 * accepting a wager, as a transition of the stored members, tips, bets and users.
 */
module Wagers {
  import opened Wrappers
  import opened Records
  import opened Intervals

  /** A wager request: the authenticated user (`None` when there is none), whether a captcha
      token came with it and whether the captcha service accepted it, the body's fields, and
      whether the bet's deadline has passed at the time of the request. */
  datatype Request = Request(user: Option<UserId>, captchaToken: bool, captchaVerified: bool,
                             betId: BetId, gameId: GameId, answerId: Option<int>,
                             answerDecimal: Option<real>, currency: real, deadlinePassed: bool)

  datatype Reason =
    | Unauthorized      // line 13
    | CaptchaMissing    // line 17
    | CaptchaFailed     // line 21
    | BetNotFound       // line 28
    | GameNotFound      // line 32
    | BetClosed         // line 35
    | NotEnoughPoints   // line 42
    | NonPositiveStake  // line 45

  /** `Created(None)` is the 201 response with no tip, for a bet of neither known type;
      `Failed` is an error thrown after writes have been made. */
  datatype Response = Created(tip: Option<TipId>) | Rejected(reason: Reason) | Failed

  /** The stored state a wager touches: member currencies, tips, bets, each game's start
      currency, and each user's captcha ticker. */
  datatype Store = Store(members: map<MemberKey, real>, tips: seq<Tip>, bets: map<BetId, Bet>,
                         games: map<GameId, real>, tickers: map<UserId, int>)

  datatype Step = Step(store: Store, response: Response)

  /** A captcha is due on every `interval`-th wager; with an interval of 0 the remainder is
      NaN and it never is. */
  predicate CaptchaDue(ticker: int, interval: int)
  {
    interval != 0 && ticker % interval == 0
  }

  /** The query of a duplicate check: the user's tip on the bet with this answer. */
  datatype Query = ByAnswer(id: int) | ByDecimal(decimal: real)

  predicate Matches(t: Tip, betId: BetId, user: UserId, q: Query)
  {
    t.betId == betId && t.userId == user &&
    match q
    case ByAnswer(a) => t.answerId == Some(a)
    case ByDecimal(d) => t.answerDecimal == Some(d)
  }

  /** `tipService.findOne`: the first matching tip. */
  function FindTip(tips: seq<Tip>, betId: BetId, user: UserId, q: Query): (r: Option<nat>)
    ensures r.Some? ==> r.value < |tips| && Matches(tips[r.value], betId, user, q)
    ensures r.Some? ==> forall j :: 0 <= j < r.value ==> !Matches(tips[j], betId, user, q)
    ensures r.None? ==> forall j :: 0 <= j < |tips| ==> !Matches(tips[j], betId, user, q)
    decreases |tips|
  {
    if tips == [] then None
    else
      var earlier := FindTip(tips[..|tips| - 1], betId, user, q);
      if earlier.Some? then earlier
      else if Matches(tips[|tips| - 1], betId, user, q) then Some(|tips| - 1)
      else None
  }

  /** The user already holds a tip on the bet (line 47). */
  predicate HasTipOn(tips: seq<Tip>, betId: BetId, user: UserId)
  {
    exists i :: 0 <= i < |tips| && tips[i].betId == betId && tips[i].userId == user
  }

  /** The user already holds a tip on the bet inside the interval (lines 100-101), by the
      filter as written, which has no upper bound when the next boundary is 0. */
  predicate HasTipIn(tips: seq<Tip>, betId: BetId, user: UserId, iv: Interval)
  {
    exists i :: 0 <= i < |tips| && tips[i].betId == betId && tips[i].userId == user &&
      tips[i].answerDecimal.Some? && InIntervalAsWritten(tips[i].answerDecimal.value, iv)
  }

  function WithCurrency(t: Tip, currency: real): Tip
  {
    Tip(t.id, t.betId, t.userId, t.gameId, t.answerId, t.answerDecimal, currency)
  }

  /** `tipService.createTip(tipBody)` with the next free id. */
  function NewTip(id: TipId, req: Request, user: UserId): Tip
  {
    Tip(id, req.betId, user, req.gameId, req.answerId, req.answerDecimal, req.currency)
  }

  /** The tip list after a duplicate check: an existing tip is topped up, else a new one is
      appended; with the id of the tip and whether it is new. */
  datatype Placement = Placement(tips: seq<Tip>, id: TipId, isNew: bool)

  function PlaceTip(tips: seq<Tip>, req: Request, user: UserId, q: Query): Placement
  {
    match FindTip(tips, req.betId, user, q)
    case Some(k) => Placement(tips[k := WithCurrency(tips[k], tips[k].currency + req.currency)], tips[k].id, false)
    case None => Placement(tips + [NewTip(|tips|, req, user)], |tips|, true)
  }

  function WithCatalogueAnswers(b: Bet, answers: map<int, CatalogueAnswer>): Bet
  {
    Bet(b.gameId, b.betType, b.isSolved, b.isAborted, b.correctAnswerIds, answers,
        b.scaleAnswers, b.correctAnswerDecimal, b.scaleOptions, b.memberCount, b.inPot, b.title)
  }

  function WithScaleAnswers(b: Bet, answers: seq<ScaleAnswer>): Bet
  {
    Bet(b.gameId, b.betType, b.isSolved, b.isAborted, b.correctAnswerIds, b.catalogueAnswers,
        answers, b.correctAnswerDecimal, b.scaleOptions, b.memberCount, b.inPot, b.title)
  }

  function WithTotals(b: Bet, memberCount: int, inPot: real): Bet
  {
    Bet(b.gameId, b.betType, b.isSolved, b.isAborted, b.correctAnswerIds, b.catalogueAnswers,
        b.scaleAnswers, b.correctAnswerDecimal, b.scaleOptions, memberCount, inPot, b.title)
  }

  /** What the type-specific step leaves: the store, the tip's id, and whether it threw. */
  datatype Placed = Placed(store: Store, tip: Option<TipId>, failed: bool)

  /** The request carries what its bet's type needs, and the user record exists. */
  predicate Fits(s: Store, req: Request)
  {
    (req.user.Some? ==> req.user.value in s.tickers) &&
    (req.betId in s.bets && s.bets[req.betId].betType == Catalogue ==>
       req.answerId.Some? && req.answerId.value in s.bets[req.betId].catalogueAnswers) &&
    (req.betId in s.bets && s.bets[req.betId].betType == Scale ==> req.answerDecimal.Some?)
  }

  /** catalogueTipCreate (lines 74-94). */
  function CatalogueCreate(s: Store, req: Request, user: UserId): (r: Placed)
    requires req.betId in s.bets && req.answerId.Some? && req.answerId.value in s.bets[req.betId].catalogueAnswers
    ensures r.store.members == s.members && r.store.games == s.games && r.store.tickers == s.tickers
    ensures r.store.bets.Keys == s.bets.Keys && !r.failed
  {
    var bet := s.bets[req.betId];
    var aid := req.answerId.value;
    var p := PlaceTip(s.tips, req, user, ByAnswer(aid));
    var a := bet.catalogueAnswers[aid];
    var a' := CatalogueAnswer(a.odds, a.memberCount + (if p.isNew then 1 else 0), a.inPot + req.currency);
    Placed(Store(s.members, p.tips, s.bets[req.betId := WithCatalogueAnswers(bet, bet.catalogueAnswers[aid := a'])],
                 s.games, s.tickers), Some(p.id), false)
  }

  /** scaleTipCreate (lines 96-121). With no interval the index is `undefined` and the
      counter write throws, after the tip has been written. */
  function ScaleCreate(s: Store, req: Request, user: UserId): (r: Placed)
    requires req.betId in s.bets && req.answerDecimal.Some?
    ensures r.store.members == s.members && r.store.games == s.games && r.store.tickers == s.tickers
    ensures r.store.bets.Keys == s.bets.Keys
  {
    var bet := s.bets[req.betId];
    var v := req.answerDecimal.value;
    var iv := ScaleInterval(v, bet.scaleAnswers);
    var intervalTip := HasTipIn(s.tips, req.betId, user, iv);
    var p := PlaceTip(s.tips, req, user, ByDecimal(v));
    if iv.NoInterval? then Placed(Store(s.members, p.tips, s.bets, s.games, s.tickers), Some(p.id), true)
    else
      var a := bet.scaleAnswers[iv.index];
      var a' := ScaleAnswer(a.from, a.memberCount + (if intervalTip then 0 else 1), a.inPot + req.currency);
      Placed(Store(s.members, p.tips, s.bets[req.betId := WithScaleAnswers(bet, bet.scaleAnswers[iv.index := a'])],
                   s.games, s.tickers), Some(p.id), false)
  }

  /** The member the wager is charged to, created with the game's start currency when it is
      missing (lines 37-39). */
  function WithMember(s: Store, key: MemberKey): (m: map<MemberKey, real>)
    requires key.0 in s.games
    ensures key in m
  {
    if key in s.members then s.members else s.members[key := s.games[key.0]]
  }

  /** What createTip (lines 11-72) does to the store, and what it answers. */
  function CreateTipSpec(s: Store, interval: int, req: Request): Step
    requires Fits(s, req)
  {
    if req.user.None? then Step(s, Rejected(Unauthorized))
    else
      var user := req.user.value;
      var due := CaptchaDue(s.tickers[user], interval);
      if due && !req.captchaToken then Step(s, Rejected(CaptchaMissing))
      else if due && !req.captchaVerified then Step(s, Rejected(CaptchaFailed))
      else if req.betId !in s.bets then Step(s, Rejected(BetNotFound))
      else if req.gameId !in s.games then Step(s, Rejected(GameNotFound))
      else
        var bet := s.bets[req.betId];
        if req.deadlinePassed || bet.isSolved || bet.isAborted then Step(s, Rejected(BetClosed))
        else
          var key := (req.gameId, user);
          var members := WithMember(s, key);
          var joined := Store(members, s.tips, s.bets, s.games, s.tickers);
          if members[key] < req.currency then Step(joined, Rejected(NotEnoughPoints))
          else if req.currency <= 0.0 then Step(joined, Rejected(NonPositiveStake))
          else AcceptSpec(joined, req, user)
  }

  /** A wager that passed every check (lines 47-65): debit, place the tip, count the member
      and the stake on the bet, and advance the user's captcha ticker. */
  function AcceptSpec(s: Store, req: Request, user: UserId): Step
    requires Fits(s, req) && user in s.tickers && req.betId in s.bets && (req.gameId, user) in s.members
  {
    var hadTip := HasTipOn(s.tips, req.betId, user);
    var placed := PlaceByType(Debited(s, (req.gameId, user), req.currency), req, user);
    if placed.failed then Step(placed.store, Failed)
    else Step(Counted(placed.store, req, user, hadTip), Created(placed.tip))
  }

  /** Line 49: the stake leaves the member's currency. */
  function Debited(s: Store, key: MemberKey, stake: real): Store
    requires key in s.members
  {
    Store(s.members[key := s.members[key] - stake], s.tips, s.bets, s.games, s.tickers)
  }

  /** Lines 51-55: the tip is placed the way the bet's type asks; a bet of any other type
      places none. */
  function PlaceByType(s: Store, req: Request, user: UserId): (r: Placed)
    requires Fits(s, req) && req.betId in s.bets
    ensures r.store.members == s.members && r.store.games == s.games && r.store.tickers == s.tickers
    ensures r.store.bets.Keys == s.bets.Keys
  {
    var bet := s.bets[req.betId];
    if bet.betType == Catalogue then CatalogueCreate(s, req, user)
    else if bet.betType == Scale then ScaleCreate(s, req, user)
    else Placed(s, None, false)
  }

  /** Lines 57-65: the bet counts the user unless the user already had a tip on it, its pot
      takes the stake, and the user's captcha ticker advances. */
  function Counted(t: Store, req: Request, user: UserId, hadTip: bool): (r: Store)
    requires req.betId in t.bets && user in t.tickers
    ensures r.members == t.members && r.tips == t.tips && r.games == t.games && r.bets.Keys == t.bets.Keys
    ensures forall b :: b in t.bets ==>
      r.bets[b].betType == t.bets[b].betType && (b != req.betId ==> r.bets[b] == t.bets[b])
  {
    var b := t.bets[req.betId];
    var b' := WithTotals(b, b.memberCount + (if hadTip then 0 else 1), b.inPot + req.currency);
    Store(t.members, t.tips, t.bets[req.betId := b'], t.games, t.tickers[user := t.tickers[user] + 1])
  }

  /** The collections the wager path reads and writes. */
  class TipService {
    var members: map<MemberKey, real>
    var tips: seq<Tip>
    var bets: map<BetId, Bet>
    var games: map<GameId, real>
    var tickers: map<UserId, int>
    /** `config.captchaTickerInterval`. */
    const captchaTickerInterval: int

    function Snapshot(): Store
      reads this
    {
      Store(members, tips, bets, games, tickers)
    }

    constructor(s: Store, interval: int)
      ensures Snapshot() == s && captchaTickerInterval == interval
    {
      members, tips, bets, games, tickers := s.members, s.tips, s.bets, s.games, s.tickers;
      captchaTickerInterval := interval;
    }

    /** createTip (lines 11-72). */
    method CreateTip(req: Request) returns (response: Response)
      requires Fits(Snapshot(), req)
      modifies this
      ensures Step(Snapshot(), response) == CreateTipSpec(old(Snapshot()), captchaTickerInterval, req)
    {
      if req.user.None? {
        return Rejected(Unauthorized);
      }
      var user := req.user.value;
      if CaptchaDue(tickers[user], captchaTickerInterval) {
        if !req.captchaToken {
          return Rejected(CaptchaMissing);
        }
        if !req.captchaVerified {
          return Rejected(CaptchaFailed);
        }
      }
      if req.betId !in bets {
        return Rejected(BetNotFound);
      }
      var bet := bets[req.betId];
      if req.gameId !in games {
        return Rejected(GameNotFound);
      }
      if req.deadlinePassed || bet.isSolved || bet.isAborted {
        return Rejected(BetClosed);
      }
      var key := (req.gameId, user);
      if key !in members {
        members := members[key := games[req.gameId]];
      }
      if members[key] < req.currency {
        return Rejected(NotEnoughPoints);
      }
      if req.currency <= 0.0 {
        return Rejected(NonPositiveStake);
      }
      response := Accept(req, user);
    }

    /** Lines 47-65, once every check has passed. */
    method Accept(req: Request, user: UserId) returns (response: Response)
      requires Fits(Snapshot(), req) && user in tickers && req.betId in bets && (req.gameId, user) in members
      modifies this
      ensures Step(Snapshot(), response) == AcceptSpec(old(Snapshot()), req, user)
    {
      var key := (req.gameId, user);
      var hadTip := HasTipOn(tips, req.betId, user);
      members := members[key := members[key] - req.currency];
      assert Snapshot() == Debited(old(Snapshot()), key, req.currency);
      var tip, failed := Place(req, user);
      if failed {
        return Failed;
      }
      Count(req, user, hadTip);
      response := Created(tip);
    }

    /** Lines 51-55. */
    method Place(req: Request, user: UserId) returns (tip: Option<TipId>, failed: bool)
      requires Fits(Snapshot(), req) && req.betId in bets
      modifies this
      ensures Placed(Snapshot(), tip, failed) == PlaceByType(old(Snapshot()), req, user)
    {
      var bet := bets[req.betId];
      if bet.betType == Catalogue {
        var id := CatalogueTipCreate(req, user);
        tip, failed := Some(id), false;
      } else if bet.betType == Scale {
        var id;
        id, failed := ScaleTipCreate(req, user);
        tip := Some(id);
      } else {
        tip, failed := None, false;
      }
    }

    /** Lines 57-65. */
    method Count(req: Request, user: UserId, hadTip: bool)
      requires req.betId in bets && user in tickers
      modifies this
      ensures Snapshot() == Counted(old(Snapshot()), req, user, hadTip)
    {
      var b := bets[req.betId];
      bets := bets[req.betId := WithTotals(b, b.memberCount + (if hadTip then 0 else 1), b.inPot + req.currency)];
      tickers := tickers[user := tickers[user] + 1];
    }

    /** catalogueTipCreate (lines 74-94). */
    method CatalogueTipCreate(req: Request, user: UserId) returns (id: TipId)
      requires req.betId in bets && req.answerId.Some? && req.answerId.value in bets[req.betId].catalogueAnswers
      modifies this
      ensures Placed(Snapshot(), Some(id), false) == CatalogueCreate(old(Snapshot()), req, user)
    {
      var aid := req.answerId.value;
      var duplicate := FindTip(tips, req.betId, user, ByAnswer(aid));
      var bet := bets[req.betId];
      var a := bet.catalogueAnswers[aid];
      var memberCount := a.memberCount;
      if duplicate.Some? {
        var k := duplicate.value;
        tips := tips[k := WithCurrency(tips[k], tips[k].currency + req.currency)];
        id := tips[k].id;
      } else {
        memberCount := memberCount + 1;
        id := |tips|;
        tips := tips + [NewTip(id, req, user)];
      }
      var a' := CatalogueAnswer(a.odds, memberCount, a.inPot + req.currency);
      bets := bets[req.betId := WithCatalogueAnswers(bet, bet.catalogueAnswers[aid := a'])];
    }

    /** scaleTipCreate (lines 96-121); `failed` is the throw of the counter write when the
        answer lies below every interval. */
    method ScaleTipCreate(req: Request, user: UserId) returns (id: TipId, failed: bool)
      requires req.betId in bets && req.answerDecimal.Some?
      modifies this
      ensures Placed(Snapshot(), Some(id), failed) == ScaleCreate(old(Snapshot()), req, user)
    {
      var v := req.answerDecimal.value;
      var bet := bets[req.betId];
      var duplicate := FindTip(tips, req.betId, user, ByDecimal(v));
      var interval := GetScaleInterval(v, bet.scaleAnswers);
      var intervalTip := HasTipIn(tips, req.betId, user, interval);
      if duplicate.Some? {
        var k := duplicate.value;
        tips := tips[k := WithCurrency(tips[k], tips[k].currency + req.currency)];
        id := tips[k].id;
      } else {
        id := |tips|;
        tips := tips + [NewTip(id, req, user)];
      }
      if interval.NoInterval? {
        return id, true;
      }
      var a := bet.scaleAnswers[interval.index];
      var a' := ScaleAnswer(a.from, a.memberCount + (if intervalTip then 0 else 1), a.inPot + req.currency);
      bets := bets[req.betId := WithScaleAnswers(bet, bet.scaleAnswers[interval.index := a'])];
      failed := false;
    }
  }

  // ---------------------------------------------------------------------------------------
  // Admission

  /** The currency the wager is checked against: the member's, or a new member's start
      currency. */
  function Funds(s: Store, key: MemberKey): real
    requires key.0 in s.games
  {
    WithMember(s, key)[key]
  }

  /** The store once the member exists (lines 37-39). */
  function Joined(s: Store, key: MemberKey): (r: Store)
    requires key.0 in s.games
    ensures key in r.members && r.members[key] == Funds(s, key)
  {
    Store(WithMember(s, key), s.tips, s.bets, s.games, s.tickers)
  }

  /** Every check of lines 12-45 passes. */
  predicate Admissible(s: Store, interval: int, req: Request)
    requires Fits(s, req)
  {
    req.user.Some? &&
    (CaptchaDue(s.tickers[req.user.value], interval) ==> req.captchaToken && req.captchaVerified) &&
    req.betId in s.bets && req.gameId in s.games &&
    !req.deadlinePassed && !s.bets[req.betId].isSolved && !s.bets[req.betId].isAborted &&
    0.0 < req.currency <= Funds(s, (req.gameId, req.user.value))
  }

  /** A wager is turned away exactly when one of the checks fails; otherwise it proceeds from
      the store in which the member exists. */
  lemma Admission(s: Store, interval: int, req: Request)
    requires Fits(s, req)
    ensures !CreateTipSpec(s, interval, req).response.Rejected? <==> Admissible(s, interval, req)
    ensures Admissible(s, interval, req) ==>
      CreateTipSpec(s, interval, req) ==
      AcceptSpec(Joined(s, (req.gameId, req.user.value)), req, req.user.value)
  {
    if Admissible(s, interval, req) {
      var user := req.user.value;
      var j := Joined(s, (req.gameId, user));
      assert CreateTipSpec(s, interval, req) == AcceptSpec(j, req, user);
      AcceptNeverRejects(j, req, user);
    }
  }

  lemma AcceptNeverRejects(s: Store, req: Request, user: UserId)
    requires Fits(s, req) && user in s.tickers && req.betId in s.bets && (req.gameId, user) in s.members
    ensures !AcceptSpec(s, req, user).response.Rejected?
  {
  }

  /** A rejected wager writes nothing, except the member that lines 38-39 create before the
      currency checks. */
  lemma RejectionsWriteNothing(s: Store, interval: int, req: Request)
    requires Fits(s, req) && CreateTipSpec(s, interval, req).response.Rejected?
    ensures var r := CreateTipSpec(s, interval, req).store;
      r.tips == s.tips && r.bets == s.bets && r.games == s.games && r.tickers == s.tickers
    ensures var r := CreateTipSpec(s, interval, req);
      r.store.members == s.members ||
      (r.response.reason in {NotEnoughPoints, NonPositiveStake} && req.user.Some? && req.gameId in s.games &&
       (req.gameId, req.user.value) !in s.members &&
       r.store.members == s.members[(req.gameId, req.user.value) := s.games[req.gameId]])
  {
    Admission(s, interval, req);
  }

  /** The currency check (line 41) comes before the sign check (line 44): a stake above the
      available currency is refused for lack of points whatever its sign, and a non-positive
      stake is refused as such only when the currency covers it. */
  lemma StakeRejections(s: Store, interval: int, req: Request)
    requires Fits(s, req) && req.user.Some? && req.gameId in s.games && req.betId in s.bets
    requires CaptchaDue(s.tickers[req.user.value], interval) ==> req.captchaToken && req.captchaVerified
    requires !req.deadlinePassed && !s.bets[req.betId].isSolved && !s.bets[req.betId].isAborted
    ensures Funds(s, (req.gameId, req.user.value)) < req.currency ==>
      CreateTipSpec(s, interval, req).response == Rejected(NotEnoughPoints)
    ensures req.currency <= Funds(s, (req.gameId, req.user.value)) && req.currency <= 0.0 ==>
      CreateTipSpec(s, interval, req).response == Rejected(NonPositiveStake)
  {
  }

  // ---------------------------------------------------------------------------------------
  // The accepted path

  /** The duplicate query the bet's type asks. */
  function QueryOf(bet: Bet, req: Request): Query
    requires bet.betType == Catalogue ==> req.answerId.Some?
    requires bet.betType == Scale ==> req.answerDecimal.Some?
  {
    if bet.betType == Catalogue then ByAnswer(req.answerId.value)
    else if bet.betType == Scale then ByDecimal(req.answerDecimal.value)
    else ByAnswer(0)
  }

  /** What placing by type does: the tip is placed for a known type, the placement fails
      exactly for a scale answer below every interval, and only the placed bet may change. */
  lemma PlaceByTypeEffects(s: Store, req: Request, user: UserId)
    requires Fits(s, req) && req.betId in s.bets
    ensures var r := PlaceByType(s, req, user); var bet := s.bets[req.betId];
      r.store.tips == (if bet.betType == Unrecognised then s.tips else PlaceTip(s.tips, req, user, QueryOf(bet, req)).tips)
    ensures var r := PlaceByType(s, req, user); var bet := s.bets[req.betId];
      r.failed == (bet.betType == Scale && ScaleInterval(req.answerDecimal.value, bet.scaleAnswers).NoInterval?) &&
      r.tip == (if bet.betType == Unrecognised then None else Some(PlaceTip(s.tips, req, user, QueryOf(bet, req)).id))
    ensures var r := PlaceByType(s, req, user);
      r.failed ==> r.store.bets == s.bets
    ensures var r := PlaceByType(s, req, user);
      forall b :: b in s.bets ==>
        (r.store.bets[b].betType == s.bets[b].betType && (b != req.betId ==> r.store.bets[b] == s.bets[b]))
  {
    var bet := s.bets[req.betId];
    if bet.betType == Catalogue {
      CatalogueEffects(s, req, user);
    } else if bet.betType == Scale {
      ScaleEffects(s, req, user);
    }
  }

  lemma CatalogueEffects(s: Store, req: Request, user: UserId)
    requires req.betId in s.bets && req.answerId.Some? && req.answerId.value in s.bets[req.betId].catalogueAnswers
    ensures var r := CatalogueCreate(s, req, user); var p := PlaceTip(s.tips, req, user, ByAnswer(req.answerId.value));
      r.store.tips == p.tips && r.tip == Some(p.id) &&
      forall b :: b in s.bets ==>
        (r.store.bets[b].betType == s.bets[b].betType && (b != req.betId ==> r.store.bets[b] == s.bets[b]))
  {
  }

  lemma ScaleEffects(s: Store, req: Request, user: UserId)
    requires req.betId in s.bets && req.answerDecimal.Some?
    ensures var r := ScaleCreate(s, req, user); var p := PlaceTip(s.tips, req, user, ByDecimal(req.answerDecimal.value));
      r.store.tips == p.tips && r.tip == Some(p.id) &&
      r.failed == ScaleInterval(req.answerDecimal.value, s.bets[req.betId].scaleAnswers).NoInterval? &&
      (r.failed ==> r.store.bets == s.bets) &&
      forall b :: b in s.bets ==>
        (r.store.bets[b].betType == s.bets[b].betType && (b != req.betId ==> r.store.bets[b] == s.bets[b]))
  {
  }

  /** What the accepted path does to members and tips, and how it answers: the member is
      debited, the tip placed for a known type, and the request fails exactly for a scale
      answer that lies below every interval. */
  lemma AcceptEffects(s: Store, req: Request, user: UserId)
    requires Fits(s, req) && user in s.tickers && req.betId in s.bets && (req.gameId, user) in s.members
    ensures var r := AcceptSpec(s, req, user); var key := (req.gameId, user);
      r.store.members == s.members[key := s.members[key] - req.currency] && r.store.games == s.games
    ensures var r := AcceptSpec(s, req, user); var bet := s.bets[req.betId];
      r.store.tips == (if bet.betType == Unrecognised then s.tips else PlaceTip(s.tips, req, user, QueryOf(bet, req)).tips)
    ensures var r := AcceptSpec(s, req, user); var bet := s.bets[req.betId];
      r.response == (
        if bet.betType == Unrecognised then Created(None)
        else if bet.betType == Scale && ScaleInterval(req.answerDecimal.value, bet.scaleAnswers).NoInterval? then Failed
        else Created(Some(PlaceTip(s.tips, req, user, QueryOf(bet, req)).id)))
    ensures var r := AcceptSpec(s, req, user);
      r.response.Failed? ==> r.store.bets == s.bets && r.store.tickers == s.tickers
    ensures var r := AcceptSpec(s, req, user);
      r.store.bets.Keys == s.bets.Keys &&
      forall b :: b in s.bets ==>
        (r.store.bets[b].betType == s.bets[b].betType && (b != req.betId ==> r.store.bets[b] == s.bets[b]))
  {
    PlaceByTypeEffects(Debited(s, (req.gameId, user), req.currency), req, user);
  }

  /** An accepted wager counts the user on the bet unless the user already had a tip on it,
      adds the stake to the bet's pot, and advances the user's captcha ticker. */
  lemma AcceptCounts(s: Store, req: Request, user: UserId)
    requires Fits(s, req) && user in s.tickers && req.betId in s.bets && (req.gameId, user) in s.members
    requires AcceptSpec(s, req, user).response.Created?
    ensures var r := AcceptSpec(s, req, user).store;
      r.tickers == s.tickers[user := s.tickers[user] + 1] &&
      r.bets[req.betId].memberCount == s.bets[req.betId].memberCount + (if HasTipOn(s.tips, req.betId, user) then 0 else 1) &&
      r.bets[req.betId].inPot == s.bets[req.betId].inPot + req.currency
  {
  }

  /** A catalogue wager counts the user on the answer exactly when the user had no tip on that
      answer yet, and adds the stake to the answer's pot; no other answer changes. */
  lemma CatalogueCounters(s: Store, req: Request, user: UserId)
    requires Fits(s, req) && user in s.tickers && req.betId in s.bets && (req.gameId, user) in s.members
    requires s.bets[req.betId].betType == Catalogue
    ensures var r := AcceptSpec(s, req, user).store; var b := s.bets[req.betId]; var aid := req.answerId.value;
      var a := b.catalogueAnswers[aid];
      r.bets[req.betId].catalogueAnswers == b.catalogueAnswers[aid := CatalogueAnswer(a.odds,
        a.memberCount + (if exists i :: 0 <= i < |s.tips| && Matches(s.tips[i], req.betId, user, ByAnswer(aid)) then 0 else 1),
        a.inPot + req.currency)]
  {
    var aid := req.answerId.value;
    var found := FindTip(s.tips, req.betId, user, ByAnswer(aid));
    if found.Some? {
      assert Matches(s.tips[found.value], req.betId, user, ByAnswer(aid));
    }
  }

  /** A scale wager counts the user on the answer's interval exactly when the user had no tip
      inside that interval yet, and adds the stake to the interval's pot. */
  lemma ScaleCounters(s: Store, req: Request, user: UserId)
    requires Fits(s, req) && user in s.tickers && req.betId in s.bets && (req.gameId, user) in s.members
    requires s.bets[req.betId].betType == Scale
    requires ScaleInterval(req.answerDecimal.value, s.bets[req.betId].scaleAnswers).Interval?
    ensures var r := AcceptSpec(s, req, user).store; var b := s.bets[req.betId];
      var iv := ScaleInterval(req.answerDecimal.value, b.scaleAnswers); var a := b.scaleAnswers[iv.index];
      r.bets[req.betId].scaleAnswers == b.scaleAnswers[iv.index := ScaleAnswer(a.from,
        a.memberCount + (if HasTipIn(s.tips, req.betId, user, iv) then 0 else 1), a.inPot + req.currency)]
  {
  }

  /** On rising boundaries, and unless the next boundary is 0, the filter of line 101 finds a
      tip of the user exactly when one of the user's answers maps to the same interval. */
  lemma IntervalTipSameInterval(tips: seq<Tip>, betId: BetId, user: UserId, answers: seq<ScaleAnswer>, value: real)
    requires Ascending(answers) && ScaleInterval(value, answers).Interval?
    requires ScaleInterval(value, answers).to != Some(0.0)
    ensures HasTipIn(tips, betId, user, ScaleInterval(value, answers)) <==>
      exists i :: 0 <= i < |tips| && tips[i].betId == betId && tips[i].userId == user &&
        tips[i].answerDecimal.Some? && ScaleInterval(tips[i].answerDecimal.value, answers) == ScaleInterval(value, answers)
  {
    var iv := ScaleInterval(value, answers);
    forall i | 0 <= i < |tips| && tips[i].answerDecimal.Some?
      ensures InIntervalAsWritten(tips[i].answerDecimal.value, iv) <==>
        ScaleInterval(tips[i].answerDecimal.value, answers) == iv
    {
      AsWrittenDiffers(tips[i].answerDecimal.value, iv);
      SameInterval(answers, value, tips[i].answerDecimal.value);
    }
  }

  // ---------------------------------------------------------------------------------------
  // Invariants of the stored tips

  /** The stake on one bet. */
  function BetStake(tips: seq<Tip>, betId: BetId): real
    decreases |tips|
  {
    if tips == [] then 0.0
    else BetStake(tips[..|tips| - 1], betId) + (if tips[|tips| - 1].betId == betId then tips[|tips| - 1].currency else 0.0)
  }

  /** The users holding a tip on one bet. */
  function Users(tips: seq<Tip>, betId: BetId): set<UserId>
  {
    set i | 0 <= i < |tips| && tips[i].betId == betId :: tips[i].userId
  }

  /** Tip ids are positions, so a new tip's id is fresh. */
  predicate IdsArePositions(tips: seq<Tip>)
  {
    forall i :: 0 <= i < |tips| ==> tips[i].id == i
  }

  /** At most one tip per user and answer on a catalogue bet, and per user and decimal answer
      on a scale bet: the duplicate checks of lines 76 and 98 turn a repeat into a top-up. */
  predicate NoDuplicates(s: Store)
  {
    forall i, j ::
      (0 <= i < j < |s.tips| && s.tips[i].betId == s.tips[j].betId && s.tips[i].userId == s.tips[j].userId &&
       s.tips[i].betId in s.bets) ==>
        (s.bets[s.tips[i].betId].betType == Catalogue ==> s.tips[i].answerId != s.tips[j].answerId) &&
        (s.bets[s.tips[i].betId].betType == Scale ==> s.tips[i].answerDecimal != s.tips[j].answerDecimal)
  }

  /** Every bet of a known type holds the stake and counts the users of its tips. */
  predicate BetTotals(s: Store)
  {
    forall b :: b in s.bets && s.bets[b].betType != Unrecognised ==>
      s.bets[b].inPot == BetStake(s.tips, b) && s.bets[b].memberCount == |Users(s.tips, b)|
  }

  /** The invariants a wager keeps. */
  predicate Valid(s: Store)
  {
    PositiveStakes(s.tips) && IdsArePositions(s.tips) && NoDuplicates(s) && BetTotals(s)
  }

  lemma {:induction false} BetStakeAppend(tips: seq<Tip>, t: Tip, b: BetId)
    ensures BetStake(tips + [t], b) == BetStake(tips, b) + (if t.betId == b then t.currency else 0.0)
  {
    assert (tips + [t])[..|tips|] == tips;
  }

  lemma {:induction false} BetStakeTopUp(tips: seq<Tip>, k: nat, t: Tip, b: BetId)
    requires k < |tips| && t.betId == tips[k].betId
    ensures BetStake(tips[k := t], b) ==
      BetStake(tips, b) + (if t.betId == b then t.currency - tips[k].currency else 0.0)
    decreases |tips|
  {
    var n := |tips| - 1;
    if k < n {
      assert tips[k := t][..n] == tips[..n][k := t];
      BetStakeTopUp(tips[..n], k, t, b);
    } else {
      assert tips[k := t][..n] == tips[..n];
    }
  }

  lemma UsersAppend(tips: seq<Tip>, t: Tip, b: BetId)
    ensures Users(tips + [t], b) == Users(tips, b) + (if t.betId == b then {t.userId} else {})
  {
    var both := tips + [t];
    forall x | x in Users(both, b) ensures x in Users(tips, b) + (if t.betId == b then {t.userId} else {}) {
      var i :| 0 <= i < |both| && both[i].betId == b && both[i].userId == x;
      if i < |tips| {
        assert tips[i] == both[i];
      }
    }
    forall x | x in Users(tips, b) ensures x in Users(both, b) {
      var i :| 0 <= i < |tips| && tips[i].betId == b && tips[i].userId == x;
      assert both[i] == tips[i];
    }
    if t.betId == b {
      assert both[|tips|] == t;
    }
  }

  lemma UsersTopUp(tips: seq<Tip>, k: nat, t: Tip, b: BetId)
    requires k < |tips| && t.betId == tips[k].betId && t.userId == tips[k].userId
    ensures Users(tips[k := t], b) == Users(tips, b)
  {
    var u := tips[k := t];
    forall x | x in Users(u, b) ensures x in Users(tips, b) {
      var i :| 0 <= i < |u| && u[i].betId == b && u[i].userId == x;
      assert tips[i].betId == b && tips[i].userId == x;
    }
    forall x | x in Users(tips, b) ensures x in Users(u, b) {
      var i :| 0 <= i < |tips| && tips[i].betId == b && tips[i].userId == x;
      assert u[i].betId == b && u[i].userId == x;
    }
  }

  lemma HasTipOnUsers(tips: seq<Tip>, b: BetId, user: UserId)
    ensures HasTipOn(tips, b, user) <==> user in Users(tips, b)
  {
    if user in Users(tips, b) {
      var i :| 0 <= i < |tips| && tips[i].betId == b && tips[i].userId == user;
    }
  }

  /** The tip placement adds the stake to its bet and the user to its bet's users, and leaves
      every other bet as it was. */
  lemma PlaceTipTotals(tips: seq<Tip>, req: Request, user: UserId, q: Query, b: BetId)
    ensures var p := PlaceTip(tips, req, user, q);
      BetStake(p.tips, b) == BetStake(tips, b) + (if b == req.betId then req.currency else 0.0) &&
      Users(p.tips, b) == Users(tips, b) + (if b == req.betId then {user} else {})
  {
    var found := FindTip(tips, req.betId, user, q);
    if found.Some? {
      var k := found.value;
      var t := WithCurrency(tips[k], tips[k].currency + req.currency);
      BetStakeTopUp(tips, k, t, b);
      UsersTopUp(tips, k, t, b);
      assert tips[k].userId == user && tips[k].betId == req.betId;
      assert user in Users(tips, req.betId);
    } else {
      var t := NewTip(|tips|, req, user);
      BetStakeAppend(tips, t, b);
      UsersAppend(tips, t, b);
    }
  }

  /** Stakes stay positive and ids stay positions. */
  lemma PlaceTipShape(tips: seq<Tip>, req: Request, user: UserId, q: Query)
    requires req.currency > 0.0 && PositiveStakes(tips) && IdsArePositions(tips)
    ensures var p := PlaceTip(tips, req, user, q);
      PositiveStakes(p.tips) && IdsArePositions(p.tips) && |p.tips| == |tips| + (if p.isNew then 1 else 0) &&
      (p.isNew <==> forall j :: 0 <= j < |tips| ==> !Matches(tips[j], req.betId, user, q))
  {
    var found := FindTip(tips, req.betId, user, q);
    if found.Some? {
      assert Matches(tips[found.value], req.betId, user, q);
    }
  }

  /** The placement adds no duplicate: a repeat of an answer is a top-up. */
  lemma PlaceTipNoDuplicates(s: Store, req: Request, user: UserId, q: Query)
    requires req.betId in s.bets
    requires q.ByAnswer? ==> s.bets[req.betId].betType == Catalogue && req.answerId == Some(q.id)
    requires q.ByDecimal? ==> s.bets[req.betId].betType == Scale && req.answerDecimal == Some(q.decimal)
    requires NoDuplicates(s)
    ensures NoDuplicates(Store(s.members, PlaceTip(s.tips, req, user, q).tips, s.bets, s.games, s.tickers))
  {
    var p := PlaceTip(s.tips, req, user, q);
    var r := Store(s.members, p.tips, s.bets, s.games, s.tickers);
    var found := FindTip(s.tips, req.betId, user, q);
    forall i, j | 0 <= i < j < |r.tips| && r.tips[i].betId == r.tips[j].betId && r.tips[i].userId == r.tips[j].userId &&
      r.tips[i].betId in r.bets
      ensures (r.bets[r.tips[i].betId].betType == Catalogue ==> r.tips[i].answerId != r.tips[j].answerId) &&
              (r.bets[r.tips[i].betId].betType == Scale ==> r.tips[i].answerDecimal != r.tips[j].answerDecimal)
    {
      if found.None? && j == |s.tips| {
        assert r.tips[j] == NewTip(|s.tips|, req, user) && r.tips[i] == s.tips[i];
        assert !Matches(s.tips[i], req.betId, user, q);
      } else {
        assert j < |s.tips|;
        assert r.tips[i].betId == s.tips[i].betId && r.tips[i].userId == s.tips[i].userId;
        assert r.tips[i].answerId == s.tips[i].answerId && r.tips[i].answerDecimal == s.tips[i].answerDecimal;
        assert r.tips[j].betId == s.tips[j].betId && r.tips[j].userId == s.tips[j].userId;
        assert r.tips[j].answerId == s.tips[j].answerId && r.tips[j].answerDecimal == s.tips[j].answerDecimal;
      }
    }
  }

  /** The tips after the accepted path, the placement's for a known type. */
  lemma AcceptTips(s: Store, req: Request, user: UserId)
    requires Fits(s, req) && user in s.tickers && req.betId in s.bets && (req.gameId, user) in s.members
    requires req.currency > 0.0 && PositiveStakes(s.tips) && IdsArePositions(s.tips)
    ensures PositiveStakes(AcceptSpec(s, req, user).store.tips) && IdsArePositions(AcceptSpec(s, req, user).store.tips)
  {
    AcceptEffects(s, req, user);
    var bet := s.bets[req.betId];
    if bet.betType != Unrecognised {
      PlaceTipShape(s.tips, req, user, QueryOf(bet, req));
    }
  }

  lemma AcceptNoDuplicates(s: Store, req: Request, user: UserId)
    requires Fits(s, req) && user in s.tickers && req.betId in s.bets && (req.gameId, user) in s.members
    requires NoDuplicates(s)
    ensures NoDuplicates(AcceptSpec(s, req, user).store)
  {
    var r := AcceptSpec(s, req, user).store;
    AcceptEffects(s, req, user);
    var bet := s.bets[req.betId];
    var tips := s.tips;
    if bet.betType != Unrecognised {
      var q := QueryOf(bet, req);
      PlaceTipNoDuplicates(s, req, user, q);
      tips := PlaceTip(s.tips, req, user, q).tips;
    }
    assert NoDuplicates(Store(s.members, tips, s.bets, s.games, s.tickers));
    assert r.tips == tips && r.bets.Keys == s.bets.Keys;
    assert forall b :: b in s.bets ==> r.bets[b].betType == s.bets[b].betType;
  }

  /** A bet the wager does not touch keeps its totals, whether or not a tip was placed
      elsewhere. */
  lemma UntouchedTotals(s: Store, r: Store, req: Request, user: UserId, q: Query, placed: bool, b: BetId)
    requires BetTotals(s) && b in s.bets && s.bets[b].betType != Unrecognised && b != req.betId
    requires b in r.bets && r.bets[b] == s.bets[b]
    requires r.tips == (if placed then PlaceTip(s.tips, req, user, q).tips else s.tips)
    ensures r.bets[b].inPot == BetStake(r.tips, b) && r.bets[b].memberCount == |Users(r.tips, b)|
  {
    if placed {
      PlaceTipTotals(s.tips, req, user, q, b);
    }
  }

  /** The bet the wager is placed on takes the stake into its pot and counts a new user. */
  lemma TouchedTotals(s: Store, r: Store, req: Request, user: UserId, q: Query)
    requires BetTotals(s) && req.betId in s.bets && s.bets[req.betId].betType != Unrecognised
    requires req.betId in r.bets && r.tips == PlaceTip(s.tips, req, user, q).tips
    requires r.bets[req.betId].inPot == s.bets[req.betId].inPot + req.currency
    requires r.bets[req.betId].memberCount ==
      s.bets[req.betId].memberCount + (if HasTipOn(s.tips, req.betId, user) then 0 else 1)
    ensures r.bets[req.betId].inPot == BetStake(r.tips, req.betId)
    ensures r.bets[req.betId].memberCount == |Users(r.tips, req.betId)|
  {
    PlaceTipTotals(s.tips, req, user, q, req.betId);
    HasTipOnUsers(s.tips, req.betId, user);
  }

  lemma AcceptBetTotals(s: Store, req: Request, user: UserId)
    requires Fits(s, req) && user in s.tickers && req.betId in s.bets && (req.gameId, user) in s.members
    requires BetTotals(s) && AcceptSpec(s, req, user).response.Created?
    ensures BetTotals(AcceptSpec(s, req, user).store)
  {
    var r := AcceptSpec(s, req, user).store;
    AcceptEffects(s, req, user);
    AcceptCounts(s, req, user);
    var bet := s.bets[req.betId];
    var placed := bet.betType != Unrecognised;
    var q := if placed then QueryOf(bet, req) else ByAnswer(0);
    assert r.tips == (if placed then PlaceTip(s.tips, req, user, q).tips else s.tips);
    forall b | b in r.bets && r.bets[b].betType != Unrecognised
      ensures r.bets[b].inPot == BetStake(r.tips, b) && r.bets[b].memberCount == |Users(r.tips, b)|
    {
      if b != req.betId {
        UntouchedTotals(s, r, req, user, q, placed, b);
      } else {
        TouchedTotals(s, r, req, user, q);
      }
    }
  }

  /** createTip keeps the invariants of the stored tips whenever it does not fail: stakes are
      positive, ids are positions, no user holds two tips on one answer, and every bet of a
      known type holds the stake and counts the users of its tips. */
  lemma CreateTipKeepsValid(s: Store, interval: int, req: Request)
    requires Fits(s, req) && Valid(s) && !CreateTipSpec(s, interval, req).response.Failed?
    ensures Valid(CreateTipSpec(s, interval, req).store)
  {
    Admission(s, interval, req);
    if CreateTipSpec(s, interval, req).response.Rejected? {
      RejectionsWriteNothing(s, interval, req);
    } else {
      var user := req.user.value;
      var j := Joined(s, (req.gameId, user));
      AcceptTips(j, req, user);
      AcceptNoDuplicates(j, req, user);
      AcceptBetTotals(j, req, user);
    }
  }

  /** An accepted wager moves the stake from the member (created if missing) to the bet: the
      member's currency drops by the stake, and unless the request fails, the bet's pot rises by
      it, as does the stake its tips hold when the bet has a known type. */
  lemma WagerMovesStake(s: Store, interval: int, req: Request)
    requires Fits(s, req) && Admissible(s, interval, req)
    ensures var r := CreateTipSpec(s, interval, req).store; var key := (req.gameId, req.user.value);
      r.members == WithMember(s, key)[key := Funds(s, key) - req.currency]
    ensures var r := CreateTipSpec(s, interval, req);
      !r.response.Failed? ==> r.store.bets[req.betId].inPot == s.bets[req.betId].inPot + req.currency
    ensures var r := CreateTipSpec(s, interval, req).store;
      s.bets[req.betId].betType != Unrecognised ==>
        BetStake(r.tips, req.betId) == BetStake(s.tips, req.betId) + req.currency
  {
    Admission(s, interval, req);
    var user := req.user.value;
    var j := Joined(s, (req.gameId, user));
    AcceptEffects(j, req, user);
    if !CreateTipSpec(s, interval, req).response.Failed? {
      AcceptCounts(j, req, user);
    }
    if s.bets[req.betId].betType != Unrecognised {
      PlaceTipTotals(s.tips, req, user, QueryOf(s.bets[req.betId], req), req.betId);
    }
  }

  /** A scale answer below every interval fails after the debit and the tip write: the tips
      hold the stake but no counter of the bet records it. */
  lemma FailedWager(s: Store, interval: int, req: Request)
    requires Fits(s, req)
    ensures CreateTipSpec(s, interval, req).response.Failed? <==>
      Admissible(s, interval, req) && s.bets[req.betId].betType == Scale &&
      ScaleInterval(req.answerDecimal.value, s.bets[req.betId].scaleAnswers).NoInterval?
    ensures CreateTipSpec(s, interval, req).response.Failed? ==>
      var r := CreateTipSpec(s, interval, req).store;
      r.bets == s.bets && r.tickers == s.tickers &&
      BetStake(r.tips, req.betId) == BetStake(s.tips, req.betId) + req.currency
  {
    Admission(s, interval, req);
    if Admissible(s, interval, req) {
      var user := req.user.value;
      var j := Joined(s, (req.gameId, user));
      AcceptEffects(j, req, user);
      if s.bets[req.betId].betType != Unrecognised {
        PlaceTipTotals(s.tips, req, user, QueryOf(s.bets[req.betId], req), req.betId);
      }
    }
  }

  /** A bet of neither known type takes the stake into its pot and debits the member, but no
      tip is stored, so its settlement never pays the stake back. */
  lemma UnrecognisedKeepsStake(s: Store, interval: int, req: Request)
    requires Fits(s, req) && Admissible(s, interval, req) && s.bets[req.betId].betType == Unrecognised
    ensures CreateTipSpec(s, interval, req).response == Created(None)
    ensures CreateTipSpec(s, interval, req).store.tips == s.tips
  {
    Admission(s, interval, req);
    var user := req.user.value;
    AcceptEffects(Joined(s, (req.gameId, user)), req, user);
  }
}

