/**
 * The stateful half of payout.service.js: the in-memory queue of bets awaiting payout
 * (lines 8-36) and the database writes of payoutBet (lines 47-65).
 */
module Payout {
  import opened Wrappers
  import opened Records
  import opened Distribution
  import opened Settlement

  /** One `updateOne` of the member bulk write (line 57): `$inc` the currency. */
  datatype MemberWrite = MemberWrite(key: MemberKey, inc: real)

  /** One `updateOne` of the tip bulk write (line 58): set `diff`. */
  datatype TipWrite = TipWrite(id: TipId, diff: real)

  function MemberWrites(gameId: GameId, tips: seq<PaidTip>): (r: seq<MemberWrite>)
    ensures |r| == |tips| && forall i :: 0 <= i < |tips| ==> r[i] == MemberWrite((gameId, tips[i].tip.userId), tips[i].inc)
  {
    seq(|tips|, i requires 0 <= i < |tips| => MemberWrite((gameId, tips[i].tip.userId), tips[i].inc))
  }

  function TipWrites(tips: seq<PaidTip>): (r: seq<TipWrite>)
    ensures |r| == |tips| && forall i :: 0 <= i < |tips| ==> r[i] == TipWrite(tips[i].tip.id, tips[i].diff)
  {
    seq(|tips|, i requires 0 <= i < |tips| => TipWrite(tips[i].tip.id, tips[i].diff))
  }

  /** An `updateOne` without upsert: a member that does not exist is not created. */
  function Credit(m: map<MemberKey, real>, w: MemberWrite): (r: map<MemberKey, real>)
    ensures r.Keys == m.Keys
  {
    if w.key in m then m[w.key := m[w.key] + w.inc] else m
  }

  /** The member bulk write, applied in order. */
  function ApplyCredits(m: map<MemberKey, real>, ws: seq<MemberWrite>): (r: map<MemberKey, real>)
    ensures r.Keys == m.Keys
    decreases |ws|
  {
    if ws == [] then m else Credit(ApplyCredits(m, ws[..|ws| - 1]), ws[|ws| - 1])
  }

  /** The tip bulk write, applied in order. */
  function ApplyDiffs(d: map<TipId, real>, ws: seq<TipWrite>): map<TipId, real>
    decreases |ws|
  {
    if ws == [] then d else ApplyDiffs(d, ws[..|ws| - 1])[ws[|ws| - 1].id := ws[|ws| - 1].diff]
  }

  /** The total increment the writes carry for one member. */
  function IncOf(ws: seq<MemberWrite>, key: MemberKey): real
    decreases |ws|
  {
    if ws == [] then 0.0
    else IncOf(ws[..|ws| - 1], key) + (if ws[|ws| - 1].key == key then ws[|ws| - 1].inc else 0.0)
  }

  /** The total stake the writes' tips carry for one member. */
  function StakeOf(gameId: GameId, tips: seq<PaidTip>, key: MemberKey): real
    decreases |tips|
  {
    if tips == [] then 0.0
    else
      var t := tips[|tips| - 1];
      StakeOf(gameId, tips[..|tips| - 1], key) + (if (gameId, t.tip.userId) == key then t.tip.currency else 0.0)
  }

  /** The two bulk-write request lists of lines 55-59, one entry per tip. */
  method BulkRequests(gameId: GameId, tips: seq<PaidTip>) returns (memberRequests: seq<MemberWrite>, tipRequests: seq<TipWrite>)
    ensures memberRequests == MemberWrites(gameId, tips) && tipRequests == TipWrites(tips)
  {
    memberRequests, tipRequests := [], [];
    for i := 0 to |tips|
      invariant memberRequests == MemberWrites(gameId, tips[..i])
      invariant tipRequests == TipWrites(tips[..i])
    {
      assert tips[..i + 1] == tips[..i] + [tips[i]];
      memberRequests := memberRequests + [MemberWrite((gameId, tips[i].tip.userId), tips[i].inc)];
      tipRequests := tipRequests + [TipWrite(tips[i].tip.id, tips[i].diff)];
    }
    assert tips[..|tips|] == tips;
  }

  /** Where payoutBet's database work fails, if it does: the tip bulk write (line 63), the
      member bulk write (line 64), the `isPaid` update (line 65), or a later step (the log
      entry, the commit, or the re-reads and the socket update of lines 79-81). */
  datatype StoreFault = Healthy | TipWriteFails | MemberWriteFails | PaidFlagFails | LaterStepFails

  /** How many of the three writes of lines 63-65 are made before a `fault`. */
  function WritesDone(fault: StoreFault): nat
  {
    match fault
    case TipWriteFails => 0
    case MemberWriteFails => 1
    case PaidFlagFails => 2
    case _ => 3
  }

  /** Whether payoutBet throws: a store step fails or, as written, the title is longer than 50
      characters, so line 67 calls a `sustr` that strings do not have. */
  predicate PayoutThrows(title: string, fault: StoreFault, reading: Reading)
  {
    fault != Healthy || (reading == AsWritten && |title| > 50)
  }

  /** The shortening line 67 evidently intends, `title.substr(0, 48) + '..'` for a title longer
      than 50 characters: the result never exceeds 50 characters and keeps the title's start. */
  function ShortTitle(title: string): (r: string)
    ensures |r| <= 50
    ensures |title| <= 50 ==> r == title
    ensures |title| > 50 ==> |r| == 50 && r[..48] == title[..48] && r[48..] == ".."
  {
    if |title| > 50 then title[..48] + ".." else title
  }

  /** The part of the database payoutBet writes. */
  class Ledger {
    /** Member currencies, by game and user. */
    var balances: map<MemberKey, real>
    /** The `diff` field of each tip. */
    var diffs: map<TipId, real>
    /** The bets whose `isPaid` flag is set. */
    var paid: set<BetId>

    constructor(balances: map<MemberKey, real>, diffs: map<TipId, real>, paid: set<BetId>)
      ensures this.balances == balances && this.diffs == diffs && this.paid == paid
    {
      this.balances := balances;
      this.diffs := diffs;
      this.paid := paid;
    }

    /** `Tip.bulkWrite` (line 63): each request sets one tip's diff, in order. */
    method WriteTips(tipRequests: seq<TipWrite>)
      modifies this
      ensures diffs == ApplyDiffs(old(diffs), tipRequests)
      ensures balances == old(balances) && paid == old(paid)
    {
      for i := 0 to |tipRequests|
        invariant diffs == ApplyDiffs(old(diffs), tipRequests[..i])
        invariant balances == old(balances) && paid == old(paid)
      {
        assert tipRequests[..i + 1][..i] == tipRequests[..i];
        diffs := diffs[tipRequests[i].id := tipRequests[i].diff];
      }
      assert tipRequests[..|tipRequests|] == tipRequests;
    }

    /** `Member.bulkWrite` (line 64): each request increments an existing member's currency. */
    method WriteMembers(memberRequests: seq<MemberWrite>)
      modifies this
      ensures balances == ApplyCredits(old(balances), memberRequests)
      ensures diffs == old(diffs) && paid == old(paid)
    {
      for i := 0 to |memberRequests|
        invariant balances == ApplyCredits(old(balances), memberRequests[..i])
        invariant diffs == old(diffs) && paid == old(paid)
      {
        assert memberRequests[..i + 1][..i] == memberRequests[..i];
        var w := memberRequests[i];
        if w.key in balances {
          balances := balances[w.key := balances[w.key] + w.inc];
        }
      }
      assert memberRequests[..|memberRequests|] == memberRequests;
    }

    /** payoutBet (lines 47-77): flatten the settlement, collect one member write and one tip
        write per tip, write the tips, then the members, then set `isPaid`, then log. The
        writes are not made in the transaction's session, so aborting it (line 73) undoes
        none of the writes made before a failure; whether the call throws is returned. */
    method PayoutBet(betId: BetId, gameId: GameId, title: string, winners: seq<PaidStack>, losers: seq<PaidStack>,
                     fault: StoreFault, reading: Reading) returns (threw: bool)
      modifies this
      ensures threw == PayoutThrows(title, fault, reading)
      ensures diffs ==
        if WritesDone(fault) >= 1 then ApplyDiffs(old(diffs), TipWrites(FlatPaid(winners + losers))) else old(diffs)
      ensures balances ==
        if WritesDone(fault) >= 2 then ApplyCredits(old(balances), MemberWrites(gameId, FlatPaid(winners + losers)))
        else old(balances)
      ensures paid == if WritesDone(fault) >= 3 then old(paid) + {betId} else old(paid)
    {
      var tips := ExtractTipsFromSettlement(winners, losers);
      var memberRequests, tipRequests := BulkRequests(gameId, tips);
      if fault == TipWriteFails {
        return true;
      }
      WriteTips(tipRequests);
      if fault == MemberWriteFails {
        return true;
      }
      WriteMembers(memberRequests);
      if fault == PaidFlagFails {
        return true;
      }
      paid := paid + {betId};
      if reading == AsWritten && |title| > 50 {
        // strings have no `sustr` (line 67): the call throws a TypeError
        return true;
      }
      var shortened := ShortTitle(title);  // the description of the log entry of line 68
      threw := fault == LaterStepFails;
    }
  }

  /** Every existing member's currency rises by exactly the increments addressed to it. */
  lemma {:induction false} ApplyCreditsValue(m: map<MemberKey, real>, ws: seq<MemberWrite>, key: MemberKey)
    requires key in m
    ensures ApplyCredits(m, ws)[key] == m[key] + IncOf(ws, key)
    decreases |ws|
  {
    if ws != [] {
      ApplyCreditsValue(m, ws[..|ws| - 1], key);
    }
  }

  /** Nothing guards against paying a bet twice: a second payout adds the increments again. */
  lemma PayingTwice(m: map<MemberKey, real>, ws: seq<MemberWrite>, key: MemberKey)
    requires key in m
    ensures ApplyCredits(ApplyCredits(m, ws), ws)[key] == m[key] + 2.0 * IncOf(ws, key)
  {
    ApplyCreditsValue(m, ws, key);
    ApplyCreditsValue(ApplyCredits(m, ws), ws, key);
  }

  /** A refunded tip list hands every member back exactly its stake. */
  lemma {:induction false} RefundedStake(gameId: GameId, tips: seq<PaidTip>, key: MemberKey)
    requires Refunds(tips)
    ensures IncOf(MemberWrites(gameId, tips), key) == StakeOf(gameId, tips, key)
    decreases |tips|
  {
    if tips != [] {
      var n := |tips| - 1;
      assert MemberWrites(gameId, tips)[..n] == MemberWrites(gameId, tips[..n]);
      RefundedStake(gameId, tips[..n], key);
    }
  }

  /** After the tip write every written tip has a `diff`, and the tip of the last write for an id
      holds that write's value; other tips keep theirs. */
  lemma ApplyDiffsFacts(d: map<TipId, real>, ws: seq<TipWrite>)
    ensures ApplyDiffs(d, ws).Keys == d.Keys + set i | 0 <= i < |ws| :: ws[i].id
    ensures forall id :: id in d && (forall i :: 0 <= i < |ws| ==> ws[i].id != id) ==> ApplyDiffs(d, ws)[id] == d[id]
    ensures forall i :: 0 <= i < |ws| && (forall j :: i < j < |ws| ==> ws[j].id != ws[i].id) ==>
      ApplyDiffs(d, ws)[ws[i].id] == ws[i].diff
  {
    ApplyDiffsKeys(d, ws);
    forall id | id in d && (forall i :: 0 <= i < |ws| ==> ws[i].id != id) ensures ApplyDiffs(d, ws)[id] == d[id] {
      ApplyDiffsUntouched(d, ws, id);
    }
    forall i | 0 <= i < |ws| && (forall j :: i < j < |ws| ==> ws[j].id != ws[i].id)
      ensures ApplyDiffs(d, ws)[ws[i].id] == ws[i].diff
    {
      ApplyDiffsLast(d, ws, i);
    }
  }

  lemma {:induction false} ApplyDiffsKeys(d: map<TipId, real>, ws: seq<TipWrite>)
    ensures ApplyDiffs(d, ws).Keys == d.Keys + set i | 0 <= i < |ws| :: ws[i].id
    decreases |ws|
  {
    if ws != [] {
      var n := |ws| - 1;
      var prefix := ws[..n];
      ApplyDiffsKeys(d, prefix);
      assert forall i :: 0 <= i < n ==> prefix[i] == ws[i];
      assert (set i | 0 <= i < |ws| :: ws[i].id) == (set i | 0 <= i < n :: prefix[i].id) + {ws[n].id};
    }
  }

  lemma {:induction false} ApplyDiffsUntouched(d: map<TipId, real>, ws: seq<TipWrite>, id: TipId)
    requires id in d && forall i :: 0 <= i < |ws| ==> ws[i].id != id
    ensures id in ApplyDiffs(d, ws) && ApplyDiffs(d, ws)[id] == d[id]
    decreases |ws|
  {
    if ws != [] {
      var n := |ws| - 1;
      assert forall i :: 0 <= i < n ==> ws[..n][i].id != id;
      ApplyDiffsUntouched(d, ws[..n], id);
    }
  }

  lemma {:induction false} ApplyDiffsLast(d: map<TipId, real>, ws: seq<TipWrite>, i: nat)
    requires i < |ws| && forall j :: i < j < |ws| ==> ws[j].id != ws[i].id
    ensures ws[i].id in ApplyDiffs(d, ws) && ApplyDiffs(d, ws)[ws[i].id] == ws[i].diff
    decreases |ws|
  {
    var n := |ws| - 1;
    if i < n {
      var prefix := ws[..n];
      assert prefix[i] == ws[i];
      assert forall j :: i < j < |prefix| ==> prefix[j].id != prefix[i].id;
      ApplyDiffsLast(d, prefix, i);
    }
  }

  // ---------------------------------------------------------------------------------------
  // The payout queue

  /** `betQueue.filter(id => id != betId)`. */
  function Without(q: seq<BetId>, id: BetId): seq<BetId>
    decreases |q|
  {
    if q == [] then []
    else Without(q[..|q| - 1], id) + (if q[|q| - 1] != id then [q[|q| - 1]] else [])
  }

  /** After a payout attempt the head leaves the queue, and every copy of it with it. */
  function QueueAfter(q: seq<BetId>): seq<BetId>
    requires q != []
  {
    Without(q, q[0])
  }

  /** The queue after processNextBet as written: line 27 removes the head before the payout,
      so when the payout throws, line 33 removes whichever bet is now first. */
  function QueueAfterAsWritten(q: seq<BetId>, payoutThrew: bool): seq<BetId>
    requires q != []
  {
    var q' := Without(q, q[0]);
    if payoutThrew && q' != [] then Without(q', q'[0]) else q'
  }

  class PayoutService {
    var betQueue: seq<BetId>

    constructor()
      ensures betQueue == []
    {
      betQueue := [];
    }

    /** addToQueue (lines 10-12). */
    method AddToQueue(betId: BetId)
      modifies this
      ensures betQueue == old(betQueue) + [betId]
    {
      betQueue := betQueue + [betId];
    }

    /** removeFromQueue (lines 14-18). */
    method RemoveFromQueue(betId: BetId)
      modifies this
      ensures betQueue == Without(old(betQueue), betId)
    {
      var kept: seq<BetId> := [];
      for i := 0 to |betQueue|
        invariant kept == Without(betQueue[..i], betId)
      {
        assert betQueue[..i + 1][..i] == betQueue[..i];
        if betQueue[i] != betId {
          kept := kept + [betQueue[i]];
        }
      }
      assert betQueue[..|betQueue|] == betQueue;
      betQueue := kept;
    }

    /** processNextBet (lines 20-36) with the bet the store returns for the head of the queue
        (`None` when it is missing), that bet's tips, and where the store fails, if at all.
        A bet whose settlement throws is removed by the handler of line 33 while still first;
        otherwise line 27 removes it and payoutBet runs. As written, a payout that throws
        makes line 33 remove the bet that is first by then. */
    method ProcessNextBet(ledger: Ledger, bet: Option<Bet>, tips: seq<Tip>, reading: Reading, fault: StoreFault)
      requires PositiveStakes(tips)
      modifies this, ledger
      ensures old(betQueue) == [] ==> betQueue == old(betQueue) && unchanged(ledger)
      ensures old(betQueue) != [] ==>
        var threw := bet.Some? && !Settle(bet.value, tips, reading).Thrown? && PayoutThrows(bet.value.title, fault, reading);
        betQueue == if reading == AsWritten then QueueAfterAsWritten(old(betQueue), threw) else QueueAfter(old(betQueue))
      ensures old(betQueue) != [] && bet.Some? && Settle(bet.value, tips, reading).Settled? ==>
        var pts := FlatPaid(Settle(bet.value, tips, reading).winners + Settle(bet.value, tips, reading).losers);
        ledger.diffs == (if WritesDone(fault) >= 1 then ApplyDiffs(old(ledger.diffs), TipWrites(pts)) else old(ledger.diffs)) &&
        ledger.balances ==
          (if WritesDone(fault) >= 2 then ApplyCredits(old(ledger.balances), MemberWrites(bet.value.gameId, pts))
           else old(ledger.balances)) &&
        ledger.paid == (if WritesDone(fault) >= 3 then old(ledger.paid) + {old(betQueue)[0]} else old(ledger.paid))
      ensures !(bet.Some? && Settle(bet.value, tips, reading).Settled?) ==> unchanged(ledger)
    {
      if betQueue == [] {
        return;
      }
      var head := betQueue[0];
      if bet.None? {
        // reading `nextBet.id` of a missing bet throws (line 24); the handler removes the head
        RemoveFromQueue(head);
        return;
      }
      var settlement := GetSettlement(bet.value, tips, reading);
      if settlement.Thrown? {
        RemoveFromQueue(head);
        return;
      }
      RemoveFromQueue(head);
      var threw;
      if settlement.Settled? {
        threw := ledger.PayoutBet(head, bet.value.gameId, bet.value.title, settlement.winners, settlement.losers,
                                  fault, reading);
      } else {
        threw := PayoutThrows(bet.value.title, fault, reading);
      }
      if threw && reading == AsWritten && betQueue != [] {
        RemoveFromQueue(betQueue[0]);
      }
    }
  }

  /** Nothing but the removed id leaves the queue, and that id leaves it entirely. */
  lemma WithoutFacts(q: seq<BetId>, id: BetId)
    ensures multiset(Without(q, id)) == multiset(q)[id := 0]
    ensures id !in Without(q, id)
    ensures forall x :: x in Without(q, id) <==> x in q && x != id
    ensures |Without(q, id)| <= |q| && (id in q ==> |Without(q, id)| < |q|)
  {
    WithoutCount(q, id);
    WithoutMembers(q, id);
    WithoutShorter(q, id);
  }

  lemma {:induction false} WithoutCount(q: seq<BetId>, id: BetId)
    ensures multiset(Without(q, id)) == multiset(q)[id := 0]
    decreases |q|
  {
    if q != [] {
      var n := |q| - 1;
      var x := q[n];
      WithoutCount(q[..n], id);
      assert multiset(q) == multiset(q[..n]) + multiset{x} by {
        assert q == q[..n] + [x];
      }
    }
  }

  lemma {:induction false} WithoutMembers(q: seq<BetId>, id: BetId)
    ensures forall x :: x in Without(q, id) <==> x in q && x != id
    decreases |q|
  {
    if q != [] {
      var n := |q| - 1;
      var x := q[n];
      WithoutMembers(q[..n], id);
      assert forall y :: y in q <==> y in q[..n] || y == x by {
        assert q == q[..n] + [x];
      }
    }
  }

  lemma {:induction false} WithoutShorter(q: seq<BetId>, id: BetId)
    ensures |Without(q, id)| <= |q| && (id in q ==> |Without(q, id)| < |q|)
    decreases |q|
  {
    if q != [] {
      var n := |q| - 1;
      WithoutShorter(q[..n], id);
      assert id in q ==> id in q[..n] || id == q[n] by {
        assert q == q[..n] + [q[n]];
      }
    }
  }

  /** Removing twice is removing once. */
  lemma {:induction false} WithoutIdempotent(q: seq<BetId>, id: BetId)
    ensures Without(Without(q, id), id) == Without(q, id)
    decreases |q|
  {
    if q != [] {
      var n := |q| - 1;
      WithoutIdempotent(q[..n], id);
      var front := Without(q[..n], id);
      WithoutAppend(front, if q[n] != id then [q[n]] else [], id);
      if q[n] != id {
        assert Without([q[n]], id) == [q[n]] by {
          assert [q[n]][..0] == [];
        }
      }
    }
  }

  /** Filtering a queue filters each of its parts. */
  lemma {:induction false} WithoutAppend(a: seq<BetId>, b: seq<BetId>, id: BetId)
    ensures Without(a + b, id) == Without(a, id) + Without(b, id)
    decreases |b|
  {
    if b == [] {
      assert a + b == a;
    } else {
      var n := |b| - 1;
      assert (a + b)[..|a + b| - 1] == a + b[..n];
      WithoutAppend(a, b[..n], id);
    }
  }

  /** A bet that is not queued leaves the queue as it is. */
  lemma {:induction false} WithoutAbsent(q: seq<BetId>, id: BetId)
    requires id !in q
    ensures Without(q, id) == q
    decreases |q|
  {
    if q != [] {
      var n := |q| - 1;
      assert id !in q[..n];
      WithoutAbsent(q[..n], id);
    }
  }

  /** Queueing a bet and removing it undoes the queueing. */
  lemma AddThenRemove(q: seq<BetId>, id: BetId)
    ensures Without(q + [id], id) == Without(q, id)
  {
    WithoutAppend(q, [id], id);
    assert Without([id], id) == [] by {
      assert [id][..0] == [];
    }
  }

  /** Each payout attempt shrinks the queue and removes only its head: every other queued bet
      stays, in order, with its multiplicity. */
  lemma QueueAfterRemovesOnlyHead(q: seq<BetId>)
    requires q != []
    ensures |QueueAfter(q)| < |q|
    ensures multiset(QueueAfter(q)) == multiset(q)[q[0] := 0]
  {
    WithoutFacts(q, q[0]);
  }

  /** With bets 1 and 2 queued and a payout of bet 1 that throws, bet 2 leaves the queue
      without ever being paid out. */
  lemma AsWrittenSkipsNextBet()
    ensures QueueAfterAsWritten([1, 2], true) == []
    ensures QueueAfter([1, 2]) == [2]
  {
    var q: seq<BetId> := [1, 2];
    assert q[..1] == [1];
    assert q[..1][..0] == [];
    assert Without(q[..1], 1) == [];
    assert Without(q, 1) == [2];
    var q': seq<BetId> := [2];
    assert q'[..0] == [];
    assert Without(q', 2) == [];
  }

  /** A healthy payout of a bet titled with more than 50 characters throws as written, and
      with bets 1 and 2 queued it takes bet 2 out of the queue unpaid; as intended it does not
      throw. */
  lemma LongTitleThrows(title: string)
    requires |title| > 50
    ensures PayoutThrows(title, Healthy, AsWritten) && !PayoutThrows(title, Healthy, Intended)
    ensures QueueAfterAsWritten([1, 2], PayoutThrows(title, Healthy, AsWritten)) == []
  {
    AsWrittenSkipsNextBet();
  }

  /** The as-written queue differs from the intended one exactly when the payout throws while
      another bet is waiting behind the head. */
  lemma AsWrittenDiffers(q: seq<BetId>, payoutThrew: bool)
    requires q != []
    ensures QueueAfterAsWritten(q, payoutThrew) != QueueAfter(q) <==> payoutThrew && QueueAfter(q) != []
  {
    var q' := QueueAfter(q);
    assert QueueAfterAsWritten(q, payoutThrew) == if payoutThrew && q' != [] then Without(q', q'[0]) else q';
    if payoutThrew && q' != [] {
      WithoutFacts(q', q'[0]);
      assert q'[0] in q' && q'[0] !in Without(q', q'[0]);
    }
  }
}
