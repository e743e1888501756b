/** What every reachable battle satisfies: cards and points are conserved, the turn order is
    consistent, and a subgame is over after a bounded number of actions. */
module BattleInvariants {
  import opened Cards
  import opened Deal
  import opened BattleModel

  // ---------------------------------------------------------------------------------
  // Conservation of cards and points
  // ---------------------------------------------------------------------------------

  ghost function LogBag(log: seq<seq<byte>>): multiset<byte>
  {
    if log == [] then multiset{} else LogBag(log[..|log| - 1]) + multiset(log[|log| - 1])
  }

  ghost function LogPoints(log: seq<seq<byte>>): nat
  {
    if log == [] then 0 else LogPoints(log[..|log| - 1]) + Points(log[|log| - 1])
  }

  function Total(captured: seq<nat>): nat
    requires |captured| == 4
  {
    captured[0] + captured[1] + captured[2] + captured[3]
  }

  /** All hands together with all cards played are the deck that was dealt. */
  ghost predicate CardsConserved(b: Battle)
    requires Shape(b)
  {
    (b.deck == [] || |b.deck| == DECK_SIZE) && AllHands(b.hands) + LogBag(b.outed) == multiset(b.deck)
  }

  /** The captured points and the points on the table are the points of all cards played. */
  ghost predicate PointsConserved(b: Battle)
    requires Shape(b)
  {
    Total(b.captured) + Points(b.scoreCards) == LogPoints(b.outed)
  }

  lemma {:induction false} RemoveOneBag(hand: seq<byte>, card: byte)
    requires card in hand
    ensures multiset(RemoveOne(hand, card)) + multiset{card} == multiset(hand)
  {
    assert hand == [hand[0]] + hand[1..];
    if hand[0] != card { RemoveOneBag(hand[1..], card); }
  }

  lemma {:induction false} RemoveCardsBag(hand: seq<byte>, cards: seq<byte>)
    requires Holds(hand, cards)
    ensures multiset(RemoveCards(hand, cards)) + multiset(cards) == multiset(hand)
    ensures |RemoveCards(hand, cards)| + |cards| == |hand|
    decreases |cards|
  {
    if cards != [] {
      assert cards == [cards[0]] + cards[1..];
      assert multiset(cards) == multiset{cards[0]} + multiset(cards[1..]);
      assert cards[0] in multiset(hand);
      RemoveOneBag(hand, cards[0]);
      var rest := RemoveOne(hand, cards[0]);
      assert multiset(rest) == multiset(hand) - multiset{cards[0]};
      RemoveCardsBag(rest, cards[1..]);
      assert |multiset(rest)| + 1 == |multiset(hand)|;
    }
  }

  lemma AllHandsReplace(hands: seq<seq<byte>>, seat: nat, hand: seq<byte>)
    requires |hands| == 4 && seat < 4
    ensures AllHands(hands[seat := hand]) + multiset(hands[seat]) == AllHands(hands) + multiset(hand)
  {
  }

  lemma LogAppend(log: seq<seq<byte>>, cards: seq<byte>)
    ensures LogBag(log + [cards]) == LogBag(log) + multiset(cards)
    ensures LogPoints(log + [cards]) == LogPoints(log) + Points(cards)
  {
    assert (log + [cards])[..|log|] == log;
  }

  lemma LayConservesCards(b: Battle, cards: seq<byte>)
    requires Shape(b) && CardsConserved(b) && Holds(b.hands[b.activeSeat], cards)
    ensures CardsConserved(Lay(b, cards))
  {
    var hand := b.hands[b.activeSeat];
    var rest := RemoveCards(hand, cards);
    RemoveCardsBag(hand, cards);
    AllHandsReplace(b.hands, b.activeSeat, rest);
    LogAppend(b.outed, cards);
    var hands := b.hands[b.activeSeat := rest];
    SameBag(AllHands(hands), AllHands(b.hands), multiset(rest), multiset(hand), multiset(cards));
    assert AllHands(hands) + LogBag(b.outed + [cards]) == AllHands(b.hands) + LogBag(b.outed);
  }

  lemma LayConservesPoints(b: Battle, cards: seq<byte>)
    requires Shape(b) && PointsConserved(b)
    ensures PointsConserved(Lay(b, cards))
  {
    LogAppend(b.outed, cards);
    ScoreCardsKeepPoints(cards);
    PointsConcat(b.scoreCards, ScoreCards(cards));
    assert Points([]) == 0;
  }

  lemma SameBag(after: multiset<byte>, before: multiset<byte>, rest: multiset<byte>, hand: multiset<byte>,
    cards: multiset<byte>)
    requires after + hand == before + rest && rest + cards == hand
    ensures after + cards == before
  {
    assert after + (rest + cards) == before + rest;
    forall c ensures (after + cards)[c] == before[c] {
      assert (after + (rest + cards))[c] == (before + rest)[c];
    }
  }

  lemma {:induction false} LogPointsAreBagPoints(log: seq<seq<byte>>)
    ensures LogPoints(log) == BagPoints(LogBag(log), 256)
  {
    if log == [] {
      BagPointsEmpty(256);
    } else {
      var n := |log| - 1;
      LogPointsAreBagPoints(log[..n]);
      PointsAreBagPoints(log[n]);
      BagPointsUnion(LogBag(log[..n]), multiset(log[n]), 256);
    }
  }

  /** The points in play never exceed the points of the deck, so no counter wraps. */
  lemma PointsBounded(b: Battle)
    requires Shape(b) && CardsConserved(b) && PointsConserved(b)
    ensures Total(b.captured) + Points(b.scoreCards) <= Points(b.deck) <= 1040
  {
    LogPointsAreBagPoints(b.outed);
    BagPointsUnion(AllHands(b.hands), LogBag(b.outed), 256);
    PointsAreBagPoints(b.deck);
    PointsAtMost(b.deck);
  }

  lemma NoWrap(c: nat, p: nat)
    requires c + p <= 1040
    ensures AddPoints(c, p) == c + p
  {
  }

  lemma TotalAdd(captured: seq<nat>, seat: nat, p: nat)
    requires |captured| == 4 && seat < 4
    ensures Total(captured[seat := captured[seat] + p]) == Total(captured) + p
  {
  }

  lemma CreditConserves(b: Battle)
    requires Shape(b) && CardsConserved(b) && PointsConserved(b) && b.preOutSeat >= 0
    ensures Total(Credit(b).captured) == LogPoints(b.outed)
  {
    PointsBounded(b);
    NoWrap(b.captured[b.preOutSeat], Points(b.scoreCards));
    TotalAdd(b.captured, b.preOutSeat, Points(b.scoreCards));
  }

  lemma AdvanceConserves(b: Battle)
    requires Shape(b) && CardsConserved(b) && PointsConserved(b)
    ensures CardsConserved(AdvanceTurn(b)) && PointsConserved(AdvanceTurn(b))
  {
    var b1 := AdvanceSeat(b, b.activeSeat, 1);
    assert Points([]) == 0;
    if TrickOver(b1) { CreditConserves(b1); }
  }

  lemma AfterLayConserves(b: Battle)
    requires Shape(b) && CardsConserved(b) && PointsConserved(b)
    requires b.preOutSeat < 0 ==> b.scoreCards == []
    ensures CardsConserved(AfterLay(b)) && PointsConserved(AfterLay(b))
  {
    var seat := b.activeSeat;
    var b1 := MarkOut(b, seat);
    if b.hands[seat] == [] && !b.finished[seat] {
      if b.hands[Partner(seat)] == [] {
        assert Points([]) == 0;
        if b1.preOutSeat >= 0 { CreditConserves(b1); }
      } else {
        AdvanceConserves(b1);
      }
    } else {
      AdvanceConserves(b);
    }
  }

  lemma ActConserves(b: Battle, cards: seq<byte>)
    requires Shape(b) && CardsConserved(b) && PointsConserved(b) && Holds(b.hands[b.activeSeat], cards)
    requires b.preOutSeat < 0 ==> b.scoreCards == []
    ensures CardsConserved(Act(b, cards)) && PointsConserved(Act(b, cards))
  {
    LayConservesCards(b, cards);
    LayConservesPoints(b, cards);
    AfterLayConserves(Lay(b, cards));
  }

  // ---------------------------------------------------------------------------------
  // What an action leaves alone
  // ---------------------------------------------------------------------------------

  /** The state after an action before the next seat is looked for. */
  ghost function Marked(b: Battle, cards: seq<byte>): (r: Battle)
    requires Shape(b)
    ensures Shape(r)
  {
    var b1 := Lay(b, cards);
    if b1.hands[b1.activeSeat] == [] && !b1.finished[b1.activeSeat] then MarkOut(b1, b1.activeSeat) else b1
  }

  ghost predicate EndsPlay(b: Battle, cards: seq<byte>)
    requires Shape(b)
  {
    var b1 := Lay(b, cards);
    b1.hands[b1.activeSeat] == [] && !b1.finished[b1.activeSeat] && b1.hands[Partner(b1.activeSeat)] == []
  }

  lemma ActCases(b: Battle, cards: seq<byte>)
    requires Shape(b)
    ensures Act(b, cards) == if EndsPlay(b, cards) then EndPlay(Marked(b, cards)) else AdvanceTurn(Marked(b, cards))
  {
  }

  ghost predicate SameTable(b: Battle, r: Battle)
  {
    && r.hands == b.hands && r.outed == b.outed && r.finished == b.finished && r.ranks == b.ranks
    && r.deck == b.deck && r.timeoutAutoMove == b.timeoutAutoMove
    && ((r.tricks == b.tricks && r.lastCards == b.lastCards)
        || (r.tricks == b.tricks + [|b.outed|] && r.lastCards == []))
  }

  lemma AdvanceFrame(b: Battle)
    requires Shape(b)
    ensures SameTable(b, AdvanceTurn(b)) && AdvanceTurn(b).phase == b.phase
  {
    var b1 := AdvanceSeat(b, b.activeSeat, 1);
    if TrickOver(b1) {
      assert SameTable(b1, FinishTrick(b1));
    } else {
      assert SameTable(b1, StartAction(b1));
    }
  }

  lemma ActFrame(b: Battle, cards: seq<byte>)
    requires Shape(b)
    ensures var r := Act(b, cards);
            && SameTable(Marked(b, cards), r)
            && (if EndsPlay(b, cards) then r.phase == AwaitingSettlement && r.scoreCards == [] else r.phase == b.phase)
  {
    ActCases(b, cards);
    var b2 := Marked(b, cards);
    if EndsPlay(b, cards) {
      assert SameTable(b2, EndPlay(b2));
    } else {
      AdvanceFrame(b2);
    }
  }

  // ---------------------------------------------------------------------------------
  // The turn order
  // ---------------------------------------------------------------------------------

  /** The `n` seats after `pre`. */
  ghost function Arc(pre: nat, n: nat): set<nat>
    requires pre < 4 && n <= 7
  {
    if n == 0 then {} else Arc(pre, n - 1) + {Ring(pre + n)}
  }

  /** While playing, the active seat holds cards; when a play stands, the seats after it up
      to the active one have passed or been skipped. */
  ghost predicate TurnOrder(b: Battle)
    requires Shape(b)
  {
    b.phase == Playing ==>
      && b.hands[b.activeSeat] != []
      && (b.preOutSeat >= 0 <==> b.lastCards != [])
      && (b.preOutSeat < 0 ==> b.passCount == 0 && b.cleared == {} && b.scoreCards == [])
      && (b.preOutSeat >= 0 ==>
            && b.passCount <= 2 && b.activeSeat == Ring(b.preOutSeat + b.passCount + 1)
            && b.cleared == Arc(b.preOutSeat, b.passCount))
  }

  /** A seat is out exactly when its hand is empty, and no team is out. */
  ghost predicate TeamsIn(b: Battle)
    requires Shape(b)
  {
    b.phase == Playing ==>
      && (forall s :: 0 <= s < 4 ==> (b.finished[s] <==> b.hands[s] == []))
      && (b.hands[0] != [] || b.hands[2] != []) && (b.hands[1] != [] || b.hands[3] != [])
  }

  /** The state between an action and the search for the next seat. */
  ghost predicate Acted(b: Battle)
    requires Shape(b)
  {
    && b.preOutSeat >= 0 && b.lastCards != [] && b.passCount <= 3
    && b.activeSeat == Ring(b.preOutSeat + b.passCount)
    && b.cleared == Arc(b.preOutSeat, b.passCount)
  }

  lemma LayActs(b: Battle, cards: seq<byte>)
    requires Shape(b) && b.phase == Playing && TurnOrder(b) && (cards == [] ==> b.lastCards != [])
    ensures Acted(Lay(b, cards))
  {
    if cards == [] {
      assert Arc(b.preOutSeat, b.passCount + 1)
          == Arc(b.preOutSeat, b.passCount) + {Ring(b.preOutSeat + b.passCount + 1)};
    }
  }

  /** How many seats on from `origin` the first seat is that can act, from `step` on; 5 if
      there is none. */
  ghost function FirstSeat(hands: seq<seq<byte>>, exited: seq<bool>, origin: nat, step: nat): (k: nat)
    requires |hands| == 4 && |exited| == 4 && origin < 4 && 1 <= step <= 5
    ensures step <= k <= 5
    decreases 5 - step
  {
    if step > 4 then 5
    else if hands[Ring(origin + step)] != [] && !exited[Ring(origin + step)] then step
    else FirstSeat(hands, exited, origin, step + 1)
  }

  lemma {:induction false} AdvanceFinds(b: Battle, origin: nat, step: nat)
    requires Shape(b) && origin < 4 && 1 <= step <= 5 && b.preOutSeat >= 0
    ensures var k := FirstSeat(b.hands, b.exited, origin, step);
            var r := AdvanceSeat(b, origin, step);
            r.passCount == b.passCount + k - step
              && (k <= 4 ==> r.activeSeat == Ring(origin + k) && Eligible(b, r.activeSeat))
    decreases 5 - step
  {
    if step <= 4 && !Eligible(b, Ring(origin + step)) { AdvanceFinds(Skip(b, Ring(origin + step)), origin, step + 1); }
  }

  lemma {:induction false} AdvanceClears(b: Battle, origin: nat, step: nat)
    requires Shape(b) && origin < 4 && 1 <= step <= 5 && b.preOutSeat >= 0 && b.passCount <= step + 2
    requires b.cleared == Arc(b.preOutSeat, b.passCount) && Ring(origin + step) == Ring(b.preOutSeat + b.passCount + 1)
    ensures AdvanceSeat(b, origin, step).passCount <= 7
    ensures AdvanceSeat(b, origin, step).cleared == Arc(b.preOutSeat, AdvanceSeat(b, origin, step).passCount)
    decreases 5 - step
  {
    if step <= 4 && !Eligible(b, Ring(origin + step)) {
      ArcNext(b.preOutSeat, b.passCount);
      if step < 4 {
        RingShift(origin + step, b.preOutSeat + b.passCount + 1, 1);
        AdvanceClears(Skip(b, Ring(origin + step)), origin, step + 1);
      }
    }
  }

  lemma AdvanceSeatOrder(b: Battle, origin: nat, step: nat)
    requires Shape(b) && origin < 4 && 1 <= step <= 5 && b.preOutSeat >= 0
    requires step - 1 <= b.passCount <= step + 2 && b.cleared == Arc(b.preOutSeat, b.passCount)
    requires Ring(origin + step) == Ring(b.preOutSeat + b.passCount + 1)
    ensures var r := AdvanceSeat(b, origin, step);
            && b.passCount <= r.passCount <= 7 && r.cleared == Arc(b.preOutSeat, r.passCount)
            && (r.passCount <= 2 ==> Eligible(b, r.activeSeat) && r.activeSeat == Ring(b.preOutSeat + r.passCount + 1))
  {
    AdvanceFinds(b, origin, step);
    AdvanceClears(b, origin, step);
    var k := FirstSeat(b.hands, b.exited, origin, step);
    if k <= 4 && b.passCount + k - step <= 2 { RingShift(origin + step, b.preOutSeat + b.passCount + 1, k - step); }
  }

  lemma RingShift(m: nat, n: nat, d: nat)
    requires m + d < 12 && n + d < 12 && Ring(m) == Ring(n)
    ensures Ring(m + d) == Ring(n + d)
  {
  }

  lemma ArcNext(pre: nat, n: nat)
    requires pre < 4 && n <= 6
    ensures Arc(pre, n + 1) == Arc(pre, n) + {Ring(pre + n + 1)}
  {
  }

  lemma ArcCovers(pre: nat, n: nat)
    requires pre < 4 && n <= 7
    ensures n >= 3 <==> forall seat :: 0 <= seat < 4 && seat != pre ==> seat in Arc(pre, n)
  {
    var a, b, c := Ring(pre + 1), Ring(pre + 2), Ring(pre + 3);
    assert Arc(pre, 0) == {};
    assert Arc(pre, 1) == {a};
    assert Arc(pre, 2) == {a, b};
    assert Arc(pre, 3) == {a, b, c};
    if n >= 3 {
      ArcGrows(pre, 3, n);
    } else {
      assert c !in Arc(pre, n);
    }
  }

  lemma {:induction false} ArcGrows(pre: nat, m: nat, n: nat)
    requires pre < 4 && m <= n <= 7
    ensures Arc(pre, m) <= Arc(pre, n)
  {
    if m < n { ArcGrows(pre, m, n - 1); }
  }

  /** A trick ends exactly when every other seat has passed or been skipped as empty or
      exited since the last play. */
  lemma TrickEndsExactly(b: Battle)
    requires Shape(b) && Acted(b)
    ensures var r := AdvanceSeat(b, b.activeSeat, 1);
            TrickOver(r) <==> forall seat :: 0 <= seat < 4 && seat != b.preOutSeat ==> seat in r.cleared
  {
    AdvanceSeatOrder(b, b.activeSeat, 1);
    ArcCovers(b.preOutSeat, AdvanceSeat(b, b.activeSeat, 1).passCount);
  }

  lemma AdvanceKeepsTurn(b: Battle)
    requires Shape(b) && b.phase == Playing && Acted(b) && TeamsIn(b)
    ensures TurnOrder(AdvanceTurn(b)) && TeamsIn(AdvanceTurn(b)) && AdvanceTurn(b).phase == Playing
  {
    AdvanceSeatOrder(b, b.activeSeat, 1);
    var b1 := AdvanceSeat(b, b.activeSeat, 1);
    assert TeamsIn(b1);
    if TrickOver(b1) {
      FinishKeepsTurn(b1);
    } else {
      var r := StartAction(b1);
      assert r == b1.(verifyCode := r.verifyCode, turnRevision := r.turnRevision);
      assert TurnOrder(b1);
    }
  }

  lemma FinishKeepsTurn(b: Battle)
    requires Shape(b) && b.phase == Playing && TeamsIn(b) && b.preOutSeat >= 0
    ensures TurnOrder(FinishTrick(b)) && TeamsIn(FinishTrick(b)) && FinishTrick(b).phase == Playing
  {
    var r := FinishTrick(b);
    assert r.preOutSeat == -1 && r.lastCards == [] && r.passCount == 0 && r.cleared == {} && r.scoreCards == [];
    assert r.hands == b.hands && r.finished == b.finished;
    var winner := b.preOutSeat;
    assert Partner(winner) == if winner < 2 then winner + 2 else winner - 2;
    assert r.activeSeat == if b.hands[winner] == [] then Partner(winner) else winner;
  }

  lemma LayTeams(b: Battle, cards: seq<byte>)
    requires Shape(b) && b.phase == Playing && TurnOrder(b) && TeamsIn(b)
    ensures var r := Lay(b, cards);
            && !r.finished[r.activeSeat]
            && (forall s :: 0 <= s < 4 && s != r.activeSeat ==> (r.finished[s] <==> r.hands[s] == []))
            && forall s :: 0 <= s < 4 && s != r.activeSeat ==> r.hands[s] == b.hands[s]
  {
  }

  lemma ActKeepsTurn(b: Battle, cards: seq<byte>)
    requires Shape(b) && b.phase == Playing && TurnOrder(b) && TeamsIn(b) && (cards == [] ==> b.lastCards != [])
    ensures TurnOrder(Act(b, cards)) && TeamsIn(Act(b, cards))
  {
    ActCases(b, cards);
    if !EndsPlay(b, cards) {
      MarkedTurn(b, cards);
      AdvanceKeepsTurn(Marked(b, cards));
    }
  }

  /** An action that does not end play leaves both teams in. */
  lemma MarkedTurn(b: Battle, cards: seq<byte>)
    requires Shape(b) && b.phase == Playing && TurnOrder(b) && TeamsIn(b) && (cards == [] ==> b.lastCards != [])
    requires !EndsPlay(b, cards)
    ensures Acted(Marked(b, cards)) && TeamsIn(Marked(b, cards)) && Marked(b, cards).phase == Playing
  {
    LayActs(b, cards);
    LayTeams(b, cards);
    var b1, b2 := Lay(b, cards), Marked(b, cards);
    assert b2 == b1.(finished := b2.finished, ranks := b2.ranks);
  }

  // ---------------------------------------------------------------------------------
  // Ranks
  // ---------------------------------------------------------------------------------

  ghost predicate RankTaken(ranks: seq<nat>, r: nat) { r in ranks }

  /** The seats that are out hold the ranks 1 to their number, each exactly once. */
  ghost predicate RanksOrdered(finished: seq<bool>, ranks: seq<nat>)
    requires |finished| == 4 && |ranks| == 4
  {
    && (forall s :: 0 <= s < 4 ==> (ranks[s] > 0 <==> finished[s]))
    && (forall s :: 0 <= s < 4 ==> ranks[s] <= OutCount(finished))
    && (forall s, t :: 0 <= s < t < 4 && ranks[s] > 0 ==> ranks[s] != ranks[t])
    && (forall r :: 1 <= r <= OutCount(finished) ==> RankTaken(ranks, r))
  }

  ghost predicate RanksInOrder(b: Battle)
    requires Shape(b)
  {
    RanksOrdered(b.finished, b.ranks)
  }

  lemma NextRank(finished: seq<bool>, ranks: seq<nat>, seat: nat)
    requires |finished| == 4 && |ranks| == 4 && seat < 4 && !finished[seat] && RanksOrdered(finished, ranks)
    ensures RanksOrdered(finished[seat := true], ranks[seat := OutCount(finished[seat := true])])
  {
    var out := finished[seat := true];
    var n := OutCount(out);
    var after := ranks[seat := n];
    assert n == OutCount(finished) + 1;
    forall k | 1 <= k <= n ensures RankTaken(after, k) {
      if k == n {
        assert after[seat] == k;
      } else {
        assert RankTaken(ranks, k);
        var s :| 0 <= s < 4 && ranks[s] == k;
        assert after[s] == k;
      }
    }
  }

  lemma ActKeepsRanks(b: Battle, cards: seq<byte>)
    requires Shape(b) && RanksInOrder(b)
    ensures RanksInOrder(Act(b, cards))
  {
    ActFrame(b, cards);
    var b1 := Lay(b, cards);
    if b1.hands[b1.activeSeat] == [] && !b1.finished[b1.activeSeat] {
      NextRank(b.finished, b.ranks, b1.activeSeat);
    }
    var b2 := Marked(b, cards);
    assert RanksOrdered(b2.finished, b2.ranks);
  }

  /** Play ends with exactly one team out, which the last seat to go out completed, and with
      every point captured. */
  ghost predicate EndOfPlay(b: Battle)
    requires Shape(b)
  {
    b.phase == AwaitingSettlement ==>
      OneTeamOut(b.finished, b.hands) && LastOut(b.finished, b.ranks) && b.scoreCards == []
  }

  ghost predicate LastOut(finished: seq<bool>, ranks: seq<nat>)
    requires |finished| == 4 && |ranks| == 4
  {
    exists s :: 0 <= s < 4 && finished[s] && finished[Partner(s)] && ranks[s] == OutCount(finished)
  }

  ghost predicate OneTeamOut(finished: seq<bool>, hands: seq<seq<byte>>)
    requires |finished| == 4 && |hands| == 4
  {
    && (forall s :: 0 <= s < 4 ==> (finished[s] <==> hands[s] == []))
    && ((finished[0] && finished[2]) != (finished[1] && finished[3]))
  }

  lemma ActEndsPlay(b: Battle, cards: seq<byte>)
    requires Shape(b) && b.phase == Playing && TurnOrder(b) && TeamsIn(b)
    ensures EndOfPlay(Act(b, cards))
    ensures Act(b, cards).phase == Playing || Act(b, cards).phase == AwaitingSettlement
  {
    LayTeams(b, cards);
    ActFrame(b, cards);
    if EndsPlay(b, cards) {
      var b1, b2 := Lay(b, cards), Marked(b, cards);
      assert b2 == MarkOut(b1, b1.activeSeat);
      LastOutEnds(b1.hands, b1.finished, b1.ranks, b1.activeSeat);
    }
  }

  /** When a seat goes out and its partner is out, one team is out; the other is not, since
      it was in before. */
  lemma LastOutEnds(hands: seq<seq<byte>>, finished: seq<bool>, ranks: seq<nat>, seat: nat)
    requires |hands| == 4 && |finished| == 4 && |ranks| == 4 && seat < 4 && !finished[seat]
    requires hands[seat] == [] && hands[Partner(seat)] == []
    requires hands[Ring(seat + 1)] != [] || hands[Ring(seat + 3)] != []
    requires forall s :: 0 <= s < 4 && s != seat ==> (finished[s] <==> hands[s] == [])
    ensures var out := finished[seat := true];
            OneTeamOut(out, hands) && LastOut(out, ranks[seat := OutCount(out)])
  {
    var out := finished[seat := true];
    var now := ranks[seat := OutCount(out)];
    assert out[seat] && out[Partner(seat)] && now[seat] == OutCount(out);
  }

  // ---------------------------------------------------------------------------------
  // Every action brings the end of the subgame closer
  // ---------------------------------------------------------------------------------

  function CardsHeld(hands: seq<seq<byte>>): nat
    requires |hands| == 4
  {
    |hands[0]| + |hands[1]| + |hands[2]| + |hands[3]|
  }

  /** Four times the cards held, and the passes the standing play still allows. */
  function Measure(b: Battle): int
    requires Shape(b)
  {
    4 * CardsHeld(b.hands) + if b.preOutSeat < 0 then 0 else 3 - b.passCount
  }

  const MAX_ACTIONS := 416

  /** The verify code counts the actions of the subgame, which are bounded. */
  ghost predicate ActionsCounted(b: Battle)
    requires Shape(b)
  {
    && 0 <= Measure(b) && |b.outed| + Measure(b) <= MAX_ACTIONS
    && (b.phase == Playing ==> b.verifyCode == 3 + 2 * |b.outed|)
  }

  lemma LayMeasure(b: Battle, cards: seq<byte>)
    requires Shape(b) && b.phase == Playing && TurnOrder(b) && Holds(b.hands[b.activeSeat], cards)
    ensures CardsHeld(Lay(b, cards).hands) == CardsHeld(b.hands) - |cards|
  {
    RemoveCardsBag(b.hands[b.activeSeat], cards);
  }

  lemma AdvanceMeasure(b: Battle)
    requires Shape(b) && b.phase == Playing && Acted(b)
    ensures var r := AdvanceTurn(b);
            && r.hands == b.hands && r.outed == b.outed && r.verifyCode == Bump(b.verifyCode, 2, U32)
            && 0 <= Measure(r) - 4 * CardsHeld(b.hands) <= 3 - b.passCount
  {
    AdvanceSeatOrder(b, b.activeSeat, 1);
    var b1 := AdvanceSeat(b, b.activeSeat, 1);
    if TrickOver(b1) {
      var r := FinishTrick(b1);
      assert r.preOutSeat == -1 && r.hands == b.hands;
    } else {
      var r := StartAction(b1);
      assert r.preOutSeat == b.preOutSeat && r.passCount == b1.passCount;
    }
  }

  lemma MeasureDrops(b: Battle, cards: seq<byte>)
    requires Shape(b) && b.phase == Playing && TurnOrder(b) && TeamsIn(b)
    requires Holds(b.hands[b.activeSeat], cards) && (cards == [] ==> b.lastCards != [])
    ensures 0 <= Measure(Act(b, cards)) < Measure(b)
    ensures Act(b, cards).outed == b.outed + [cards]
    ensures Act(b, cards).phase == Playing ==> Act(b, cards).verifyCode == Bump(b.verifyCode, 2, U32)
  {
    LayMeasure(b, cards);
    LayActs(b, cards);
    LayTeams(b, cards);
    var b1 := Lay(b, cards);
    var seat := b1.activeSeat;
    assert 4 * CardsHeld(b1.hands) + 3 - b1.passCount < Measure(b);
    if b1.hands[seat] == [] {
      var b2 := MarkOut(b1, seat);
      if b1.hands[Partner(seat)] == [] {
        var r := EndPlay(b2);
        assert r.hands == b1.hands && r.preOutSeat == b1.preOutSeat && r.passCount == b1.passCount;
      } else {
        AdvanceMeasure(b2);
      }
    } else {
      AdvanceMeasure(b1);
    }
  }

  lemma ActKeepsCount(b: Battle, cards: seq<byte>)
    requires Shape(b) && b.phase == Playing && TurnOrder(b) && TeamsIn(b) && ActionsCounted(b)
    requires Holds(b.hands[b.activeSeat], cards) && (cards == [] ==> b.lastCards != [])
    ensures ActionsCounted(Act(b, cards))
  {
    MeasureDrops(b, cards);
  }

  // ---------------------------------------------------------------------------------
  // The plays of a trick
  // ---------------------------------------------------------------------------------

  /** The last play of a log of actions, empty when there are only passes. */
  function LastPlay(log: seq<seq<byte>>): seq<byte>
  {
    if log == [] then [] else if log[|log| - 1] != [] then log[|log| - 1] else LastPlay(log[..|log| - 1])
  }

  /** Each play is legal and beats the play before it. */
  ghost predicate Ascending(log: seq<seq<byte>>)
  {
    log == [] ||
    (var rest, last := log[..|log| - 1], log[|log| - 1];
     Ascending(rest)
     && (last != [] ==> PatternOf(last).Some? && (LastPlay(rest) != [] ==> Beats(last, LastPlay(rest)))))
  }

  lemma {:induction false} LastPlayBeats(log: seq<seq<byte>>, i: nat)
    requires Ascending(log) && i < |log| && log[i] != []
    ensures LastPlay(log) != [] && (LastPlay(log) == log[i] || Beats(LastPlay(log), log[i]))
  {
    var rest, last := log[..|log| - 1], log[|log| - 1];
    if i < |log| - 1 {
      assert rest[i] == log[i];
      LastPlayBeats(rest, i);
      if last != [] { BeatsIsStrictOrder(last, LastPlay(rest), log[i]); }
    }
  }

  /** In an ascending log every play beats every earlier play. */
  lemma {:induction false} AscendingPairs(log: seq<seq<byte>>, i: nat, j: nat)
    requires Ascending(log) && i < j < |log| && log[i] != [] && log[j] != []
    ensures Beats(log[j], log[i])
  {
    var rest := log[..|log| - 1];
    assert rest[i] == log[i];
    if j < |log| - 1 {
      assert rest[j] == log[j];
      AscendingPairs(rest, i, j);
    } else {
      LastPlayBeats(rest, i);
      if LastPlay(rest) != log[i] { BeatsIsStrictOrder(log[j], LastPlay(rest), log[i]); }
    }
  }

  function TrickEnd(log: seq<seq<byte>>, tricks: seq<nat>, i: nat): nat
    requires i < |tricks|
  {
    if i + 1 < |tricks| then tricks[i + 1] else |log|
  }

  ghost predicate TrickAscends(log: seq<seq<byte>>, tricks: seq<nat>, i: nat)
    requires i < |tricks|
  {
    tricks[i] <= TrickEnd(log, tricks, i) <= |log| && Ascending(log[tricks[i]..TrickEnd(log, tricks, i)])
  }

  ghost predicate AllAscend(log: seq<seq<byte>>, tricks: seq<nat>)
  {
    forall i :: 0 <= i < |tricks| ==> TrickAscends(log, tricks, i)
  }

  function CurrentTrick(log: seq<seq<byte>>, tricks: seq<nat>): seq<seq<byte>>
  {
    if tricks != [] && tricks[|tricks| - 1] <= |log| then log[tricks[|tricks| - 1]..] else []
  }

  /** Every trick of the subgame is an ascending log, and `lastCards` is its last play. */
  ghost predicate TricksAscend(b: Battle)
    requires Shape(b)
  {
    && b.tricks != [] && AllAscend(b.outed, b.tricks)
    && (b.phase == Playing ==> LastPlay(CurrentTrick(b.outed, b.tricks)) == b.lastCards)
  }

  lemma NextPlayAscends(log: seq<seq<byte>>, cards: seq<byte>)
    requires Ascending(log)
    requires cards != [] ==> PatternOf(cards).Some? && (LastPlay(log) != [] ==> Beats(cards, LastPlay(log)))
    ensures Ascending(log + [cards])
    ensures LastPlay(log + [cards]) == if cards != [] then cards else LastPlay(log)
  {
    assert (log + [cards])[..|log|] == log;
  }

  lemma ExtendTrick(log: seq<seq<byte>>, tricks: seq<nat>, cards: seq<byte>)
    requires tricks != [] && AllAscend(log, tricks)
    requires var last := LastPlay(CurrentTrick(log, tricks));
             cards != [] ==> PatternOf(cards).Some? && (last != [] ==> Beats(cards, last))
    ensures AllAscend(log + [cards], tricks)
    ensures CurrentTrick(log + [cards], tricks) == CurrentTrick(log, tricks) + [cards]
  {
    assert TrickAscends(log, tricks, |tricks| - 1);
    SliceAppend(log, cards, tricks[|tricks| - 1]);
    assert CurrentTrick(log + [cards], tricks) == CurrentTrick(log, tricks) + [cards];
    ExtendLast(log, tricks, cards);
    forall i | 0 <= i < |tricks| ensures TrickAscends(log + [cards], tricks, i) {
      assert TrickAscends(log, tricks, i);
      if i < |tricks| - 1 { EarlierTrick(log, tricks, cards, i); }
    }
  }

  lemma EarlierTrick(log: seq<seq<byte>>, tricks: seq<nat>, cards: seq<byte>, i: nat)
    requires i < |tricks| - 1 && TrickAscends(log, tricks, i)
    ensures TrickAscends(log + [cards], tricks, i)
  {
    SlicePrefix(log, cards, tricks[i], tricks[i + 1]);
  }

  lemma ExtendLast(log: seq<seq<byte>>, tricks: seq<nat>, cards: seq<byte>)
    requires tricks != [] && TrickAscends(log, tricks, |tricks| - 1)
    requires var last := LastPlay(CurrentTrick(log, tricks));
             cards != [] ==> PatternOf(cards).Some? && (last != [] ==> Beats(cards, last))
    ensures TrickAscends(log + [cards], tricks, |tricks| - 1)
  {
    var start := tricks[|tricks| - 1];
    var now := CurrentTrick(log, tricks);
    assert log[start..|log|] == now;
    NextPlayAscends(now, cards);
    SliceAppend(log, cards, start);
    assert log[start..] == now;
    assert (log + [cards])[start..|log| + 1] == now + [cards];
  }

  lemma SlicePrefix(log: seq<seq<byte>>, cards: seq<byte>, i: nat, j: nat)
    requires i <= j <= |log|
    ensures (log + [cards])[i..j] == log[i..j]
  {
  }

  lemma SliceAppend(log: seq<seq<byte>>, cards: seq<byte>, i: nat)
    requires i <= |log|
    ensures (log + [cards])[i..|log| + 1] == log[i..] + [cards]
  {
  }

  /** Closing a trick opens an empty one. */
  lemma CloseTrick(log: seq<seq<byte>>, tricks: seq<nat>)
    requires AllAscend(log, tricks)
    ensures AllAscend(log, tricks + [|log|]) && CurrentTrick(log, tricks + [|log|]) == []
  {
    var more := tricks + [|log|];
    forall i | 0 <= i < |more| ensures TrickAscends(log, more, i) {
      if i < |tricks| {
        assert TrickAscends(log, tricks, i) && TrickEnd(log, more, i) == TrickEnd(log, tricks, i);
      } else {
        assert log[more[i]..TrickEnd(log, more, i)] == [];
      }
    }
  }

  /** The log after an action, with its trick open or closed. */
  lemma TrickAfter(log: seq<seq<byte>>, tricks: seq<nat>, last: seq<byte>, cards: seq<byte>)
    requires tricks != [] && AllAscend(log, tricks) && LastPlay(CurrentTrick(log, tricks)) == last
    requires cards != [] ==> PatternOf(cards).Some? && (last != [] ==> Beats(cards, last))
    ensures AllAscend(log + [cards], tricks) && AllAscend(log + [cards], tricks + [|log| + 1])
    ensures LastPlay(CurrentTrick(log + [cards], tricks)) == if cards != [] then cards else last
    ensures CurrentTrick(log + [cards], tricks + [|log| + 1]) == []
  {
    var now := CurrentTrick(log, tricks);
    ExtendTrick(log, tricks, cards);
    assert Ascending(now) by {
      var n := |tricks| - 1;
      assert TrickAscends(log, tricks, n);
      assert log[tricks[n]..TrickEnd(log, tricks, n)] == now;
    }
    NextPlayAscends(now, cards);
    CloseTrick(log + [cards], tricks);
  }

  lemma ActKeepsTricks(b: Battle, cards: seq<byte>)
    requires Shape(b) && b.phase == Playing && TricksAscend(b) && LegalCards(b, cards)
    ensures TricksAscend(Act(b, cards))
  {
    ActFrame(b, cards);
    MarkedLog(b, cards);
    TrickAfter(b.outed, b.tricks, b.lastCards, cards);
    TricksFrame(Marked(b, cards), Act(b, cards));
  }

  lemma MarkedLog(b: Battle, cards: seq<byte>)
    requires Shape(b)
    ensures Marked(b, cards).outed == b.outed + [cards] && Marked(b, cards).tricks == b.tricks
    ensures Marked(b, cards).lastCards == if cards != [] then cards else b.lastCards
  {
  }

  lemma TricksFrame(b: Battle, r: Battle)
    requires Shape(r) && SameTable(b, r) && b.tricks != []
    requires AllAscend(b.outed, b.tricks) && LastPlay(CurrentTrick(b.outed, b.tricks)) == b.lastCards
    requires AllAscend(b.outed, b.tricks + [|b.outed|]) && CurrentTrick(b.outed, b.tricks + [|b.outed|]) == []
    ensures TricksAscend(r)
  {
  }
}
