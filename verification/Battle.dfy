/** The battle service: its fields, updated in place by every command, each command proved
    to make the corresponding step of the model. */
module NHSKBattle {
  import opened Cards
  import opened Deal
  import M = BattleModel
  import I = BattleInvariants

  /** Removes the first card equal to `card`. */
  method RemoveFirst(hand: seq<byte>, card: byte) returns (found: bool, rest: seq<byte>)
    ensures found <==> card in hand
    ensures rest == M.RemoveOne(hand, card)
  {
    for index := 0 to |hand|
      invariant card !in hand[..index]
      invariant M.RemoveOne(hand, card) == hand[..index] + M.RemoveOne(hand[index..], card)
    {
      if hand[index] == card {
        assert hand[index..][1..] == hand[index + 1..];
        return true, hand[..index] + hand[index + 1..];
      }
      assert hand[index..][1..] == hand[index + 1..];
      assert hand[..index] + ([hand[index]] + M.RemoveOne(hand[index + 1..], card))
          == hand[..index + 1] + M.RemoveOne(hand[index + 1..], card);
    }
    assert hand[..|hand|] == hand;
    return false, hand;
  }

  lemma RemoveCardsStep(hand: seq<byte>, cards: seq<byte>, i: nat)
    requires i < |cards|
    ensures M.RemoveCards(hand, cards[i..]) == M.RemoveCards(M.RemoveOne(hand, cards[i]), cards[i + 1..])
  {
    assert cards[i..][1..] == cards[i + 1..];
  }

  method RemoveAll(hand: seq<byte>, cards: seq<byte>) returns (rest: seq<byte>)
    ensures rest == M.RemoveCards(hand, cards)
  {
    rest := hand;
    assert cards[0..] == cards;
    for i := 0 to |cards|
      invariant M.RemoveCards(hand, cards) == M.RemoveCards(rest, cards[i..])
    {
      RemoveCardsStep(rest, cards, i);
      var found;
      found, rest := RemoveFirst(rest, cards[i]);
    }
  }

  lemma MissingCard(hand: seq<byte>, cards: seq<byte>, i: nat, left: seq<byte>)
    requires i < |cards| && multiset(left) + multiset(cards[..i]) == multiset(hand) && cards[i] !in left
    ensures !M.Holds(hand, cards)
  {
    var card := cards[i];
    assert cards[..i + 1] == cards[..i] + [card];
    assert cards == cards[..i + 1] + cards[i + 1..];
    assert multiset(cards)[card] >= multiset(cards[..i + 1])[card] > multiset(hand)[card];
  }

  /** Whether the hand holds all the cards, counting copies. */
  method HoldsAll(hand: seq<byte>, cards: seq<byte>) returns (ok: bool)
    ensures ok <==> M.Holds(hand, cards)
  {
    var left := hand;
    for i := 0 to |cards|
      invariant multiset(left) + multiset(cards[..i]) == multiset(hand)
    {
      var found, rest := RemoveFirst(left, cards[i]);
      if !found {
        MissingCard(hand, cards, i, left);
        return false;
      }
      I.RemoveOneBag(left, cards[i]);
      assert cards[..i + 1] == cards[..i] + [cards[i]];
      left := rest;
    }
    assert cards[..|cards|] == cards;
    return true;
  }

  lemma SearchStep(b: M.Battle, origin: nat, step: nat, seat: nat)
    requires M.Shape(b) && origin < 4 && 1 <= step <= 4 && seat == M.Ring(origin + step)
    ensures M.AdvanceSeat(b, origin, step) ==
            if b.hands[seat] != [] && !b.exited[seat] then b.(activeSeat := seat)
            else M.AdvanceSeat(M.Skip(b, seat), origin, step + 1)
  {
  }

  class BattleService {
    var phase: M.Phase
    var gameNum: nat
    var subgameNum: nat
    var exited: seq<bool>
    var automated: seq<bool>
    var auto: seq<bool>
    const timeoutAutoMove: bool
    var hands: seq<seq<byte>>
    var activeSeat: nat
    var verifyCode: nat
    var turnRevision: nat
    var lastCards: seq<byte>
    var preOutSeat: int
    var passCount: nat
    var scoreCards: seq<byte>
    var captured: seq<nat>
    var outed: seq<seq<byte>>
    var finished: seq<bool>
    var ranks: seq<nat>
    ghost var deck: seq<byte>
    ghost var cleared: set<nat>
    ghost var tricks: seq<nat>

    ghost function Abs(): M.Battle
      reads this
    {
      M.Battle(phase, gameNum, subgameNum, exited, automated, auto, timeoutAutoMove, hands, activeSeat, verifyCode,
               turnRevision, lastCards, preOutSeat, passCount, scoreCards, captured, outed, finished, ranks,
               deck, cleared, tricks)
    }

    ghost predicate Valid()
      reads this
    {
      M.Shape(Abs())
    }

    constructor (timeoutAutoMove: bool, exited: seq<bool>, automated: seq<bool>)
      requires |exited| == 4 && |automated| == 4
      ensures Valid() && M.IsFresh(Abs())
    {
      phase, gameNum, subgameNum := M.AwaitingInit, 0, 0;
      this.exited, this.automated, auto := exited, automated, [false, false, false, false];
      this.timeoutAutoMove := timeoutAutoMove;
      hands, activeSeat, verifyCode, turnRevision := [[], [], [], []], 0, 0, 0;
      lastCards, preOutSeat, passCount, scoreCards := [], -1, 0, [];
      captured, outed, finished, ranks := [0, 0, 0, 0], [], [false, false, false, false], [0, 0, 0, 0];
      deck, cleared, tricks := [], {}, [0];
    }

    method DropPlay()
      requires Valid()
      modifies this`lastCards, this`preOutSeat, this`passCount
      ensures Valid() && Abs() == old(Abs()).(lastCards := [], preOutSeat := -1, passCount := 0)
    {
      lastCards := [];
      preOutSeat := -1;
      passCount := 0;
    }

    method ResetTrick()
      requires Valid()
      modifies this`lastCards, this`preOutSeat, this`passCount, this`scoreCards, this`cleared, this`tricks
      ensures Valid() && Abs() == M.ResetTrick(old(Abs()))
    {
      DropPlay();
      scoreCards := [];
      cleared := {};
      tricks := tricks + [|outed|];
    }

    method StartAction()
      requires Valid()
      modifies this
      ensures Valid() && Abs() == M.StartAction(old(Abs()))
    {
      verifyCode := M.Bump(verifyCode, 2, U32);
      turnRevision := M.Bump(turnRevision, 1, M.U64);
    }

    method SkipSeat(seat: nat)
      requires Valid()
      modifies this`passCount, this`cleared
      ensures Valid() && Abs() == M.Skip(old(Abs()), seat)
    {
      if preOutSeat >= 0 {
        passCount := passCount + 1;
        cleared := cleared + {seat};
      }
    }

    /** The next seat that can act; a seat passed over while a play stands counts as a pass. */
    method AdvanceSeat()
      requires Valid()
      modifies this`activeSeat, this`passCount, this`cleared
      ensures Valid() && Abs() == M.AdvanceSeat(old(Abs()), old(activeSeat), 1)
    {
      var origin := activeSeat;
      ghost var r := M.AdvanceSeat(Abs(), origin, 1);
      for step := 1 to 5
        invariant Valid() && activeSeat == origin
        invariant r == M.AdvanceSeat(Abs(), origin, step)
      {
        var seat := (origin + step) % 4;
        assert seat == M.Ring(origin + step);
        SearchStep(Abs(), origin, step, seat);
        if |hands[seat]| > 0 && !exited[seat] {
          activeSeat := seat;
          return;
        }
        SkipSeat(seat);
      }
    }

    method CreditTrick(seat: nat)
      requires Valid() && preOutSeat >= 0 && seat == preOutSeat
      modifies this`captured
      ensures Valid() && Abs() == M.Credit(old(Abs()))
    {
      var points, _ := ScoreCardsIn(scoreCards);
      assert M.AddPoints(captured[seat], points) == M.AddPoints(captured[seat], Points(scoreCards));
      captured := captured[seat := (captured[seat] + points) % M.U16];
    }

    method FinishTrick()
      requires Valid()
      modifies this
      ensures Valid() && Abs() == M.FinishTrick(old(Abs()))
    {
      if preOutSeat < 0 {
        return;
      }
      var winner := preOutSeat;
      CreditTrick(winner);
      activeSeat := if |hands[winner]| == 0 then (winner + 2) % 4 else winner;
      ResetTrick();
      StartAction();
    }

    method AdvanceTurn()
      requires Valid()
      modifies this
      ensures Valid() && Abs() == M.AdvanceTurn(old(Abs()))
    {
      AdvanceSeat();
      if preOutSeat >= 0 && passCount >= 3 {
        FinishTrick();
      } else {
        StartAction();
      }
    }

    method AwardFinalScoreCards()
      requires Valid()
      modifies this`captured, this`scoreCards
      ensures Valid() && Abs() == M.AwardFinal(old(Abs()))
    {
      if preOutSeat >= 0 {
        CreditTrick(preOutSeat);
      }
      scoreCards := [];
    }

    method FinishedCount() returns (count: nat)
      requires Valid()
      ensures count == M.OutCount(finished)
    {
      count := 0;
      for seat := 0 to 4
        invariant count == (if seat > 0 && finished[0] then 1 else 0) + (if seat > 1 && finished[1] then 1 else 0)
                         + (if seat > 2 && finished[2] then 1 else 0) + (if seat > 3 && finished[3] then 1 else 0)
      {
        if finished[seat] {
          count := count + 1;
        }
      }
    }

    method ValidateCards(seat: nat, cards: seq<byte>) returns (ok: bool)
      requires Valid() && seat < 4
      ensures ok <==> (cards != [] ==> PatternOf(cards).Some? && M.Holds(hands[seat], cards))
    {
      if |cards| == 0 {
        return true;
      }
      var pattern := Classify(cards);
      if pattern.None? {
        return false;
      }
      ok := HoldsAll(hands[seat], cards);
    }

    method StandPlay(cards: seq<byte>)
      requires Valid()
      modifies this`lastCards, this`preOutSeat, this`passCount
      ensures Valid() && Abs() == old(Abs()).(lastCards := cards, preOutSeat := activeSeat, passCount := 0)
    {
      lastCards := cards;
      preOutSeat := activeSeat;
      passCount := 0;
    }

    method TakeFromHand(cards: seq<byte>)
      requires Valid()
      modifies this`hands, this`outed
      ensures Valid()
      ensures Abs() == old(Abs()).(hands := old(hands)[activeSeat := M.RemoveCards(old(hands)[activeSeat], cards)],
                       outed := old(outed) + [cards])
    {
      var rest := RemoveAll(hands[activeSeat], cards);
      hands := hands[activeSeat := rest];
      outed := outed + [cards];
    }

    /** Takes the cards from the active hand and records the play or the pass. */
    method LayCards(cards: seq<byte>)
      requires Valid()
      modifies this
      ensures Valid() && Abs() == M.Lay(old(Abs()), cards)
    {
      TakeFromHand(cards);
      if |cards| > 0 {
        StandPlay(cards);
        cleared := {};
        var _, scoring := ScoreCardsIn(cards);
        scoreCards := scoreCards + scoring;
      } else {
        passCount := passCount + 1;
        cleared := cleared + {activeSeat};
      }
    }

    method MarkOut(seat: nat)
      requires Valid() && seat < 4
      modifies this`finished, this`ranks
      ensures Valid() && Abs() == M.MarkOut(old(Abs()), seat)
    {
      finished := finished[seat := true];
      var count := FinishedCount();
      ranks := ranks[seat := count];
    }

    method AfterLay()
      requires Valid()
      modifies this
      ensures Valid() && Abs() == M.AfterLay(old(Abs()))
    {
      var seat := activeSeat;
      if |hands[seat]| == 0 && !finished[seat] {
        MarkOut(seat);
        var partner := (seat + 2) % 4;
        if |hands[partner]| == 0 {
          AwardFinalScoreCards();
          phase := M.AwaitingSettlement;
        } else {
          AdvanceTurn();
        }
      } else {
        AdvanceTurn();
      }
    }

    method PlayWithSource(request: M.Request, source: M.Source) returns (reply: M.Reply)
      requires Valid()
      modifies this
      ensures Valid()
      ensures reply == M.PlayReply(old(Abs()), request)
      ensures Abs() == M.Play(old(Abs()), request, source)
    {
      if phase != M.Playing {
        return M.Rejected(M.NotPlaying);
      }
      if request.player != activeSeat {
        return M.Rejected(M.NotActive);
      }
      if request.verifyCode == 0 || request.verifyCode != verifyCode {
        return M.Rejected(M.StaleVerifyCode);
      }
      if |request.cards| > 8 {
        return M.Rejected(M.CardCount);
      }
      if |request.cards| == 0 && |lastCards| == 0 {
        return M.Rejected(M.FirstPlayCannotPass);
      }
      var legal := LegalNow(request.cards);
      if !legal {
        return M.Rejected(M.CardType);
      }
      if source == M.ByPlayer {
        auto := auto[activeSeat := false];
      }
      LayCards(request.cards);
      AfterLay();
      return M.Accepted;
    }

    method LegalNow(cards: seq<byte>) returns (legal: bool)
      requires Valid()
      ensures legal <==> M.LegalCards(Abs(), cards)
    {
      legal := ValidateCards(activeSeat, cards);
      if legal && |cards| > 0 && |lastCards| > 0 {
        var order := CompareCardSets(cards, lastCards);
        legal := order > 0;
      }
    }

    method LocalAutoCards(seat: nat) returns (cards: seq<byte>)
      requires Valid() && seat < 4
      ensures cards == M.AutoCards(Abs(), seat)
    {
      if |lastCards| != 0 || |hands[seat]| == 0 {
        return [];
      }
      var hand := hands[seat];
      var card := hand[0];
      for i := 1 to |hand|
        invariant card == M.Lowest(hand[..i])
      {
        assert hand[..i + 1][..i] == hand[..i];
        if M.Lower(hand[i], card) {
          card := hand[i];
        }
      }
      assert hand[..|hand|] == hand;
      return [card];
    }

    method Prepare(game: nat, subgame: nat) returns (accepted: bool)
      requires Valid()
      modifies this
      ensures Valid() && Abs() == M.Step(old(Abs()), M.Prepare(game, subgame))
      ensures accepted <==>
        game != 0 && subgame != 0 && phase == M.Preparing && gameNum == game && subgameNum == subgame
    {
      if phase == M.Stopping || game == 0 || subgame == 0 {
        return false;
      }
      if phase == M.Preparing && gameNum == game && subgameNum == subgame {
        return true;
      }
      if phase != M.AwaitingInit && phase != M.Finished && phase != M.Preparing {
        return false;
      }
      gameNum, subgameNum, phase := game, subgame, M.Preparing;
      return true;
    }

    /** Deals and opens the first action.  `dealt` is the deck after shuffling and adjusting. */
    method Start(banker: nat, custom: Option<seq<byte>>, swaps: seq<(nat, nat)>, isNewbie: bool, newPlayerSeat: int,
                 singleCountToSwap: int)
      returns (accepted: bool, dealt: seq<byte>)
      requires Valid() && banker < 4
      modifies this
      ensures Valid() && |dealt| == DECK_SIZE
      ensures Abs() == M.Step(old(Abs()), M.Start(banker, dealt))
      ensures accepted && custom.None? ==> Shuffled(dealt)
      ensures accepted <==> old(phase) == M.Preparing
    {
      dealt := PrepareDeck(custom, swaps, isNewbie, newPlayerSeat, singleCountToSwap);
      if phase != M.Preparing {
        return false, dealt;
      }
      var h := DealDeck(banker, dealt);
      ClearTable(banker, dealt, h);
      ResetTrick();
      StartAction();
      return true, dealt;
    }

    method ClearRecords()
      requires Valid()
      modifies this`captured, this`outed, this`finished
      ensures Valid()
      ensures Abs() == old(Abs()).(captured := [0, 0, 0, 0], outed := [], finished := [false, false, false, false])
    {
      captured := [0, 0, 0, 0];
      outed := [];
      finished := [false, false, false, false];
    }

    method ClearRanks(dealt: seq<byte>)
      requires Valid()
      modifies this`ranks, this`deck, this`tricks
      ensures Valid() && Abs() == old(Abs()).(ranks := [0, 0, 0, 0], deck := dealt, tricks := [])
    {
      ranks := [0, 0, 0, 0];
      deck := dealt;
      tricks := [];
    }

    method OpenTable(banker: nat, h: seq<seq<byte>>)
      requires Valid() && banker < 4 && |h| == 4
      modifies this`phase, this`hands, this`activeSeat, this`verifyCode
      ensures Valid() && Abs() == old(Abs()).(phase := M.Playing, hands := h, activeSeat := banker, verifyCode := 1)
    {
      hands := h;
      phase := M.Playing;
      activeSeat := banker;
      verifyCode := 1;
    }

    method ClearTable(banker: nat, dealt: seq<byte>, h: seq<seq<byte>>)
      requires Valid() && banker < 4 && |dealt| == DECK_SIZE && h == DealHands(dealt, banker)
      modifies this
      ensures Valid() && Abs() == M.Dealt(old(Abs()), banker, dealt)
    {
      OpenTable(banker, h);
      ClearRecords();
      ClearRanks(dealt);
    }

    method FireTimer(revision: nat, source: M.Source, cards: seq<byte>)
      requires Valid()
      modifies this
      ensures Valid() && Abs() == M.FireTimer(old(Abs()), revision, source, cards)
    {
      if revision != turnRevision || phase != M.Playing {
        return;
      }
      var seat := activeSeat;
      if |hands[seat]| == 0 {
        return;
      }
      if source == M.ByTimeout && !auto[seat] && !automated[seat] {
        if !timeoutAutoMove {
          return;
        }
        auto := auto[seat := true];
      }
      var move := cards;
      if source != M.ByAI {
        move := LocalAutoCards(seat);
      }
      var _ := PlayWithSource(M.Request(seat, move, verifyCode), source);
    }

    method ApplyAIResult(c: M.Command)
      requires Valid() && c.AIResult?
      modifies this
      ensures Valid() && Abs() == M.ApplyAIResult(old(Abs()), c)
    {
      if !c.valid || phase != M.Playing || c.gameNum != gameNum || c.subgameNum != subgameNum
         || c.revision != turnRevision || c.verifyCode != verifyCode || c.seat != activeSeat {
        return;
      }
      if |c.cards| > 8 || (|c.cards| == 0 && |lastCards| == 0) {
        return;
      }
      var legal := LegalNow(c.cards);
      if !legal {
        return;
      }
      turnRevision := M.Bump(turnRevision, 1, M.U64);
      if !automated[activeSeat] && c.wait {
        return;
      }
      var _ := PlayWithSource(M.Request(activeSeat, c.cards, verifyCode), M.ByAI);
    }

    method SetAuto(player: nat, enabled: bool, early: bool)
      requires Valid() && player < 4
      modifies this
      ensures Valid() && Abs() == M.ChangeAuto(old(Abs()), M.SetAuto(player, enabled, early))
    {
      if phase != M.Playing {
        return;
      }
      auto := auto[player := enabled];
      if enabled && player == activeSeat && early {
        turnRevision := M.Bump(turnRevision, 1, M.U64);
        var cards := LocalAutoCards(player);
        var _ := PlayWithSource(M.Request(player, cards, verifyCode), M.ByAuto);
      }
    }

    method ForceFinish(written: bool)
      requires Valid() && phase != M.Stopping
      modifies this
      ensures Valid() && Abs() == M.Step(old(Abs()), M.ForceFinish(written))
    {
      if phase == M.Playing || phase == M.AwaitingSettlement {
        turnRevision := M.Bump(turnRevision, 1, M.U64);
        phase := if written then M.Finished else M.FinalizingReplay;
      }
    }
  }
}
