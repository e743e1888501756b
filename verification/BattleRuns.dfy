/** What holds over every run of commands: the safety of all reachable battles, the bound on
    a subgame, the automatic moves that always finish one, and the fences against stale
    requests, timers and AI results. */
module BattleRuns {
  import opened Cards
  import opened Deal
  import opened BattleModel
  import opened BattleInvariants

  ghost predicate Inv(b: Battle)
  {
    && Shape(b)
    && CardsConserved(b) && PointsConserved(b)
    && TurnOrder(b) && TeamsIn(b)
    && RanksInOrder(b) && EndOfPlay(b)
    && ActionsCounted(b) && TricksAscend(b)
  }

  // ---------------------------------------------------------------------------------
  // Every step keeps the invariant
  // ---------------------------------------------------------------------------------

  /** A step that touches only flags, counters of rounds and the turn revision, or leaves
      the phases in which the table is in use. */
  ghost predicate SameGame(b: Battle, r: Battle)
  {
    && r == b.(phase := r.phase, gameNum := r.gameNum, subgameNum := r.subgameNum, exited := r.exited,
               automated := r.automated, auto := r.auto, turnRevision := r.turnRevision)
    && (r.phase == b.phase || (r.phase != Playing && r.phase != AwaitingSettlement))
  }

  lemma SameGameInv(b: Battle, r: Battle)
    requires Inv(b) && Shape(r) && SameGame(b, r)
    ensures Inv(r)
  {
  }

  lemma ActInv(b: Battle, cards: seq<byte>)
    requires Inv(b) && b.phase == Playing && LegalCards(b, cards) && (cards == [] ==> b.lastCards != [])
    ensures Inv(Act(b, cards))
  {
    assert Holds(b.hands[b.activeSeat], cards);
    ActConserves(b, cards);
    ActKeepsTurn(b, cards);
    ActKeepsRanks(b, cards);
    ActEndsPlay(b, cards);
    ActKeepsCount(b, cards);
    ActKeepsTricks(b, cards);
  }

  lemma PlayInv(b: Battle, request: Request, source: Source)
    requires Inv(b)
    ensures Inv(Play(b, request, source))
  {
    if PlayReply(b, request) == Accepted {
      var b1 := TakeOver(b, source);
      SameGameInv(b, b1);
      ActInv(b1, request.cards);
    }
  }

  lemma StartInv(b: Battle, banker: nat, dealt: seq<byte>)
    requires Inv(b) && banker < SEATS && |dealt| == DECK_SIZE
    ensures Inv(StartSubgame(b, banker, dealt))
  {
    var r := StartSubgame(b, banker, dealt);
    assert r.tricks == [0];
    DealIsWholeDeck(dealt, banker);
    NewTableInv(r);
  }

  /** A table on which nothing has been played yet. */
  ghost predicate NewTable(r: Battle)
  {
    && Shape(r) && r.phase == Playing && r.verifyCode == 3
    && (forall s :: 0 <= s < 4 ==> |r.hands[s]| == HAND_SIZE) && AllHands(r.hands) == multiset(r.deck)
    && r.lastCards == [] && r.preOutSeat == -1 && r.passCount == 0 && r.scoreCards == [] && r.cleared == {}
    && r.captured == [0, 0, 0, 0] && r.ranks == [0, 0, 0, 0] && r.finished == [false, false, false, false]
    && r.outed == [] && r.tricks == [0]
  }

  lemma NewTableInv(r: Battle)
    requires NewTable(r)
    ensures Inv(r)
  {
    assert AllHands(r.hands) + LogBag([]) == multiset(r.deck);
    assert TrickAscends([], [0], 0);
    assert CardsConserved(r) && PointsConserved(r);
    assert RanksInOrder(r) && EndOfPlay(r) && TricksAscend(r);
  }

  lemma TimerInv(b: Battle, revision: nat, source: Source, cards: seq<byte>)
    requires Inv(b)
    ensures Inv(FireTimer(b, revision, source, cards))
  {
    var seat := b.activeSeat;
    var idle := source == ByTimeout && !b.auto[seat] && !b.automated[seat];
    var b1 := if idle then b.(auto := b.auto[seat := true]) else b;
    SameGameInv(b, b1);
    var move := if source == ByAI then cards else AutoCards(b1, seat);
    PlayInv(b1, Request(seat, move, b1.verifyCode), source);
  }

  lemma AIInv(b: Battle, c: Command)
    requires Inv(b) && c.AIResult?
    ensures Inv(ApplyAIResult(b, c))
  {
    var b1 := b.(turnRevision := Bump(b.turnRevision, 1, U64));
    SameGameInv(b, b1);
    PlayInv(b1, Request(b.activeSeat, c.cards, b1.verifyCode), ByAI);
  }

  lemma AutoInv(b: Battle, c: Command)
    requires Inv(b) && c.SetAuto? && c.player < 4
    ensures Inv(ChangeAuto(b, c))
  {
    var b1 := b.(auto := b.auto[c.player := c.enabled]);
    var b2 := b1.(turnRevision := Bump(b.turnRevision, 1, U64));
    SameGameInv(b, b1);
    SameGameInv(b, b2);
    PlayInv(b2, AutoRequest(b2), ByAuto);
  }

  predicate TableCommand(c: Command)
  {
    c.Start? || c.PlayCards? || c.Timer? || c.AIResult? || c.SetAuto?
  }

  lemma OtherStep(b: Battle, c: Command)
    requires Shape(b) && WellFormed(c) && !TableCommand(c)
    ensures SameGame(b, Step(b, c))
  {
  }

  lemma StepInv(b: Battle, c: Command)
    requires Inv(b) && WellFormed(c)
    ensures Inv(Step(b, c))
  {
    if b.phase != Stopping {
      if !TableCommand(c) {
        OtherStep(b, c);
        SameGameInv(b, Step(b, c));
      } else {
        TableStepInv(b, c);
      }
    }
  }

  lemma TableStepInv(b: Battle, c: Command)
    requires Inv(b) && WellFormed(c) && TableCommand(c)
    ensures Inv(Step(b, c))
  {
    if b.phase != Stopping {
      match c
      case Start(banker, dealt) => StartInv(b, banker, dealt);
      case PlayCards(request) => PlayInv(b, request, ByPlayer);
      case Timer(revision, source, cards) => TimerInv(b, revision, source, cards);
      case AIResult(_, _, _, _, _, _, _, _) => AIInv(b, c);
      case SetAuto(_, _, _) => AutoInv(b, c);
    }
  }

  lemma FreshInv(b: Battle)
    requires IsFresh(b)
    ensures Inv(b)
  {
    assert AllHands(b.hands) == multiset{};
    assert TrickAscends(b.outed, b.tricks, 0);
    assert LastPlay([]) == [];
  }

  lemma {:induction false} RunInv(b: Battle, commands: seq<Command>)
    requires Inv(b) && forall c :: c in commands ==> WellFormed(c)
    ensures Inv(Run(b, commands))
    decreases |commands|
  {
    if commands != [] {
      StepInv(b, commands[0]);
      RunInv(Step(b, commands[0]), commands[1..]);
    }
  }

  /** Safety of every battle reached from a fresh one by any commands. */
  lemma ReachableInv(b: Battle, commands: seq<Command>)
    requires IsFresh(b) && forall c :: c in commands ==> WellFormed(c)
    ensures Inv(Run(b, commands))
  {
    FreshInv(b);
    RunInv(b, commands);
  }

  // ---------------------------------------------------------------------------------
  // Points on the standard deck
  // ---------------------------------------------------------------------------------

  lemma StandardPoints(b: Battle)
    requires Inv(b) && Shuffled(b.deck)
    ensures Total(b.captured) + Points(b.scoreCards) + BagPoints(AllHands(b.hands), 256) == 200
    ensures b.phase == AwaitingSettlement ==> Total(b.captured) == LogPoints(b.outed) <= 200
  {
    var ordered: seq<byte> :| IsStandardDeck(ordered) && multiset(b.deck) == multiset(ordered);
    StandardDeckFacts(ordered);
    PointsPermute(b.deck, ordered);
    PointsAreBagPoints(b.deck);
    LogPointsAreBagPoints(b.outed);
    BagPointsUnion(AllHands(b.hands), LogBag(b.outed), 256);
    assert Points([]) == 0;
  }

  /** On every run, while the deck is a shuffled standard deck, the captured points, the points
      on the table and the points still in hand are two hundred; when play ends, all points
      played are captured. */
  lemma TwoHundredPoints(b: Battle, commands: seq<Command>)
    requires IsFresh(b) && forall c :: c in commands ==> WellFormed(c)
    requires Shuffled(Run(b, commands).deck)
    ensures var r := Run(b, commands);
            && Total(r.captured) + Points(r.scoreCards) + BagPoints(AllHands(r.hands), 256) == 200
            && (r.phase == AwaitingSettlement ==> Total(r.captured) == LogPoints(r.outed) <= 200)
  {
    ReachableInv(b, commands);
    StandardPoints(Run(b, commands));
  }

  // ---------------------------------------------------------------------------------
  // Who gets the points
  // ---------------------------------------------------------------------------------

  /** The seat that holds the trick after this action: the one acting, or the last to play. */
  function Holder(b: Battle, cards: seq<byte>): int { if cards != [] then b.activeSeat else b.preOutSeat }

  lemma LayPot(b: Battle, cards: seq<byte>)
    requires Shape(b) && CardsConserved(b) && PointsConserved(b) && Holds(b.hands[b.activeSeat], cards)
    ensures PotLaid(b, Lay(b, cards), Holder(b, cards), Points(b.scoreCards) + Points(cards))
  {
    LayConservesCards(b, cards);
    LayConservesPoints(b, cards);
    PointsBounded(Lay(b, cards));
    ScoreCardsKeepPoints(cards);
    PointsConcat(b.scoreCards, ScoreCards(cards));
    assert Points([]) == 0;
  }

  lemma MarkedPot(b: Battle, cards: seq<byte>)
    requires Shape(b) && CardsConserved(b) && PointsConserved(b) && Holds(b.hands[b.activeSeat], cards)
    ensures PotLaid(b, Marked(b, cards), Holder(b, cards), Points(b.scoreCards) + Points(cards))
  {
    LayPot(b, cards);
    var l, m := Lay(b, cards), Marked(b, cards);
    assert m == l.(finished := m.finished, ranks := m.ranks);
  }

  /** The points of a trick go to the seat that played last in it, when the trick or play
      ends, and only then; that seat leads the next trick, or its partner if it is out. */
  lemma WinnerTakesTrick(b: Battle, cards: seq<byte>)
    requires Inv(b) && b.phase == Playing && LegalCards(b, cards) && (cards == [] ==> b.lastCards != [])
    ensures TrickTaken(b, Act(b, cards), Holder(b, cards), Points(b.scoreCards) + Points(cards))
  {
    MarkedPot(b, cards);
    ActTaken(b, cards);
  }

  /** The table after the cards are laid: the pot is on it, and belongs to the holder. */
  ghost predicate PotLaid(b: Battle, m: Battle, holder: int, pot: nat)
  {
    && m.captured == b.captured && m.preOutSeat == holder && m.tricks == b.tricks && m.phase == b.phase
    && Points(m.scoreCards) == pot && |m.captured| == 4 && Total(m.captured) + pot <= 1040
  }

  lemma ActTaken(b: Battle, cards: seq<byte>)
    requires Shape(b) && b.phase == Playing && 0 <= Holder(b, cards) < 4
    requires PotLaid(b, Marked(b, cards), Holder(b, cards), Points(b.scoreCards) + Points(cards))
    ensures TrickTaken(b, Act(b, cards), Holder(b, cards), Points(b.scoreCards) + Points(cards))
  {
    ActCases(b, cards);
    ActTakesTrick(b, Marked(b, cards), EndsPlay(b, cards), Holder(b, cards), Points(b.scoreCards) + Points(cards),
      Act(b, cards));
  }

  ghost predicate TrickTaken(b: Battle, r: Battle, winner: int, pot: nat)
    requires Shape(b) && Shape(r)
  {
    && 0 <= winner < 4
    && (if |r.tricks| > |b.tricks| || r.phase == AwaitingSettlement
        then r.captured == b.captured[winner := b.captured[winner] + pot] && r.scoreCards == []
        else r.captured == b.captured && Points(r.scoreCards) == pot)
    && (|r.tricks| > |b.tricks| ==> r.activeSeat == if r.hands[winner] != [] then winner else Partner(winner))
  }

  /** `m` is the table after the cards are laid, `r` the table after the turn. */
  lemma ActTakesTrick(b: Battle, m: Battle, ends: bool, winner: int, pot: nat, r: Battle)
    requires Shape(b) && Shape(m) && m.phase == Playing && winner >= 0 && PotLaid(b, m, winner, pot)
    requires Shape(r) && r == if ends then EndPlay(m) else AdvanceTurn(m)
    ensures TrickTaken(b, r, winner, pot)
  {
    NoWrap(m.captured[m.preOutSeat], pot);
    if ends {
      EndTakesTrick(m);
    } else {
      TurnTakesTrick(m);
    }
  }

  lemma EndTakesTrick(m: Battle)
    requires Shape(m) && m.preOutSeat >= 0
    ensures var r, winner := EndPlay(m), m.preOutSeat;
            && r.captured == m.captured[winner := AddPoints(m.captured[winner], Points(m.scoreCards))]
            && r.scoreCards == [] && r.phase == AwaitingSettlement && r.tricks == m.tricks
  {
  }

  lemma TurnTakesTrick(m: Battle)
    requires Shape(m) && m.preOutSeat >= 0 && m.phase == Playing
    ensures var r, winner := AdvanceTurn(m), m.preOutSeat;
            && r.phase == Playing
            && (if |r.tricks| > |m.tricks|
                then r.captured == m.captured[winner := AddPoints(m.captured[winner], Points(m.scoreCards))]
                  && r.scoreCards == []
                else r.captured == m.captured && r.scoreCards == m.scoreCards)
            && (|r.tricks| > |m.tricks| ==> r.activeSeat == if r.hands[winner] != [] then winner else Partner(winner))
  {
  }

  // ---------------------------------------------------------------------------------
  // Automatic moves finish every subgame
  // ---------------------------------------------------------------------------------

  ghost predicate Playable(deck: seq<byte>)
  {
    forall c :: c in deck ==> MIN_VALUE <= Value(c) <= MAX_VALUE
  }

  lemma ShuffledIsPlayable(deck: seq<byte>)
    requires Shuffled(deck)
    ensures Playable(deck)
  {
    var ordered: seq<byte> :| IsStandardDeck(ordered) && multiset(deck) == multiset(ordered);
    forall c | c in deck ensures MIN_VALUE <= Value(c) <= MAX_VALUE {
      assert c in multiset(ordered);
      var i :| 0 <= i < |ordered| && ordered[i] == c;
      CardParts(i);
    }
  }

  lemma HeldIsDealt(b: Battle, seat: nat, c: byte)
    requires Inv(b) && seat < 4 && c in b.hands[seat]
    ensures c in b.deck
  {
    assert c in multiset(b.hands[seat]);
    assert c in AllHands(b.hands);
    assert c in multiset(b.deck);
  }

  lemma AutoMoveAccepted(b: Battle)
    requires Inv(b) && b.phase == Playing && Playable(b.deck)
    ensures PlayReply(b, AutoRequest(b)) == Accepted
  {
    var hand := b.hands[b.activeSeat];
    if b.lastCards == [] {
      LowestIsLeast(hand);
      var card := Lowest(hand);
      HeldIsDealt(b, b.activeSeat, card);
      SingleCardPattern(card);
      assert card in multiset(hand);
      assert Holds(hand, [card]);
    }
  }

  /** In every reachable playing state of a shuffled deck the automatic move is accepted. */
  lemma AutoAccepted(b: Battle, commands: seq<Command>)
    requires IsFresh(b) && forall c :: c in commands ==> WellFormed(c)
    requires Run(b, commands).phase == Playing && Shuffled(Run(b, commands).deck)
    ensures PlayReply(Run(b, commands), AutoRequest(Run(b, commands))) == Accepted
  {
    ReachableInv(b, commands);
    ShuffledIsPlayable(Run(b, commands).deck);
    AutoMoveAccepted(Run(b, commands));
  }

  /** Timers fire one after another, each for the turn that is running. */
  ghost predicate TimerTrace(states: seq<Battle>, sources: seq<Source>)
  {
    && |states| == |sources| + 1 && (forall i :: 0 <= i < |states| ==> Shape(states[i]))
    && forall i :: 0 <= i < |sources| ==> Fires(states[i], sources[i], states[i + 1])
  }

  ghost predicate Fires(b: Battle, source: Source, r: Battle)
    requires Shape(b)
  {
    r == FireTimer(b, b.turnRevision, source, [])
  }

  ghost predicate CloserToEnd(b: Battle, r: Battle)
    requires Shape(b) && Shape(r)
  {
    && r.deck == b.deck && r.timeoutAutoMove == b.timeoutAutoMove
    && Measure(r) < Measure(b) && (r.phase == Playing || r.phase == AwaitingSettlement)
  }

  lemma ActCloser(b: Battle, cards: seq<byte>)
    requires Inv(b) && b.phase == Playing && LegalCards(b, cards) && (cards == [] ==> b.lastCards != [])
    ensures CloserToEnd(b, Act(b, cards))
  {
    assert Holds(b.hands[b.activeSeat], cards);
    MeasureDrops(b, cards);
    ActEndsPlay(b, cards);
    ActFrame(b, cards);
  }

  /** The timer of a running turn makes the automatic move. */
  lemma TimerActs(b: Battle, source: Source)
    requires Inv(b) && b.phase == Playing && Playable(b.deck)
    requires source == ByAuto || (source == ByTimeout && b.timeoutAutoMove)
    ensures var seat := b.activeSeat;
            var b1 := if source == ByTimeout && !b.automated[seat] then b.(auto := b.auto[seat := true]) else b;
            && PlayReply(b1, AutoRequest(b1)) == Accepted
            && FireTimer(b, b.turnRevision, source, []) == Act(b1, AutoCards(b1, seat))
  {
    var seat := b.activeSeat;
    var b1 := if source == ByTimeout && !b.automated[seat] then b.(auto := b.auto[seat := true]) else b;
    SameGameInv(b, b1);
    AutoMoveAccepted(b1);
    if source == ByTimeout && b.auto[seat] { assert b.auto[seat := true] == b.auto; }
  }

  lemma TimerMoves(b: Battle, source: Source)
    requires Inv(b) && b.phase == Playing && Playable(b.deck)
    requires source == ByAuto || (source == ByTimeout && b.timeoutAutoMove)
    ensures Inv(FireTimer(b, b.turnRevision, source, []))
    ensures CloserToEnd(b, FireTimer(b, b.turnRevision, source, []))
  {
    TimerInv(b, b.turnRevision, source, []);
    TimerCloser(b, source);
  }

  lemma TimerCloser(b: Battle, source: Source)
    requires Inv(b) && b.phase == Playing && Playable(b.deck)
    requires source == ByAuto || (source == ByTimeout && b.timeoutAutoMove)
    ensures CloserToEnd(b, FireTimer(b, b.turnRevision, source, []))
  {
    TimerActs(b, source);
    var seat := b.activeSeat;
    var b1 := if source == ByTimeout && !b.automated[seat] then b.(auto := b.auto[seat := true]) else b;
    SameGameInv(b, b1);
    ActCloser(b1, AutoCards(b1, seat));
  }

  lemma PlayingMeasure(b: Battle)
    requires Inv(b) && b.phase == Playing
    ensures 0 < Measure(b) <= MAX_ACTIONS
  {
  }

  ghost predicate AutomaticSource(source: Source, timeoutAutoMove: bool)
  {
    source == ByAuto || (source == ByTimeout && timeoutAutoMove)
  }

  lemma {:induction false} TimersIdle(states: seq<Battle>, sources: seq<Source>, i: nat)
    requires TimerTrace(states, sources) && i <= |sources| && states[i].phase == AwaitingSettlement
    ensures states[|sources|].phase == AwaitingSettlement
    decreases |sources| - i
  {
    if i < |sources| {
      assert Fires(states[i], sources[i], states[i + 1]);
      TimersIdle(states, sources, i + 1);
    }
  }

  lemma {:induction false} TimersFinishFrom(states: seq<Battle>, sources: seq<Source>, i: nat)
    requires TimerTrace(states, sources) && i <= |sources|
    requires forall k :: 0 <= k < |sources| ==> AutomaticSource(sources[k], states[i].timeoutAutoMove)
    requires Inv(states[i]) && states[i].phase == Playing && Playable(states[i].deck)
    requires |sources| - i >= Measure(states[i])
    ensures states[|sources|].phase == AwaitingSettlement
    decreases |sources| - i
  {
    PlayingMeasure(states[i]);
    assert AutomaticSource(sources[i], states[i].timeoutAutoMove);
    assert Fires(states[i], sources[i], states[i + 1]);
    TimerMoves(states[i], sources[i]);
    if states[i + 1].phase == Playing {
      TimersFinishFrom(states, sources, i + 1);
    } else {
      TimersIdle(states, sources, i + 1);
    }
  }

  lemma TimersFinishAll(states: seq<Battle>, sources: seq<Source>)
    requires TimerTrace(states, sources) && |sources| >= MAX_ACTIONS
    requires forall k :: 0 <= k < |sources| ==> AutomaticSource(sources[k], states[0].timeoutAutoMove)
    requires Inv(states[0]) && states[0].phase == Playing && Playable(states[0].deck)
    ensures states[|sources|].phase == AwaitingSettlement
  {
    PlayingMeasure(states[0]);
    TimersFinishFrom(states, sources, 0);
  }

  /** Timers alone drive every reachable playing state of a shuffled deck to its settlement: any
      416 automatic or timeout moves are enough. */
  lemma TimersFinish(b: Battle, commands: seq<Command>, states: seq<Battle>, sources: seq<Source>)
    requires IsFresh(b) && forall c :: c in commands ==> WellFormed(c)
    requires Run(b, commands).phase == Playing && Shuffled(Run(b, commands).deck)
    requires TimerTrace(states, sources) && states[0] == Run(b, commands) && |sources| >= MAX_ACTIONS
    requires forall k :: 0 <= k < |sources| ==> AutomaticSource(sources[k], states[0].timeoutAutoMove)
    ensures states[|sources|].phase == AwaitingSettlement
  {
    ReachableInv(b, commands);
    ShuffledIsPlayable(states[0].deck);
    TimersFinishAll(states, sources);
  }

  // ---------------------------------------------------------------------------------
  // Fences
  // ---------------------------------------------------------------------------------

  lemma PlayGrows(b: Battle, request: Request, source: Source)
    requires Shape(b)
    ensures var r := Play(b, request, source);
            if PlayReply(b, request) == Accepted then r.outed == b.outed + [request.cards] else r == b
    ensures b.phase != Playing ==> Play(b, request, source) == b
    ensures Play(b, request, source).phase == b.phase
        || (b.phase == Playing && Play(b, request, source).phase == AwaitingSettlement)
  {
    if PlayReply(b, request) == Accepted { ActFrame(TakeOver(b, source), request.cards); }
  }

  /** Within a subgame the record of actions only grows. */
  lemma StepGrows(b: Battle, c: Command)
    requires Shape(b) && WellFormed(c) && !c.Start?
    ensures b.outed <= Step(b, c).outed
    ensures Step(b, c).phase == Playing ==> b.phase == Playing
  {
    if !TableCommand(c) {
      OtherStep(b, c);
    } else if b.phase != Stopping {
      TableStepGrows(b, c);
    }
  }

  lemma TableStepGrows(b: Battle, c: Command)
    requires Shape(b) && WellFormed(c) && TableCommand(c) && !c.Start? && b.phase != Stopping
    ensures b.outed <= Step(b, c).outed
    ensures Step(b, c).phase == Playing ==> b.phase == Playing
  {
    match c
    case PlayCards(request) => PlayGrows(b, request, ByPlayer);
    case Timer(_, source, cards) =>
      var seat := b.activeSeat;
      var idle := source == ByTimeout && !b.auto[seat] && !b.automated[seat];
      var b1 := if idle then b.(auto := b.auto[seat := true]) else b;
      PlayGrows(b1, Request(seat, if source == ByAI then cards else AutoCards(b1, seat), b1.verifyCode), source);
    case AIResult(_, _, _, _, _, _, _, _) =>
      var b1 := b.(turnRevision := Bump(b.turnRevision, 1, U64));
      PlayGrows(b1, Request(b.activeSeat, c.cards, b1.verifyCode), ByAI);
    case SetAuto(_, _, _) =>
      var b2 := b.(auto := b.auto[c.player := c.enabled], turnRevision := Bump(b.turnRevision, 1, U64));
      PlayGrows(b2, AutoRequest(b2), ByAuto);
  }

  lemma {:induction false} RunGrows(b: Battle, commands: seq<Command>)
    requires Shape(b) && forall c :: c in commands ==> WellFormed(c) && !c.Start?
    ensures b.outed <= Run(b, commands).outed
    decreases |commands|
  {
    if commands != [] {
      StepGrows(b, commands[0]);
      RunGrows(Step(b, commands[0]), commands[1..]);
    }
  }

  /** Each action opportunity is used at most once: after an accepted play, no request with
      the same verify code is accepted until the next subgame starts. */
  lemma OpportunityUsedOnce(b: Battle, request: Request, source: Source, commands: seq<Command>, again: Request)
    requires Inv(b) && PlayReply(b, request) == Accepted && again.verifyCode == request.verifyCode
    requires forall c :: c in commands ==> WellFormed(c) && !c.Start?
    ensures PlayReply(Run(Play(b, request, source), commands), again) != Accepted
  {
    PlayInv(b, request, source);
    assert |Play(b, request, source).outed| > |b.outed| by { PlayGrows(b, request, source); }
    LaterRejected(b, Play(b, request, source), commands, again);
  }

  lemma LaterRejected(b: Battle, b1: Battle, commands: seq<Command>, again: Request)
    requires Inv(b) && Inv(b1) && b.phase == Playing && |b1.outed| > |b.outed| && again.verifyCode == b.verifyCode
    requires forall c :: c in commands ==> WellFormed(c) && !c.Start?
    ensures PlayReply(Run(b1, commands), again) != Accepted
  {
    RunInv(b1, commands);
    RunGrows(b1, commands);
    StaleCodeRejected(b, Run(b1, commands), again);
  }

  lemma StaleCodeRejected(b: Battle, r: Battle, again: Request)
    requires Inv(b) && Inv(r) && b.phase == Playing && |r.outed| > |b.outed| && again.verifyCode == b.verifyCode
    ensures PlayReply(r, again) != Accepted
  {
    assert r.phase == Playing ==> r.verifyCode > b.verifyCode;
  }

  /** Nothing that was meant for turn revision `revision` can act any more. */
  predicate Fenced(b: Battle, revision: nat)
  {
    b.turnRevision > revision || (b.turnRevision == revision && b.phase != Playing)
  }

  lemma ActRevision(b: Battle, cards: seq<byte>)
    requires Shape(b) && b.turnRevision + 1 < U64
    ensures var r := Act(b, cards);
            b.turnRevision <= r.turnRevision <= b.turnRevision + 1 && Fenced(r, b.turnRevision)
  {
    ActCases(b, cards);
    if !EndsPlay(b, cards) { AdvanceRevision(Marked(b, cards)); }
  }

  lemma AdvanceRevision(b: Battle)
    requires Shape(b) && b.turnRevision + 1 < U64
    ensures AdvanceTurn(b).turnRevision == b.turnRevision || AdvanceTurn(b).turnRevision == b.turnRevision + 1
    ensures Fenced(AdvanceTurn(b), b.turnRevision)
  {
  }

  lemma PlayRevision(b: Battle, request: Request, source: Source)
    requires Shape(b) && b.turnRevision + 1 < U64
    ensures var r := Play(b, request, source);
            && b.turnRevision <= r.turnRevision <= b.turnRevision + 1
            && (PlayReply(b, request) == Accepted ==> Fenced(r, b.turnRevision))
  {
    if PlayReply(b, request) == Accepted { ActRevision(TakeOver(b, source), request.cards); }
  }

  lemma StepRevision(b: Battle, c: Command, revision: nat)
    requires Shape(b) && WellFormed(c) && b.turnRevision + 2 < U64
    ensures b.turnRevision <= Step(b, c).turnRevision <= b.turnRevision + 2
    ensures Fenced(b, revision) ==> Fenced(Step(b, c), revision)
  {
    if !TableCommand(c) {
      OtherStep(b, c);
    } else if b.phase != Stopping {
      TableStepRevision(b, c, revision);
    }
  }

  lemma TableStepRevision(b: Battle, c: Command, revision: nat)
    requires Shape(b) && WellFormed(c) && TableCommand(c) && b.phase != Stopping && b.turnRevision + 2 < U64
    ensures b.turnRevision <= Step(b, c).turnRevision <= b.turnRevision + 2
    ensures Fenced(b, revision) ==> Fenced(Step(b, c), revision)
  {
    if !c.Start? { TableStepGrows(b, c); }
    match c
    case Start(_, _) =>
    case PlayCards(request) => PlayRevision(b, request, ByPlayer);
    case Timer(_, source, cards) =>
      var seat := b.activeSeat;
      var idle := source == ByTimeout && !b.auto[seat] && !b.automated[seat];
      var b1 := if idle then b.(auto := b.auto[seat := true]) else b;
      PlayRevision(b1, Request(seat, if source == ByAI then cards else AutoCards(b1, seat), b1.verifyCode), source);
    case AIResult(_, _, _, _, _, _, _, _) =>
      var b1 := b.(turnRevision := Bump(b.turnRevision, 1, U64));
      PlayRevision(b1, Request(b.activeSeat, c.cards, b1.verifyCode), ByAI);
    case SetAuto(_, _, _) =>
      var b2 := b.(auto := b.auto[c.player := c.enabled], turnRevision := Bump(b.turnRevision, 1, U64));
      PlayRevision(b2, AutoRequest(b2), ByAuto);
  }

  lemma {:induction false} RunFenced(b: Battle, commands: seq<Command>, revision: nat)
    requires Shape(b) && forall c :: c in commands ==> WellFormed(c)
    requires Fenced(b, revision) && b.turnRevision + 2 * |commands| + 2 < U64
    ensures Fenced(Run(b, commands), revision)
    decreases |commands|
  {
    if commands != [] {
      StepRevision(b, commands[0], revision);
      RunFenced(Step(b, commands[0]), commands[1..], revision);
    }
  }

  predicate MeantFor(c: Command, revision: nat)
  {
    (c.Timer? && c.revision == revision) || (c.AIResult? && c.revision == revision)
  }

  /** A timer or AI result that has acted, or whose turn is over, never changes the battle
      again, in this subgame or any later one. */
  lemma StaleForever(b: Battle, commands: seq<Command>, late: Command, revision: nat)
    requires Shape(b) && forall c :: c in commands ==> WellFormed(c)
    requires Fenced(b, revision) && b.turnRevision + 2 * |commands| + 2 < U64
    requires WellFormed(late) && MeantFor(late, revision)
    ensures Step(Run(b, commands), late) == Run(b, commands)
  {
    RunFenced(b, commands, revision);
  }

  /** Whatever moves the game also fences the turn it moved. */
  lemma MoveFences(b: Battle, c: Command)
    requires Shape(b) && WellFormed(c) && !c.Start? && b.turnRevision + 2 < U64
    requires Step(b, c).outed != b.outed
    ensures Fenced(Step(b, c), b.turnRevision)
  {
    if !TableCommand(c) {
      OtherStep(b, c);
    } else {
      match c
      case PlayCards(request) =>
        PlayGrows(b, request, ByPlayer);
        PlayRevision(b, request, ByPlayer);
      case Timer(_, source, cards) =>
        var seat := b.activeSeat;
        var idle := source == ByTimeout && !b.auto[seat] && !b.automated[seat];
        var b1 := if idle then b.(auto := b.auto[seat := true]) else b;
        var request := Request(seat, if source == ByAI then cards else AutoCards(b1, seat), b1.verifyCode);
        PlayGrows(b1, request, source);
        PlayRevision(b1, request, source);
      case AIResult(_, _, _, _, _, _, _, _) =>
        var b1 := b.(turnRevision := Bump(b.turnRevision, 1, U64));
        PlayRevision(b1, Request(b.activeSeat, c.cards, b1.verifyCode), ByAI);
      case SetAuto(_, _, _) =>
        var b2 := b.(auto := b.auto[c.player := c.enabled], turnRevision := Bump(b.turnRevision, 1, U64));
        PlayRevision(b2, AutoRequest(b2), ByAuto);
    }
  }
}
