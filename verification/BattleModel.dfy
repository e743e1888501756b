/** One NHSK battle as a state machine: what every command does to the table.

    Players are named by their seat, 0 to 3; seats 0 and 2 play against seats 1 and 3. */
module BattleModel {
  import opened Cards
  import opened Deal

  datatype Phase = AwaitingInit | Preparing | Playing | AwaitingSettlement | FinalizingReplay | Finished | Stopping

  datatype Source = ByPlayer | ByTimeout | ByAuto | ByAI

  datatype Request = Request(player: int, cards: seq<byte>, verifyCode: nat)

  datatype Rejection = NotPlaying | NotActive | StaleVerifyCode | CardCount | FirstPlayCannotPass | CardType

  datatype Reply = Accepted | Rejected(reason: Rejection)

  /** `deck`, `cleared` and `tricks` record history for the properties below: the deck that
      was dealt, the seats that passed or were skipped since the last play, and the number
      of actions taken when each trick began. */
  datatype Battle = Battle(
    phase: Phase, gameNum: nat, subgameNum: nat,
    exited: seq<bool>, automated: seq<bool>, auto: seq<bool>, timeoutAutoMove: bool,
    hands: seq<seq<byte>>, activeSeat: nat, verifyCode: nat, turnRevision: nat,
    lastCards: seq<byte>, preOutSeat: int, passCount: nat, scoreCards: seq<byte>,
    captured: seq<nat>, outed: seq<seq<byte>>, finished: seq<bool>, ranks: seq<nat>,
    deck: seq<byte>, cleared: set<nat>, tricks: seq<nat>)

  const U16 := 0x1_0000
  const U64 := 0x1_0000_0000_0000_0000

  /** Addition that wraps around at `size`, as unsigned counters below `size` do. */
  function Bump(n: nat, d: nat, size: nat): nat { if n + d < size then n + d else n + d - size }

  predicate Shape(b: Battle)
  {
    && |b.exited| == 4 && |b.automated| == 4 && |b.auto| == 4
    && |b.hands| == 4 && |b.captured| == 4 && |b.finished| == 4 && |b.ranks| == 4
    && b.activeSeat < 4 && -1 <= b.preOutSeat < 4
  }

  function Ring(n: nat): (r: nat)
    requires n < 12
    ensures r == n % 4
  {
    if n < 4 then n else if n < 8 then n - 4 else n - 8
  }

  function Partner(seat: nat): nat
    requires seat < 4
  {
    Ring(seat + 2)
  }

  // ---------------------------------------------------------------------------------
  // Playing cards
  // ---------------------------------------------------------------------------------

  function RemoveOne(hand: seq<byte>, card: byte): seq<byte>
  {
    if hand == [] then [] else if hand[0] == card then hand[1..] else [hand[0]] + RemoveOne(hand[1..], card)
  }

  function RemoveCards(hand: seq<byte>, cards: seq<byte>): seq<byte>
    decreases |cards|
  {
    if cards == [] then hand else RemoveCards(RemoveOne(hand, cards[0]), cards[1..])
  }

  ghost predicate Holds(hand: seq<byte>, cards: seq<byte>) { multiset(cards) <= multiset(hand) }

  predicate Eligible(b: Battle, seat: nat)
    requires Shape(b) && seat < 4
  {
    b.hands[seat] != [] && !b.exited[seat]
  }

  /** The active seat's play, or its pass when `cards` is empty. */
  ghost function Lay(b: Battle, cards: seq<byte>): (r: Battle)
    requires Shape(b)
    ensures Shape(r)
  {
    var seat := b.activeSeat;
    var b1 := b.(hands := b.hands[seat := RemoveCards(b.hands[seat], cards)], outed := b.outed + [cards]);
    if cards != [] then
      b1.(lastCards := cards, preOutSeat := seat, passCount := 0, cleared := {},
      scoreCards := b.scoreCards + ScoreCards(cards))
    else
      b1.(passCount := b.passCount + 1, cleared := b.cleared + {seat})
  }

  function OutCount(finished: seq<bool>): nat
    requires |finished| == 4
  {
    (if finished[0] then 1 else 0) + (if finished[1] then 1 else 0)
    + (if finished[2] then 1 else 0) + if finished[3] then 1 else 0
  }

  function MarkOut(b: Battle, seat: nat): (r: Battle)
    requires Shape(b) && seat < 4
    ensures Shape(r)
  {
    var finished := b.finished[seat := true];
    b.(finished := finished, ranks := b.ranks[seat := OutCount(finished)])
  }

  /** Adding a 32-bit score to a 16-bit counter. */
  function AddPoints(captured: nat, points: nat): nat { (captured + points % U32) % U16 }

  ghost function Credit(b: Battle): (r: Battle)
    requires Shape(b) && b.preOutSeat >= 0
    ensures Shape(r)
  {
    b.(captured := b.captured[b.preOutSeat := AddPoints(b.captured[b.preOutSeat], Points(b.scoreCards))])
  }

  ghost function AwardFinal(b: Battle): (r: Battle)
    requires Shape(b)
    ensures Shape(r)
  {
    (if b.preOutSeat < 0 then b else Credit(b)).(scoreCards := [])
  }

  function StartAction(b: Battle): Battle
  {
    b.(verifyCode := Bump(b.verifyCode, 2, U32), turnRevision := Bump(b.turnRevision, 1, U64))
  }

  function ResetTrick(b: Battle): Battle
  {
    b.(lastCards := [], preOutSeat := -1, passCount := 0, scoreCards := [], cleared := {},
    tricks := b.tricks + [|b.outed|])
  }

  function Skip(b: Battle, seat: nat): Battle
  {
    if b.preOutSeat >= 0 then b.(passCount := b.passCount + 1, cleared := b.cleared + {seat}) else b
  }

  /** Looks at the seats `origin + step`, up to a whole round, for one that can act. */
  function AdvanceSeat(b: Battle, origin: nat, step: nat): (r: Battle)
    requires Shape(b) && origin < 4 && 1 <= step <= 5
    ensures Shape(r) && r == b.(activeSeat := r.activeSeat, passCount := r.passCount, cleared := r.cleared)
    decreases 5 - step
  {
    if step > 4 then b
    else
      var seat := Ring(origin + step);
      if Eligible(b, seat) then b.(activeSeat := seat)
      else AdvanceSeat(Skip(b, seat), origin, step + 1)
  }

  ghost function FinishTrick(b: Battle): (r: Battle)
    requires Shape(b)
    ensures Shape(r)
  {
    if b.preOutSeat < 0 then b
    else
      var winner := b.preOutSeat;
      var leader := if b.hands[winner] == [] then Partner(winner) else winner;
      StartAction(ResetTrick(Credit(b).(activeSeat := leader)))
  }

  predicate TrickOver(b: Battle) { b.preOutSeat >= 0 && b.passCount >= 3 }

  ghost function AdvanceTurn(b: Battle): (r: Battle)
    requires Shape(b)
    ensures Shape(r)
  {
    var b1 := AdvanceSeat(b, b.activeSeat, 1);
    if TrickOver(b1) then FinishTrick(b1) else StartAction(b1)
  }

  ghost function EndPlay(b: Battle): (r: Battle)
    requires Shape(b)
    ensures Shape(r)
  {
    AwardFinal(b).(phase := AwaitingSettlement)
  }

  ghost function AfterLay(b: Battle): (r: Battle)
    requires Shape(b)
    ensures Shape(r)
  {
    var seat := b.activeSeat;
    if b.hands[seat] == [] && !b.finished[seat] then
      var b1 := MarkOut(b, seat);
      if b.hands[Partner(seat)] == [] then EndPlay(b1) else AdvanceTurn(b1)
    else AdvanceTurn(b)
  }

  ghost function Act(b: Battle, cards: seq<byte>): (r: Battle)
    requires Shape(b)
    ensures Shape(r)
  {
    AfterLay(Lay(b, cards))
  }

  ghost predicate LegalCards(b: Battle, cards: seq<byte>)
    requires Shape(b)
  {
    && (cards != [] ==> PatternOf(cards).Some? && Holds(b.hands[b.activeSeat], cards))
    && (cards != [] && b.lastCards != [] ==> Beats(cards, b.lastCards))
  }

  /** The answer to a play, checked in the order the battle checks it. */
  ghost function PlayReply(b: Battle, request: Request): Reply
    requires Shape(b)
  {
    if b.phase != Playing then Rejected(NotPlaying)
    else if request.player != b.activeSeat then Rejected(NotActive)
    else if request.verifyCode == 0 || request.verifyCode != b.verifyCode then Rejected(StaleVerifyCode)
    else if |request.cards| > 8 then Rejected(CardCount)
    else if request.cards == [] && b.lastCards == [] then Rejected(FirstPlayCannotPass)
    else if !LegalCards(b, request.cards) then Rejected(CardType)
    else Accepted
  }

  /** A move of the player's own ends automatic play. */
  function TakeOver(b: Battle, source: Source): (r: Battle)
    requires Shape(b)
    ensures Shape(r)
  {
    if source == ByPlayer then b.(auto := b.auto[b.activeSeat := false]) else b
  }

  ghost function Play(b: Battle, request: Request, source: Source): (r: Battle)
    requires Shape(b)
    ensures Shape(r)
  {
    if PlayReply(b, request) != Accepted then b else Act(TakeOver(b, source), request.cards)
  }

  // ---------------------------------------------------------------------------------
  // The automatic move
  // ---------------------------------------------------------------------------------

  predicate Lower(a: byte, b: byte)
  {
    LogicValue(Value(a)) < LogicValue(Value(b)) || (LogicValue(Value(a)) == LogicValue(Value(b)) && a < b)
  }

  function Lowest(hand: seq<byte>): byte
    requires hand != []
  {
    if |hand| == 1 then hand[0]
    else
      var rest, last := Lowest(hand[..|hand| - 1]), hand[|hand| - 1];
      if Lower(last, rest) then last else rest
  }

  lemma {:induction false} LowestIsLeast(hand: seq<byte>)
    requires hand != []
    ensures Lowest(hand) in hand
    ensures forall c :: c in hand ==> c == Lowest(hand) || Lower(Lowest(hand), c)
  {
    if |hand| > 1 {
      var n := |hand| - 1;
      LowestIsLeast(hand[..n]);
      assert hand == hand[..n] + [hand[n]];
    }
  }

  /** Leading: the lowest single card.  Following: a pass. */
  function AutoCards(b: Battle, seat: nat): seq<byte>
    requires Shape(b) && seat < 4
  {
    if b.lastCards != [] || b.hands[seat] == [] then [] else [Lowest(b.hands[seat])]
  }

  function AutoRequest(b: Battle): Request
    requires Shape(b)
  {
    Request(b.activeSeat, AutoCards(b, b.activeSeat), b.verifyCode)
  }

  // ---------------------------------------------------------------------------------
  // Commands
  // ---------------------------------------------------------------------------------

  /** `valid` in AIResult stands for the identity checks that compare no battle state;
      `wait` says that the robot delay has not elapsed.  `early` in SetAuto says that the
      deadline is more than 100 ms away.  `written` says that the replay needs no waiting. */
  datatype Command =
    | Prepare(gameNum: nat, subgameNum: nat)
    | UpdatePlayers(exited: seq<bool>, automated: seq<bool>)
    | Start(banker: nat, dealt: seq<byte>)
    | PlayCards(request: Request)
    | Timer(revision: nat, source: Source, cards: seq<byte>)
    | AIResult(valid: bool, gameNum: nat, subgameNum: nat, revision: nat, verifyCode: nat, seat: int, cards: seq<byte>,
      wait: bool)
    | SetAuto(player: nat, enabled: bool, early: bool)
    | RequestScene(player: nat)
    | Reconnect(player: nat)
    | Exit(player: nat)
    | ForceFinish(written: bool)
    | CompleteSettlement(accepted: bool, written: bool)
    | ReplayDone(gameNum: nat, subgameNum: nat)
    | Delete

  predicate WellFormed(c: Command)
  {
    match c
    case UpdatePlayers(exited, automated) => |exited| == 4 && |automated| == 4
    case Start(banker, dealt) => banker < SEATS && |dealt| == DECK_SIZE
    case SetAuto(player, _, _) => player < 4
    case RequestScene(player) => player < 4
    case Reconnect(player) => player < 4
    case Exit(player) => player < 4
    case _ => true
  }

  /** The table with the cards dealt and every record of the last subgame cleared. */
  ghost function Dealt(b: Battle, banker: nat, dealt: seq<byte>): (r: Battle)
    requires Shape(b) && banker < SEATS && |dealt| == DECK_SIZE
    ensures Shape(r)
  {
    b.(phase := Playing, hands := DealHands(dealt, banker), activeSeat := banker, verifyCode := 1,
    captured := [0, 0, 0, 0], outed := [], finished := [false, false, false, false],
    ranks := [0, 0, 0, 0], deck := dealt, tricks := [])
  }

  ghost function StartSubgame(b: Battle, banker: nat, dealt: seq<byte>): (r: Battle)
    requires Shape(b) && banker < SEATS && |dealt| == DECK_SIZE
    ensures Shape(r)
  {
    StartAction(ResetTrick(Dealt(b, banker, dealt)))
  }

  ghost function FireTimer(b: Battle, revision: nat, source: Source, cards: seq<byte>): (r: Battle)
    requires Shape(b)
    ensures Shape(r)
  {
    var seat := b.activeSeat;
    if revision != b.turnRevision || b.phase != Playing || b.hands[seat] == [] then b
    else
      var idle := source == ByTimeout && !b.auto[seat] && !b.automated[seat];
      if idle && !b.timeoutAutoMove then b
      else
        var b1 := if idle then b.(auto := b.auto[seat := true]) else b;
        var move := if source == ByAI then cards else AutoCards(b1, seat);
        Play(b1, Request(seat, move, b1.verifyCode), source)
  }

  ghost predicate ValidCandidate(b: Battle, cards: seq<byte>)
    requires Shape(b)
  {
    |cards| <= 8 && !(cards == [] && b.lastCards == []) && LegalCards(b, cards)
  }

  ghost function ApplyAIResult(b: Battle, c: Command): (r: Battle)
    requires Shape(b) && c.AIResult?
    ensures Shape(r)
  {
    if !c.valid || b.phase != Playing || c.gameNum != b.gameNum || c.subgameNum != b.subgameNum
       || c.revision != b.turnRevision || c.verifyCode != b.verifyCode || c.seat != b.activeSeat
       || !ValidCandidate(b, c.cards)
    then b
    else
      var b1 := b.(turnRevision := Bump(b.turnRevision, 1, U64));
      if !b.automated[b.activeSeat] && c.wait then b1
      else Play(b1, Request(b.activeSeat, c.cards, b1.verifyCode), ByAI)
  }

  ghost function ChangeAuto(b: Battle, c: Command): (r: Battle)
    requires Shape(b) && c.SetAuto? && c.player < 4
    ensures Shape(r)
  {
    if b.phase != Playing then b
    else
      var b1 := b.(auto := b.auto[c.player := c.enabled]);
      if c.enabled && c.player == b.activeSeat && c.early then
        var b2 := b1.(turnRevision := Bump(b.turnRevision, 1, U64));
        Play(b2, AutoRequest(b2), ByAuto)
      else b1
  }

  function Finalize(b: Battle, written: bool): Battle
  {
    b.(phase := if written then Finished else FinalizingReplay)
  }

  ghost function Step(b: Battle, c: Command): (r: Battle)
    requires Shape(b) && WellFormed(c)
    ensures Shape(r)
  {
    if b.phase == Stopping then b
    else match c
      case Prepare(g, s) =>
        if g == 0 || s == 0 || (b.phase != AwaitingInit && b.phase != Finished && b.phase != Preparing) then b
        else b.(phase := Preparing, gameNum := g, subgameNum := s)
      case UpdatePlayers(exited, automated) =>
        if b.phase != AwaitingInit && b.phase != Preparing then b else b.(exited := exited, automated := automated)
      case Start(banker, dealt) => if b.phase != Preparing then b else StartSubgame(b, banker, dealt)
      case PlayCards(request) => Play(b, request, ByPlayer)
      case Timer(revision, source, cards) => FireTimer(b, revision, source, cards)
      case AIResult(_, _, _, _, _, _, _, _) => ApplyAIResult(b, c)
      case SetAuto(_, _, _) => ChangeAuto(b, c)
      case RequestScene(player) =>
        if b.gameNum == 0 || b.subgameNum == 0 then b else b.(auto := b.auto[player := false])
      case Reconnect(player) => if b.phase != Playing then b else b.(auto := b.auto[player := false])
      case Exit(player) => b.(exited := b.exited[player := true])
      case ForceFinish(written) =>
        if b.phase != Playing && b.phase != AwaitingSettlement then b
        else Finalize(b.(turnRevision := Bump(b.turnRevision, 1, U64)), written)
      case CompleteSettlement(accepted, written) =>
        if b.phase != AwaitingSettlement || !accepted then b else Finalize(b, written)
      case ReplayDone(g, s) =>
        if b.phase == FinalizingReplay && g == b.gameNum && s == b.subgameNum then b.(phase := Finished) else b
      case Delete => b.(phase := Stopping, turnRevision := Bump(b.turnRevision, 1, U64))
  }

  /** A battle with four seated players, before its first subgame. */
  predicate IsFresh(b: Battle)
  {
    && Shape(b) && b.phase == AwaitingInit && b.verifyCode == 0 && b.turnRevision == 0
    && (forall s :: 0 <= s < 4 ==>
          b.hands[s] == [] && b.captured[s] == 0 && b.ranks[s] == 0 && !b.finished[s] && !b.auto[s])
    && b.lastCards == [] && b.preOutSeat == -1 && b.passCount == 0 && b.scoreCards == [] && b.outed == []
    && b.deck == [] && b.cleared == {} && b.tricks == [0]
  }

  ghost function Run(b: Battle, commands: seq<Command>): (r: Battle)
    requires Shape(b) && forall c :: c in commands ==> WellFormed(c)
    ensures Shape(r)
    decreases |commands|
  {
    if commands == [] then b
    else Run(Step(b, commands[0]), commands[1..])
  }
}
