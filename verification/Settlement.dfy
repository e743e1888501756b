/** The result of a subgame: who wins, what every seat pays, the settlement request built
    from it and the plan read back from a settlement. */
module Settlement {
  import BattleModel
  import BattleInvariants
  import BattleRuns

  datatype Verdict = Single | Double | Peace

  datatype Outcome = Win | Loss | Draw

  /** The result of a subgame; the four sequences are indexed by seat. */
  datatype Result = Result(success: bool, verdict: Verdict, winningTeam: nat, multiples: seq<int>,
                           outcomes: seq<Outcome>, points: seq<nat>, ranks: seq<nat>, automated: seq<bool>)

  function Add(a: nat, b: nat, size: nat): nat { if a + b < size then a + b else a + b - size }

  function Seat(n: nat): nat
    requires n < 8
  {
    if n < 4 then n else n - 4
  }

  // ---------------------------------------------------------------------------------
  // Verdict and multiples
  // ---------------------------------------------------------------------------------

  function EffectiveRanks(ranks: seq<nat>): (r: seq<nat>)
    requires |ranks| == 4
    ensures |r| == 4
  {
    [if ranks[0] == 0 then 4 else ranks[0], if ranks[1] == 0 then 4 else ranks[1],
     if ranks[2] == 0 then 4 else ranks[2], if ranks[3] == 0 then 4 else ranks[3]]
  }

  /** The verdict and the winning team, from effective ranks and captured points. */
  function Judge(r: seq<nat>, points: seq<nat>): (v: (Verdict, nat))
    requires |r| == 4 && |points| == 4
    ensures v.1 < 2 && v.0 != Peace
  {
    var first := if r[1] == 1 || r[3] == 1 then 1 else 0;
    var other := 1 - first;
    if Add(r[0], r[2], 256) == 3 || Add(r[1], r[3], 256) == 3 then (Double, first)
    else if r[first + 2] == 3 || r[first] == 3 then
      var second := if r[first + 1] == 2 then first + 1 else Seat(first + 3);
      if points[second] == 200 then (Double, other)
      else if Add(points[first], points[first + 2], 0x1_0000) == 200 then (Double, first)
      else if points[second] < 105 then (Single, first)
      else (Single, other)
    else
      var second := if r[first] == 1 then first else first + 2;
      if points[second] == 200 then (Double, first)
      else if Add(points[first + 1], points[Seat(first + 3)], 0x1_0000) == 200 then (Double, other)
      else if Add(points[first + 2], points[first], 0x1_0000) < 100 then (Single, other)
      else (Single, first)
  }

  /** What a seat of the losing team pays: a seat that was played automatically pays for a
      partner who was not. */
  function LoserPays(unit: int, own: bool, partner: bool): int
  {
    if own && !partner then 2 * unit else if partner && !own then 0 else unit
  }

  function Multiple(unit: int, winner: nat, automated: seq<bool>, seat: nat): int
    requires |automated| == 4 && seat < 4
  {
    if seat == winner || seat == winner + 2 then unit
    else -LoserPays(unit, automated[seat], automated[Seat(seat + 2)])
  }

  function OutcomeOf(multiple: int): Outcome { if multiple > 0 then Win else if multiple < 0 then Loss else Draw }

  function Multiples(v: (Verdict, nat), automated: seq<bool>): (m: seq<int>)
    requires |automated| == 4
    ensures |m| == 4
  {
    var unit := if v.0 == Double then 2 else 1;
    [Multiple(unit, v.1, automated, 0), Multiple(unit, v.1, automated, 1),
     Multiple(unit, v.1, automated, 2), Multiple(unit, v.1, automated, 3)]
  }

  function Outcomes(m: seq<int>): (o: seq<Outcome>)
    requires |m| == 4
    ensures |o| == 4
  {
    [OutcomeOf(m[0]), OutcomeOf(m[1]), OutcomeOf(m[2]), OutcomeOf(m[3])]
  }

  function ResultOf(success: bool, ranks: seq<nat>, points: seq<nat>, automated: seq<bool>): Result
    requires |ranks| == 4 && |points| == 4 && |automated| == 4
  {
    var r := EffectiveRanks(ranks);
    if !success then Result(false, Peace, 0, [0, 0, 0, 0], [Draw, Draw, Draw, Draw], points, r, automated)
    else
      var v := Judge(r, points);
      var m := Multiples(v, automated);
      Result(true, v.0, v.1, m, Outcomes(m), points, r, automated)
  }

  /** The calculation as the battle makes it, seat by seat. */
  method CalculateSubgameResult(success: bool, ranks: seq<nat>, points: seq<nat>, automated: seq<bool>)
    returns (result: Result)
    requires |ranks| == 4 && |points| == 4 && |automated| == 4
    ensures result == ResultOf(success, ranks, points, automated)
  {
    var r := ranks;
    for seat := 0 to 4
      invariant |r| == 4
      invariant forall s :: 0 <= s < 4 ==> r[s] == if s < seat && ranks[s] == 0 then 4 else ranks[s]
    {
      if r[seat] == 0 {
        r := r[seat := 4];
      }
    }
    assert r == EffectiveRanks(ranks);
    if !success {
      return Result(false, Peace, 0, [0, 0, 0, 0], [Draw, Draw, Draw, Draw], points, r, automated);
    }
    var (verdict, winner) := Judge(r, points);
    var unit := if verdict == Double then 2 else 1;
    var multiples := ShareMultiples(unit, winner, automated);
    var outcomes := [Draw, Draw, Draw, Draw];
    for seat := 0 to 4
      invariant |outcomes| == 4 && forall s :: 0 <= s < seat ==> outcomes[s] == OutcomeOf(multiples[s])
    {
      outcomes := outcomes[seat := if multiples[seat] > 0 then Win else if multiples[seat] < 0 then Loss else Draw];
    }
    assert outcomes == Outcomes(multiples);
    return Result(true, verdict, winner, multiples, outcomes, points, r, automated);
  }

  method ShareMultiples(unit: int, winner: nat, automated: seq<bool>) returns (multiples: seq<int>)
    requires |automated| == 4 && winner < 2 && unit > 0
    ensures multiples == [Multiple(unit, winner, automated, 0), Multiple(unit, winner, automated, 1),
                          Multiple(unit, winner, automated, 2), Multiple(unit, winner, automated, 3)]
  {
    multiples := [0, 0, 0, 0];
    multiples := multiples[winner := unit][winner + 2 := unit];
    multiples := multiples[1 - winner := -unit][3 - winner := -unit];
    ghost var base := multiples;
    for seat := 0 to 4
      invariant |multiples| == 4
      invariant forall s :: 0 <= s < 4 ==>
          multiples[s] == if s < seat then Multiple(unit, winner, automated, s) else base[s]
    {
      var partner := (seat + 2) % 4;
      assert partner == Seat(seat + 2);
      if automated[seat] && automated[partner] {
      } else if automated[seat] && multiples[seat] < 0 {
        multiples := multiples[seat := multiples[seat] - unit];
      } else if automated[partner] && multiples[seat] < 0 {
        multiples := multiples[seat := 0];
      }
    }
  }

  // ---------------------------------------------------------------------------------
  // Zero sum and symmetry
  // ---------------------------------------------------------------------------------

  function Sum(m: seq<int>): int
    requires |m| == 4
  {
    m[0] + m[1] + m[2] + m[3]
  }

  /** What is won is what is lost, for all ranks, points and automation flags. */
  lemma ZeroSum(success: bool, ranks: seq<nat>, points: seq<nat>, automated: seq<bool>)
    requires |ranks| == 4 && |points| == 4 && |automated| == 4
    ensures Sum(ResultOf(success, ranks, points, automated).multiples) == 0
    ensures forall s :: 0 <= s < 4 ==> -4 <= ResultOf(success, ranks, points, automated).multiples[s] <= 2
  {
    if success {
      var v := Judge(EffectiveRanks(ranks), points);
      LosersPayTwice(if v.0 == Double then 2 else 1, automated);
    }
  }

  lemma LosersPayTwice(unit: int, automated: seq<bool>)
    requires |automated| == 4
    ensures LoserPays(unit, automated[0], automated[2]) + LoserPays(unit, automated[2], automated[0]) == 2 * unit
    ensures LoserPays(unit, automated[1], automated[3]) + LoserPays(unit, automated[3], automated[1]) == 2 * unit
  {
  }

  /** How a team goes out: with the ranks one and two, one and three, or two and three. */
  datatype Finish = OneTwo | OneThree | TwoThree

  predicate TeamHolds(r: seq<nat>, team: nat, x: nat, y: nat)
    requires |r| == 4 && team < 2
  {
    (r[team] == x && r[team + 2] == y) || (r[team] == y && r[team + 2] == x)
  }

  /** The effective ranks when `team` went out in this way. */
  predicate FinishBy(r: seq<nat>, team: nat, finish: Finish)
    requires |r| == 4 && team < 2
  {
    match finish
    case OneTwo => TeamHolds(r, team, 1, 2) && TeamHolds(r, 1 - team, 4, 4)
    case OneThree => TeamHolds(r, team, 1, 3) && TeamHolds(r, 1 - team, 2, 4)
    case TwoThree => TeamHolds(r, team, 2, 3) && TeamHolds(r, 1 - team, 1, 4)
  }

  predicate Terminal(r: seq<nat>)
  {
    |r| == 4 && exists team, finish :: 0 <= team < 2 && FinishBy(r, team, finish)
  }

  function RankedSeat(r: seq<nat>, team: nat, rank: nat): nat
    requires |r| == 4 && team < 2
  {
    if r[team] == rank then team else team + 2
  }

  /** The rules of the game by role: `key` is what the best-placed opponent of the finishing
      team captured, `own` and `theirs` are the totals of the two teams. */
  function Ruling(finish: Finish, team: nat, key: nat, own: nat, theirs: nat): (Verdict, nat)
    requires team < 2
  {
    match finish
    case OneTwo => (Double, team)
    case OneThree =>
      if key == 200 then (Double, 1 - team) else if own == 200 then (Double, team)
      else if key < 105 then (Single, team) else (Single, 1 - team)
    case TwoThree =>
      if key == 200 then (Double, 1 - team) else if own == 200 then (Double, team)
      else if theirs < 100 then (Single, team) else (Single, 1 - team)
  }

  function TeamPoints(points: seq<nat>, team: nat): nat
    requires |points| == 4 && team < 2
  {
    Add(points[team], points[team + 2], 0x1_0000)
  }

  /** The three branches of the calculation are exactly the three ways to go out. */
  lemma JudgeByRoles(r: seq<nat>, points: seq<nat>, team: nat, finish: Finish)
    requires |r| == 4 && |points| == 4 && team < 2 && FinishBy(r, team, finish)
    ensures var best := RankedSeat(r, 1 - team, if finish == OneThree then 2 else 1);
            Judge(r, points)
              == Ruling(finish, team, points[best], TeamPoints(points, team), TeamPoints(points, 1 - team))
  {
  }

  function SwapPartners<T>(s: seq<T>): (t: seq<T>)
    requires |s| == 4
    ensures |t| == 4
  {
    [s[2], s[1], s[0], s[3]]
  }

  /** Everybody moves one seat on, so the teams change places. */
  function Rotate<T>(s: seq<T>): (t: seq<T>)
    requires |s| == 4
    ensures |t| == 4
  {
    [s[3], s[0], s[1], s[2]]
  }

  lemma TerminalSymmetric(r: seq<nat>, team: nat, finish: Finish)
    requires |r| == 4 && team < 2
    ensures FinishBy(r, team, finish) <==> FinishBy(SwapPartners(r), team, finish)
    ensures FinishBy(r, team, finish) <==> FinishBy(Rotate(r), 1 - team, finish)
  {
  }

  /** Swapping partners changes neither the verdict nor the winner. */
  lemma PartnersSymmetric(r: seq<nat>, points: seq<nat>)
    requires Terminal(r) && |points| == 4
    ensures Judge(SwapPartners(r), SwapPartners(points)) == Judge(r, points)
  {
    var team, finish :| 0 <= team < 2 && FinishBy(r, team, finish);
    TerminalSymmetric(r, team, finish);
    JudgeByRoles(r, points, team, finish);
    JudgeByRoles(SwapPartners(r), SwapPartners(points), team, finish);
    RolesUnderSwap(r, points, team, finish);
  }

  lemma RolesUnderSwap(r: seq<nat>, points: seq<nat>, team: nat, finish: Finish)
    requires |r| == 4 && |points| == 4 && team < 2 && FinishBy(r, team, finish)
    ensures TeamPoints(SwapPartners(points), team) == TeamPoints(points, team)
    ensures TeamPoints(SwapPartners(points), 1 - team) == TeamPoints(points, 1 - team)
    ensures finish != OneTwo ==>
              var rank := if finish == OneThree then 2 else 1;
              SwapPartners(points)[RankedSeat(SwapPartners(r), 1 - team, rank)] == points[RankedSeat(r, 1 - team, rank)]
  {
  }

  /** Moving everybody one seat on flips the winner and keeps the verdict. */
  lemma TeamsSymmetric(r: seq<nat>, points: seq<nat>)
    requires Terminal(r) && |points| == 4
    ensures Judge(Rotate(r), Rotate(points)) == (Judge(r, points).0, 1 - Judge(r, points).1)
  {
    var team, finish :| 0 <= team < 2 && FinishBy(r, team, finish);
    TerminalSymmetric(r, team, finish);
    JudgeByRoles(r, points, team, finish);
    JudgeByRoles(Rotate(r), Rotate(points), 1 - team, finish);
    RolesUnderRotation(r, points, team, finish);
  }

  lemma RolesUnderRotation(r: seq<nat>, points: seq<nat>, team: nat, finish: Finish)
    requires |r| == 4 && |points| == 4 && team < 2 && FinishBy(r, team, finish)
    ensures TeamPoints(Rotate(points), 1 - team) == TeamPoints(points, team)
    ensures TeamPoints(Rotate(points), team) == TeamPoints(points, 1 - team)
    ensures finish != OneTwo ==>
              var rank := if finish == OneThree then 2 else 1;
              Rotate(points)[RankedSeat(Rotate(r), team, rank)] == points[RankedSeat(r, 1 - team, rank)]
  {
  }

  lemma MultiplesSymmetric(v: (Verdict, nat), automated: seq<bool>)
    requires |automated| == 4 && v.1 < 2
    ensures Multiples(v, SwapPartners(automated)) == SwapPartners(Multiples(v, automated))
    ensures Multiples((v.0, 1 - v.1), Rotate(automated)) == Rotate(Multiples(v, automated))
  {
  }

  /** The whole result follows the players around the table: swapping two partners swaps
      their multiples, and moving everybody one seat on moves all four. */
  lemma ResultSymmetric(ranks: seq<nat>, points: seq<nat>, automated: seq<bool>)
    requires |ranks| == 4 && Terminal(EffectiveRanks(ranks)) && |points| == 4 && |automated| == 4
    ensures var result := ResultOf(true, ranks, points, automated);
            var swapped := ResultOf(true, SwapPartners(ranks), SwapPartners(points), SwapPartners(automated));
            var rotated := ResultOf(true, Rotate(ranks), Rotate(points), Rotate(automated));
            && swapped.winningTeam == result.winningTeam && rotated.winningTeam == 1 - result.winningTeam
            && swapped.verdict == result.verdict && rotated.verdict == result.verdict
            && swapped.multiples == SwapPartners(result.multiples)
            && rotated.multiples == Rotate(result.multiples)
  {
    var r := EffectiveRanks(ranks);
    assert EffectiveRanks(SwapPartners(ranks)) == SwapPartners(r);
    assert EffectiveRanks(Rotate(ranks)) == Rotate(r);
    PartnersSymmetric(r, points);
    TeamsSymmetric(r, points);
    MultiplesSymmetric(Judge(r, points), automated);
  }

  lemma EndedTerminal(b: BattleModel.Battle)
    requires BattleModel.Shape(b) && b.phase == BattleModel.AwaitingSettlement
    requires BattleInvariants.EndOfPlay(b) && BattleInvariants.RanksInOrder(b)
    ensures Terminal(EffectiveRanks(b.ranks))
  {
    var finished, ranks := b.finished, b.ranks;
    var s :| 0 <= s < 4 && finished[s] && finished[BattleModel.Partner(s)]
      && ranks[s] == BattleModel.OutCount(finished);
    FinishFromRanks(finished, ranks, s);
  }

  /** On every run, play only ever ends with ranks on which the verdict is one of the three
      rulings. */
  lemma PlayEndsTerminal(b: BattleModel.Battle, commands: seq<BattleModel.Command>)
    requires BattleModel.IsFresh(b) && forall c :: c in commands ==> BattleModel.WellFormed(c)
    requires BattleModel.Run(b, commands).phase == BattleModel.AwaitingSettlement
    ensures Terminal(EffectiveRanks(BattleModel.Run(b, commands).ranks))
  {
    BattleRuns.ReachableInv(b, commands);
    EndedTerminal(BattleModel.Run(b, commands));
  }

  lemma FinishFromRanks(finished: seq<bool>, ranks: seq<nat>, s: nat)
    requires |finished| == 4 && |ranks| == 4 && BattleInvariants.RanksOrdered(finished, ranks) && s < 4
    requires finished[s] && finished[BattleModel.Partner(s)] && ranks[s] == BattleModel.OutCount(finished)
    requires (finished[0] && finished[2]) != (finished[1] && finished[3])
    ensures Terminal(EffectiveRanks(ranks))
  {
    var team := if s < 2 then s else s - 2;
    var r := EffectiveRanks(ranks);
    if ranks[s] == 2 {
      assert FinishBy(r, team, OneTwo);
    } else if ranks[BattleModel.Partner(s)] == 1 {
      assert FinishBy(r, team, OneThree);
    } else {
      assert FinishBy(r, team, TwoThree);
    }
  }

  // ---------------------------------------------------------------------------------
  // The score matrix
  // ---------------------------------------------------------------------------------

  predicate IsMatrix(m: seq<seq<int>>) { |m| == 4 && |m[0]| == 4 && |m[1]| == 4 && |m[2]| == 4 && |m[3]| == 4 }

  method ResultScoreMatrix(result: Result) returns (m: seq<seq<int>>)
    requires |result.multiples| == 4
    ensures IsMatrix(m) && m == ScoreMatrix(result)
  {
    var none := [0, 0, 0, 0];
    m := [none, none, none, none];
    if result.verdict == Peace || result.winningTeam > 1 {
      assert forall p :: 0 <= p < 4 ==> MatrixRow(result, p) == none;
      return;
    }
    var winner := result.winningTeam;
    var loser := 1 - winner;
    var unit := result.multiples[winner];
    if result.multiples[loser] != 0 {
      m := m[loser := m[loser][winner := unit]];
    }
    m := m[loser := m[loser][winner + 2 := -result.multiples[loser] - m[loser][winner]]];
    if result.multiples[loser + 2] != 0 {
      m := m[loser + 2 := m[loser + 2][winner + 2 := unit]];
    }
    m := m[loser + 2 := m[loser + 2][winner := -result.multiples[loser + 2] - m[loser + 2][winner + 2]]];
    assert m[winner] == MatrixRow(result, winner) && m[winner + 2] == MatrixRow(result, winner + 2);
    assert m[loser] == MatrixRow(result, loser) && m[loser + 2] == MatrixRow(result, loser + 2);
  }

  /** A losing seat pays its counterpart first and the rest to the other winner. */
  function PaidTo(result: Result, pay: nat, gain: nat): int
    requires |result.multiples| == 4 && pay < 4 && gain < 4
  {
    if result.verdict == Peace || result.winningTeam > 1 then 0
    else
      var winner := result.winningTeam;
      var unit := result.multiples[winner];
      if pay == winner || pay == winner + 2 || !(gain == winner || gain == winner + 2) then 0
      else
        var counterpart := (pay < 2) == (gain < 2);
        var full := if result.multiples[pay] != 0 then unit else 0;
        if counterpart then full else -result.multiples[pay] - full
  }

  function MatrixRow(result: Result, pay: nat): (row: seq<int>)
    requires |result.multiples| == 4 && pay < 4
    ensures |row| == 4
  {
    [PaidTo(result, pay, 0), PaidTo(result, pay, 1), PaidTo(result, pay, 2), PaidTo(result, pay, 3)]
  }

  function ScoreMatrix(result: Result): (m: seq<seq<int>>)
    requires |result.multiples| == 4
    ensures IsMatrix(m)
  {
    [MatrixRow(result, 0), MatrixRow(result, 1), MatrixRow(result, 2), MatrixRow(result, 3)]
  }

  function Column(m: seq<seq<int>>, s: nat): int
    requires IsMatrix(m) && s < 4
  {
    m[0][s] + m[1][s] + m[2][s] + m[3][s]
  }

  /** The matrix has no negative payment, no seat pays itself, and what a seat receives less
      what it pays is its multiple. */
  lemma MatrixBalances(success: bool, ranks: seq<nat>, points: seq<nat>, automated: seq<bool>, s: nat)
    requires |ranks| == 4 && |points| == 4 && |automated| == 4 && s < 4
    ensures var result := ResultOf(success, ranks, points, automated);
            var m := ScoreMatrix(result);
            && Column(m, s) - Sum(m[s]) == result.multiples[s]
            && m[s][s] == 0 && (forall t :: 0 <= t < 4 ==> 0 <= m[s][t] <= 2)
  {
    var result := ResultOf(success, ranks, points, automated);
    if success {
      var v := Judge(EffectiveRanks(ranks), points);
      assert result.multiples == Multiples(v, automated);
      MatrixBalancesFor(result, v, automated, s);
    }
  }

  lemma MatrixBalancesFor(result: Result, v: (Verdict, nat), automated: seq<bool>, s: nat)
    requires |automated| == 4 && v.1 < 2 && v.0 != Peace && s < 4
    requires result.verdict == v.0 && result.winningTeam == v.1 && result.multiples == Multiples(v, automated)
    ensures var m := ScoreMatrix(result);
            && Column(m, s) - Sum(m[s]) == result.multiples[s]
            && m[s][s] == 0 && (forall t :: 0 <= t < 4 ==> 0 <= m[s][t] <= 2)
  {
    var unit := if v.0 == Double then 2 else 1;
    var w := v.1;
    var l := 1 - w;
    var x, y := LoserPays(unit, automated[l], automated[l + 2]), LoserPays(unit, automated[l + 2], automated[l]);
    assert x + y == 2 * unit && x in {0, unit, 2 * unit};
    assert result.multiples[w] == unit && result.multiples[w + 2] == unit;
    assert result.multiples[l] == -x && result.multiples[l + 2] == -y;
    RowsOfMatrix(result, w, unit, x, y);
  }

  lemma RowsOfMatrix(result: Result, w: nat, unit: int, x: int, y: int)
    requires w < 2 && result.verdict != Peace && result.winningTeam == w && |result.multiples| == 4
    requires unit > 0 && x in {0, unit, 2 * unit} && x + y == 2 * unit
    requires result.multiples[w] == unit && result.multiples[w + 2] == unit
    requires result.multiples[1 - w] == -x && result.multiples[3 - w] == -y
    ensures var m := ScoreMatrix(result);
            var first := if x == 0 then 0 else unit;
            var second := if y == 0 then 0 else unit;
            && m[w] == [0, 0, 0, 0] && m[w + 2] == [0, 0, 0, 0]
            && m[1 - w] == (if w == 0 then [first, 0, x - first, 0] else [0, first, 0, x - first])
            && m[3 - w] == (if w == 0 then [y - second, 0, second, 0] else [0, y - second, 0, second])
  {
  }
}
