/** The settlement request a battle sends, the plan it reads back from a settlement, and the
    round trip between the two. */
module SettlementPlan {
  import opened Cards
  import opened Settlement

  datatype Gain = Gain(pay: nat, gain: nat, score: int)

  datatype PlayerResult = PlayerResult(player: nat, flag: nat, team: nat)

  datatype Report = Report(success: bool, teamCount: int, gains: seq<Gain>, players: seq<PlayerResult>)

  datatype Plan = Plan(scores: seq<int>, isBreak: seq<bool>, isSeal: seq<bool>, failed: bool)

  const FLAG_LOSE: nat := 0x01
  const FLAG_DRAW: nat := 0x02
  const FLAG_AS_AUTO: nat := 0x10
  const FLAG_SEAL: nat := 0x100
  const FLAG_BREAK: nat := 0x200

  const INT32_MAX := 0x7FFF_FFFF
  const INT64_MAX := 0x7FFF_FFFF_FFFF_FFFF

  /** Flags are 32-bit words, written here as the numbers their bits stand for. */
  predicate HasBit(flag: nat, bit: nat)
    requires bit > 0
  {
    flag / bit % 2 == 1
  }

  predicate Sealed(flag: nat) { HasBit(flag, FLAG_SEAL) }

  predicate Broken(flag: nat) { HasBit(flag, FLAG_BREAK) }

  // ---------------------------------------------------------------------------------
  // What a list of gains comes to
  // ---------------------------------------------------------------------------------

  function Flow(g: Gain, seat: nat): int
  {
    (if g.gain == seat then g.score else 0) - (if g.pay == seat then g.score else 0)
  }

  /** What `seat` receives less what it pays. */
  function Net(gains: seq<Gain>, seat: nat): int
  {
    if gains == [] then 0
    else Net(gains[..|gains| - 1], seat) + Flow(gains[|gains| - 1], seat)
  }

  predicate GainSound(g: Gain) { g.score > 0 && g.pay < 4 && g.gain < 4 && g.pay != g.gain }

  predicate SamePair(a: Gain, b: Gain) { a.pay == b.pay && a.gain == b.gain }

  /** No pair of seats appears twice. */
  predicate GainsSound(gains: seq<Gain>)
  {
    && (forall i :: 0 <= i < |gains| ==> GainSound(gains[i]))
    && (forall i, j :: 0 <= i < j < |gains| ==> !SamePair(gains[i], gains[j]))
  }

  lemma {:induction false} NetConcat(a: seq<Gain>, b: seq<Gain>, seat: nat)
    ensures Net(a + b, seat) == Net(a, seat) + Net(b, seat)
  {
    if b == [] {
      assert a + b == a;
    } else {
      var n := |b| - 1;
      assert (a + b)[..|a + b| - 1] == a + b[..n];
      NetConcat(a, b[..n], seat);
    }
  }

  /** Gains move score between seats and make none. */
  lemma {:induction false} NetZeroSum(gains: seq<Gain>)
    requires forall i :: 0 <= i < |gains| ==> GainSound(gains[i])
    ensures Net(gains, 0) + Net(gains, 1) + Net(gains, 2) + Net(gains, 3) == 0
  {
    if gains != [] { NetZeroSum(gains[..|gains| - 1]); }
  }

  function PairsOf(gains: seq<Gain>): set<(nat, nat)>
  {
    set i | 0 <= i < |gains| :: (gains[i].pay, gains[i].gain)
  }

  const PAIRS: set<(nat, nat)> :=
    {(0, 1), (0, 2), (0, 3), (1, 0), (1, 2), (1, 3), (2, 0), (2, 1), (2, 3), (3, 0), (3, 1), (3, 2)}

  lemma {:induction false} PairsCounted(gains: seq<Gain>)
    requires GainsSound(gains)
    ensures |PairsOf(gains)| == |gains|
  {
    if gains == [] {
      assert PairsOf(gains) == {};
    } else {
      var n := |gains| - 1;
      var last := (gains[n].pay, gains[n].gain);
      PairsCounted(gains[..n]);
      forall i | 0 <= i < n ensures (gains[i].pay, gains[i].gain) != last {
        assert !SamePair(gains[i], gains[n]);
      }
      assert PairsOf(gains) == PairsOf(gains[..n]) + {last};
      assert last !in PairsOf(gains[..n]);
    }
  }

  lemma {:induction false} SubsetSize(a: set<(nat, nat)>, b: set<(nat, nat)>)
    requires a <= b
    ensures |a| <= |b|
  {
    if a != {} {
      var x :| x in a;
      SubsetSize(a - {x}, b - {x});
    }
  }

  lemma AtMostTwelveGains(gains: seq<Gain>)
    requires GainsSound(gains)
    ensures |gains| <= 12
  {
    PairsCounted(gains);
    forall p | p in PairsOf(gains) ensures p in PAIRS {
      var i :| 0 <= i < |gains| && p == (gains[i].pay, gains[i].gain);
      assert GainSound(gains[i]);
    }
    SubsetSize(PairsOf(gains), PAIRS);
  }

  lemma {:induction false} NetBounded(gains: seq<Gain>, seat: nat)
    requires forall i :: 0 <= i < |gains| ==> GainSound(gains[i]) && gains[i].score <= INT32_MAX
    ensures -|gains| * INT32_MAX <= Net(gains, seat) <= |gains| * INT32_MAX
  {
    if gains != [] { NetBounded(gains[..|gains| - 1], seat); }
  }

  /** The 64-bit accumulators cannot overflow while 32-bit gains are added up. */
  lemma AccumulatorsFit(gains: seq<Gain>, n: nat, seat: nat)
    requires GainsSound(gains) && n <= |gains| && forall i :: 0 <= i < |gains| ==> gains[i].score <= INT32_MAX
    ensures -INT64_MAX <= Net(gains[..n], seat) <= INT64_MAX
  {
    AtMostTwelveGains(gains);
    NetBounded(gains[..n], seat);
    assert |gains[..n]| * INT32_MAX <= 12 * INT32_MAX;
  }

  // ---------------------------------------------------------------------------------
  // Reading a settlement
  // ---------------------------------------------------------------------------------

  /** The four seated users: `users[s] == 0` stands for an empty or anonymous seat. */
  predicate UsersKnown(users: seq<nat>)
    requires |users| == 4
  {
    (forall s :: 0 <= s < 4 ==> users[s] != 0) && (forall s, t :: 0 <= s < t < 4 ==> users[s] != users[t])
  }

  /** Every record names the user of its team's seat, and no user is named twice. */
  predicate PlayersMatch(users: seq<nat>, players: seq<PlayerResult>)
    requires |users| == 4
  {
    && (forall i :: 0 <= i < |players| ==> players[i].team < 4 && users[players[i].team] == players[i].player)
    && (forall i, j :: 0 <= i < j < |players| ==> players[i].player != players[j].player)
  }

  predicate ScoresFit(gains: seq<Gain>) { forall s :: 0 <= s < 4 ==> -INT32_MAX - 1 <= Net(gains, s) <= INT32_MAX }

  predicate Acceptable(users: seq<nat>, report: Report)
    requires |users| == 4
  {
    && report.teamCount == 4 && |report.players| == 4
    && UsersKnown(users) && PlayersMatch(users, report.players)
    && GainsSound(report.gains) && ScoresFit(report.gains)
  }

  /** The plan of an acceptable report: the net of its gains, and each seat's flags. */
  predicate PlanOf(plan: Plan, report: Report)
  {
    && |plan.scores| == 4 && |plan.isSeal| == 4 && |plan.isBreak| == 4 && !plan.failed
    && (forall s :: 0 <= s < 4 ==> plan.scores[s] == Net(report.gains, s))
    && FlagsRead(report.players, plan.isSeal, plan.isBreak)
  }

  predicate IndexOf(users: seq<nat>, seats: map<nat, nat>)
  {
    && (forall u :: u in seats ==> seats[u] < |users| && users[seats[u]] == u)
    && (forall s :: 0 <= s < |users| ==> users[s] in seats && seats[users[s]] == s)
  }

  method IndexUsers(users: seq<nat>) returns (ok: bool, seats: map<nat, nat>)
    requires |users| == 4
    ensures ok <==> UsersKnown(users)
    ensures ok ==> IndexOf(users, seats) && |seats| == 4
  {
    seats := map[];
    for seat := 0 to 4
      invariant IndexOf(users[..seat], seats) && |seats| == seat
      invariant forall s :: 0 <= s < seat ==> users[s] != 0
    {
      if users[seat] == 0 {
        return false, seats;
      }
      if users[seat] in seats {
        assert users[seats[users[seat]]] == users[seat];
        return false, seats;
      }
      IndexNext(users[..seat], seats, users[seat]);
      assert users[..seat] + [users[seat]] == users[..seat + 1];
      seats := seats[users[seat] := seat];
    }
    assert users[..4] == users;
    ok := true;
  }

  lemma IndexNext(users: seq<nat>, seats: map<nat, nat>, user: nat)
    requires IndexOf(users, seats) && user !in seats
    ensures IndexOf(users + [user], seats[user := |users|])
  {
    var more, next := users + [user], seats[user := |users|];
    forall u | u in next ensures next[u] < |more| && more[next[u]] == u {
    }
    forall s | 0 <= s < |more| ensures more[s] in next && next[more[s]] == s {
      if s < |users| { assert more[s] == users[s] && users[s] in seats; }
    }
  }

  /** What the records read so far say about the flags of their seats. */
  predicate FlagsRead(players: seq<PlayerResult>, isSeal: seq<bool>, isBreak: seq<bool>)
    requires |isSeal| == 4 && |isBreak| == 4
  {
    forall i :: 0 <= i < |players| && players[i].team < 4 ==>
      isSeal[players[i].team] == Sealed(players[i].flag) && isBreak[players[i].team] == Broken(players[i].flag)
  }

  function NamesOf(players: seq<PlayerResult>): set<nat> { set i | 0 <= i < |players| :: players[i].player }

  method ReadPlayers(users: seq<nat>, seats: map<nat, nat>, players: seq<PlayerResult>)
    returns (ok: bool, isSeal: seq<bool>, isBreak: seq<bool>)
    requires |users| == 4 && IndexOf(users, seats) && |seats| == 4 && |players| == 4
    ensures ok <==> PlayersMatch(users, players)
    ensures |isSeal| == 4 && |isBreak| == 4
    ensures ok ==> FlagsRead(players, isSeal, isBreak)
  {
    var seen: set<nat> := {};
    isSeal, isBreak := [false, false, false, false], [false, false, false, false];
    for i := 0 to |players|
      invariant |isSeal| == 4 && |isBreak| == 4 && |seen| == i && seen == NamesOf(players[..i])
      invariant PlayersMatch(users, players[..i]) && FlagsRead(players[..i], isSeal, isBreak)
    {
      var p := players[i];
      var before := players[..i];
      assert players[..i + 1] == before + [p];
      if p.player !in seats || p.team != seats[p.player] {
        assert p.team < 4 ==> users[p.team] != p.player;
        return false, isSeal, isBreak;
      }
      if p.player in seen {
        var k :| 0 <= k < i && before[k].player == p.player;
        assert players[k].player == players[i].player;
        return false, isSeal, isBreak;
      }
      MatchNext(users, before, p);
      FlagsNext(users, before, p, isSeal, isBreak);
      seen := seen + {p.player};
      isSeal := isSeal[p.team := Sealed(p.flag)];
      isBreak := isBreak[p.team := Broken(p.flag)];
    }
    assert players[..|players|] == players;
    ok := |seen| == |seats|;
  }

  lemma MatchNext(users: seq<nat>, players: seq<PlayerResult>, p: PlayerResult)
    requires |users| == 4 && PlayersMatch(users, players)
    requires p.team < 4 && users[p.team] == p.player && p.player !in NamesOf(players)
    ensures PlayersMatch(users, players + [p]) && NamesOf(players + [p]) == NamesOf(players) + {p.player}
  {
    var more := players + [p];
    forall i | 0 <= i < |players| ensures players[i].player != p.player {
      assert players[i].player in NamesOf(players);
    }
    assert forall i :: 0 <= i < |players| ==> more[i] == players[i];
    forall u | u in NamesOf(players) + {p.player} ensures u in NamesOf(more) {
      if u == p.player {
        assert more[|players|] == p;
      } else {
        var i :| 0 <= i < |players| && u == players[i].player;
        assert more[i] == players[i];
      }
    }
  }

  lemma FlagsNext(users: seq<nat>, players: seq<PlayerResult>, p: PlayerResult, isSeal: seq<bool>, isBreak: seq<bool>)
    requires |users| == 4 && |isSeal| == 4 && |isBreak| == 4 && PlayersMatch(users, players)
    requires FlagsRead(players, isSeal, isBreak)
    requires p.team < 4 && users[p.team] == p.player && p.player !in NamesOf(players)
    ensures FlagsRead(players + [p], isSeal[p.team := Sealed(p.flag)], isBreak[p.team := Broken(p.flag)])
  {
    forall i | 0 <= i < |players| ensures players[i].team != p.team {
      assert players[i].player in NamesOf(players);
    }
  }

  method AddGains(gains: seq<Gain>) returns (ok: bool, values: seq<int>)
    ensures ok <==> GainsSound(gains)
    ensures ok ==> |values| == 4 && forall s :: 0 <= s < 4 ==> values[s] == Net(gains, s)
  {
    values := [0, 0, 0, 0];
    var seen: set<(nat, nat)> := {};
    for i := 0 to |gains|
      invariant |values| == 4 && GainsSound(gains[..i]) && seen == PairsOf(gains[..i])
      invariant forall s :: 0 <= s < 4 ==> values[s] == Net(gains[..i], s)
    {
      var g := gains[i];
      var before := gains[..i];
      assert gains[..i + 1] == before + [g];
      if g.score <= 0 || g.pay >= 4 || g.gain >= 4 || g.pay == g.gain {
        assert !GainSound(gains[i]);
        return false, values;
      }
      if (g.pay, g.gain) in seen {
        var k :| 0 <= k < i && (before[k].pay, before[k].gain) == (g.pay, g.gain);
        assert SamePair(gains[k], gains[i]);
        return false, values;
      }
      SoundNext(before, g);
      seen := seen + {(g.pay, g.gain)};
      values := values[g.pay := values[g.pay] - g.score];
      values := values[g.gain := values[g.gain] + g.score];
    }
    assert gains[..|gains|] == gains;
    ok := true;
  }

  lemma SoundNext(gains: seq<Gain>, g: Gain)
    requires GainsSound(gains) && GainSound(g) && (g.pay, g.gain) !in PairsOf(gains)
    ensures GainsSound(gains + [g]) && PairsOf(gains + [g]) == PairsOf(gains) + {(g.pay, g.gain)}
    ensures forall s :: Net(gains + [g], s) == Net(gains, s) + Flow(g, s)
  {
    var more := gains + [g];
    assert more[..|more| - 1] == gains;
    forall i | 0 <= i < |gains| ensures !SamePair(gains[i], g) {
      assert (gains[i].pay, gains[i].gain) in PairsOf(gains);
    }
    assert forall i :: 0 <= i < |gains| ==> more[i] == gains[i];
    forall p | p in PairsOf(more) ensures p in PairsOf(gains) + {(g.pay, g.gain)} {
    }
    forall p | p in PairsOf(gains) + {(g.pay, g.gain)} ensures p in PairsOf(more) {
      if p == (g.pay, g.gain) {
        assert more[|gains|] == g;
      } else {
        var i :| 0 <= i < |gains| && p == (gains[i].pay, gains[i].gain);
        assert more[i] == gains[i];
      }
    }
  }

  /** Exactly the acceptable reports give a plan, and a failed settlement gives the failed
      plan whatever else it says. */
  method ReadPlan(users: seq<nat>, report: Report) returns (plan: Option<Plan>)
    requires |users| == 4
    ensures plan.Some? <==> !report.success || Acceptable(users, report)
    ensures !report.success ==> plan.value.failed && plan.value.scores == [0, 0, 0, 0]
    ensures report.success && plan.Some? ==> PlanOf(plan.value, report)
  {
    var none := [false, false, false, false];
    if !report.success {
      return Some(Plan([0, 0, 0, 0], none, none, true));
    }
    if report.teamCount != 4 || |report.players| != 4 {
      return None;
    }
    var known, seats := IndexUsers(users);
    if !known {
      return None;
    }
    var matched, isSeal, isBreak := ReadPlayers(users, seats, report.players);
    if !matched {
      return None;
    }
    var sound, values := AddGains(report.gains);
    if !sound {
      return None;
    }
    for seat := 0 to 4
      invariant forall s :: 0 <= s < seat ==> -INT32_MAX - 1 <= Net(report.gains, s) <= INT32_MAX
    {
      if values[seat] < -INT32_MAX - 1 || values[seat] > INT32_MAX {
        assert !ScoresFit(report.gains);
        return None;
      }
    }
    return Some(Plan(values, isBreak, isSeal, false));
  }

  /** Every accepted plan is zero-sum and decides the flags of every seat. */
  lemma PlanConserves(users: seq<nat>, report: Report, plan: Plan)
    requires |users| == 4 && Acceptable(users, report) && PlanOf(plan, report)
    ensures Sum(plan.scores) == 0
    ensures forall s :: 0 <= s < 4 ==> Reported(report.players, s)
  {
    NetZeroSum(report.gains);
    EverySeatReported(users, report.players);
  }

  predicate Reported(players: seq<PlayerResult>, seat: nat)
  {
    exists i :: 0 <= i < |players| && players[i].team == seat
  }

  lemma EverySeatReported(users: seq<nat>, p: seq<PlayerResult>)
    requires |users| == 4 && |p| == 4 && PlayersMatch(users, p)
    ensures forall s :: 0 <= s < 4 ==> Reported(p, s)
  {
    assert p[0].player != p[1].player && p[0].player != p[2].player && p[0].player != p[3].player
        && p[1].player != p[2].player && p[1].player != p[3].player && p[2].player != p[3].player;
    forall s | 0 <= s < 4 ensures Reported(p, s) {
      if p[0].team != s && p[1].team != s && p[2].team != s { assert p[3].team == s; }
    }
  }

  // ---------------------------------------------------------------------------------
  // Building the request
  // ---------------------------------------------------------------------------------

  function CellGain(m: seq<seq<int>>, pay: nat, gain: nat): seq<Gain>
    requires IsMatrix(m) && pay < 4 && gain < 4
  {
    if m[pay][gain] > 0 then [Gain(pay, gain, m[pay][gain])] else []
  }

  function RowGains(m: seq<seq<int>>, pay: nat, n: nat): seq<Gain>
    requires IsMatrix(m) && pay < 4 && n <= 4
  {
    if n == 0 then [] else RowGains(m, pay, n - 1) + CellGain(m, pay, n - 1)
  }

  function MatrixGains(m: seq<seq<int>>, n: nat): seq<Gain>
    requires IsMatrix(m) && n <= 4
  {
    if n == 0 then [] else MatrixGains(m, n - 1) + RowGains(m, n - 1, 4)
  }

  function PlayerFlag(outcome: Outcome, automated: bool): nat
  {
    (match outcome case Win => 0 case Loss => FLAG_LOSE case Draw => FLAG_DRAW)
      + (if automated then FLAG_AS_AUTO else 0)
  }

  method BuildSettlementRequest(result: Result, users: seq<nat>) returns (report: Report)
    requires |users| == 4 && |result.multiples| == 4 && |result.outcomes| == 4 && |result.automated| == 4
    ensures report.success && report.teamCount == 4 && report.gains == MatrixGains(ScoreMatrix(result), 4)
    ensures |report.players| == 4
    ensures forall s :: 0 <= s < 4 ==>
      report.players[s] == PlayerResult(users[s], PlayerFlag(result.outcomes[s], result.automated[s]), s)
  {
    var matrix := ResultScoreMatrix(result);
    var gains: seq<Gain> := [];
    for pay := 0 to 4
      invariant gains == MatrixGains(matrix, pay)
    {
      for gain := 0 to 4
        invariant gains == MatrixGains(matrix, pay) + RowGains(matrix, pay, gain)
      {
        if matrix[pay][gain] > 0 {
          gains := gains + [Gain(pay, gain, matrix[pay][gain])];
        }
      }
    }
    var players: seq<PlayerResult> := [];
    for seat := 0 to 4
      invariant |players| == seat
      invariant forall s :: 0 <= s < seat ==>
        players[s] == PlayerResult(users[s], PlayerFlag(result.outcomes[s], result.automated[s]), s)
    {
      var flag: nat := match result.outcomes[seat] case Win => 0 case Loss => FLAG_LOSE case Draw => FLAG_DRAW;
      if result.automated[seat] {
        flag := flag + FLAG_AS_AUTO;
      }
      players := players + [PlayerResult(users[seat], flag, seat)];
    }
    report := Report(true, 4, gains, players);
  }

  // ---------------------------------------------------------------------------------
  // The round trip
  // ---------------------------------------------------------------------------------

  /** A matrix of payments: nothing negative, nothing on the diagonal. */
  predicate PaymentMatrix(m: seq<seq<int>>)
  {
    IsMatrix(m) && forall p, q :: 0 <= p < 4 && 0 <= q < 4 ==> m[p][q] >= 0 && (p == q ==> m[p][q] == 0)
  }

  function RowSum(row: seq<int>, n: nat): int
    requires n <= |row|
  {
    if n == 0 then 0 else RowSum(row, n - 1) + row[n - 1]
  }

  function ColumnSum(m: seq<seq<int>>, s: nat, n: nat): int
    requires IsMatrix(m) && s < 4 && n <= 4
  {
    if n == 0 then 0 else ColumnSum(m, s, n - 1) + m[n - 1][s]
  }

  lemma {:induction false} NetOfRow(m: seq<seq<int>>, pay: nat, n: nat, s: nat)
    requires PaymentMatrix(m) && pay < 4 && n <= 4 && s < 4
    ensures Net(RowGains(m, pay, n), s)
         == (if s < n then m[pay][s] else 0) - (if s == pay then RowSum(m[pay], n) else 0)
  {
    if n > 0 {
      NetOfRow(m, pay, n - 1, s);
      NetConcat(RowGains(m, pay, n - 1), CellGain(m, pay, n - 1), s);
      assert Net(CellGain(m, pay, n - 1), s) ==
             (if s == n - 1 then m[pay][n - 1] else 0) - (if s == pay then m[pay][n - 1] else 0);
    }
  }

  lemma {:induction false} NetOfMatrix(m: seq<seq<int>>, n: nat, s: nat)
    requires PaymentMatrix(m) && n <= 4 && s < 4
    ensures Net(MatrixGains(m, n), s) == ColumnSum(m, s, n) - (if s < n then RowSum(m[s], 4) else 0)
  {
    if n > 0 {
      NetOfMatrix(m, n - 1, s);
      NetOfRow(m, n - 1, 4, s);
      NetConcat(MatrixGains(m, n - 1), RowGains(m, n - 1, 4), s);
    }
  }

  /** Row-major order: pairs only go up. */
  predicate InOrder(gains: seq<Gain>, bound: nat)
  {
    && (forall i :: 0 <= i < |gains| ==> GainSound(gains[i]) && 4 * gains[i].pay + gains[i].gain < bound)
    && (forall i, j :: 0 <= i < j < |gains| ==> 4 * gains[i].pay + gains[i].gain < 4 * gains[j].pay + gains[j].gain)
  }

  lemma {:induction false} RowInOrder(m: seq<seq<int>>, pay: nat, n: nat, before: seq<Gain>)
    requires PaymentMatrix(m) && pay < 4 && n <= 4 && InOrder(before, 4 * pay)
    ensures InOrder(before + RowGains(m, pay, n), 4 * pay + n)
  {
    if n == 0 {
      assert before + RowGains(m, pay, n) == before;
    } else {
      RowInOrder(m, pay, n - 1, before);
      assert before + RowGains(m, pay, n) == (before + RowGains(m, pay, n - 1)) + CellGain(m, pay, n - 1);
    }
  }

  lemma {:induction false} MatrixInOrder(m: seq<seq<int>>, n: nat)
    requires PaymentMatrix(m) && n <= 4
    ensures InOrder(MatrixGains(m, n), 4 * n)
  {
    if n > 0 {
      MatrixInOrder(m, n - 1);
      RowInOrder(m, n - 1, 4, MatrixGains(m, n - 1));
    }
  }

  lemma NoExtraFlags(outcome: Outcome, automated: bool)
    ensures !Sealed(PlayerFlag(outcome, automated)) && !Broken(PlayerFlag(outcome, automated))
  {
  }

  /** The matrix of a calculated result pays out exactly its multiples. */
  lemma ResultNets(success: bool, ranks: seq<nat>, points: seq<nat>, automated: seq<bool>, s: nat)
    requires |ranks| == 4 && |points| == 4 && |automated| == 4 && s < 4
    ensures var result := ResultOf(success, ranks, points, automated);
            PaymentMatrix(ScoreMatrix(result)) && Net(MatrixGains(ScoreMatrix(result), 4), s) == result.multiples[s]
  {
    var result := ResultOf(success, ranks, points, automated);
    var m := ScoreMatrix(result);
    forall p | 0 <= p < 4 ensures m[p][p] == 0 && forall q :: 0 <= q < 4 ==> m[p][q] >= 0 {
      MatrixBalances(success, ranks, points, automated, p);
    }
    MatrixBalances(success, ranks, points, automated, s);
    NetOfMatrix(m, 4, s);
    SumsAgree(m, s);
  }

  lemma SumsAgree(m: seq<seq<int>>, s: nat)
    requires IsMatrix(m) && s < 4
    ensures ColumnSum(m, s, 4) == Column(m, s) && RowSum(m[s], 4) == Sum(m[s])
  {
    var row := m[s];
    assert RowSum(row, 1) == row[0];
    assert RowSum(row, 2) == row[0] + row[1];
    assert ColumnSum(m, s, 1) == m[0][s];
    assert ColumnSum(m, s, 2) == m[0][s] + m[1][s];
  }

  /** The report built from any result is acceptable to the same four users, and the plan
      read back pays every seat its multiple and flags nobody. */
  lemma SettlementRoundTrip(success: bool, ranks: seq<nat>, points: seq<nat>, automated: seq<bool>,
                            users: seq<nat>, report: Report, plan: Plan)
    requires |ranks| == 4 && |points| == 4 && |automated| == 4 && |users| == 4 && UsersKnown(users)
    requires var result := ResultOf(success, ranks, points, automated);
             && report.teamCount == 4 && report.gains == MatrixGains(ScoreMatrix(result), 4) && |report.players| == 4
             && forall s :: 0 <= s < 4 ==>
               report.players[s] == PlayerResult(users[s], PlayerFlag(result.outcomes[s], result.automated[s]), s)
    ensures Acceptable(users, report)
    ensures PlanOf(plan, report) ==>
              && plan.scores == ResultOf(success, ranks, points, automated).multiples
              && forall s :: 0 <= s < 4 ==> !plan.isSeal[s] && !plan.isBreak[s]
  {
    var result := ResultOf(success, ranks, points, automated);
    var m := ScoreMatrix(result);
    ZeroSum(success, ranks, points, automated);
    ResultNets(success, ranks, points, automated, 0);
    forall s | 0 <= s < 4 ensures Net(report.gains, s) == result.multiples[s] {
      ResultNets(success, ranks, points, automated, s);
    }
    MatrixInOrder(m, 4);
    assert GainsSound(report.gains);
    assert ScoresFit(report.gains);
    if PlanOf(plan, report) {
      forall s | 0 <= s < 4 ensures !plan.isSeal[s] && !plan.isBreak[s] {
        NoExtraFlags(result.outcomes[s], result.automated[s]);
        assert report.players[s].team == s;
      }
    }
  }
}
