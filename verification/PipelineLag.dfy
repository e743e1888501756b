/** Runs that show where the guarantees end.  In one the wallet shows a balance that the ledger
    has left behind: results carry amounts, and may arrive in another order than they were
    committed in.  In the others a battle is left settling. */
module PipelineLag {
  import opened PipelineModel
  import opened PipelineTransit
  import opened PipelineProgress

  const ENTRIES := [Entry(1, 5)]
  const FIRST := Request(1, 0, 1, ENTRIES)
  const SECOND := Request(2, 0, 1, ENTRIES)
  const KEY := Key(1, 1)

  function Credited(id: nat, amount: int): Result { Result(id, Committed, 1, [Balance(1, 1, amount)]) }

  lemma OneRunning() returns (st: State)
    ensures Reached(st) && st.battles == [Battle(Running, map[], map[])]
    ensures st.commits == {} && st.tasks == {} && st.answers == {}
    ensures st.wallet == Wallet(map[], map[], map[], 2) && st.ledger == Ledger(map[], map[], [])
  {
    st := State([], Wallet(map[], map[], map[], 2), Ledger(map[], map[], []), {}, {}, {}, {});
    var none: seq<Step> := [];
    assert IsRun([st], none) && [st][|none|] == st;
    Onward(st, Create);
    st := Next(st, Create);
    Onward(st, Start(0));
    st := Next(st, Start(0));
  }

  /** One battle has asked for two settlements. */
  lemma BothAsked() returns (st: State)
    ensures Reached(st) && FIRST in st.commits && SECOND in st.commits && st.tasks == {} && st.answers == {}
    ensures |st.battles| == 1 && st.battles[0].phase.Settling?
    ensures st.wallet == Wallet(map[], map[], map[], 2) && st.ledger == Ledger(map[], map[], [])
  {
    st := OneRunning();
    var intents := [Intent(1, 1, ENTRIES), Intent(2, 1, ENTRIES)];
    assert ValidEntries(ENTRIES);
    assert ValidIntents(intents);
    Onward(st, Finish(0, intents));
    st := Next(st, Finish(0, intents));
    RequestedBoth(intents);
    var requests := st.battles[0].requests;
    assert requests == map[1 := FIRST, 2 := SECOND];
    assert requests[1] == FIRST && requests[2] == SECOND;
  }

  /** Both have reached the wallet. */
  lemma BothAdmitted() returns (st: State)
    ensures Reached(st) && st.tasks == {FIRST, SECOND} && st.answers == {} && st.ledger == Ledger(map[], map[], [])
    ensures st.wallet.requests == map[1 := FIRST, 2 := SECOND] && st.wallet.balances == map[]
    ensures st.wallet.results == map[1 := PendingResult(FIRST), 2 := PendingResult(SECOND)]
  {
    st := BothAsked();
    assert ValidEntries(ENTRIES);
    assert PendingIds(st.wallet) == {};
    Onward(st, CommitArrives(FIRST, true));
    st := Next(st, CommitArrives(FIRST, true));
    assert PendingIds(st.wallet) == {1};
    Onward(st, CommitArrives(SECOND, true));
    st := Next(st, CommitArrives(SECOND, true));
  }

  lemma RequestedBoth(intents: seq<Intent>)
    requires intents == [Intent(1, 1, ENTRIES), Intent(2, 1, ENTRIES)]
    ensures Requested(intents, 0) == map[1 := FIRST, 2 := SECOND]
  {
    assert intents[..1] == [intents[0]];
    assert intents[..1][..0] == [];
    assert Requested(intents[..1], 0) == map[1 := FIRST];
  }

  /** Committing to a ledger in which the player has `before`. */
  lemma CommitOne(l: Ledger, request: Request, before: int)
    requires request.currency == 1 && request.entries == ENTRIES && Amount(l.balances, KEY) == before
    requires 0 <= before <= 100
    ensures CommitResult(l, request) == Credited(request.id, before + 5)
    ensures Amount(CommitNew(l, request).balances, KEY) == before + 5
  {
    assert |ENTRIES| == 1 && ENTRIES[..0] == [];
    assert AddEntries(l.balances, 1, ENTRIES[..0]) == l.balances;
    var after := AddEntries(l.balances, 1, ENTRIES);
    assert after == AddEntry(l.balances, 1, Entry(1, 5));
    assert Reported(l.balances, request) == [Balance(1, 1, before + 5)];
  }

  lemma BothCommitted() returns (st: State)
    ensures Reached(st) && Amount(st.ledger.balances, KEY) == 10
    ensures st.answers == {Answer(FIRST, Credited(1, 5)), Answer(SECOND, Credited(2, 10))}
    ensures st.wallet.requests == map[1 := FIRST, 2 := SECOND] && st.wallet.balances == map[]
    ensures st.wallet.results == map[1 := PendingResult(FIRST), 2 := PendingResult(SECOND)]
  {
    st := BothAdmitted();
    CommitOne(st.ledger, FIRST, 0);
    Onward(st, WorkCommit(FIRST));
    st := Next(st, WorkCommit(FIRST));
    CommitOne(st.ledger, SECOND, 5);
    Onward(st, WorkCommit(SECOND));
    st := Next(st, WorkCommit(SECOND));
  }

  lemma StoreOne(balances: map<Key, int>, b: Balance)
    ensures Store(balances, [b]) == balances[Key(b.currency, b.player) := b.amount]
  {
    assert [b][..0] == [];
  }

  lemma WalletCanLag()
    ensures exists st :: Reached(st) && Amount(st.wallet.balances, KEY) != Amount(st.ledger.balances, KEY)
  {
    var st := BothCommitted();
    StoreOne(st.wallet.balances, Balance(1, 1, 10));
    Onward(st, AnswerArrives(SECOND, Credited(2, 10)));
    st := Next(st, AnswerArrives(SECOND, Credited(2, 10)));
    StoreOne(st.wallet.balances, Balance(1, 1, 5));
    Onward(st, AnswerArrives(FIRST, Credited(1, 5)));
    st := Next(st, AnswerArrives(FIRST, Credited(1, 5)));
    assert Amount(st.wallet.balances, KEY) == 5;
  }

  // ---------------------------------------------------------------------------------
  // Battles that are left settling, though every message arrives
  // ---------------------------------------------------------------------------------

  function Fresh(limit: nat, recovers: bool): Transit
  {
    Transit(State([], Wallet(map[], map[], map[], limit), Ledger(map[], map[], []), {}, {}, {}, {}),
            {}, {}, {}, {}, recovers)
  }

  ghost predicate Gets(limit: nat, r: Transit)
  {
    limit >= 1 && Leads(Fresh(limit, true), r) && r.recovers && r.commits <= r.st.commits
  }

  lemma Walk(limit: nat, r: Transit, step: Step) returns (n: Transit)
    requires Gets(limit, r) && CanMove(r, Happens(step))
    ensures n == Moved(r, Happens(step)) && Gets(limit, n)
  {
    n := Moved(r, Happens(step));
    Further(Fresh(limit, true), r, Happens(step));
  }

  /** Two battles run. */
  lemma TwoRunning(limit: nat) returns (r: Transit)
    requires limit >= 1
    ensures Gets(limit, r) && r.st.battles == [Battle(Running, map[], map[]), Battle(Running, map[], map[])]
    ensures r.commits == {} && r.st.wallet == Wallet(map[], map[], map[], limit)
  {
    r := Fresh(limit, true);
    Stays(r);
    r := Walk(limit, r, Create);
    r := Walk(limit, r, Create);
    r := Walk(limit, r, Start(0));
    r := Walk(limit, r, Start(1));
  }

  const OTHER := Request(1, 1, 1, ENTRIES)

  lemma RequestedOne(source: nat)
    ensures Requested([Intent(1, 1, ENTRIES)], source) == map[1 := Request(1, source, 1, ENTRIES)]
  {
    assert [Intent(1, 1, ENTRIES)][..0] == [];
  }

  /** Battle b asks for one settlement, under number 1. */
  lemma AskOne(limit: nat, r: Transit, b: nat) returns (n: Transit)
    requires Gets(limit, r) && b < |r.st.battles| && r.st.battles[b].phase.Running?
    ensures var request := Request(1, b, 1, ENTRIES);
            && Gets(limit, n) && n.commits == r.commits + {request} && n.st.wallet == r.st.wallet
            && |n.st.battles| == |r.st.battles| && n.st.battles[b].phase.Settling?
            && n.st.battles[b].requests == map[1 := request]
            && forall x :: 0 <= x < |r.st.battles| && x != b ==> n.st.battles[x] == r.st.battles[x]
  {
    var intents := [Intent(1, 1, ENTRIES)];
    assert ValidEntries(ENTRIES);
    assert ValidIntents(intents);
    RequestedOne(b);
    n := Walk(limit, r, Finish(b, intents));
    var request := Request(1, b, 1, ENTRIES);
    assert n.st.battles[b].requests[1] == request;
    assert n.st.battles[b].requests.Values == {request};
  }

  /** Battle b settles for ever. */
  ghost predicate Left(limit: nat, r: Transit, b: nat)
  {
    Gets(limit, r) && b < |r.st.battles| && r.st.battles[b].phase.Settling? && !CanFinish(r, b)
  }

  lemma LeftBy(limit: nat, r: Transit, b: nat, id: nat)
    requires Gets(limit, r) && b < |r.st.battles| && r.st.battles[b].phase.Settling?
    requires id in r.st.battles[b].requests && StuckRequest(r, b, r.st.battles[b].requests[id])
    ensures Left(limit, r, b)
  {
    var ts, ms :| IsPath(ts, ms) && ts[0] == Fresh(limit, true) && ts[|ms|] == r;
    PathSound(ts, ms, |ms|);
    StuckNeverFinishes(r, b);
  }

  /** A full ledger runner refuses the request, and its battle is left settling. */
  lemma RefusalLeavesBattleSettling()
    ensures exists r :: Left(2, r, 0) && 1 in r.st.wallet.results && r.st.wallet.results[1].outcome.Rejected?
  {
    var r := TwoRunning(2);
    r := AskOne(2, r, 0);
    assert ValidEntries(ENTRIES);
    assert PendingIds(r.st.wallet) == {};
    r := Walk(2, r, CommitArrives(FIRST, false));
    LeftBy(2, r, 0, 1);
  }

  lemma OneNumber() returns (r: Transit)
    ensures Gets(2, r) && |r.st.battles| == 2 && r.st.battles[1].phase.Settling?
    ensures r.st.battles[1].requests == map[1 := OTHER]
    ensures r.commits == {FIRST, OTHER} && r.st.wallet == Wallet(map[], map[], map[], 2)
  {
    r := TwoRunning(2);
    r := AskOne(2, r, 0);
    r := AskOne(2, r, 1);
  }

  /** Two battles use one number: the wallet turns the second away, which is left settling. */
  lemma ConflictLeavesBattleSettling()
    ensures exists r :: Left(2, r, 1) && r.commits == {} && 1 in r.st.wallet.results
                        && !r.st.wallet.results[1].outcome.Rejected?
  {
    var r := OneNumber();
    assert ValidEntries(ENTRIES);
    assert PendingIds(r.st.wallet) == {};
    r := Walk(2, r, CommitArrives(FIRST, true));
    r := Walk(2, r, CommitArrives(OTHER, true));
    assert r.commits == {};
    LeftBy(2, r, 1, 1);
  }

  lemma AskBoth() returns (r: Transit)
    ensures Gets(1, r) && |r.st.battles| == 2 && r.st.battles[0].phase.Settling?
    ensures r.st.battles[0].requests == map[1 := FIRST, 2 := SECOND]
    ensures r.commits == {FIRST, SECOND} && r.st.wallet == Wallet(map[], map[], map[], 1)
  {
    r := TwoRunning(1);
    var intents := [Intent(1, 1, ENTRIES), Intent(2, 1, ENTRIES)];
    assert ValidEntries(ENTRIES);
    assert ValidIntents(intents);
    RequestedBoth(intents);
    r := Walk(1, r, Finish(0, intents));
    var requests := r.st.battles[0].requests;
    assert requests[1] == FIRST && requests[2] == SECOND;
    assert requests.Values == {FIRST, SECOND};
  }

  /** A wallet that has as many pending requests as it may turns the next one away without
      keeping it: every commit has arrived, none is refused, and the battle is left settling. */
  lemma FullWalletLeavesBattleSettling()
    ensures exists r :: Left(1, r, 0) && r.commits == {}
                        && forall id :: id in r.st.wallet.results ==> r.st.wallet.results[id].outcome.Pending?
  {
    var r := AskBoth();
    assert ValidEntries(ENTRIES);
    assert PendingIds(r.st.wallet) == {};
    r := Walk(1, r, CommitArrives(FIRST, true));
    assert PendingIds(r.st.wallet) == {1};
    r := Walk(1, r, CommitArrives(SECOND, true));
    assert r.commits == {};
    LeftBy(1, r, 0, 2);
  }
}
