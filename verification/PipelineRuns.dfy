/** The guarantees of the settlement pipeline over whole runs. */
module PipelineRuns {
  import opened PipelineModel
  import opened Pipeline

  // ---------------------------------------------------------------------------------
  // Balances are sums of deltas
  // ---------------------------------------------------------------------------------

  function Delta(entries: seq<Entry>, player: nat): int
  {
    if entries == [] then 0
    else
      var last := entries[|entries| - 1];
      Delta(entries[..|entries| - 1], player) + if last.player == player then last.delta else 0
  }

  function RequestDelta(r: Request, key: Key): int
  {
    if r.currency == key.currency then Delta(r.entries, key.player) else 0
  }

  /** The sum of all deltas of the recorded requests for one player and currency. */
  function Total(journal: seq<Request>, key: Key): int
  {
    if journal == [] then 0 else Total(journal[..|journal| - 1], key) + RequestDelta(journal[|journal| - 1], key)
  }

  lemma WrapAdd(a: int, b: int)
    ensures Wrap(Wrap(a) + b) == Wrap(a + b)
  {
    var m := 2 * INT64_HALF;
    var x := a + INT64_HALF;
    assert Wrap(a) + b + INT64_HALF == x % m + b;
    assert x == m * (x / m) + x % m;
    ShiftMod(x % m + b, x / m, m);
  }

  lemma ShiftMod(x: int, k: int, m: int)
    requires m > 0
    ensures (x + m * k) % m == x % m
  {
    var q, r := x / m, x % m;
    assert x + m * k == m * (q + k) + r;
    UniqueMod(x + m * k, q + k, r, m);
  }

  lemma UniqueMod(x: int, q: int, r: int, m: int)
    requires m > 0 && x == m * q + r && 0 <= r < m
    ensures x % m == r
  {
    var d := x / m - q;
    assert m * d == r - x % m;
    MultipleBound(m, d);
  }

  lemma MultipleBound(m: int, d: int)
    requires m > 0
    ensures d == 0 || m * d >= m || m * d <= -m
  {
  }

  lemma {:induction false} AddEntriesAmount(balances: map<Key, int>, currency: nat, entries: seq<Entry>, key: Key,
    sum: int)
    requires Amount(balances, key) == Wrap(sum)
    ensures Amount(AddEntries(balances, currency, entries), key)
         == Wrap(sum + if currency == key.currency then Delta(entries, key.player) else 0)
  {
    if entries != [] {
      var n := |entries| - 1;
      var last := entries[n];
      var before := AddEntries(balances, currency, entries[..n]);
      AddEntriesAmount(balances, currency, entries[..n], key, sum);
      if Key(currency, last.player) == key {
        WrapAdd(sum + Delta(entries[..n], key.player), last.delta);
      }
    }
  }

  predicate BalanceSound(l: Ledger, key: Key) { Amount(l.balances, key) == Wrap(Total(l.journal, key)) }

  ghost predicate BalancesSound(l: Ledger) { forall key :: BalanceSound(l, key) }

  lemma CommitBalances(l: Ledger, request: Request)
    requires BalancesSound(l)
    ensures BalancesSound(CommitNew(l, request))
  {
    var r := CommitNew(l, request);
    assert r.journal[..|l.journal|] == l.journal;
    forall key ensures BalanceSound(r, key) {
      assert BalanceSound(l, key);
      AddEntriesAmount(l.balances, request.currency, request.entries, key, Total(l.journal, key));
    }
  }

  // ---------------------------------------------------------------------------------
  // The journal and the records
  // ---------------------------------------------------------------------------------

  /** Entry i of the journal has its record, which reports the balances right after it. */
  predicate Journaled(l: Ledger, i: nat)
    requires i < |l.journal|
  {
    var r := l.journal[i];
    r.id in l.records && l.records[r.id].request == r
      && ReportsAt(l.records[r.id].result.balances, r, l.journal[..i + 1])
  }

  predicate ReportsAt(balances: seq<Balance>, r: Request, journal: seq<Request>)
  {
    && |balances| == |r.entries|
    && forall e :: 0 <= e < |balances| ==> ReportAt(balances[e], r.entries[e].player, r.currency, journal)
  }

  predicate ReportAt(b: Balance, player: nat, currency: nat, journal: seq<Request>)
  {
    b.player == player && b.currency == currency && b.amount == Wrap(Total(journal, Key(currency, player)))
  }

  predicate IdsDistinct(journal: seq<Request>)
  {
    forall i, j :: 0 <= i < j < |journal| ==> journal[i].id != journal[j].id
  }

  predicate InJournal(journal: seq<Request>, id: nat) { exists i :: 0 <= i < |journal| && journal[i].id == id }

  predicate JournalSound(l: Ledger)
  {
    && (forall i :: 0 <= i < |l.journal| ==> Journaled(l, i))
    && IdsDistinct(l.journal)
    && (forall id :: id in l.records ==> InJournal(l.journal, id))
  }

  lemma CommitJournal(l: Ledger, request: Request)
    requires JournalSound(l) && BalancesSound(l) && request.id !in l.records
    ensures JournalSound(CommitNew(l, request))
  {
    var r := CommitNew(l, request);
    var n := |l.journal|;
    forall i | 0 <= i < n ensures Journaled(r, i) && l.journal[i].id != request.id {
      assert Journaled(l, i);
      assert r.journal[..i + 1] == l.journal[..i + 1];
    }
    CommitReports(l, request);
    assert r.journal[..n + 1] == r.journal;
    assert Journaled(r, n);
    forall id | id in r.records ensures InJournal(r.journal, id) {
      if id == request.id {
        assert r.journal[n].id == id;
      } else {
        assert InJournal(l.journal, id);
        var i :| 0 <= i < n && l.journal[i].id == id;
        assert r.journal[i].id == id;
      }
    }
  }

  lemma CommitReports(l: Ledger, request: Request)
    requires BalancesSound(l)
    ensures ReportsAt(CommitResult(l, request).balances, request, l.journal + [request])
  {
    var r := CommitNew(l, request);
    CommitBalances(l, request);
    var reported := Reported(l.balances, request);
    forall e | 0 <= e < |reported|
      ensures ReportAt(reported[e], request.entries[e].player, request.currency, l.journal + [request])
    {
      assert BalanceSound(r, Key(request.currency, request.entries[e].player));
    }
  }

  // ---------------------------------------------------------------------------------
  // Steps
  // ---------------------------------------------------------------------------------

  ghost predicate Books(st: State) { BalancesSound(st.ledger) && JournalSound(st.ledger) }

  lemma StepBooks(st: State, step: Step)
    requires Middle(st) && Books(st) && Can(st, step)
    ensures Books(Next(st, step))
  {
    match step
    case WorkCommit(request) =>
      if request.id !in st.ledger.records {
        CommitBalances(st.ledger, request);
        CommitJournal(st.ledger, request);
      }
    case _ =>
  }

  ghost predicate Good(st: State) { Chain(st) && Books(st) }

  lemma {:induction false} RunGood(states: seq<State>, steps: seq<Step>, k: nat)
    requires IsRun(states, steps) && k <= |steps|
    ensures Good(states[k])
  {
    if k > 0 {
      RunGood(states, steps, k - 1);
      assert Joined(states, steps, k - 1);
      StepChain(states[k - 1], steps[k - 1]);
      StepBooks(states[k - 1], steps[k - 1]);
    }
  }

  // ---------------------------------------------------------------------------------
  // Theorems
  // ---------------------------------------------------------------------------------

  function Occurrences(journal: seq<Request>, r: Request): nat
  {
    if journal == [] then 0
    else Occurrences(journal[..|journal| - 1], r) + if journal[|journal| - 1] == r then 1 else 0
  }

  lemma {:induction false} OccursOnce(journal: seq<Request>, i: nat)
    requires IdsDistinct(journal) && i < |journal|
    ensures Occurrences(journal, journal[i]) == 1
  {
    var n := |journal| - 1;
    if i < n {
      OccursOnce(journal[..n], i);
    } else {
      OccursNever(journal[..n], journal[n]);
    }
  }

  lemma {:induction false} OccursNever(journal: seq<Request>, r: Request)
    requires forall i :: 0 <= i < |journal| ==> journal[i].id != r.id
    ensures Occurrences(journal, r) == 0
  {
    if journal != [] { OccursNever(journal[..|journal| - 1], r); }
  }

  /** Exactly once: when a battle is finished, each of its settlements stands in the ledger
      exactly once, with its own entries and source, and its result says so. */
  lemma FinishedIsRecorded(states: seq<State>, steps: seq<Step>, k: nat, b: nat, id: nat)
    requires IsRun(states, steps) && k <= |steps| && b < |states[k].battles|
    requires states[k].battles[b].phase.Finished? && id in states[k].battles[b].requests
    ensures var request := states[k].battles[b].requests[id];
            && request.source == b && Occurrences(states[k].ledger.journal, request) == 1
            && id in states[k].ledger.records && id in states[k].battles[b].settlements
            && states[k].ledger.records[id] == Record(request, states[k].battles[b].settlements[id])
  {
    RunGood(states, steps, k);
    var st := states[k];
    assert BattleSound(st.battles[b], b);
    assert OwnRequest(st.battles[b].requests[id], b, id);
    assert SettlementSound(st.battles[b].settlements, st.wallet, b);
    SettledIsRecorded(st, b, id);
  }

  lemma SettledIsRecorded(st: State, b: nat, id: nat)
    requires CommitsSound(st.commits, st.battles) && Middle(st) && JournalSound(st.ledger)
    requires b < |st.battles| && id in st.battles[b].requests && id in st.battles[b].settlements
    requires st.battles[b].settlements[id].id == id && Settled(st.wallet, b, st.battles[b].settlements[id])
    ensures Occurrences(st.ledger.journal, st.battles[b].requests[id]) == 1
    ensures id in st.ledger.records
    ensures st.ledger.records[id] == Record(st.battles[b].requests[id], st.battles[b].settlements[id])
  {
    assert Known(st.wallet, st.ledger.records, id);
    assert MadeBy(st.battles, st.wallet.requests[id]);
    assert InJournal(st.ledger.journal, id);
    var i :| 0 <= i < |st.ledger.journal| && st.ledger.journal[i].id == id;
    assert Journaled(st.ledger, i);
    OccursOnce(st.ledger.journal, i);
  }

  /** A request that was refused as unavailable stays refused and never reaches the ledger. */
  lemma {:induction false} RefusedNeverRecorded(states: seq<State>, steps: seq<Step>, j: nat, k: nat, id: nat)
    requires IsRun(states, steps) && j <= k <= |steps|
    requires id in states[j].wallet.results && states[j].wallet.results[id].outcome.Rejected?
    ensures id in states[k].wallet.results && states[k].wallet.results[id].outcome.Rejected?
    ensures id !in states[k].ledger.records
    decreases k
  {
    if j < k {
      RefusedNeverRecorded(states, steps, j, k - 1, id);
      RunMiddle(states, steps, k - 1);
      assert Joined(states, steps, k - 1);
      RefusalStays(states[k - 1], steps[k - 1], id);
    }
    RunMiddle(states, steps, k);
    NoRecordOfRefused(states[k], id);
  }

  /** No battle ever fails: the wallet tells battles of committed results only. */
  lemma {:induction false} NeverFailed(states: seq<State>, steps: seq<Step>, k: nat, b: nat)
    requires IsRun(states, steps) && k <= |steps| && b < |states[k].battles|
    ensures !states[k].battles[b].phase.Failed?
  {
    if k > 0 {
      assert Joined(states, steps, k - 1);
      if b < |states[k - 1].battles| { NeverFailed(states, steps, k - 1, b); }
      RunGood(states, steps, k - 1);
      NoFailure(states[k - 1], steps[k - 1], b);
    }
  }

  lemma NoFailure(st: State, step: Step, b: nat)
    requires NoticesSound(st.notices, st.wallet) && Can(st, step) && b < |Next(st, step).battles|
    requires b < |st.battles| ==> !st.battles[b].phase.Failed?
    ensures !Next(st, step).battles[b].phase.Failed?
  {
    if step.NoticeArrives? {
      assert Settled(st.wallet, Notice(step.b, step.result).battle, Notice(step.b, step.result).result);
    }
  }

  /** From a refusal at j on, the battle that made the request settles for ever: it neither
      finishes nor fails, and its request stays refused. */
  lemma RefusedSettlesForever(states: seq<State>, steps: seq<Step>, j: nat, k: nat, id: nat)
    requires IsRun(states, steps) && j <= k <= |steps| && id in states[j].wallet.requests
    requires id in states[j].wallet.results && states[j].wallet.results[id].outcome.Rejected?
    ensures var b := states[j].wallet.requests[id].source;
            && b < |states[k].battles| && states[k].battles[b].phase.Settling?
            && id in states[k].battles[b].requests
            && states[k].battles[b].requests[id] == states[j].wallet.requests[id]
  {
    RequestStays(states, steps, j, k, id);
    RefusedNeverRecorded(states, steps, j, k, id);
    RunMade(states, steps, k, id);
    var b := states[k].wallet.requests[id].source;
    NeverFailed(states, steps, k, b);
    RunGood(states, steps, k);
    assert BattleSound(states[k].battles[b], b);
    if states[k].battles[b].phase.Finished? { FinishedIsRecorded(states, steps, k, b, id); }
  }

  lemma {:induction false} RequestStays(states: seq<State>, steps: seq<Step>, j: nat, k: nat, id: nat)
    requires IsRun(states, steps) && j <= k <= |steps| && id in states[j].wallet.requests
    ensures id in states[k].wallet.requests && states[k].wallet.requests[id] == states[j].wallet.requests[id]
    decreases k
  {
    if j < k {
      RequestStays(states, steps, j, k - 1, id);
      assert Joined(states, steps, k - 1);
    }
  }

  lemma RunMade(states: seq<State>, steps: seq<Step>, k: nat, id: nat)
    requires IsRun(states, steps) && k <= |steps| && id in states[k].wallet.requests
    ensures MadeBy(states[k].battles, states[k].wallet.requests[id]) && states[k].wallet.requests[id].id == id
  {
    RunGood(states, steps, k);
    assert Known(states[k].wallet, states[k].ledger.records, id);
  }

  lemma RunMiddle(states: seq<State>, steps: seq<Step>, k: nat)
    requires IsRun(states, steps) && k <= |steps|
    ensures Middle(states[k])
  {
    RunGood(states, steps, k);
  }

  lemma RefusalStays(st: State, step: Step, id: nat)
    requires Middle(st) && Can(st, step) && id in st.wallet.results && st.wallet.results[id].outcome.Rejected?
    ensures id in Next(st, step).wallet.results && Next(st, step).wallet.results[id].outcome.Rejected?
  {
  }

  lemma NoRecordOfRefused(st: State, id: nat)
    requires Middle(st) && id in st.wallet.results && st.wallet.results[id].outcome.Rejected?
    ensures id !in st.ledger.records
  {
    if id in st.ledger.records { RecordNotRefused(st, id); }
  }

  lemma RecordNotRefused(st: State, id: nat)
    requires Middle(st) && id in st.ledger.records
    ensures id in st.wallet.results && !st.wallet.results[id].outcome.Rejected?
  {
    assert RecordSound(st.ledger.records[id], id, st.tasks);
    assert Tasked(st.wallet, st.ledger.records[id].request);
  }

  /** Every ledger balance is the sum of the recorded deltas, in 64-bit arithmetic. */
  lemma BalancesAreSums(states: seq<State>, steps: seq<Step>, k: nat, key: Key)
    requires IsRun(states, steps) && k <= |steps|
    ensures Amount(states[k].ledger.balances, key) == Wrap(Total(states[k].ledger.journal, key))
  {
    RunGood(states, steps, k);
    assert BalanceSound(states[k].ledger, key);
  }

  lemma {:induction false} TotalSplit(a: seq<Request>, b: seq<Request>, key: Key)
    ensures Total(a + b, key) == Total(a, key) + Total(b, key)
  {
    if b == [] {
      assert a + b == a;
    } else {
      assert (a + b)[..|a + b| - 1] == a + b[..|b| - 1];
      TotalSplit(a, b[..|b| - 1], key);
    }
  }

  lemma WrapSame(x: int, y: int)
    ensures Wrap(x) == Wrap(x + y) <==> Wrap(y) == 0
  {
    var m := 2 * INT64_HALF;
    var a, b := x + INT64_HALF, y + INT64_HALF;
    var i, j := a / m, (a + y) / m;
    assert a == m * i + a % m && a + y == m * j + (a + y) % m;
    if Wrap(x) == Wrap(x + y) {
      assert b == m * (j - i) + INT64_HALF;
      UniqueMod(b, j - i, INT64_HALF, m);
    }
    if Wrap(y) == 0 {
      assert b == m * (b / m) + INT64_HALF;
      assert a + y == m * (i + b / m) + a % m;
      UniqueMod(a + y, i + b / m, a % m, m);
    }
  }

  lemma {:induction false} StoreLast(balances: map<Key, int>, reported: seq<Balance>, e: nat)
    requires e < |reported|
    requires forall i, j :: 0 <= i < j < |reported| ==> reported[i].player != reported[j].player
    ensures Amount(Store(balances, reported), Key(reported[e].currency, reported[e].player)) == reported[e].amount
  {
    if e < |reported| - 1 { StoreLast(balances, reported[..|reported| - 1], e); }
  }

  // ---------------------------------------------------------------------------------
  // The wallet's balances
  // ---------------------------------------------------------------------------------

  predicate Touches(r: Request, key: Key)
  {
    r.currency == key.currency && exists e :: 0 <= e < |r.entries| && r.entries[e].player == key.player
  }

  /** How many entries the journal had when r had just been committed. */
  function Place(journal: seq<Request>, r: Request): (n: nat)
    ensures n <= |journal|
  {
    if journal == [] then 0
    else if journal[|journal| - 1] == r then |journal|
    else Place(journal[..|journal| - 1], r)
  }

  predicate Updated(st: State, step: Step) { step.AnswerArrives? && Applies(st.wallet, step.request, step.result) }

  /** The step makes the wallet take over a balance of `key`. */
  predicate Updates(st: State, step: Step, key: Key)
  {
    Updated(st, step) && Touches(step.request, key)
  }

  /** The length of the journal up to the last applied result that touches the key, 0 while
      there is none. */
  function Shown(states: seq<State>, steps: seq<Step>, k: nat, key: Key): nat
    requires k <= |steps| < |states|
  {
    if k == 0 then 0
    else if Updates(states[k - 1], steps[k - 1], key)
    then Place(states[k - 1].ledger.journal, steps[k - 1].request)
    else Shown(states, steps, k - 1, key)
  }

  lemma {:induction false} PlaceOf(journal: seq<Request>, i: nat)
    requires IdsDistinct(journal) && i < |journal|
    ensures Place(journal, journal[i]) == i + 1
  {
    if i < |journal| - 1 { PlaceOf(journal[..|journal| - 1], i); }
  }

  /** At every moment of every run a wallet balance is what the ledger had right after the last
      applied result that touches it. */
  lemma {:induction false} WalletBalanceIsPast(states: seq<State>, steps: seq<Step>, k: nat, key: Key)
    requires IsRun(states, steps) && k <= |steps|
    ensures Shown(states, steps, k, key) <= |states[k].ledger.journal|
    ensures Amount(states[k].wallet.balances, key)
         == Wrap(Total(states[k].ledger.journal[..Shown(states, steps, k, key)], key))
  {
    if k > 0 {
      WalletBalanceIsPast(states, steps, k - 1, key);
      RunGood(states, steps, k - 1);
      assert Joined(states, steps, k - 1);
      StepShows(states[k - 1], steps[k - 1], key, Shown(states, steps, k - 1, key));
    }
  }

  lemma StepShows(st: State, step: Step, key: Key, n: nat)
    requires Front(st) && Middle(st) && Books(st) && Can(st, step) && n <= |st.ledger.journal|
    requires Amount(st.wallet.balances, key) == Wrap(Total(st.ledger.journal[..n], key))
    ensures var m := if Updates(st, step, key) then Place(st.ledger.journal, step.request) else n;
            var r := Next(st, step);
            m <= |r.ledger.journal| && Amount(r.wallet.balances, key) == Wrap(Total(r.ledger.journal[..m], key))
  {
    if Updated(st, step) {
      AppliedValid(st, step.request);
      AnswerFacts(st.answers, st.ledger.records, st.tasks, step.request, step.result);
      ApplyShows(st.wallet, st.ledger, step.request, step.result, key);
    } else {
      BalancesStay(st, step, n);
    }
  }

  lemma BalancesStay(st: State, step: Step, n: nat)
    requires Can(st, step) && !Updated(st, step) && n <= |st.ledger.journal|
    ensures Next(st, step).wallet.balances == st.wallet.balances
    ensures n <= |Next(st, step).ledger.journal| && Next(st, step).ledger.journal[..n] == st.ledger.journal[..n]
  {
  }

  lemma ApplyShows(w: Wallet, l: Ledger, request: Request, result: Result, key: Key)
    requires JournalSound(l) && ValidEntries(request.entries)
    requires request.id in l.records && l.records[request.id] == Record(request, result) && result.outcome.Committed?
    ensures var amount := Amount(ApplyResult(w, result).balances, key);
            if Touches(request, key) then amount == Wrap(Total(l.journal[..Place(l.journal, request)], key))
            else amount == Amount(w.balances, key)
  {
    assert InJournal(l.journal, request.id);
    var i :| 0 <= i < |l.journal| && l.journal[i].id == request.id;
    assert Journaled(l, i);
    PlaceOf(l.journal, i);
    if Touches(request, key) {
      var e :| 0 <= e < |request.entries| && request.entries[e].player == key.player;
      AppliedAmount(w, l, request, result, i, e);
    } else {
      UntouchedAmount(w, request, result, l.journal[..i + 1], key);
    }
  }

  lemma UntouchedAmount(w: Wallet, request: Request, result: Result, journal: seq<Request>, key: Key)
    requires ReportsAt(result.balances, request, journal) && !Touches(request, key)
    ensures Amount(ApplyResult(w, result).balances, key) == Amount(w.balances, key)
  {
    forall x | 0 <= x < |result.balances| ensures Key(result.balances[x].currency, result.balances[x].player) != key {
      assert ReportAt(result.balances[x], request.entries[x].player, request.currency, journal);
    }
    StoreOther(w.balances, result.balances, key);
  }

  lemma AppliedValid(st: State, request: Request)
    requires Front(st) && Middle(st) && request.id in st.wallet.requests && st.wallet.requests[request.id] == request
    ensures ValidEntries(request.entries)
  {
    assert Known(st.wallet, st.ledger.records, request.id);
    assert MadeBy(st.battles, request);
    assert BattleSound(st.battles[request.source], request.source);
    assert OwnRequest(request, request.source, request.id);
  }

  lemma {:induction false} StoreOther(balances: map<Key, int>, reported: seq<Balance>, key: Key)
    requires forall e :: 0 <= e < |reported| ==> Key(reported[e].currency, reported[e].player) != key
    ensures Amount(Store(balances, reported), key) == Amount(balances, key)
  {
    if reported != [] { StoreOther(balances, reported[..|reported| - 1], key); }
  }

  /** At every moment of every run the wallet agrees with the ledger about a balance exactly when
      what was committed since its last update cancels out. */
  lemma AgreesExactly(states: seq<State>, steps: seq<Step>, k: nat, key: Key)
    requires IsRun(states, steps) && k <= |steps|
    ensures Shown(states, steps, k, key) <= |states[k].ledger.journal|
    ensures Amount(states[k].wallet.balances, key) == Amount(states[k].ledger.balances, key)
            <==> Wrap(Total(states[k].ledger.journal[Shown(states, steps, k, key)..], key)) == 0
  {
    WalletBalanceIsPast(states, steps, k, key);
    BalancesAreSums(states, steps, k, key);
    var journal, n := states[k].ledger.journal, Shown(states, steps, k, key);
    assert journal == journal[..n] + journal[n..];
    TotalSplit(journal[..n], journal[n..], key);
    WrapSame(Total(journal[..n], key), Total(journal[n..], key));
  }

  lemma AppliedAmount(w: Wallet, l: Ledger, request: Request, result: Result, i: nat, e: nat)
    requires JournalSound(l) && i < |l.journal| && l.journal[i] == request && e < |request.entries|
    requires ValidEntries(request.entries)
    requires request.id in l.records && l.records[request.id] == Record(request, result) && result.outcome.Committed?
    ensures var key := Key(request.currency, request.entries[e].player);
            Amount(ApplyResult(w, result).balances, key) == Wrap(Total(l.journal[..i + 1], key))
  {
    assert Journaled(l, i);
    assert ReportsAt(result.balances, request, l.journal[..i + 1]);
    assert forall x :: 0 <= x < |result.balances| ==>
      ReportAt(result.balances[x], request.entries[x].player, request.currency, l.journal[..i + 1]);
    StoreLast(w.balances, result.balances, e);
  }
}
