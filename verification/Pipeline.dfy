/** What every run of the settlement pipeline keeps: each settlement is recorded exactly once,
    a refused one never, and balances are the sums of the recorded deltas. */
module Pipeline {
  import opened PipelineModel

  // ---------------------------------------------------------------------------------
  // The chain from battle to ledger and back
  // ---------------------------------------------------------------------------------

  predicate MadeBy(battles: seq<Battle>, r: Request)
  {
    r.source < |battles| && r.id in battles[r.source].requests && battles[r.source].requests[r.id] == r
  }

  /** A commit message is a request its battle made. */
  predicate CommitsSound(commits: set<Request>, battles: seq<Battle>)
  {
    forall r :: r in commits ==> MadeBy(battles, r)
  }

  predicate OwnRequest(r: Request, self: nat, id: nat) { r.id == id && r.source == self && ValidRequest(r) }

  predicate OwnRequests(requests: map<nat, Request>, self: nat)
  {
    forall id :: id in requests ==> OwnRequest(requests[id], self, id)
  }

  predicate BattleSound(b: Battle, self: nat)
  {
    && (b.phase.Created? || b.phase.Running? ==> b.requests == map[])
    && b.requests.Keys == b.settlements.Keys
    && OwnRequests(b.requests, self)
    && (b.phase.Finished? ==> AllCommitted(b.settlements))
  }

  predicate BattlesSound(battles: seq<Battle>) { forall b :: 0 <= b < |battles| ==> BattleSound(battles[b], b) }

  predicate Known(w: Wallet, records: map<nat, Record>, id: nat)
    requires id in w.requests && id in w.results
  {
    && w.requests[id].id == id && w.results[id].id == id && w.results[id].currency == w.requests[id].currency
    && (w.results[id].outcome.Committed? ==> id in records && records[id] == Record(w.requests[id], w.results[id]))
  }

  /** The wallet knows only requests that arrived; a committed one has this very record. */
  predicate WalletSound(w: Wallet, records: map<nat, Record>, commits: set<Request>)
  {
    && w.requests.Keys == w.results.Keys
    && (forall id :: id in w.requests ==> w.requests[id] in commits && Known(w, records, id))
  }

  predicate Tasked(w: Wallet, r: Request)
  {
    r.id in w.requests && w.requests[r.id] == r && r.id in w.results && !w.results[r.id].outcome.Rejected?
  }

  /** A task is a request that the wallet holds and has not refused. */
  predicate TasksSound(tasks: set<Request>, w: Wallet) { forall r :: r in tasks ==> Tasked(w, r) }

  predicate RecordSound(record: Record, id: nat, tasks: set<Request>)
  {
    && record.request in tasks && record.request.id == id
    && record.result.id == id && record.result.outcome.Committed? && record.result.currency == record.request.currency
  }

  /** Every record was a task, and is committed. */
  predicate RecordsSound(records: map<nat, Record>, tasks: set<Request>)
  {
    forall id :: id in records ==> RecordSound(records[id], id, tasks)
  }

  predicate AnswersSound(answers: set<Answer>, records: map<nat, Record>)
  {
    forall a :: a in answers ==> a.request.id in records && records[a.request.id] == Record(a.request, a.result)
  }

  predicate Settled(w: Wallet, b: nat, result: Result)
  {
    && result.outcome.Committed? && result.id in w.results && w.results[result.id] == result
    && result.id in w.requests && w.requests[result.id].source == b
  }

  /** A notice goes to the battle whose request the wallet saw committed. */
  predicate NoticesSound(notices: set<Notice>, w: Wallet)
  {
    forall n :: n in notices ==> Settled(w, n.battle, n.result)
  }

  predicate SettlementSound(settlements: map<nat, Result>, w: Wallet, b: nat)
  {
    forall id :: id in settlements ==>
      settlements[id].id == id && (!settlements[id].outcome.Pending? ==> Settled(w, b, settlements[id]))
  }

  predicate SettlementsSound(battles: seq<Battle>, w: Wallet)
  {
    forall b :: 0 <= b < |battles| ==> SettlementSound(battles[b].settlements, w, b)
  }

  predicate Front(st: State) { BattlesSound(st.battles) && CommitsSound(st.commits, st.battles) }

  predicate Middle(st: State)
  {
    && WalletSound(st.wallet, st.ledger.records, st.commits) && TasksSound(st.tasks, st.wallet)
    && RecordsSound(st.ledger.records, st.tasks) && AnswersSound(st.answers, st.ledger.records)
  }

  predicate Back(st: State) { NoticesSound(st.notices, st.wallet) && SettlementsSound(st.battles, st.wallet) }

  predicate Chain(st: State) { Front(st) && Middle(st) && Back(st) }

  // ---------------------------------------------------------------------------------
  // Steps keep the chain
  // ---------------------------------------------------------------------------------

  lemma {:induction false} RequestedSound(intents: seq<Intent>, source: nat)
    requires ValidIntents(intents)
    ensures OwnRequests(Requested(intents, source), source)
  {
    if intents != [] {
      var n := |intents| - 1;
      var before := Requested(intents[..n], source);
      RequestedSound(intents[..n], source);
      assert Requested(intents, source) == before[intents[n].id := RequestOf(intents[n], source)];
    }
  }

  lemma FinishBattleSound(b: Battle, self: nat, intents: seq<Intent>)
    requires BattleSound(b, self) && Finishes(b, intents)
    ensures BattleSound(FinishBattle(b, self, intents), self)
    ensures var f := FinishBattle(b, self, intents);
            forall id :: id in f.settlements ==> f.settlements[id].id == id && f.settlements[id].outcome.Pending?
  {
    var f := FinishBattle(b, self, intents);
    RequestedSound(intents, self);
    assert f.requests.Keys == f.settlements.Keys;
    forall id | id in f.settlements ensures f.settlements[id].id == id {
      assert OwnRequest(f.requests[id], self, id);
    }
  }

  lemma NoteBattleSound(b: Battle, self: nat, result: Result)
    requires BattleSound(b, self) && Notable(b, result)
    ensures BattleSound(Note(b, result), self)
  {
    assert Note(b, result).settlements.Keys == b.settlements.Keys;
  }

  /** Battles keep the requests they made. */
  lemma SetBattleFront(st: State, b: nat, battle: Battle)
    requires Front(st) && b < |st.battles| && BattleSound(battle, b)
    requires battle.requests == st.battles[b].requests || st.battles[b].requests == map[]
    ensures BattlesSound(SetBattle(st, b, battle).battles) && CommitsSound(st.commits, SetBattle(st, b, battle).battles)
  {
    var r := SetBattle(st, b, battle);
    forall q | q in st.commits ensures MadeBy(r.battles, q) {
      assert MadeBy(st.battles, q);
    }
  }

  lemma StepFront(st: State, step: Step)
    requires Front(st) && Can(st, step)
    ensures Front(Next(st, step))
  {
    match step
    case Create =>
      forall q | q in st.commits ensures MadeBy(Next(st, step).battles, q) { assert MadeBy(st.battles, q); }
    case Start(b) =>
      assert BattleSound(st.battles[b], b);
      if st.battles[b].phase.Created? { SetBattleFront(st, b, st.battles[b].(phase := Running)); }
    case Finish(b, intents) => if Finishes(st.battles[b], intents) { FinishFront(st, b, intents); }
    case NoticeArrives(b, result) =>
      assert BattleSound(st.battles[b], b);
      if Notable(st.battles[b], result) {
        NoteBattleSound(st.battles[b], b, result);
        SetBattleFront(st, b, Note(st.battles[b], result));
      }
    case _ =>
  }

  lemma FinishFront(st: State, b: nat, intents: seq<Intent>)
    requires Front(st) && b < |st.battles| && Finishes(st.battles[b], intents)
    ensures Front(Next(st, Finish(b, intents)))
  {
    var r := Next(st, Finish(b, intents));
    assert BattleSound(st.battles[b], b);
    FinishBattleSound(st.battles[b], b, intents);
    SetBattleFront(st, b, r.battles[b]);
    forall q | q in r.commits ensures MadeBy(r.battles, q) {
      if q in st.commits {
        assert MadeBy(r.battles, q);
      } else {
        var id :| id in r.battles[b].requests && r.battles[b].requests[id] == q;
        assert OwnRequest(q, b, id);
      }
    }
  }

  /** A new request does not touch what the wallet holds already. */
  lemma AdmitMiddle(st: State, request: Request, queued: bool)
    requires Middle(st) && request in st.commits && Admits(st.wallet, request)
    ensures Middle(Next(st, CommitArrives(request, queued)))
  {
    var r := Next(st, CommitArrives(request, queued));
    assert request.id !in st.wallet.results;
    forall id | id in r.wallet.requests
      ensures r.wallet.requests[id] in r.commits && Known(r.wallet, r.ledger.records, id)
    {
      if id != request.id { assert Known(st.wallet, st.ledger.records, id); }
    }
    forall q | q in r.tasks ensures Tasked(r.wallet, q) {
      if q in st.tasks { assert Tasked(st.wallet, q); }
    }
    forall id | id in r.ledger.records ensures RecordSound(r.ledger.records[id], id, r.tasks) {
      assert RecordSound(st.ledger.records[id], id, st.tasks);
    }
  }

  lemma RecoverMiddle(st: State, id: nat)
    requires Middle(st)
    ensures Middle(Next(st, Recover(id)))
  {
    var r := Next(st, Recover(id));
    forall q | q in r.tasks ensures Tasked(r.wallet, q) {
      if q in st.tasks { assert Tasked(st.wallet, q); } else { assert Known(st.wallet, st.ledger.records, id); }
    }
    forall x | x in r.ledger.records ensures RecordSound(r.ledger.records[x], x, r.tasks) {
      assert RecordSound(st.ledger.records[x], x, st.tasks);
    }
  }

  /** The record that a task meets is its own: nobody else committed under its number. */
  lemma OwnRecord(st: State, request: Request)
    requires Middle(st) && request in st.tasks && request.id in st.ledger.records
    ensures st.ledger.records[request.id].request == request
    ensures Middle(Send(st, request, st.ledger.records[request.id].result))
  {
    assert RecordSound(st.ledger.records[request.id], request.id, st.tasks);
    assert Tasked(st.wallet, request) && Tasked(st.wallet, st.ledger.records[request.id].request);
  }

  lemma CommitMiddle(st: State, request: Request)
    requires Middle(st) && request in st.tasks && request.id !in st.ledger.records
    ensures Middle(Next(st, WorkCommit(request)))
  {
    var result := CommitResult(st.ledger, request);
    NewRecord(st.wallet, st.commits, st.tasks, st.ledger.records, request, result);
    NewAnswer(st.answers, st.ledger.records, request, result);
  }

  lemma NewRecord(w: Wallet, commits: set<Request>, tasks: set<Request>, records: map<nat, Record>, request: Request,
    result: Result)
    requires WalletSound(w, records, commits) && RecordsSound(records, tasks)
    requires request in tasks && request.id !in records
    requires result.id == request.id && result.outcome.Committed? && result.currency == request.currency
    ensures var more := records[request.id := Record(request, result)];
            WalletSound(w, more, commits) && RecordsSound(more, tasks)
  {
    var more := records[request.id := Record(request, result)];
    forall id | id in w.requests ensures Known(w, more, id) {
      assert Known(w, records, id);
    }
    forall id | id in more ensures RecordSound(more[id], id, tasks) {
      if id != request.id { assert RecordSound(records[id], id, tasks); }
    }
  }

  lemma NewAnswer(answers: set<Answer>, records: map<nat, Record>, request: Request, result: Result)
    requires AnswersSound(answers, records) && request.id !in records
    ensures AnswersSound(answers + {Answer(request, result)}, records[request.id := Record(request, result)])
  {
  }

  lemma ApplyMiddle(st: State, request: Request, result: Result)
    requires Middle(st) && Answer(request, result) in st.answers && Applies(st.wallet, request, result)
    ensures Middle(Next(st, AnswerArrives(request, result))) && result.outcome.Committed?
  {
    AnswerFacts(st.answers, st.ledger.records, st.tasks, request, result);
    ApplyWallet(st.wallet, ApplyResult(st.wallet, result), st.ledger.records, st.commits, st.tasks, request, result);
  }

  lemma AnswerFacts(answers: set<Answer>, records: map<nat, Record>, tasks: set<Request>, request: Request,
    result: Result)
    requires AnswersSound(answers, records) && RecordsSound(records, tasks) && Answer(request, result) in answers
    ensures request.id in records && records[request.id] == Record(request, result) && result.outcome.Committed?
  {
    assert RecordSound(records[request.id], request.id, tasks);
  }

  lemma ApplyWallet(v: Wallet, w: Wallet, records: map<nat, Record>, commits: set<Request>, tasks: set<Request>,
                    request: Request, result: Result)
    requires WalletSound(v, records, commits) && TasksSound(tasks, v) && Applies(v, request, result)
    requires request.id in records && records[request.id] == Record(request, result) && result.outcome.Committed?
    requires w.requests == v.requests && w.results == v.results[request.id := result]
    ensures WalletSound(w, records, commits) && TasksSound(tasks, w)
  {
    forall id | id in w.requests ensures Known(w, records, id) {
      assert Known(v, records, id);
    }
    forall q | q in tasks ensures Tasked(w, q) {
      assert Tasked(v, q);
    }
  }

  lemma StepMiddle(st: State, step: Step)
    requires Middle(st) && Can(st, step)
    ensures Middle(Next(st, step))
  {
    match step
    case CommitArrives(request, queued) => if Admits(st.wallet, request) { AdmitMiddle(st, request, queued); }
    case Recover(id) => RecoverMiddle(st, id);
    case WorkLookup(request) => if request.id in st.ledger.records { OwnRecord(st, request); }
    case WorkCommit(request) =>
      if request.id in st.ledger.records { OwnRecord(st, request); } else { CommitMiddle(st, request); }
    case AnswerArrives(request, result) => if Applies(st.wallet, request, result) { ApplyMiddle(st, request, result); }
    case _ =>
  }

  /** What was settled stays settled when the wallet keeps its old requests and results. */
  lemma WalletGrows(notices: set<Notice>, battles: seq<Battle>, v: Wallet, w: Wallet)
    requires NoticesSound(notices, v) && SettlementsSound(battles, v)
    requires forall id :: id in v.requests ==> id in w.requests && w.requests[id] == v.requests[id]
    requires forall id :: id in v.results && v.results[id].outcome.Committed? ==>
        id in w.results && w.results[id] == v.results[id]
    ensures NoticesSound(notices, w) && SettlementsSound(battles, w)
  {
    forall n | n in notices ensures Settled(w, n.battle, n.result) {
      assert Settled(v, n.battle, n.result);
    }
    forall b | 0 <= b < |battles| ensures SettlementSound(battles[b].settlements, w, b) {
      assert SettlementSound(battles[b].settlements, v, b);
    }
  }

  lemma ApplyNotices(v: Wallet, w: Wallet, notices: set<Notice>, battles: seq<Battle>, request: Request, result: Result)
    requires NoticesSound(notices, v) && SettlementsSound(battles, v) && Applies(v, request, result)
    requires w.requests == v.requests && w.results == v.results[request.id := result] && result.outcome.Committed?
    ensures NoticesSound(notices + {Notice(request.source, result)}, w) && SettlementsSound(battles, w)
  {
    WalletGrows(notices, battles, v, w);
  }

  lemma StepBack(st: State, step: Step)
    requires Front(st) && Middle(st) && Back(st) && Can(st, step)
    ensures Back(Next(st, step))
  {
    match step
    case Finish(b, intents) => if Finishes(st.battles[b], intents) { FinishBack(st, b, intents); }
    case CommitArrives(request, queued) => if Admits(st.wallet, request) { AdmitBack(st, request, queued); }
    case AnswerArrives(request, result) =>
      if Applies(st.wallet, request, result) {
        ApplyMiddle(st, request, result);
        ApplyNotices(st.wallet, ApplyResult(st.wallet, result), st.notices, st.battles, request, result);
      }
    case NoticeArrives(b, result) => if Notable(st.battles[b], result) { NoteBack(st, b, result); }
    case _ =>
  }

  lemma FinishBack(st: State, b: nat, intents: seq<Intent>)
    requires Front(st) && Back(st) && b < |st.battles| && Finishes(st.battles[b], intents)
    ensures Back(Next(st, Finish(b, intents)))
  {
    assert BattleSound(st.battles[b], b);
    FinishBattleSound(st.battles[b], b, intents);
  }

  lemma AdmitBack(st: State, request: Request, queued: bool)
    requires Middle(st) && Back(st) && Admits(st.wallet, request) && request in st.commits
    ensures Back(Next(st, CommitArrives(request, queued)))
  {
    assert request.id !in st.wallet.results;
    WalletGrows(st.notices, st.battles, st.wallet, Admit(st.wallet, request, queued));
  }

  lemma NoteBack(st: State, b: nat, result: Result)
    requires Back(st) && Can(st, NoticeArrives(b, result)) && Notable(st.battles[b], result)
    ensures Back(Next(st, NoticeArrives(b, result)))
  {
    assert Settled(st.wallet, Notice(b, result).battle, Notice(b, result).result);
    assert SettlementSound(st.battles[b].settlements, st.wallet, b);
  }

  lemma StepChain(st: State, step: Step)
    requires Chain(st) && Can(st, step)
    ensures Chain(Next(st, step))
  {
    StepFront(st, step);
    StepMiddle(st, step);
    StepBack(st, step);
  }
}
