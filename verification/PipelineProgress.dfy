/** Which settling battles can still finish when every message is delivered at most once:
    exactly those none of whose requests is stuck. */
module PipelineProgress {
  import opened PipelineModel
  import opened Pipeline
  import opened PipelineTransit

  // ---------------------------------------------------------------------------------
  // Stuck requests
  // ---------------------------------------------------------------------------------

  /** The wallet has refused the request, or knows another one under its number. */
  predicate Spoils(w: Wallet, request: Request)
  {
    && request.id in w.requests && request.id in w.results
    && (w.requests[request.id] != request || w.results[request.id].outcome.Rejected?)
  }

  /** A task or an answer for the request is on its way, or a recovery may send one. */
  predicate Moving(tasks: set<Request>, answers: set<Answer>, recovers: bool, request: Request)
  {
    recovers || request in tasks || exists a :: a in answers && a.request == request
  }

  /** The wallet waits for a result that nobody will bring. */
  predicate Hopeless(t: Transit, id: nat)
  {
    && id in PendingIds(t.st.wallet) && id in t.st.wallet.requests
    && !Moving(t.tasks, t.answers, t.recovers, t.st.wallet.requests[id])
  }

  function HopelessIds(t: Transit): set<nat> { set id | id in PendingIds(t.st.wallet) && Hopeless(t, id) }

  /** The commit is gone without the wallet having taken it, or a wallet full of hopeless
      requests will never take it. */
  predicate Unheard(t: Transit, request: Request)
  {
    && request.id !in t.st.wallet.requests
    && (request !in t.commits || |HopelessIds(t)| >= t.st.wallet.maxPending)
  }

  /** The result is committed, but the battle does not know it and the notice is gone. */
  predicate Untold(t: Transit, b: nat, id: nat)
    requires b < |t.st.battles|
  {
    && id in t.st.battles[b].settlements && t.st.battles[b].settlements[id].outcome.Pending?
    && id in t.st.wallet.results && t.st.wallet.results[id].outcome.Committed?
    && Notice(b, t.st.wallet.results[id]) !in t.notices
  }

  predicate AskedBy(st: State, b: nat, request: Request)
  {
    && b < |st.battles| && request.id in st.battles[b].requests && st.battles[b].requests[request.id] == request
    && !st.battles[b].phase.Created? && !st.battles[b].phase.Running?
  }

  predicate StuckRequest(t: Transit, b: nat, request: Request)
    requires b < |t.st.battles|
  {
    Spoils(t.st.wallet, request) || Unheard(t, request) || Hopeless(t, request.id) || Untold(t, b, request.id)
  }

  predicate Stuck(t: Transit, b: nat)
    requires b < |t.st.battles|
  {
    exists id :: id in t.st.battles[b].requests && StuckRequest(t, b, t.st.battles[b].requests[id])
  }

  /** Some continuation brings the battle to its end. */
  ghost predicate CanFinish(t: Transit, b: nat)
  {
    exists r :: Leads(t, r) && b < |r.st.battles| && r.st.battles[b].phase.Finished?
  }

  // ---------------------------------------------------------------------------------
  // A stuck request stays stuck
  // ---------------------------------------------------------------------------------

  lemma AskedStays(st: State, step: Step, b: nat, request: Request)
    requires Can(st, step) && AskedBy(st, b, request)
    ensures AskedBy(Next(st, step), b, request)
  {
  }

  lemma SpoilsStays(st: State, step: Step, request: Request)
    requires Middle(st) && Can(st, step) && Spoils(st.wallet, request)
    ensures Spoils(Next(st, step).wallet, request)
  {
    assert request.id in st.wallet.results;
  }

  /** Nothing starts to move for a known request unless somebody recovers it. */
  lemma MovingStays(t: Transit, step: Step, request: Request)
    requires Middle(t.st) && CanMove(t, Happens(step)) && request.id in t.st.wallet.requests
    requires !Moving(t.tasks, t.answers, t.recovers, request)
    ensures !Moving(Tasks(t, step), Answering(t, step), t.recovers, request)
  {
    forall a | a in Answering(t, step) ensures a.request != request {
      if a in t.answers { assert a.request != request; }
    }
  }

  lemma PendingStays(st: State, step: Step, id: nat)
    requires Middle(st) && Can(st, step) && id in PendingIds(st.wallet) && id in st.wallet.requests
    requires step.AnswerArrives? ==> step.request != st.wallet.requests[id]
    ensures id in PendingIds(Next(st, step).wallet) && id in Next(st, step).wallet.requests
    ensures Next(st, step).wallet.requests[id] == st.wallet.requests[id]
  {
    assert Known(st.wallet, st.ledger.records, id);
  }

  lemma HopelessStep(t: Transit, step: Step, id: nat)
    requires Middle(t.st) && CanMove(t, Happens(step)) && Hopeless(t, id)
    ensures Hopeless(Moved(t, Happens(step)), id)
  {
    var request := t.st.wallet.requests[id];
    assert Known(t.st.wallet, t.st.ledger.records, id);
    if step.AnswerArrives? { assert Answer(step.request, step.result).request != request; }
    PendingStays(t.st, step, id);
    MovingStays(t, step, request);
  }

  lemma HopelessStays(t: Transit, m: Motion, id: nat)
    requires Middle(t.st) && CanMove(t, m) && Hopeless(t, id)
    ensures Hopeless(Moved(t, m), id)
  {
    if m.Happens? { HopelessStep(t, m.step, id); }
  }

  lemma HopelessGrow(t: Transit, m: Motion)
    requires Middle(t.st) && CanMove(t, m)
    ensures |HopelessIds(t)| <= |HopelessIds(Moved(t, m))|
  {
    forall id | id in HopelessIds(t) ensures id in HopelessIds(Moved(t, m)) { HopelessStays(t, m, id); }
    SmallerSet(HopelessIds(t), HopelessIds(Moved(t, m)));
  }

  lemma SmallerSet(a: set<nat>, b: set<nat>)
    requires a <= b
    ensures |a| <= |b|
  {
    assert b == a + (b - a);
  }

  /** A wallet full of hopeless requests admits nothing. */
  lemma FullOfHopeless(t: Transit, request: Request)
    requires |HopelessIds(t)| >= t.st.wallet.maxPending
    ensures !Admits(t.st.wallet, request)
  {
    SmallerSet(HopelessIds(t), PendingIds(t.st.wallet));
  }

  /** A battle asks once: nothing it does later sends the commit again. */
  lemma CommitGone(t: Transit, step: Step, b: nat, request: Request)
    requires BattlesSound(t.st.battles) && CanMove(t, Happens(step)) && AskedBy(t.st, b, request)
    requires request !in t.commits
    ensures request !in Commits(t, step)
  {
    if step.Finish? && Finishes(t.st.battles[step.b], step.intents) {
      assert BattleSound(t.st.battles[b], b) && OwnRequest(request, b, request.id);
      RequestedSound(step.intents, step.b);
      var requests := FinishBattle(t.st.battles[step.b], step.b, step.intents).requests;
      forall id | id in requests ensures requests[id] != request {
        assert OwnRequest(requests[id], step.b, id);
      }
    }
  }

  /** Only a commit that arrives makes a request known. */
  lemma KnownByCommit(st: State, step: Step, id: nat)
    requires Can(st, step) && id !in st.wallet.requests && id in Next(st, step).wallet.requests
    ensures step.CommitArrives? && step.request.id == id && Admits(st.wallet, step.request)
    ensures id in Next(st, step).wallet.results && Next(st, step).wallet.requests[id] == step.request
  {
  }

  lemma UnheardStep(t: Transit, step: Step, b: nat, request: Request)
    requires Front(t.st) && Middle(t.st) && CanMove(t, Happens(step)) && AskedBy(t.st, b, request)
    requires Unheard(t, request)
    ensures var r := Moved(t, Happens(step)); Unheard(r, request) || Spoils(r.st.wallet, request)
  {
    var r := Moved(t, Happens(step));
    if request.id in r.st.wallet.requests {
      KnownByCommit(t.st, step, request.id);
      if |HopelessIds(t)| >= t.st.wallet.maxPending { FullOfHopeless(t, step.request); }
    } else if request !in t.commits {
      CommitGone(t, step, b, request);
    } else {
      HopelessGrow(t, Happens(step));
      SameLimit(t.st, step);
    }
  }

  lemma SameLimit(st: State, step: Step)
    requires Can(st, step)
    ensures Next(st, step).wallet.maxPending == st.wallet.maxPending
  {
  }

  lemma UnheardStays(t: Transit, m: Motion, b: nat, request: Request)
    requires Front(t.st) && Middle(t.st) && CanMove(t, m) && AskedBy(t.st, b, request) && Unheard(t, request)
    ensures Unheard(Moved(t, m), request) || Spoils(Moved(t, m).st.wallet, request)
  {
    if m.Happens? { UnheardStep(t, m.step, b, request); } else { HopelessGrow(t, m); }
  }

  lemma CommittedStays(st: State, step: Step, id: nat)
    requires Middle(st) && Can(st, step) && id in st.wallet.results && st.wallet.results[id].outcome.Committed?
    ensures id in Next(st, step).wallet.results && Next(st, step).wallet.results[id] == st.wallet.results[id]
  {
  }

  /** The wallet tells a result once. */
  lemma NoticeGone(t: Transit, step: Step, b: nat, id: nat)
    requires Middle(t.st) && CanMove(t, Happens(step))
    requires id in t.st.wallet.results && t.st.wallet.results[id].outcome.Committed?
    requires Notice(b, t.st.wallet.results[id]) !in t.notices
    ensures Notice(b, t.st.wallet.results[id]) !in Notices(t, step)
  {
    assert id in t.st.wallet.requests;
    assert Known(t.st.wallet, t.st.ledger.records, id);
  }

  lemma UntoldStep(t: Transit, step: Step, b: nat, id: nat)
    requires Middle(t.st) && NoticesSound(t.st.notices, t.st.wallet) && t.notices <= t.st.notices
    requires CanMove(t, Happens(step)) && b < |t.st.battles| && Untold(t, b, id)
    requires !t.st.battles[b].phase.Running?
    ensures b < |Next(t.st, step).battles| && Untold(Moved(t, Happens(step)), b, id)
  {
    CommittedStays(t.st, step, id);
    NoticeGone(t, step, b, id);
    if step.NoticeArrives? { assert Settled(t.st.wallet, step.b, Notice(step.b, step.result).result); }
  }

  lemma StuckStays(t: Transit, m: Motion, b: nat, request: Request)
    requires Sound(t) && CanMove(t, m) && AskedBy(t.st, b, request) && StuckRequest(t, b, request)
    ensures AskedBy(Moved(t, m).st, b, request) && StuckRequest(Moved(t, m), b, request)
  {
    if m.Happens? { AskedStays(t.st, m.step, b, request); }
    if Spoils(t.st.wallet, request) {
      if m.Happens? { SpoilsStays(t.st, m.step, request); }
    } else if Unheard(t, request) {
      UnheardStays(t, m, b, request);
    } else if Hopeless(t, request.id) {
      HopelessStays(t, m, request.id);
    } else if m.Happens? {
      UntoldStep(t, m.step, b, request.id);
    }
  }

  predicate Holds(t: Transit, b: nat, request: Request) { AskedBy(t.st, b, request) && StuckRequest(t, b, request) }

  predicate SoundAt(ts: seq<Transit>, k: nat)
    requires k < |ts|
  {
    Sound(ts[k])
  }

  predicate StuckAt(ts: seq<Transit>, k: nat, b: nat, request: Request)
    requires k < |ts|
  {
    Holds(ts[k], b, request)
  }

  lemma StuckNext(ts: seq<Transit>, ms: seq<Motion>, k: nat, b: nat, request: Request)
    requires IsPath(ts, ms) && k < |ms| && SoundAt(ts, k) && StuckAt(ts, k, b, request)
    ensures StuckAt(ts, k + 1, b, request)
  {
    assert Linked(ts, ms, k);
    StuckStays(ts[k], ms[k], b, request);
  }

  lemma {:induction false} StuckForever(ts: seq<Transit>, ms: seq<Motion>, k: nat, b: nat, request: Request)
    requires IsPath(ts, ms) && k <= |ms| && StuckAt(ts, 0, b, request)
    requires forall i {:trigger SoundAt(ts, i)} :: 0 <= i <= |ms| ==> SoundAt(ts, i)
    ensures StuckAt(ts, k, b, request)
  {
    if k > 0 {
      StuckForever(ts, ms, k - 1, b, request);
      StuckNext(ts, ms, k - 1, b, request);
    }
  }

  /** A finished battle has nothing stuck. */
  lemma FinishedUnstuck(t: Transit, b: nat, request: Request)
    requires Chain(t.st) && AskedBy(t.st, b, request) && t.st.battles[b].phase.Finished?
    ensures !StuckRequest(t, b, request)
  {
    var id := request.id;
    assert BattleSound(t.st.battles[b], b);
    assert SettlementSound(t.st.battles[b].settlements, t.st.wallet, b);
    assert Settled(t.st.wallet, b, t.st.battles[b].settlements[id]);
    assert Known(t.st.wallet, t.st.ledger.records, id);
    assert MadeBy(t.st.battles, t.st.wallet.requests[id]);
  }

  lemma PathNeverFinishes(ts: seq<Transit>, ms: seq<Motion>, b: nat, request: Request)
    requires IsPath(ts, ms) && Sound(ts[0]) && Holds(ts[0], b, request)
    ensures b < |ts[|ms|].st.battles| && !ts[|ms|].st.battles[b].phase.Finished?
  {
    forall i | 0 <= i <= |ms| ensures SoundAt(ts, i) { PathSound(ts, ms, i); }
    StuckForever(ts, ms, |ms|, b, request);
    assert SoundAt(ts, |ms|);
    if ts[|ms|].st.battles[b].phase.Finished? { FinishedUnstuck(ts[|ms|], b, request); }
  }

  lemma StuckOne(t: Transit, b: nat) returns (request: Request)
    requires Sound(t) && b < |t.st.battles| && t.st.battles[b].phase.Settling? && Stuck(t, b)
    ensures Holds(t, b, request)
  {
    var id :| id in t.st.battles[b].requests && StuckRequest(t, b, t.st.battles[b].requests[id]);
    request := t.st.battles[b].requests[id];
    assert BattleSound(t.st.battles[b], b) && OwnRequest(request, b, id);
  }

  lemma StuckNeverFinishes(t: Transit, b: nat)
    requires Sound(t) && b < |t.st.battles| && t.st.battles[b].phase.Settling? && Stuck(t, b)
    ensures !CanFinish(t, b)
  {
    var request := StuckOne(t, b);
    forall r | Leads(t, r) && b < |r.st.battles| ensures !r.st.battles[b].phase.Finished? {
      var ts, ms :| IsPath(ts, ms) && ts[0] == t && ts[|ms|] == r;
      PathNeverFinishes(ts, ms, b, request);
    }
  }

  // ---------------------------------------------------------------------------------
  // Completing a pending request
  // ---------------------------------------------------------------------------------

  lemma Go(t: Transit, r: Transit, step: Step) returns (n: Transit)
    requires Leads(t, r) && Sound(r) && CanMove(r, Happens(step))
    ensures n == Moved(r, Happens(step)) && Leads(t, n) && Sound(n)
  {
    n := Moved(r, Happens(step));
    Further(t, r, Happens(step));
    MoveSound(r, Happens(step));
  }

  /** Only messages for `request` have moved. */
  ghost predicate Elsewhere(r: Transit, n: Transit, request: Request)
  {
    && n.st.battles == r.st.battles && n.commits == r.commits && n.recovers == r.recovers
    && (forall q :: q != request ==> (q in n.tasks <==> q in r.tasks))
    && (forall a: Answer :: a.request != request ==> (a in n.answers <==> a in r.answers))
  }

  predicate Waits(t: Transit, request: Request)
  {
    && request.id in PendingIds(t.st.wallet) && request.id in t.st.wallet.requests
    && t.st.wallet.requests[request.id] == request
  }

  lemma RecoverTask(r: Transit, request: Request)
    requires Waits(r, request) && r.recovers
    ensures CanMove(r, Happens(Recover(request.id)))
    ensures var n := Moved(r, Happens(Recover(request.id)));
            Elsewhere(r, n, request) && n.st.wallet == r.st.wallet && request in n.tasks && n.notices == r.notices
  {
  }

  lemma WorkAnswer(r: Transit, request: Request)
    requires Middle(r.st) && request in r.tasks && r.tasks <= r.st.tasks
    ensures CanMove(r, Happens(WorkCommit(request)))
    ensures var n := Moved(r, Happens(WorkCommit(request)));
            && Elsewhere(r, n, request) && n.st.wallet == r.st.wallet && n.notices == r.notices
            && exists a :: a in n.answers && a.request == request
  {
    if request.id in r.st.ledger.records { OwnRecord(r.st, request); }
    assert AnswerOf(r.st, WorkCommit(request)) in Moved(r, Happens(WorkCommit(request))).answers;
  }

  /** An answer can be on its way for every request that waits with hope. */
  lemma GetAnswer(t: Transit, r: Transit, request: Request) returns (n: Transit)
    requires Leads(t, r) && Sound(r) && Waits(r, request) && Moving(r.tasks, r.answers, r.recovers, request)
    ensures Leads(t, n) && Sound(n) && Elsewhere(r, n, request) && n.st.wallet == r.st.wallet && n.notices == r.notices
    ensures exists a :: a in n.answers && a.request == request
  {
    n := r;
    if !exists a :: a in r.answers && a.request == request {
      if request !in r.tasks {
        RecoverTask(r, request);
        n := Go(t, n, Recover(request.id));
      }
      WorkAnswer(n, request);
      n := Go(t, n, WorkCommit(request));
    }
  }

  /** The wallet has the result of `request`, and told its battle. */
  ghost predicate Completed(r: Transit, n: Transit, request: Request, result: Result)
  {
    && Elsewhere(r, n, request) && n.st.wallet.requests == r.st.wallet.requests
    && n.st.wallet.maxPending == r.st.wallet.maxPending
    && result.outcome.Committed? && n.st.wallet.results == r.st.wallet.results[request.id := result]
    && n.notices == r.notices + {Notice(request.source, result)}
  }

  lemma TakeAnswer(r: Transit, request: Request, result: Result)
    requires Middle(r.st) && Answer(request, result) in r.answers && Answer(request, result) in r.st.answers
    requires Waits(r, request)
    ensures CanMove(r, Happens(AnswerArrives(request, result)))
    ensures Completed(r, Moved(r, Happens(AnswerArrives(request, result))), request, result)
  {
    AnswerFacts(r.st.answers, r.st.ledger.records, r.st.tasks, request, result);
    assert RecordSound(r.st.ledger.records[request.id], request.id, r.st.tasks);
  }

  lemma Complete(t: Transit, r: Transit, request: Request) returns (n: Transit, result: Result)
    requires Leads(t, r) && Sound(r) && Waits(r, request) && Moving(r.tasks, r.answers, r.recovers, request)
    ensures Leads(t, n) && Sound(n) && Completed(r, n, request, result)
  {
    n := GetAnswer(t, r, request);
    var a :| a in n.answers && a.request == request;
    result := a.result;
    TakeAnswer(n, request, result);
    n := Go(t, n, AnswerArrives(request, result));
  }

  lemma HopelessSame(r: Transit, n: Transit, request: Request, result: Result, id: nat)
    requires Completed(r, n, request, result) && Waits(r, request)
    requires WalletSound(r.st.wallet, r.st.ledger.records, r.st.commits) && id != request.id
    ensures Hopeless(n, id) <==> Hopeless(r, id)
    ensures id in PendingIds(n.st.wallet) <==> id in PendingIds(r.st.wallet)
  {
    if id in r.st.wallet.requests {
      assert Known(r.st.wallet, r.st.ledger.records, id);
      var q := r.st.wallet.requests[id];
      assert q != request;
      assert forall a :: a in n.answers && a.request == q ==> a in r.answers;
      assert forall a :: a in r.answers && a.request == q ==> a in n.answers;
    }
  }

  lemma CompletedCounts(r: Transit, n: Transit, request: Request, result: Result)
    requires Completed(r, n, request, result) && Waits(r, request) && !Hopeless(r, request.id)
    requires WalletSound(r.st.wallet, r.st.ledger.records, r.st.commits)
    ensures HopelessIds(n) == HopelessIds(r) && PendingIds(n.st.wallet) == PendingIds(r.st.wallet) - {request.id}
  {
    forall id | id != request.id
      ensures Hopeless(n, id) <==> Hopeless(r, id)
      ensures id in PendingIds(n.st.wallet) <==> id in PendingIds(r.st.wallet)
    {
      HopelessSame(r, n, request, result, id);
    }
  }

  predicate Unstuck(t: Transit, b: nat, id: nat)
    requires b < |t.st.battles|
  {
    id in t.st.battles[b].requests ==> !StuckRequest(t, b, t.st.battles[b].requests[id])
  }

  lemma CompletedItself(r: Transit, n: Transit, request: Request, result: Result, b: nat)
    requires Completed(r, n, request, result) && Waits(r, request) && b < |r.st.battles| && request.source == b
    ensures !Spoils(n.st.wallet, request) && !StuckRequest(n, b, request)
  {
  }

  lemma CompletedOther(r: Transit, n: Transit, request: Request, result: Result, b: nat, mine: Request)
    requires Completed(r, n, request, result) && Waits(r, request) && !Hopeless(r, request.id)
    requires WalletSound(r.st.wallet, r.st.ledger.records, r.st.commits) && b < |r.st.battles|
    requires mine.id != request.id && !StuckRequest(r, b, mine)
    ensures !StuckRequest(n, b, mine)
  {
    CompletedCounts(r, n, request, result);
    HopelessSame(r, n, request, result, mine.id);
    assert !Untold(r, b, mine.id) && !Unheard(r, mine);
  }

  lemma CompletedUnstuck(r: Transit, n: Transit, request: Request, result: Result, b: nat, id: nat)
    requires Completed(r, n, request, result) && Waits(r, request) && !Hopeless(r, request.id)
    requires BattlesSound(r.st.battles) && WalletSound(r.st.wallet, r.st.ledger.records, r.st.commits)
    requires b < |r.st.battles| && id in r.st.battles[b].requests && Unstuck(r, b, id)
    ensures Unstuck(n, b, id)
  {
    var mine := r.st.battles[b].requests[id];
    assert BattleSound(r.st.battles[b], b) && OwnRequest(mine, b, id);
    if id == request.id {
      assert !Spoils(r.st.wallet, mine);
      CompletedItself(r, n, request, result, b);
    } else {
      CompletedOther(r, n, request, result, b, mine);
    }
  }

  // ---------------------------------------------------------------------------------
  // A battle with nothing stuck can finish
  // ---------------------------------------------------------------------------------

  predicate Free(t: Transit, b: nat) { b < |t.st.battles| && !Stuck(t, b) }

  lemma AllUnstuck(t: Transit, b: nat)
    requires b < |t.st.battles| && forall id :: id in t.st.battles[b].requests ==> Unstuck(t, b, id)
    ensures Free(t, b)
  {
  }

  lemma CompletedFree(r: Transit, n: Transit, request: Request, result: Result, b: nat)
    requires Completed(r, n, request, result) && Waits(r, request) && !Hopeless(r, request.id)
    requires Front(r.st) && Middle(r.st) && Free(r, b)
    ensures Free(n, b)
  {
    forall id | id in n.st.battles[b].requests ensures Unstuck(n, b, id) {
      CompletedUnstuck(r, n, request, result, b, id);
    }
    AllUnstuck(n, b);
  }

  /** On the way from t, with nothing of the battle stuck. */
  ghost predicate OnWay(t: Transit, r: Transit, b: nat) { Leads(t, r) && Sound(r) && Free(r, b) }

  /** The battle and its commits are as they were. */
  predicate SameAsked(r: Transit, n: Transit)
  {
    && n.st.battles == r.st.battles && n.commits == r.commits && n.st.wallet.requests == r.st.wallet.requests
    && n.st.wallet.maxPending == r.st.wallet.maxPending
  }

  /** Completing a request that waits with hope. */
  lemma CompleteFree(t: Transit, r: Transit, b: nat, request: Request) returns (n: Transit)
    requires OnWay(t, r, b) && Waits(r, request) && !Hopeless(r, request.id)
    ensures OnWay(t, n, b) && SameAsked(r, n)
    ensures |HopelessIds(n)| == |HopelessIds(r)| && |PendingIds(n.st.wallet)| < |PendingIds(r.st.wallet)|
    ensures request.id in n.st.wallet.results && n.st.wallet.results[request.id].outcome.Committed?
  {
    var result;
    n, result := Complete(t, r, request);
    CompletedFree(r, n, request, result, b);
    CompletedCounts(r, n, request, result);
  }

  lemma Hopeful(r: Transit) returns (request: Request)
    requires WalletSound(r.st.wallet, r.st.ledger.records, r.st.commits)
    requires |HopelessIds(r)| < |PendingIds(r.st.wallet)|
    ensures Waits(r, request) && !Hopeless(r, request.id)
  {
    if PendingIds(r.st.wallet) <= HopelessIds(r) { SmallerSet(PendingIds(r.st.wallet), HopelessIds(r)); }
    var id :| id in PendingIds(r.st.wallet) && id !in HopelessIds(r);
    assert Known(r.st.wallet, r.st.ledger.records, id);
    request := r.st.wallet.requests[id];
  }

  lemma CompleteSome(t: Transit, r: Transit, b: nat) returns (n: Transit)
    requires OnWay(t, r, b) && |HopelessIds(r)| < |PendingIds(r.st.wallet)|
    ensures OnWay(t, n, b) && SameAsked(r, n)
    ensures |HopelessIds(n)| == |HopelessIds(r)| && |PendingIds(n.st.wallet)| < |PendingIds(r.st.wallet)|
  {
    var request := Hopeful(r);
    n := CompleteFree(t, r, b, request);
  }

  /** There is room for one more request once enough others are completed. */
  lemma MakeRoom(t: Transit, r: Transit, b: nat, limit: nat, pending: nat) returns (n: Transit)
    requires OnWay(t, r, b) && |HopelessIds(r)| < limit == r.st.wallet.maxPending
    requires pending == |PendingIds(r.st.wallet)|
    ensures OnWay(t, n, b) && SameAsked(r, n) && |PendingIds(n.st.wallet)| < limit
    decreases pending
  {
    n := r;
    if pending >= limit {
      n := CompleteSome(t, r, b);
      n := MakeRoom(t, n, b, limit, |PendingIds(n.st.wallet)|);
    }
  }

  /** The commit arrives at a wallet that has room for it. */
  lemma AdmitFree(r: Transit, b: nat, request: Request)
    requires Front(r.st) && Middle(r.st) && Free(r, b) && CanMove(r, Happens(CommitArrives(request, true)))
    requires Admits(r.st.wallet, request) && request.id in r.st.battles[b].requests
    requires r.st.battles[b].requests[request.id] == request
    ensures Free(Moved(r, Happens(CommitArrives(request, true))), b)
  {
    var n := Moved(r, Happens(CommitArrives(request, true)));
    forall id | id in n.st.battles[b].requests ensures Unstuck(n, b, id) {
      var mine := r.st.battles[b].requests[id];
      assert BattleSound(r.st.battles[b], b) && OwnRequest(mine, b, id);
      assert Unstuck(r, b, id);
      if id == request.id { AdmitItself(r, b, request); } else { AdmitOther(r, b, request, mine); }
    }
    AllUnstuck(n, b);
  }

  lemma AdmitItself(r: Transit, b: nat, request: Request)
    requires Middle(r.st) && CanMove(r, Happens(CommitArrives(request, true))) && Admits(r.st.wallet, request)
    requires b < |r.st.battles|
    ensures !StuckRequest(Moved(r, Happens(CommitArrives(request, true))), b, request)
  {
  }

  lemma AdmitHopeless(r: Transit, request: Request, id: nat)
    requires Middle(r.st) && CanMove(r, Happens(CommitArrives(request, true))) && Admits(r.st.wallet, request)
    requires Hopeless(Moved(r, Happens(CommitArrives(request, true))), id)
    ensures Hopeless(r, id)
  {
  }

  lemma AdmitOther(r: Transit, b: nat, request: Request, mine: Request)
    requires Middle(r.st) && CanMove(r, Happens(CommitArrives(request, true))) && Admits(r.st.wallet, request)
    requires b < |r.st.battles| && mine.id != request.id && !StuckRequest(r, b, mine)
    ensures !StuckRequest(Moved(r, Happens(CommitArrives(request, true))), b, mine)
  {
    var n := Moved(r, Happens(CommitArrives(request, true)));
    forall id | id in HopelessIds(n) ensures id in HopelessIds(r) { AdmitHopeless(r, request, id); }
    SmallerSet(HopelessIds(n), HopelessIds(r));
    if Hopeless(n, mine.id) { AdmitHopeless(r, request, mine.id); }
    assert !Untold(r, b, mine.id) && !Unheard(r, mine);
  }

  /** A request of a free battle can reach the wallet. */
  lemma Admitted(t: Transit, r: Transit, b: nat, id: nat) returns (n: Transit)
    requires OnWay(t, r, b) && id in r.st.battles[b].requests
    ensures OnWay(t, n, b) && n.st.battles == r.st.battles && id in n.st.wallet.requests
  {
    n := r;
    if id !in r.st.wallet.requests {
      var request := r.st.battles[b].requests[id];
      assert BattleSound(r.st.battles[b], b) && OwnRequest(request, b, id);
      assert !Unheard(r, request);
      n := MakeRoom(t, r, b, r.st.wallet.maxPending, |PendingIds(r.st.wallet)|);
      AdmitFree(n, b, request);
      n := Go(t, n, CommitArrives(request, true));
    }
  }

  lemma NotRefused(r: Transit, b: nat, id: nat)
    requires Front(r.st) && Middle(r.st) && Free(r, b) && id in r.st.battles[b].requests && id in r.st.wallet.requests
    ensures id in r.st.wallet.results && !r.st.wallet.results[id].outcome.Rejected? && !Hopeless(r, id)
    ensures r.st.wallet.requests[id] == r.st.battles[b].requests[id] && r.st.wallet.requests[id].id == id
  {
    assert BattleSound(r.st.battles[b], b) && OwnRequest(r.st.battles[b].requests[id], b, id);
    assert !StuckRequest(r, b, r.st.battles[b].requests[id]);
  }

  /** ... the wallet can learn its result and tell the battle. */
  lemma Told(t: Transit, r: Transit, b: nat, id: nat) returns (n: Transit)
    requires OnWay(t, r, b) && id in r.st.battles[b].requests
    ensures OnWay(t, n, b) && n.st.battles == r.st.battles
    ensures id in n.st.wallet.results && n.st.wallet.results[id].outcome.Committed?
  {
    n := Admitted(t, r, b, id);
    NotRefused(n, b, id);
    if id in PendingIds(n.st.wallet) { n := CompleteFree(t, n, b, n.st.wallet.requests[id]); }
  }

  /** The settlements a battle still waits for. */
  function Waiting(b: Battle): set<nat> { set id | id in b.settlements && !b.settlements[id].outcome.Committed? }

  lemma WaitingIsPending(st: State, b: nat, id: nat)
    requires Chain(st) && b < |st.battles| && id in Waiting(st.battles[b])
    ensures id in st.battles[b].requests && st.battles[b].settlements[id].outcome.Pending?
  {
    assert BattleSound(st.battles[b], b) && SettlementSound(st.battles[b].settlements, st.wallet, b);
  }

  /** What the battle was told, and does not know yet, is on its way and will be noted. */
  lemma ToldIsNotable(r: Transit, b: nat, id: nat)
    requires Front(r.st) && Middle(r.st) && AllOpen(r.st.battles) && Free(r, b) && id in r.st.battles[b].requests
    requires id in r.st.battles[b].settlements && r.st.battles[b].settlements[id].outcome.Pending?
    requires id in r.st.wallet.results && r.st.wallet.results[id].outcome.Committed?
    ensures Notice(b, r.st.wallet.results[id]) in r.notices && Notable(r.st.battles[b], r.st.wallet.results[id])
    ensures r.st.wallet.results[id].id == id
  {
    NotRefused(r, b, id);
    assert Known(r.st.wallet, r.st.ledger.records, id);
    assert !StuckRequest(r, b, r.st.battles[b].requests[id]);
    assert BattleOpen(r.st.battles[b]);
  }

  predicate OwnResults(results: map<nat, Result>) { forall id :: id in results ==> results[id].id == id }

  /** The notice is on its way, says what the wallet says, and is news to the battle. */
  predicate Deliverable(r: Transit, b: nat, result: Result)
  {
    && CanMove(r, Happens(NoticeArrives(b, result))) && Notable(r.st.battles[b], result)
    && result.outcome.Committed? && result.id in r.st.wallet.results && r.st.wallet.results[result.id] == result
    && r.st.battles[b].phase.Settling? && OwnRequests(r.st.battles[b].requests, b)
    && OwnResults(r.st.wallet.results)
  }

  predicate Closer(r: Transit, n: Transit, b: nat)
  {
    && b < |r.st.battles| && Free(n, b) && |Waiting(n.st.battles[b])| < |Waiting(r.st.battles[b])|
    && (n.st.battles[b].phase.Settling? || n.st.battles[b].phase.Finished?)
  }

  lemma NoteFree(r: Transit, b: nat, result: Result)
    requires Free(r, b) && Deliverable(r, b, result)
    ensures Closer(r, Moved(r, Happens(NoticeArrives(b, result))), b)
  {
    var n := Moved(r, Happens(NoticeArrives(b, result)));
    forall id | id in n.st.battles[b].requests ensures Unstuck(n, b, id) {
      var mine := r.st.battles[b].requests[id];
      assert OwnRequest(mine, b, id) && !StuckRequest(r, b, mine);
      NoteUnstuck(r, b, result, mine);
    }
    AllUnstuck(n, b);
    assert Waiting(n.st.battles[b]) == Waiting(r.st.battles[b]) - {result.id};
  }

  lemma NoteUnstuck(r: Transit, b: nat, result: Result, mine: Request)
    requires Deliverable(r, b, result) && !StuckRequest(r, b, mine)
    ensures !StuckRequest(Moved(r, Happens(NoticeArrives(b, result))), b, mine)
  {
    var n := Moved(r, Happens(NoticeArrives(b, result)));
    assert forall id :: Hopeless(n, id) <==> Hopeless(r, id);
    assert HopelessIds(n) == HopelessIds(r);
    if Untold(n, b, mine.id) { assert Untold(r, b, mine.id); }
  }

  lemma Owned(st: State, b: nat)
    requires BattlesSound(st.battles) && WalletSound(st.wallet, st.ledger.records, st.commits) && b < |st.battles|
    ensures OwnResults(st.wallet.results) && OwnRequests(st.battles[b].requests, b)
  {
    assert BattleSound(st.battles[b], b);
    forall x | x in st.wallet.results ensures st.wallet.results[x].id == x {
      assert x in st.wallet.requests;
      assert Known(st.wallet, st.ledger.records, x);
    }
  }

  predicate Ready(r: Transit, b: nat, id: nat)
  {
    && b < |r.st.battles| && id in r.st.battles[b].requests && r.st.battles[b].phase.Settling?
    && id in r.st.battles[b].settlements && r.st.battles[b].settlements[id].outcome.Pending?
    && id in r.st.wallet.results && r.st.wallet.results[id].outcome.Committed?
  }

  lemma ReadyDeliverable(r: Transit, b: nat, id: nat)
    requires Ready(r, b, id) && Notice(b, r.st.wallet.results[id]) in r.notices && r.notices <= r.st.notices
    requires Notable(r.st.battles[b], r.st.wallet.results[id]) && OwnResults(r.st.wallet.results)
    requires OwnRequests(r.st.battles[b].requests, b)
    ensures Deliverable(r, b, r.st.wallet.results[id])
  {
  }

  /** ... and the battle can take note of it. */
  lemma Noted(t: Transit, r: Transit, b: nat, id: nat) returns (n: Transit)
    requires OnWay(t, r, b) && id in Waiting(r.st.battles[b]) && r.st.battles[b].phase.Settling?
    ensures OnWay(t, n, b) && Closer(r, n, b)
  {
    WaitingIsPending(r.st, b, id);
    var told := Told(t, r, b, id);
    ToldIsNotable(told, b, id);
    Owned(told.st, b);
    ReadyDeliverable(told, b, id);
    NoteFree(told, b, told.st.wallet.results[id]);
    n := Go(t, told, NoticeArrives(b, told.st.wallet.results[id]));
  }

  lemma {:induction false} Finishing(t: Transit, r: Transit, b: nat)
    requires OnWay(t, r, b) && (r.st.battles[b].phase.Settling? || r.st.battles[b].phase.Finished?)
    ensures CanFinish(t, b)
    decreases |Waiting(r.st.battles[b])|
  {
    if r.st.battles[b].phase.Settling? {
      assert BattleOpen(r.st.battles[b]);
      var id :| id in r.st.battles[b].settlements && !r.st.battles[b].settlements[id].outcome.Committed?;
      var n := Noted(t, r, b, id);
      Finishing(t, n, b);
    }
  }

  /** At every moment of every run in which messages arrive at most once, a settling battle can
      still finish if and only if none of its requests is stuck. */
  lemma FinishesExactly(ts: seq<Transit>, ms: seq<Motion>, k: nat, b: nat)
    requires IsPath(ts, ms) && IsStart(ts[0]) && k <= |ms|
    requires b < |ts[k].st.battles| && ts[k].st.battles[b].phase.Settling?
    ensures CanFinish(ts[k], b) <==> !Stuck(ts[k], b)
  {
    PathSound(ts, ms, k);
    if Stuck(ts[k], b) {
      StuckNeverFinishes(ts[k], b);
    } else {
      Stays(ts[k]);
      Finishing(ts[k], ts[k], b);
    }
  }
}
