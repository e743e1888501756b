/** The settlement pipeline with every message delivered at most once: a commit, a task, an
    answer or a notice arrives once or is lost, and nothing sends it again but a recovery. */
module PipelineTransit {
  import opened PipelineModel
  import opened Pipeline

  // ---------------------------------------------------------------------------------
  // Nothing that progress needs is missing
  // ---------------------------------------------------------------------------------

  /** Every request of a battle was sent to the wallet. */
  predicate AllAsked(battles: seq<Battle>, commits: set<Request>)
  {
    forall b, id :: 0 <= b < |battles| && id in battles[b].requests ==> battles[b].requests[id] in commits
  }

  predicate Noticed(w: Wallet, notices: set<Notice>, id: nat)
    requires id in w.results
  {
    w.results[id].outcome.Committed? ==> id in w.requests && Notice(w.requests[id].source, w.results[id]) in notices
  }

  /** The wallet told the battle of every committed result. */
  predicate AllNoticed(w: Wallet, notices: set<Notice>) { forall id :: id in w.results ==> Noticed(w, notices, id) }

  predicate SameCurrencies(b: Battle)
  {
    forall id :: id in b.settlements ==> id in b.requests && b.settlements[id].currency == b.requests[id].currency
  }

  /** A settling battle still waits for something. */
  predicate BattleOpen(b: Battle) { SameCurrencies(b) && (b.phase.Settling? ==> !AllCommitted(b.settlements)) }

  predicate AllOpen(battles: seq<Battle>) { forall b :: 0 <= b < |battles| ==> BattleOpen(battles[b]) }

  predicate Fit(st: State)
  {
    && Chain(st) && st.wallet.maxPending >= 1
    && AllAsked(st.battles, st.commits) && AllNoticed(st.wallet, st.notices) && AllOpen(st.battles)
  }

  lemma {:induction false} RequestedSome(intents: seq<Intent>, source: nat)
    requires intents != []
    ensures Requested(intents, source) != map[]
  {
    assert intents[|intents| - 1].id in Requested(intents, source);
  }

  lemma FinishOpen(b: Battle, self: nat, intents: seq<Intent>)
    requires BattleSound(b, self) && Finishes(b, intents)
    ensures BattleOpen(FinishBattle(b, self, intents))
  {
    var f := FinishBattle(b, self, intents);
    FinishBattleSound(b, self, intents);
    if intents != [] {
      RequestedSome(intents, self);
      var id :| id in f.requests;
      assert id in f.settlements && f.settlements[id].outcome.Pending?;
    }
  }

  lemma NoteOpen(b: Battle, self: nat, result: Result)
    requires BattleSound(b, self) && BattleOpen(b) && Notable(b, result)
    ensures BattleOpen(Note(b, result))
  {
  }

  lemma SetOpen(battles: seq<Battle>, b: nat, battle: Battle)
    requires AllOpen(battles) && b < |battles| && BattleOpen(battle)
    ensures AllOpen(battles[b := battle])
  {
  }

  lemma StepOpen(st: State, step: Step)
    requires Chain(st) && AllOpen(st.battles) && Can(st, step)
    ensures AllOpen(Next(st, step).battles)
  {
    match step
    case Start(b) =>
      if st.battles[b].phase.Created? {
        assert BattleOpen(st.battles[b]);
        SetOpen(st.battles, b, st.battles[b].(phase := Running));
      }
    case Finish(b, intents) =>
      if Finishes(st.battles[b], intents) {
        assert BattleSound(st.battles[b], b);
        FinishOpen(st.battles[b], b, intents);
        SetOpen(st.battles, b, FinishBattle(st.battles[b], b, intents));
      }
    case NoticeArrives(b, result) =>
      if Notable(st.battles[b], result) {
        assert BattleSound(st.battles[b], b) && BattleOpen(st.battles[b]);
        NoteOpen(st.battles[b], b, result);
        SetOpen(st.battles, b, Note(st.battles[b], result));
      }
    case _ =>
  }

  lemma StepAsked(st: State, step: Step)
    requires AllAsked(st.battles, st.commits) && Can(st, step)
    ensures AllAsked(Next(st, step).battles, Next(st, step).commits)
  {
    if step.Finish? && Finishes(st.battles[step.b], step.intents) {
      var requests := FinishBattle(st.battles[step.b], step.b, step.intents).requests;
      assert forall id :: id in requests ==> requests[id] in requests.Values;
    }
  }

  lemma StepNoticed(st: State, step: Step)
    requires Middle(st) && AllNoticed(st.wallet, st.notices) && Can(st, step)
    ensures AllNoticed(Next(st, step).wallet, Next(st, step).notices)
    ensures Next(st, step).wallet.maxPending == st.wallet.maxPending
  {
    var r := Next(st, step);
    forall id | id in r.wallet.results ensures Noticed(r.wallet, r.notices, id) {
      if id in st.wallet.results { assert Noticed(st.wallet, st.notices, id); }
    }
  }

  lemma StepFit(st: State, step: Step)
    requires Fit(st) && Can(st, step)
    ensures Fit(Next(st, step))
  {
    StepChain(st, step);
    StepOpen(st, step);
    StepAsked(st, step);
    StepNoticed(st, step);
  }

  // ---------------------------------------------------------------------------------
  // Messages on their way
  // ---------------------------------------------------------------------------------

  /** Next to the state, the messages that were sent and have neither arrived nor been lost.
      `recovers` says whether anybody asks the wallet to recover settlements.  A task that is
      sent again while it is on its way counts once; a recovery can always send another. */
  datatype Transit = Transit(st: State, commits: set<Request>, tasks: set<Request>, answers: set<Answer>,
                             notices: set<Notice>, recovers: bool)

  datatype Motion =
    | Happens(step: Step)
    | LoseCommit(request: Request)
    | LoseTask(request: Request)
    | LoseAnswer(answer: Answer)
    | LoseNotice(notice: Notice)

  predicate InTransit(t: Transit, step: Step)
  {
    match step
    case CommitArrives(request, _) => request in t.commits
    case Recover(_) => t.recovers
    case WorkLookup(request) => request in t.tasks
    case WorkCommit(request) => request in t.tasks
    case AnswerArrives(request, result) => Answer(request, result) in t.answers
    case NoticeArrives(b, result) => Notice(b, result) in t.notices
    case _ => true
  }

  predicate CanMove(t: Transit, m: Motion) { m.Happens? ==> Can(t.st, m.step) && InTransit(t, m.step) }

  /** A worker that found a record answers from it, and one that did not goes on to commit. */
  predicate Answers(st: State, step: Step)
  {
    match step
    case WorkLookup(request) => request.id in st.ledger.records
    case WorkCommit(request) =>
      request.id in st.ledger.records ==> st.ledger.records[request.id].request == request
    case _ => false
  }

  function AnswerOf(st: State, step: Step): Answer
    requires Answers(st, step)
  {
    var request := step.request;
    Answer(request, if request.id in st.ledger.records then st.ledger.records[request.id].result
                    else CommitResult(st.ledger, request))
  }

  function Commits(t: Transit, step: Step): set<Request>
    requires CanMove(t, Happens(step))
  {
    match step
    case Finish(b, intents) =>
      if !Finishes(t.st.battles[b], intents) then t.commits
      else t.commits + FinishBattle(t.st.battles[b], b, intents).requests.Values
    case CommitArrives(request, _) => t.commits - {request}
    case _ => t.commits
  }

  function Tasks(t: Transit, step: Step): set<Request>
    requires CanMove(t, Happens(step))
  {
    match step
    case CommitArrives(request, queued) => t.tasks + (if queued && Admits(t.st.wallet, request) then {request} else {})
    case Recover(id) =>
      if id in t.st.wallet.requests && id in PendingIds(t.st.wallet) then t.tasks + {t.st.wallet.requests[id]}
      else t.tasks
    case WorkLookup(request) => if Answers(t.st, step) then t.tasks - {request} else t.tasks
    case WorkCommit(request) => t.tasks - {request}
    case _ => t.tasks
  }

  function Answering(t: Transit, step: Step): set<Answer>
    requires CanMove(t, Happens(step))
  {
    if Answers(t.st, step) then t.answers + {AnswerOf(t.st, step)}
    else if step.AnswerArrives? then t.answers - {Answer(step.request, step.result)}
    else t.answers
  }

  function Notices(t: Transit, step: Step): set<Notice>
    requires CanMove(t, Happens(step))
  {
    match step
    case AnswerArrives(request, result) =>
      t.notices + (if Applies(t.st.wallet, request, result) then {Notice(request.source, result)} else {})
    case NoticeArrives(b, result) => t.notices - {Notice(b, result)}
    case _ => t.notices
  }

  function Moved(t: Transit, m: Motion): Transit
    requires CanMove(t, m)
  {
    match m
    case Happens(step) =>
      Transit(Next(t.st, step), Commits(t, step), Tasks(t, step), Answering(t, step), Notices(t, step), t.recovers)
    case LoseCommit(request) => t.(commits := t.commits - {request})
    case LoseTask(request) => t.(tasks := t.tasks - {request})
    case LoseAnswer(answer) => t.(answers := t.answers - {answer})
    case LoseNotice(notice) => t.(notices := t.notices - {notice})
  }

  predicate IsStart(t: Transit)
  {
    IsInit(t.st) && t.commits == {} && t.tasks == {} && t.answers == {} && t.notices == {}
  }

  predicate Linked(ts: seq<Transit>, ms: seq<Motion>, k: nat)
    requires k < |ms| < |ts|
  {
    CanMove(ts[k], ms[k]) && ts[k + 1] == Moved(ts[k], ms[k])
  }

  predicate IsPath(ts: seq<Transit>, ms: seq<Motion>)
  {
    |ts| == |ms| + 1 && forall k :: 0 <= k < |ms| ==> Linked(ts, ms, k)
  }

  ghost predicate Leads(t: Transit, r: Transit)
  {
    exists ts, ms :: IsPath(ts, ms) && ts[0] == t && ts[|ms|] == r
  }

  lemma Stays(t: Transit)
    ensures Leads(t, t)
  {
    var none: seq<Motion> := [];
    assert IsPath([t], none) && [t][0] == t && [t][|none|] == t;
  }

  lemma Further(t: Transit, r: Transit, m: Motion)
    requires Leads(t, r) && CanMove(r, m)
    ensures Leads(t, Moved(r, m))
  {
    var ts, ms :| IsPath(ts, ms) && ts[0] == t && ts[|ms|] == r;
    var more, further := ts + [Moved(r, m)], ms + [m];
    forall k | 0 <= k < |further| ensures Linked(more, further, k) {
      if k < |ms| { assert Linked(ts, ms, k); }
    }
    assert IsPath(more, further) && more[0] == t && more[|further|] == Moved(r, m);
  }

  // ---------------------------------------------------------------------------------
  // What is on its way was sent
  // ---------------------------------------------------------------------------------

  predicate Sound(t: Transit)
  {
    && Fit(t.st) && t.commits <= t.st.commits && t.tasks <= t.st.tasks && t.answers <= t.st.answers
    && t.notices <= t.st.notices
  }

  lemma StepSent(t: Transit, step: Step)
    requires CanMove(t, Happens(step)) && t.commits <= t.st.commits && t.tasks <= t.st.tasks
    requires t.answers <= t.st.answers && t.notices <= t.st.notices
    ensures Commits(t, step) <= Next(t.st, step).commits && Tasks(t, step) <= Next(t.st, step).tasks
    ensures Answering(t, step) <= Next(t.st, step).answers && Notices(t, step) <= Next(t.st, step).notices
  {
  }

  lemma MoveSound(t: Transit, m: Motion)
    requires Sound(t) && CanMove(t, m)
    ensures Sound(Moved(t, m))
  {
    if m.Happens? {
      StepFit(t.st, m.step);
      StepSent(t, m.step);
    }
  }

  lemma {:induction false} PathSound(ts: seq<Transit>, ms: seq<Motion>, k: nat)
    requires IsPath(ts, ms) && Sound(ts[0]) && k <= |ms|
    ensures Sound(ts[k])
  {
    if k > 0 {
      PathSound(ts, ms, k - 1);
      assert Linked(ts, ms, k - 1);
      MoveSound(ts[k - 1], ms[k - 1]);
    }
  }

  // ---------------------------------------------------------------------------------
  // A run with messages in transit is a run
  // ---------------------------------------------------------------------------------

  /** The pipeline gets to this state, whatever arrives again or never. */
  ghost predicate Reached(st: State)
  {
    exists states, steps :: IsRun(states, steps) && states[|steps|] == st
  }

  lemma Onward(st: State, step: Step)
    requires Reached(st) && Can(st, step)
    ensures Reached(Next(st, step))
  {
    var states, steps :| IsRun(states, steps) && states[|steps|] == st;
    var more, further := states + [Next(st, step)], steps + [step];
    forall k | 0 <= k < |further| ensures Joined(more, further, k) {
      if k < |steps| { assert Joined(states, steps, k); }
    }
    assert IsRun(more, further) && more[|further|] == Next(st, step);
  }

  /** What holds on every run of the pipeline holds when messages arrive at most once. */
  lemma {:induction false} PathIsRun(ts: seq<Transit>, ms: seq<Motion>, k: nat)
    requires IsPath(ts, ms) && IsStart(ts[0]) && k <= |ms|
    ensures Reached(ts[k].st)
  {
    if k == 0 {
      var none: seq<Step> := [];
      assert IsRun([ts[0].st], none) && [ts[0].st][|none|] == ts[0].st;
    } else {
      PathIsRun(ts, ms, k - 1);
      assert Linked(ts, ms, k - 1);
      if ms[k - 1].Happens? { Onward(ts[k - 1].st, ms[k - 1].step); }
    }
  }
}
