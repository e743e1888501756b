/** The settlement pipeline of the game framework: battles ask a wallet to commit, the wallet
    hands tasks to ledger workers, and results travel back.  Any message may be lost or
    arrive several times. */
module PipelineModel {

  datatype Entry = Entry(player: nat, delta: int)

  datatype Request = Request(id: nat, source: nat, currency: nat, entries: seq<Entry>)

  datatype Intent = Intent(id: nat, currency: nat, entries: seq<Entry>)

  datatype Outcome = Pending | Committed | Rejected

  datatype Balance = Balance(player: nat, currency: nat, amount: int)

  datatype Result = Result(id: nat, outcome: Outcome, currency: nat, balances: seq<Balance>)

  datatype Key = Key(currency: nat, player: nat)

  const INT64_HALF := 0x8000_0000_0000_0000

  /** A 64-bit signed addition wraps around. */
  function Wrap(x: int): int { (x + INT64_HALF) % (2 * INT64_HALF) - INT64_HALF }

  /** Between 1 and 256 entries, none of them zero, players strictly ascending.  Names are
      numbers here, and 0 stands for the empty name, which is never valid. */
  predicate ValidEntries(entries: seq<Entry>)
  {
    && 0 < |entries| <= 256
    && (forall i :: 0 <= i < |entries| ==> entries[i].delta != 0 && entries[i].player != 0)
    && (forall i, j :: 0 <= i < j < |entries| ==> entries[i].player < entries[j].player)
  }

  predicate ValidRequest(r: Request) { r.id != 0 && r.currency != 0 && ValidEntries(r.entries) }

  // ---------------------------------------------------------------------------------
  // The ledger
  // ---------------------------------------------------------------------------------

  datatype Record = Record(request: Request, result: Result)

  /** `journal` lists the committed requests in the order in which they were committed. */
  datatype Ledger = Ledger(records: map<nat, Record>, balances: map<Key, int>, journal: seq<Request>)

  function Amount(balances: map<Key, int>, key: Key): int { if key in balances then balances[key] else 0 }

  function AddEntry(balances: map<Key, int>, currency: nat, e: Entry): map<Key, int>
  {
    var key := Key(currency, e.player);
    balances[key := Wrap(Amount(balances, key) + e.delta)]
  }

  function AddEntries(balances: map<Key, int>, currency: nat, entries: seq<Entry>): map<Key, int>
  {
    if entries == [] then balances
    else AddEntry(AddEntries(balances, currency, entries[..|entries| - 1]), currency, entries[|entries| - 1])
  }

  /** The balances reported for a request: what each of its players has afterwards. */
  function Reported(balances: map<Key, int>, request: Request): seq<Balance>
  {
    var after := AddEntries(balances, request.currency, request.entries);
    seq(|request.entries|, i requires 0 <= i < |request.entries| =>
      Balance(request.entries[i].player, request.currency,
        Amount(after, Key(request.currency, request.entries[i].player))))
  }

  function CommitResult(l: Ledger, request: Request): Result
  {
    Result(request.id, Committed, request.currency, Reported(l.balances, request))
  }

  /** Commit a request that has no record yet. */
  function CommitNew(l: Ledger, request: Request): Ledger
  {
    Ledger(l.records[request.id := Record(request, CommitResult(l, request))],
           AddEntries(l.balances, request.currency, request.entries), l.journal + [request])
  }

  // ---------------------------------------------------------------------------------
  // The wallet
  // ---------------------------------------------------------------------------------

  datatype Wallet = Wallet(requests: map<nat, Request>, results: map<nat, Result>, balances: map<Key, int>,
                           maxPending: nat)

  function PendingIds(w: Wallet): set<nat> { set id | id in w.results && w.results[id].outcome.Pending? }

  function PendingResult(request: Request): Result { Result(request.id, Pending, request.currency, []) }

  predicate Admits(w: Wallet, request: Request)
  {
    ValidRequest(request) && request.id !in w.requests && |PendingIds(w)| < w.maxPending
  }

  /** `queued` says whether the ledger runner took the task. */
  function Admit(w: Wallet, request: Request, queued: bool): Wallet
  {
    var result := if queued then PendingResult(request) else PendingResult(request).(outcome := Rejected);
    w.(requests := w.requests[request.id := request], results := w.results[request.id := result])
  }

  predicate Applies(w: Wallet, request: Request, result: Result)
  {
    && request.id in w.requests && w.requests[request.id] == request
    && !result.outcome.Pending? && result.id == request.id && result.currency == request.currency
    && request.id in w.results && w.results[request.id].outcome.Pending?
  }

  function Store(balances: map<Key, int>, reported: seq<Balance>): map<Key, int>
  {
    if reported == [] then balances
    else
      var last := reported[|reported| - 1];
      Store(balances, reported[..|reported| - 1])[Key(last.currency, last.player) := last.amount]
  }

  function ApplyResult(w: Wallet, result: Result): Wallet
  {
    w.(results := w.results[result.id := result],
       balances := if result.outcome.Committed? then Store(w.balances, result.balances) else w.balances)
  }

  // ---------------------------------------------------------------------------------
  // A battle
  // ---------------------------------------------------------------------------------

  datatype Phase = Created | Running | Settling | Finished | Failed

  datatype Battle = Battle(phase: Phase, requests: map<nat, Request>, settlements: map<nat, Result>)

  function RequestOf(intent: Intent, source: nat): Request
  {
    Request(intent.id, source, intent.currency, intent.entries)
  }

  predicate ValidIntents(intents: seq<Intent>)
  {
    && (forall i :: 0 <= i < |intents| ==> ValidRequest(RequestOf(intents[i], 0)))
    && (forall i, j :: 0 <= i < j < |intents| ==> intents[i].id != intents[j].id)
  }

  predicate Finishes(b: Battle, intents: seq<Intent>) { b.phase.Running? && ValidIntents(intents) }

  function Requested(intents: seq<Intent>, source: nat): map<nat, Request>
  {
    if intents == [] then map[]
    else
      var last := intents[|intents| - 1];
      Requested(intents[..|intents| - 1], source)[last.id := RequestOf(last, source)]
  }

  function FinishBattle(b: Battle, source: nat, intents: seq<Intent>): Battle
  {
    var requests := Requested(intents, source);
    Battle(if intents == [] then Finished else Settling, requests,
           map id | id in requests :: PendingResult(requests[id]))
  }

  predicate Notable(b: Battle, result: Result)
  {
    && result.id in b.settlements && b.settlements[result.id].outcome.Pending?
    && !result.outcome.Pending? && result.currency == b.settlements[result.id].currency
  }

  predicate AllCommitted(settlements: map<nat, Result>)
  {
    forall id :: id in settlements ==> settlements[id].outcome.Committed?
  }

  function Note(b: Battle, result: Result): Battle
  {
    var settlements := b.settlements[result.id := result];
    b.(settlements := settlements,
       phase := if result.outcome.Rejected? then Failed else if AllCommitted(settlements) then Finished else b.phase)
  }

  // ---------------------------------------------------------------------------------
  // The whole pipeline
  // ---------------------------------------------------------------------------------

  datatype Answer = Answer(request: Request, result: Result)

  datatype Notice = Notice(battle: nat, result: Result)

  /** Messages stay: a message in one of the four sets was sent at least once and may arrive
      any number of times from then on, or never. */
  datatype State = State(
    battles: seq<Battle>, wallet: Wallet, ledger: Ledger,
    commits: set<Request>, tasks: set<Request>, answers: set<Answer>, notices: set<Notice>)

  datatype Step =
    | Create
    | Start(b: nat)
    | Finish(b: nat, intents: seq<Intent>)
    | CommitArrives(request: Request, queued: bool)
    | Recover(id: nat)
    | WorkLookup(request: Request)
    | WorkCommit(request: Request)
    | AnswerArrives(request: Request, result: Result)
    | NoticeArrives(b: nat, result: Result)

  predicate Can(st: State, step: Step)
  {
    match step
    case Create => true
    case Start(b) => b < |st.battles|
    case Finish(b, _) => b < |st.battles|
    case CommitArrives(request, _) => request in st.commits
    case Recover(_) => true
    case WorkLookup(request) => request in st.tasks
    case WorkCommit(request) => request in st.tasks
    case AnswerArrives(request, result) => Answer(request, result) in st.answers
    case NoticeArrives(b, result) => Notice(b, result) in st.notices && b < |st.battles|
  }

  function SetBattle(st: State, b: nat, battle: Battle): State
    requires b < |st.battles|
  {
    st.(battles := st.battles[b := battle])
  }

  function Next(st: State, step: Step): State
    requires Can(st, step)
  {
    match step
    case Create => st.(battles := st.battles + [Battle(Created, map[], map[])])
    case Start(b) => if st.battles[b].phase.Created? then SetBattle(st, b, st.battles[b].(phase := Running)) else st
    case Finish(b, intents) =>
      if !Finishes(st.battles[b], intents) then st
      else
        var battle := FinishBattle(st.battles[b], b, intents);
        SetBattle(st, b, battle).(commits := st.commits + battle.requests.Values)
    case CommitArrives(request, queued) =>
      if !Admits(st.wallet, request) then st
      else st.(wallet := Admit(st.wallet, request, queued), tasks := st.tasks + (if queued then {request} else {}))
    case Recover(id) =>
      if id in st.wallet.requests && id in st.wallet.results && st.wallet.results[id].outcome.Pending?
      then st.(tasks := st.tasks + {st.wallet.requests[id]}) else st
    case WorkLookup(request) =>
      if request.id in st.ledger.records then Send(st, request, st.ledger.records[request.id].result) else st
    case WorkCommit(request) =>
      if request.id !in st.ledger.records then
        Send(st.(ledger := CommitNew(st.ledger, request)), request, CommitResult(st.ledger, request))
      else if st.ledger.records[request.id].request == request then
        Send(st, request, st.ledger.records[request.id].result)
      else st
    case AnswerArrives(request, result) =>
      if !Applies(st.wallet, request, result) then st
      else st.(wallet := ApplyResult(st.wallet, result), notices := st.notices + {Notice(request.source, result)})
    case NoticeArrives(b, result) =>
      if !Notable(st.battles[b], result) then st else SetBattle(st, b, Note(st.battles[b], result))
  }

  function Send(st: State, request: Request, result: Result): State
  {
    st.(answers := st.answers + {Answer(request, result)})
  }

  predicate IsInit(st: State)
  {
    && st.battles == [] && st.commits == {} && st.tasks == {} && st.answers == {} && st.notices == {}
    && st.wallet.requests == map[] && st.wallet.results == map[] && st.wallet.balances == map[]
    && st.wallet.maxPending >= 1
    && st.ledger == Ledger(map[], map[], [])
  }

  predicate Joined(states: seq<State>, steps: seq<Step>, k: nat)
    requires k < |steps| < |states|
  {
    Can(states[k], steps[k]) && states[k + 1] == Next(states[k], steps[k])
  }

  predicate IsRun(states: seq<State>, steps: seq<Step>)
  {
    && |states| == |steps| + 1 && IsInit(states[0])
    && forall k :: 0 <= k < |steps| ==> Joined(states, steps, k)
  }
}
