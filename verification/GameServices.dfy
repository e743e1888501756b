/** The ledger, the wallet and the battle of the game framework as the objects they are:
    every handler is a method that updates its fields. */
module GameServices {
  import opened PipelineModel

  datatype Option<T> = None | Some(value: T)

  // ---------------------------------------------------------------------------------
  // The in-memory ledger
  // ---------------------------------------------------------------------------------

  /** Entries of other players do not change a player's amount. */
  lemma {:induction false} OthersKeepAmount(balances: map<Key, int>, currency: nat, entries: seq<Entry>, i: nat, n: nat)
    requires i < n <= |entries| && forall a, b :: 0 <= a < b < |entries| ==> entries[a].player < entries[b].player
    ensures Amount(AddEntries(balances, currency, entries[..n]), Key(currency, entries[i].player))
         == Amount(AddEntries(balances, currency, entries[..i + 1]), Key(currency, entries[i].player))
    decreases n
  {
    if i + 1 < n {
      OthersKeepAmount(balances, currency, entries, i, n - 1);
      assert entries[..n][..n - 1] == entries[..n - 1];
    }
  }

  function ReportOf(balances: map<Key, int>, request: Request, e: nat): Balance
    requires e < |request.entries|
  {
    var key := Key(request.currency, request.entries[e].player);
    Balance(key.player, key.currency, Amount(AddEntries(balances, request.currency, request.entries[..e + 1]), key))
  }

  predicate ReportedSoFar(balances: map<Key, int>, request: Request, reported: seq<Balance>)
  {
    |reported| <= |request.entries| && forall e :: 0 <= e < |reported| ==> reported[e] == ReportOf(balances, request, e)
  }

  /** The amount after each entry is the amount after all of them. */
  lemma ReportsAgree(balances: map<Key, int>, request: Request, reported: seq<Balance>)
    requires ValidRequest(request) && ReportedSoFar(balances, request, reported) && |reported| == |request.entries|
    ensures reported == Reported(balances, request)
  {
    var entries := request.entries;
    assert entries[..|entries|] == entries;
    forall e | 0 <= e < |entries| ensures reported[e] == Reported(balances, request)[e] {
      OthersKeepAmount(balances, request.currency, entries, e, |entries|);
    }
  }

  class MemoryLedger {
    var records: map<nat, Record>
    var balances: map<Key, int>
    ghost var journal: seq<Request>

    ghost function Abs(): Ledger
      reads this
    {
      Ledger(records, balances, journal)
    }

    constructor ()
      ensures Abs() == Ledger(map[], map[], [])
    {
      records, balances, journal := map[], map[], [];
    }

    /** A request is committed once.  The same request again gets the recorded result, a
        different one under the same number an error. */
    method Commit(request: Request) returns (result: Option<Result>)
      modifies this
      ensures Abs() == (if ValidRequest(request) && request.id !in old(records)
                        then CommitNew(old(Abs()), request) else old(Abs()))
      ensures result ==
        if !ValidRequest(request) then None
        else if request.id !in old(records) then Some(CommitResult(old(Abs()), request))
        else if old(records)[request.id].request == request then Some(old(records)[request.id].result)
        else None
    {
      if !ValidRequest(request) {
        return None;
      }
      if request.id in records {
        if records[request.id].request != request {
          return None;
        }
        return Some(records[request.id].result);
      }
      var reported := AddAll(request);
      var committed := Result(request.id, Committed, request.currency, reported);
      records := records[request.id := Record(request, committed)];
      journal := journal + [request];
      result := Some(committed);
    }

    method AddAll(request: Request) returns (reported: seq<Balance>)
      requires ValidRequest(request)
      modifies this`balances
      ensures balances == AddEntries(old(balances), request.currency, request.entries)
      ensures reported == Reported(old(balances), request)
    {
      var entries := request.entries;
      reported := [];
      for i := 0 to |entries|
        invariant balances == AddEntries(old(balances), request.currency, entries[..i])
        invariant |reported| == i && ReportedSoFar(old(balances), request, reported)
      {
        var key := Key(request.currency, entries[i].player);
        assert entries[..i + 1][..i] == entries[..i];
        balances := balances[key := Wrap(Amount(balances, key) + entries[i].delta)];
        reported := reported + [Balance(entries[i].player, request.currency, balances[key])];
      }
      assert entries[..|entries|] == entries;
      ReportsAgree(old(balances), request, reported);
    }

    method Lookup(id: nat) returns (result: Option<Result>)
      ensures result == if id in records then Some(records[id].result) else None
    {
      if id !in records {
        return None;
      }
      result := Some(records[id].result);
    }
  }

  // ---------------------------------------------------------------------------------
  // The wallet
  // ---------------------------------------------------------------------------------

  datatype Answered = Replied(result: Result) | Invalid | Conflict | Unavailable | NotFound

  class WalletService {
    var requests: map<nat, Request>
    var results: map<nat, Result>
    var balances: map<Key, int>
    const maxPending: nat

    ghost function Abs(): Wallet
      reads this
    {
      Wallet(requests, results, balances, maxPending)
    }

    predicate Valid()
      reads this
    {
      requests.Keys == results.Keys
    }

    constructor (maxPending: nat)
      ensures Valid() && Abs() == Wallet(map[], map[], map[], maxPending)
    {
      requests, results, balances := map[], map[], map[];
      this.maxPending := maxPending;
    }

    method PendingCount() returns (count: nat)
      ensures count == |PendingIds(Abs())|
    {
      count := 0;
      var rest := results.Keys;
      ghost var seen: set<nat> := {};
      ghost var pending: set<nat> := {};
      while rest != {}
        invariant seen + rest == results.Keys && seen !! rest
        invariant pending == (set id | id in seen && results[id].outcome.Pending?) && count == |pending|
        decreases rest
      {
        var id :| id in rest;
        if results[id].outcome.Pending? {
          count := count + 1;
          pending := pending + {id};
        }
        rest := rest - {id};
        seen := seen + {id};
      }
      assert pending == PendingIds(Abs());
    }

    /** `queued` is the runner's answer to the task, should one be submitted. */
    method Commit(request: Request, queued: bool) returns (answer: Answered, submitted: bool)
      requires Valid()
      modifies this
      ensures Valid()
      ensures Abs() == if Admits(old(Abs()), request) then Admit(old(Abs()), request, queued) else old(Abs())
      ensures submitted <==> Admits(old(Abs()), request)
      ensures answer ==
        if !ValidRequest(request) then Invalid
        else if request.id in old(requests) then
          (if old(requests)[request.id] == request then Replied(old(results)[request.id]) else Conflict)
        else if !submitted then Unavailable
        else Replied(results[request.id])
    {
      submitted := false;
      if !ValidRequest(request) {
        return Invalid, submitted;
      }
      if request.id in requests {
        if requests[request.id] != request {
          return Conflict, submitted;
        }
        return Replied(results[request.id]), submitted;
      }
      var count := PendingCount();
      if count >= maxPending {
        return Unavailable, submitted;
      }
      var pending := PendingResult(request);
      requests := requests[request.id := request];
      results := results[request.id := pending];
      submitted := true;
      if !queued {
        var rejected := pending.(outcome := Rejected);
        results := results[request.id := rejected];
        return Replied(rejected), submitted;
      }
      answer := Replied(pending);
    }

    method Apply(request: Request, result: Result) returns (notify: bool)
      requires Valid()
      modifies this
      ensures Valid()
      ensures notify <==> Applies(old(Abs()), request, result)
      ensures Abs() == if notify then ApplyResult(old(Abs()), result) else old(Abs())
    {
      notify := false;
      if request.id !in requests || requests[request.id] != request {
        return;
      }
      if result.outcome.Pending? || result.id != request.id || result.currency != request.currency {
        return;
      }
      if !results[request.id].outcome.Pending? {
        return;
      }
      results := results[request.id := result];
      if result.outcome.Committed? {
        for i := 0 to |result.balances|
          invariant balances == Store(old(balances), result.balances[..i])
          invariant requests == old(requests) && results == old(results)[request.id := result]
        {
          var b := result.balances[i];
          assert result.balances[..i + 1][..i] == result.balances[..i];
          balances := balances[Key(b.currency, b.player) := b.amount];
        }
        assert result.balances[..|result.balances|] == result.balances;
      }
      notify := true;
    }

    /** Only a pending request is submitted again. */
    method Recover(id: nat) returns (task: Option<Request>)
      requires Valid()
      ensures task == if id in requests && results[id].outcome.Pending? then Some(requests[id]) else None
    {
      if id !in requests || !results[id].outcome.Pending? {
        return None;
      }
      task := Some(requests[id]);
    }
  }

  // ---------------------------------------------------------------------------------
  // A ledger worker
  // ---------------------------------------------------------------------------------

  /** Looks the request up and commits it if there is no record: whoever asks, and however often,
      gets the one recorded result. */
  method ProcessTask(ledger: MemoryLedger, request: Request) returns (result: Option<Result>)
    modifies ledger
    ensures ledger.Abs() == if result.Some? && request.id !in old(ledger.records)
                            then CommitNew(old(ledger.Abs()), request) else old(ledger.Abs())
    ensures result.Some? <==> ValidRequest(request) || request.id in old(ledger.records)
    ensures result.Some? ==> request.id in ledger.records && ledger.records[request.id].result == result.value
  {
    result := ledger.Lookup(request.id);
    if result == None {
      result := ledger.Commit(request);
    }
  }

  /** A worker that nobody interrupts takes one of the two working steps of the pipeline. */
  method WorkStep(ledger: MemoryLedger, request: Request, ghost st: State)
    returns (result: Option<Result>, ghost step: Step)
    requires st.ledger == ledger.Abs() && request in st.tasks && ValidRequest(request)
    modifies ledger
    ensures step == if request.id in old(ledger.records) then WorkLookup(request) else WorkCommit(request)
    ensures Can(st, step) && Next(st, step).ledger == ledger.Abs()
    ensures result.Some? && Next(st, step).answers == st.answers + {Answer(request, result.value)}
  {
    step := if request.id in ledger.records then WorkLookup(request) else WorkCommit(request);
    result := ProcessTask(ledger, request);
  }

  /** The record, if there is one, is of this request. */
  ghost predicate Unclaimed(records: map<nat, Record>, request: Request)
  {
    request.id in records ==>
      && records[request.id].request == request && records[request.id].result.outcome.Committed?
      && records[request.id].result.id == request.id && records[request.id].result.currency == request.currency
  }

  /** Recovering a pending request settles it with the ledger's one record of it, committed now
      or before, and leaves nothing to recover. */
  method RecoverSettles(w: WalletService, ledger: MemoryLedger, id: nat) returns (notify: bool, again: Option<Request>)
    requires w.Valid() && id in w.requests && w.results[id].outcome.Pending?
    requires w.requests[id].id == id && ValidRequest(w.requests[id]) && Unclaimed(ledger.records, w.requests[id])
    modifies w, ledger
    ensures w.Valid() && notify && again == None && w.requests == old(w.requests)
    ensures id in ledger.records && w.results == old(w.results)[id := ledger.records[id].result]
    ensures w.results[id].outcome.Committed? && ledger.records[id].request == w.requests[id]
    ensures ledger.Abs() == if id in old(ledger.records) then old(ledger.Abs())
                            else CommitNew(old(ledger.Abs()), old(w.requests)[id])
  {
    var task := w.Recover(id);
    var result := ProcessTask(ledger, task.value);
    notify := w.Apply(task.value, result.value);
    again := w.Recover(id);
  }

  // ---------------------------------------------------------------------------------
  // The battle
  // ---------------------------------------------------------------------------------

  /** `intents` is None for an absent list, which is not the same as an empty one. */
  datatype FinishRequest = FinishRequest(id: nat, intents: Option<seq<Intent>>)

  datatype FinishReply =
    InPhase(phase: Phase) | InvalidRequestID | RequestConflict | StateConflict | InvalidSettlement | WalletUnavailable

  const BLANK := Intent(0, 0, [])

  function IntentsOf(finish: FinishRequest): seq<Intent> { if finish.intents.Some? then finish.intents.value else [] }

  /** Copies the blank elements of the list it has just made, not those of the request. */
  method CloneFinish(finish: FinishRequest) returns (clone: FinishRequest)
    ensures clone.id == finish.id && clone.intents.Some? && |clone.intents.value| == |IntentsOf(finish)|
    ensures forall i :: 0 <= i < |IntentsOf(finish)| ==> clone.intents.value[i] == BLANK
  {
    var list := seq(|IntentsOf(finish)|, _ => BLANK);
    for i := 0 to |list|
      invariant |list| == |IntentsOf(finish)| && forall k :: 0 <= k < |list| ==> list[k] == BLANK
    {
      list := list[i := list[i]];
    }
    clone := FinishRequest(finish.id, Some(list));
  }

  /** `reachable` says that the battle was given a valid reference to a wallet. */
  class BattleService {
    const self: nat
    const reachable: bool
    var phase: Phase
    var finish: FinishRequest
    var requests: map<nat, Request>
    var settlements: map<nat, Result>

    ghost function Abs(): Battle
      reads this
    {
      Battle(phase, requests, settlements)
    }

    constructor (self: nat, reachable: bool)
      ensures this.self == self && this.reachable == reachable && Abs() == Battle(Created, map[], map[])
    {
      this.self, this.reachable := self, reachable;
      phase, requests, settlements := Created, map[], map[];
      finish := FinishRequest(0, None);
    }

    /** The request is accepted and the battle will settle. */
    predicate Accepts(wanted: FinishRequest)
      reads this
    {
      && wanted.id != 0 && Finishes(Battle(phase, requests, settlements), IntentsOf(wanted))
      && (IntentsOf(wanted) == [] || reachable)
    }

    /** Only a running battle finishes, and only with valid and distinct settlements, which it
        needs a wallet for. */
    method Finish(wanted: FinishRequest) returns (reply: FinishReply)
      modifies this
      ensures var go := old(Accepts(wanted));
              && Abs() == (if go then FinishBattle(old(Abs()), self, IntentsOf(wanted)) else old(Abs()))
              && (go ==> reply == InPhase(phase) && finish.id == wanted.id && Blanked(finish, wanted))
              && (!go ==> finish == old(finish))
      ensures wanted.id == 0 ==> reply == InvalidRequestID
      ensures wanted.id != 0 && !old(phase).Running? ==>
        reply == if old(finish).id != wanted.id then StateConflict
                 else if old(finish) == wanted then InPhase(old(phase)) else RequestConflict
      ensures wanted.id != 0 && old(phase).Running? && !ValidIntents(IntentsOf(wanted)) ==> reply == InvalidSettlement
      ensures wanted.id != 0 && old(phase).Running? && ValidIntents(IntentsOf(wanted)) && !old(Accepts(wanted)) ==>
        reply == WalletUnavailable
    {
      if wanted.id == 0 {
        return InvalidRequestID;
      }
      if !phase.Running? {
        if finish.id != wanted.id {
          return StateConflict;
        }
        if finish != wanted {
          return RequestConflict;
        }
        return InPhase(phase);
      }
      var valid := CheckIntents(IntentsOf(wanted));
      if !valid {
        return InvalidSettlement;
      }
      if IntentsOf(wanted) != [] && !reachable {
        return WalletUnavailable;
      }
      finish := CloneFinish(wanted);
      OpenSettlements(IntentsOf(wanted));
      reply := InPhase(phase);
    }

    method CheckIntents(intents: seq<Intent>) returns (valid: bool)
      ensures valid <==> ValidIntents(intents)
    {
      var seen: set<nat> := {};
      for i := 0 to |intents|
        invariant ValidIntents(intents[..i])
        invariant forall id :: id in seen <==> exists k :: 0 <= k < i && intents[k].id == id
      {
        if !ValidRequest(RequestOf(intents[i], 0)) || intents[i].id in seen {
          return false;
        }
        seen := seen + {intents[i].id};
      }
      assert intents[..|intents|] == intents;
      valid := true;
    }

    method OpenSettlements(intents: seq<Intent>)
      modifies this`phase, this`requests, this`settlements
      ensures Abs() == FinishBattle(old(Abs()), self, intents)
    {
      phase := Settling;
      requests, settlements := map[], map[];
      for i := 0 to |intents|
        invariant requests == Requested(intents[..i], self)
        invariant settlements == map id | id in requests :: PendingResult(requests[id])
        invariant phase == Settling
      {
        var request := RequestOf(intents[i], self);
        assert intents[..i + 1][..i] == intents[..i];
        requests := requests[request.id := request];
        settlements := settlements[request.id := PendingResult(request)];
      }
      assert intents[..|intents|] == intents;
      if intents == [] {
        phase := Finished;
      }
    }

    method ApplySettlement(result: Result)
      modifies this`phase, this`settlements
      ensures Abs() == if Notable(old(Abs()), result) then Note(old(Abs()), result) else old(Abs())
    {
      if result.id !in settlements || !settlements[result.id].outcome.Pending? {
        return;
      }
      if result.outcome.Pending? || result.currency != settlements[result.id].currency {
        return;
      }
      settlements := settlements[result.id := result];
      if result.outcome.Rejected? {
        phase := Failed;
        return;
      }
      var all := EveryCommitted();
      if all {
        phase := Finished;
      }
    }

    method EveryCommitted() returns (all: bool)
      ensures all <==> AllCommitted(settlements)
    {
      var rest := settlements.Keys;
      while rest != {}
        invariant rest <= settlements.Keys
        invariant forall id :: id in settlements.Keys - rest ==> settlements[id].outcome.Committed?
        decreases rest
      {
        var id :| id in rest;
        if !settlements[id].outcome.Committed? {
          return false;
        }
        rest := rest - {id};
      }
      all := true;
    }
  }

  predicate Blanked(stored: FinishRequest, wanted: FinishRequest)
  {
    && stored.intents.Some? && |stored.intents.value| == |IntentsOf(wanted)|
    && forall i :: 0 <= i < |IntentsOf(wanted)| ==> stored.intents.value[i] == BLANK
  }

  /** Asking again is not idempotent: a battle that finished with `wanted` recognises the same
      request exactly when its list of settlements was present and empty. */
  lemma RetryRecognised(stored: FinishRequest, wanted: FinishRequest)
    requires ValidIntents(IntentsOf(wanted)) && stored.id == wanted.id && Blanked(stored, wanted)
    ensures stored == wanted <==> wanted.intents == Some([])
  {
    if wanted.intents.Some? && wanted.intents.value != [] {
      assert ValidRequest(RequestOf(wanted.intents.value[0], 0));
      assert stored.intents.value[0] == BLANK;
    }
  }

  /** Sending an accepted request again, whatever results came in between, gets the phase exactly
      when its list of settlements was present and empty, and a conflict otherwise. */
  method FinishTwice(battle: BattleService, wanted: FinishRequest, results: seq<Result>)
    returns (first: FinishReply, second: FinishReply)
    modifies battle
    ensures old(battle.Accepts(wanted)) ==>
      first.InPhase? && second == if wanted.intents == Some([]) then InPhase(battle.phase) else RequestConflict
  {
    ghost var accepted := battle.Accepts(wanted);
    first := battle.Finish(wanted);
    for i := 0 to |results|
      invariant accepted ==> !battle.phase.Running? && battle.finish.id == wanted.id && Blanked(battle.finish, wanted)
    {
      battle.ApplySettlement(results[i]);
    }
    if accepted { RetryRecognised(battle.finish, wanted); }
    second := battle.Finish(wanted);
  }
}
