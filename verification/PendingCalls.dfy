/** The table of pending calls.  Each method is what the runtime does to it under its lock. */
module PendingCalls {
  import opened Calls

  /** Numbers 1 to n are n numbers. */
  lemma {:induction false} FilledSize(s: set<nat>, n: nat)
    requires forall k: nat :: 1 <= k <= n ==> k in s
    ensures |s| >= n
  {
    if n > 0 { FilledSize(s - {n}, n - 1); }
  }

  lemma FreeSession(calls: map<nat, Call>) returns (free: nat)
    requires |calls| < SESSIONS - 1
    ensures 0 < free < SESSIONS && free !in calls
  {
    if forall k: nat :: 1 <= k <= SESSIONS - 1 ==> k in calls.Keys {
      FilledSize(calls.Keys, SESSIONS - 1);
    }
    free :| 1 <= free <= SESSIONS - 1 && free !in calls.Keys;
  }

  /** How many increments of the counter lead to `free`. */
  function Distance(next: nat, free: nat): nat
    requires next < SESSIONS && free < SESSIONS
  {
    if next < free then free - next else free + SESSIONS - next
  }

  /** The counter after i more increments, which wrap around. */
  function Later(next: nat, i: nat): (r: nat)
    requires next < SESSIONS
    ensures r < SESSIONS
  {
    if i == 0 then next
    else
      var before := Later(next, i - 1);
      if before + 1 == SESSIONS then 0 else before + 1
  }

  class Table {
    var next: nat
    var calls: map<nat, Call>

    predicate Valid()
      reads this
    {
      next < SESSIONS && forall s :: s in calls ==> 0 < s < SESSIONS
    }

    constructor ()
      ensures Valid() && calls == map[]
    {
      next, calls := 0, map[];
    }

    /** Finds the first session after the counter that is neither zero nor in use, `draws`
        increments on; with every session in use it would search for ever. */
    method Create(call: Call) returns (session: nat, ghost draws: nat)
      requires Valid() && |calls| < SESSIONS - 1
      modifies this
      ensures Valid() && 0 < session < SESSIONS && session !in old(calls)
      ensures calls == old(calls)[session := call]
      ensures draws >= 1 && session == next == Later(old(next), draws)
      ensures forall i :: 1 <= i < draws ==> Later(old(next), i) == 0 || Later(old(next), i) in old(calls)
    {
      ghost var free := FreeSession(calls);
      draws := 0;
      while true
        invariant Valid() && calls == old(calls) && next == Later(old(next), draws)
        invariant forall i :: 1 <= i <= draws ==> Later(old(next), i) == 0 || Later(old(next), i) in calls
        decreases Distance(next, free)
      {
        next := if next + 1 == SESSIONS then 0 else next + 1;
        draws := draws + 1;
        session := next;
        if session != 0 && session !in calls {
          calls := calls[session := call];
          return;
        }
      }
    }

    method Remove(session: nat)
      requires Valid()
      modifies this
      ensures Valid() && calls == old(calls) - {session} && next == old(next)
    {
      calls := calls - {session};
    }

    /** A reply takes a call out exactly when source, target, command and session all match. */
    method Take(call: Call, session: nat) returns (ok: bool)
      requires Valid()
      modifies this
      ensures Valid() && next == old(next)
      ensures ok <==> session in old(calls) && old(calls)[session] == call
      ensures calls == if ok then old(calls) - {session} else old(calls)
    {
      ok := session in calls && calls[session] == call;
      if ok {
        calls := calls - {session};
      }
    }

    /** A failure takes out every call it concerns and no other. */
    method FailWhere(cause: Cause) returns (failed: set<nat>)
      requires Valid() && !cause.Reply?
      modifies this
      ensures Valid() && next == old(next)
      ensures failed == set s | s in old(calls) && Fails(old(calls)[s], cause)
      ensures calls == old(calls) - failed
    {
      failed := {};
      var rest := calls.Keys;
      ghost var seen: set<nat> := {};
      while rest != {}
        invariant seen + rest == old(calls).Keys && seen !! rest && next == old(next)
        invariant failed == set s | s in seen && Fails(old(calls)[s], cause)
        invariant calls == old(calls) - failed
        decreases rest
      {
        var session :| session in rest;
        if Fails(calls[session], cause) {
          calls := calls - {session};
          failed := failed + {session};
        }
        rest := rest - {session};
        seen := seen + {session};
      }
    }
  }

  // ---------------------------------------------------------------------------------
  // The steps of the calls are these operations
  // ---------------------------------------------------------------------------------

  /** The calls that are pending, as this table. */
  ghost predicate Stands(t: Table, st: State)
    reads t
  {
    && t.next == st.draws % SESSIONS && t.calls.Keys == st.pending.Keys
    && forall s :: s in st.pending ==> st.pending[s] < |st.records| && t.calls[s] == st.records[st.pending[s]].call
  }

  predicate Seeks(st: State, c: nat) { c < |st.records| && st.records[c].stage.Drawing? }

  /** One turn of the search: draw a session and, unless it is zero, try to register it. */
  function Turn(st: State, c: nat): State
    requires Seeks(st, c)
  {
    var drawn := Next(st, Draw(c));
    if drawn.records[c].stage.Drawn? then Next(drawn, Register(c)) else drawn
  }

  function Turns(st: State, c: nat, n: nat): State
  {
    if n == 0 then st
    else
      var before := Turns(st, c, n - 1);
      if Seeks(before, c) then Turn(before, c) else before
  }

  lemma {:induction false} LaterDraws(draws: nat, i: nat)
    ensures Later(draws % SESSIONS, i) == (draws + i) % SESSIONS
  {
    if i > 0 { LaterDraws(draws, i - 1); }
  }

  /** One turn, by the session s it draws. */
  lemma OneTurn(st: State, c: nat, s: nat)
    requires Seeks(st, c) && s == (st.draws + 1) % SESSIONS
    ensures var r := Turn(st, c);
            && r.draws == st.draws + 1
            && (s == 0 ==> r.records == st.records && r.pending == st.pending)
            && (s != 0 ==> r.records == st.records[c := st.records[c].(
                  session := s, stage := if s in st.pending then Drawing else Registered)])
            && (s != 0 ==> r.pending == if s in st.pending then st.pending else st.pending[s := c])
  {
  }

  predicate Busy(pending: map<nat, nat>, s: nat) { s == 0 || s in pending }

  /** A turn that draws zero or a session in use moves nothing but the counter. */
  lemma BusyTurn(st: State, c: nat, s: nat)
    requires Seeks(st, c) && s == (st.draws + 1) % SESSIONS && Busy(st.pending, s)
    ensures var r := Turn(st, c);
            && Seeks(r, c) && r.pending == st.pending && r.draws == st.draws + 1
            && r.records == st.records[c := st.records[c].(session := r.records[c].session)]
  {
    OneTurn(st, c, s);
    assert st.records[c := st.records[c]] == st.records;
  }

  /** The caller has been drawing in vain. */
  predicate Searched(st: State, r: State, c: nat, n: nat)
  {
    && Seeks(st, c) && Seeks(r, c) && r.pending == st.pending && r.draws == st.draws + n
    && r.records == st.records[c := st.records[c].(session := r.records[c].session)]
  }

  lemma {:induction false} BusyTurns(st: State, c: nat, n: nat, first: nat)
    requires Seeks(st, c) && first == st.draws % SESSIONS
    requires forall i :: 1 <= i <= n ==> Busy(st.pending, Later(first, i))
    ensures Searched(st, Turns(st, c, n), c, n)
  {
    if n == 0 {
      assert st.records[c := st.records[c]] == st.records;
    } else {
      BusyTurns(st, c, n - 1, first);
      LaterDraws(st.draws, n);
      BusyTurn(Turns(st, c, n - 1), c, Later(first, n));
    }
  }

  /** The turn that draws a free session registers the call. */
  lemma LastTurn(st: State, c: nat, n: nat, first: nat) returns (r: State)
    requires Seeks(st, c) && first == st.draws % SESSIONS && n >= 1
    requires forall i :: 1 <= i < n ==> Busy(st.pending, Later(first, i))
    requires !Busy(st.pending, Later(first, n))
    ensures r == Turns(st, c, n) && r.draws == st.draws + n && r.draws % SESSIONS == Later(first, n)
    ensures r.pending == st.pending[Later(first, n) := c]
    ensures r.records == st.records[c := st.records[c].(session := Later(first, n), stage := Registered)]
  {
    BusyTurns(st, c, n - 1, first);
    LaterDraws(st.draws, n);
    var before := Turns(st, c, n - 1);
    OneTurn(before, c, Later(first, n));
    r := Turns(st, c, n);
  }

  /** Creating a call is the turns of its caller up to the one that registers it. */
  method CreateStep(t: Table, c: nat, call: Call, ghost st: State) returns (session: nat, ghost r: State)
    requires t.Valid() && Stands(t, st) && |t.calls| < SESSIONS - 1
    requires Seeks(st, c) && st.records[c].call == call
    modifies t
    ensures t.Valid() && Stands(t, r) && (exists n :: n >= 1 && r == Turns(st, c, n))
    ensures c < |r.records| && r.records[c].stage.Registered? && r.records[c].session == session && Live(r, c)
  {
    ghost var first, draws := t.next, 0;
    session, draws := t.Create(call);
    r := LastTurn(st, c, draws, first);
  }

  /** A reply takes a call out of the table exactly where the step completes one. */
  method TakeStep(t: Table, call: Call, session: nat, ghost st: State) returns (ok: bool)
    requires t.Valid() && Stands(t, st)
    modifies t
    ensures t.Valid() && Stands(t, Next(st, TakeReply(call, session)))
    ensures ok <==> Matches(st, call, session)
  {
    ok := t.Take(call, session);
  }

  /** A failure takes out exactly the calls whose callers the step gives an answer to hold. */
  method FailStep(t: Table, cause: Cause, ghost st: State) returns (failed: set<nat>)
    requires t.Valid() && Stands(t, st) && !cause.Reply?
    modifies t
    ensures t.Valid() && Stands(t, Next(st, Fail(cause)))
    ensures failed == set s | s in st.pending && FailsAt(st, s, cause)
  {
    failed := t.FailWhere(cause);
  }

  /** A caller that stopped waiting takes its session out, so that no later reply finds it. */
  method RemoveStep(t: Table, c: nat, session: nat, reply: Call, ghost st: State) returns (found: bool)
    requires t.Valid() && Stands(t, st) && Can(st, Remove(c)) && session == st.records[c].session
    modifies t
    ensures t.Valid() && Stands(t, Next(st, Remove(c)))
    ensures !found && !Matches(Next(st, Remove(c)), reply, session)
  {
    t.Remove(session);
    found := t.Take(reply, session);
  }
}
