/** Synchronous calls and their replies: callers, repliers, timeouts and failing nodes and
    services, interleaved one critical section at a time. */
module Calls {

  datatype Ref = Ref(node: nat, id: nat)

  datatype Call = Call(source: Ref, target: Ref, command: nat)

  /** Why a call is answered. */
  datatype Cause =
    | Reply(call: Call, session: nat)
    | NodeFailed(node: nat)
    | ServiceFailed(ref: Ref)
    | RuntimeClosed

  datatype Stage = Drawing | Drawn | Registered

  /** One call: the session it drew, the answers that somebody took on to deliver, the
      contents of its one-slot channel, how many answers were sent to the channel, what the
      caller received, and whether the caller has stopped waiting. */
  datatype Record = Record(call: Call, stage: Stage, session: nat, held: seq<Cause>, slot: seq<Cause>, sent: nat,
                           got: seq<Cause>, gone: bool)

  /** `draws` counts the session numbers handed out; the counter itself wraps around. */
  datatype State = State(records: seq<Record>, pending: map<nat, nat>, draws: nat)

  datatype Step =
    | Begin(call: Call)
    | Draw(c: nat)
    | Register(c: nat)
    | TakeReply(call: Call, session: nat)
    | Fail(cause: Cause)
    | Deliver(c: nat)
    | Receive(c: nat)
    | Abandon(c: nat)
    | Remove(c: nat)

  const SESSIONS := 0x1_0000_0000_0000_0000

  predicate Fails(call: Call, cause: Cause)
  {
    match cause
    case Reply(_, _) => false
    case NodeFailed(node) => call.source.node == node || call.target.node == node
    case ServiceFailed(ref) => call.source == ref || call.target == ref
    case RuntimeClosed => true
  }

  // ---------------------------------------------------------------------------------
  // Steps
  // ---------------------------------------------------------------------------------

  predicate Live(st: State, c: nat)
    requires c < |st.records|
  {
    var s := st.records[c].session;
    st.records[c].stage.Registered? && s in st.pending && st.pending[s] == c
  }

  predicate Can(st: State, step: Step)
  {
    match step
    case Begin(_) => true
    case Draw(c) => c < |st.records| && st.records[c].stage.Drawing?
    case Register(c) => c < |st.records| && st.records[c].stage.Drawn?
    case TakeReply(_, _) => true
    case Fail(cause) => !cause.Reply?
    case Deliver(c) => c < |st.records| && st.records[c].held != [] && st.records[c].slot == []
    case Receive(c) =>
      c < |st.records| && st.records[c].stage.Registered? && !st.records[c].gone && st.records[c].slot != []
    case Abandon(c) => c < |st.records| && st.records[c].stage.Registered? && !st.records[c].gone
    case Remove(c) => c < |st.records| && st.records[c].gone
  }

  function Set(st: State, c: nat, r: Record): State
    requires c < |st.records|
  {
    st.(records := st.records[c := r])
  }

  /** The call that a reply completes, if there is one. */
  predicate Matches(st: State, call: Call, session: nat)
  {
    session in st.pending && st.pending[session] < |st.records| && st.records[st.pending[session]].call == call
  }

  function Hold(r: Record, cause: Cause): Record { r.(held := r.held + [cause]) }

  function FailRecord(st: State, c: nat, cause: Cause): Record
    requires c < |st.records|
  {
    if Live(st, c) && Fails(st.records[c].call, cause) then Hold(st.records[c], cause) else st.records[c]
  }

  function Next(st: State, step: Step): State
    requires Can(st, step)
  {
    match step
    case Begin(call) => st.(records := st.records + [Record(call, Drawing, 0, [], [], 0, [], false)])
    case Draw(c) =>
      var session := (st.draws + 1) % SESSIONS;
      Set(st, c, if session == 0 then st.records[c] else st.records[c].(stage := Drawn, session := session))
        .(draws := st.draws + 1)
    case Register(c) =>
      var r := st.records[c];
      if r.session in st.pending then Set(st, c, r.(stage := Drawing))
      else Set(st, c, r.(stage := Registered)).(pending := st.pending[r.session := c])
    case TakeReply(call, session) =>
      if !Matches(st, call, session) then st
      else
        var c := st.pending[session];
        Set(st, c, Hold(st.records[c], Reply(call, session))).(pending := st.pending - {session})
    case Fail(cause) =>
      State(seq(|st.records|, c requires 0 <= c < |st.records| => FailRecord(st, c, cause)),
            map s | s in st.pending && !FailsAt(st, s, cause) :: st.pending[s], st.draws)
    case Deliver(c) =>
      var r := st.records[c];
      Set(st, c, r.(held := r.held[1..], slot := r.slot + [r.held[0]], sent := r.sent + 1))
    case Receive(c) =>
      var r := st.records[c];
      Set(st, c, r.(slot := r.slot[1..], got := r.got + [r.slot[0]], gone := true))
    case Abandon(c) => Set(st, c, st.records[c].(gone := true))
    case Remove(c) => st.(pending := st.pending - {st.records[c].session})
  }

  predicate FailsAt(st: State, s: nat, cause: Cause)
    requires s in st.pending
  {
    st.pending[s] < |st.records| && Fails(st.records[st.pending[s]].call, cause)
  }

  // ---------------------------------------------------------------------------------
  // The invariant
  // ---------------------------------------------------------------------------------

  function One(b: bool): nat { if b then 1 else 0 }

  /** An answer belongs to its call: a reply repeats the call and its session, a failure
      concerns one of its ends. */
  predicate Fits(r: Record, cause: Cause)
  {
    if cause.Reply? then cause.call == r.call && cause.session == r.session else Fails(r.call, cause)
  }

  predicate AllFit(r: Record)
  {
    && (forall i :: 0 <= i < |r.held| ==> Fits(r, r.held[i]))
    && (forall i :: 0 <= i < |r.slot| ==> Fits(r, r.slot[i]))
    && (forall i :: 0 <= i < |r.got| ==> Fits(r, r.got[i]))
  }

  predicate RecordSound(r: Record, live: bool)
  {
    && One(live) + |r.held| + r.sent <= 1
    && |r.slot| + |r.got| == r.sent
    && (!r.stage.Drawing? ==> 0 < r.session < SESSIONS)
    && (!r.stage.Registered? ==> !live && r.held == [] && r.sent == 0 && !r.gone)
    && AllFit(r)
  }

  predicate PendingSound(st: State)
  {
    forall s :: s in st.pending ==>
      st.pending[s] < |st.records| && st.records[st.pending[s]].stage.Registered?
        && st.records[st.pending[s]].session == s
  }

  predicate RecordsSound(st: State) { forall c :: 0 <= c < |st.records| ==> RecordSound(st.records[c], Live(st, c)) }

  predicate Inv(st: State) { PendingSound(st) && RecordsSound(st) }

  /** Changing one record, without moving its session, leaves the others as they are. */
  lemma SetInv(st: State, c: nat, r: Record, pending: map<nat, nat>, draws: nat)
    requires Inv(st) && c < |st.records|
    requires var st1 := State(st.records[c := r], pending, draws);
             && PendingSound(st1) && RecordSound(r, Live(st1, c))
             && forall x :: 0 <= x < |st.records| && x != c && Live(st1, x) ==> Live(st, x)
    ensures Inv(State(st.records[c := r], pending, draws))
  {
    var st1 := State(st.records[c := r], pending, draws);
    forall x | 0 <= x < |st1.records| ensures RecordSound(st1.records[x], Live(st1, x)) {
      if x != c { assert RecordSound(st.records[x], Live(st, x)); }
    }
  }

  lemma SimpleInv(st: State, step: Step)
    requires Inv(st) && Can(st, step) && (step.Begin? || step.Draw? || step.Abandon? || step.Remove?)
    ensures Inv(Next(st, step))
  {
    var r := Next(st, step);
    match step
    case Begin(call) =>
      forall x | 0 <= x < |r.records| ensures RecordSound(r.records[x], Live(r, x)) {
        if x < |st.records| { assert RecordSound(st.records[x], Live(st, x)); }
      }
    case Draw(c) =>
      assert RecordSound(st.records[c], Live(st, c));
      SetInv(st, c, r.records[c], r.pending, r.draws);
    case Abandon(c) =>
      assert RecordSound(st.records[c], Live(st, c));
      SetInv(st, c, r.records[c], r.pending, r.draws);
    case Remove(c) =>
      assert RecordSound(st.records[c], Live(st, c));
      assert r == State(st.records[c := st.records[c]], r.pending, r.draws);
      SetInv(st, c, r.records[c], r.pending, r.draws);
  }

  lemma RegisterInv(st: State, c: nat)
    requires Inv(st) && Can(st, Register(c))
    ensures Inv(Next(st, Register(c)))
  {
    var r := Next(st, Register(c));
    assert RecordSound(st.records[c], Live(st, c));
    SetInv(st, c, r.records[c], r.pending, r.draws);
  }

  lemma ReplyInv(st: State, call: Call, session: nat)
    requires Inv(st)
    ensures Inv(Next(st, TakeReply(call, session)))
  {
    if Matches(st, call, session) {
      var r := Next(st, TakeReply(call, session));
      var c := st.pending[session];
      assert Live(st, c) && RecordSound(st.records[c], true);
      SetInv(st, c, r.records[c], r.pending, r.draws);
    }
  }

  lemma FailInv(st: State, cause: Cause)
    requires Inv(st) && !cause.Reply?
    ensures Inv(Next(st, Fail(cause)))
  {
    var r := Next(st, Fail(cause));
    forall x | 0 <= x < |r.records| ensures RecordSound(r.records[x], Live(r, x)) {
      assert RecordSound(st.records[x], Live(st, x));
      assert r.records[x] == FailRecord(st, x, cause);
    }
  }

  lemma DeliverInv(st: State, step: Step)
    requires Inv(st) && Can(st, step) && (step.Deliver? || step.Receive?)
    ensures Inv(Next(st, step))
  {
    var r := Next(st, step);
    var c := step.c;
    assert RecordSound(st.records[c], Live(st, c));
    SetInv(st, c, r.records[c], r.pending, r.draws);
  }

  lemma StepInv(st: State, step: Step)
    requires Inv(st) && Can(st, step)
    ensures Inv(Next(st, step))
  {
    match step
    case Register(c) => RegisterInv(st, c);
    case TakeReply(call, session) => ReplyInv(st, call, session);
    case Fail(cause) => FailInv(st, cause);
    case Deliver(c) => DeliverInv(st, step);
    case Receive(c) => DeliverInv(st, step);
    case _ => SimpleInv(st, step);
  }

  // ---------------------------------------------------------------------------------
  // Nobody is forgotten
  // ---------------------------------------------------------------------------------

  predicate HasSession(r: Record) { !r.stage.Drawing? }

  /** Until the counter wraps around, no two calls ever have the same session. */
  predicate SessionsUnique(st: State)
  {
    && (forall c :: 0 <= c < |st.records| && HasSession(st.records[c]) ==> st.records[c].session <= st.draws)
    && (forall c, d :: 0 <= c < d < |st.records| && HasSession(st.records[c]) && HasSession(st.records[d]) ==>
          st.records[c].session != st.records[d].session)
  }

  /** A caller that waits is pending, or its answer is being delivered or was delivered. */
  predicate NoneLost(st: State)
  {
    forall c :: 0 <= c < |st.records| && st.records[c].stage.Registered? && !st.records[c].gone ==> Served(st, c)
  }

  predicate Served(st: State, c: nat)
    requires c < |st.records|
  {
    One(Live(st, c)) + |st.records[c].held| + st.records[c].sent == 1
  }

  predicate Faithful(st: State) { st.draws < SESSIONS ==> SessionsUnique(st) && NoneLost(st) }

  lemma DrawFaithful(st: State, c: nat)
    requires Inv(st) && Faithful(st) && Can(st, Draw(c))
    ensures Faithful(Next(st, Draw(c)))
  {
    var r := Next(st, Draw(c));
    if r.draws < SESSIONS {
      assert r.records[c].session == st.draws + 1;
      forall x | 0 <= x < |r.records| && r.records[x].stage.Registered? && !r.records[x].gone ensures Served(r, x) {
        assert Served(st, x);
      }
    }
  }

  lemma RegisterFaithful(st: State, c: nat)
    requires Inv(st) && Faithful(st) && Can(st, Register(c))
    ensures Faithful(Next(st, Register(c)))
  {
    var r := Next(st, Register(c));
    var s := st.records[c].session;
    if r.draws < SESSIONS {
      assert RecordSound(st.records[c], Live(st, c));
      assert s !in st.pending;
      forall x | 0 <= x < |r.records| && r.records[x].stage.Registered? && !r.records[x].gone ensures Served(r, x) {
        if x != c { assert Served(st, x); }
      }
    }
  }

  lemma FailFaithful(st: State, cause: Cause)
    requires Inv(st) && Faithful(st) && !cause.Reply?
    ensures Faithful(Next(st, Fail(cause)))
  {
    var r := Next(st, Fail(cause));
    if r.draws < SESSIONS {
      forall x | 0 <= x < |r.records| && r.records[x].stage.Registered? && !r.records[x].gone ensures Served(r, x) {
        assert r.records[x] == FailRecord(st, x, cause) && Served(st, x);
      }
    }
  }

  lemma TakeFaithful(st: State, call: Call, session: nat)
    requires Inv(st) && Faithful(st)
    ensures Faithful(Next(st, TakeReply(call, session)))
  {
    var r := Next(st, TakeReply(call, session));
    if r.draws < SESSIONS {
      forall x | 0 <= x < |r.records| && r.records[x].stage.Registered? && !r.records[x].gone ensures Served(r, x) {
        assert Served(st, x);
      }
    }
  }

  /** A caller that gives up removes its own session and nobody else's. */
  lemma RemoveFaithful(st: State, c: nat)
    requires Inv(st) && Faithful(st) && Can(st, Remove(c))
    ensures Faithful(Next(st, Remove(c)))
  {
    var r := Next(st, Remove(c));
    if r.draws < SESSIONS {
      assert RecordSound(st.records[c], Live(st, c));
      forall x | 0 <= x < |r.records| && r.records[x].stage.Registered? && !r.records[x].gone ensures Served(r, x) {
        assert Served(st, x);
      }
    }
  }

  lemma OtherFaithful(st: State, step: Step)
    requires Inv(st) && Faithful(st) && Can(st, step)
    requires step.Begin? || step.Deliver? || step.Receive? || step.Abandon?
    ensures Faithful(Next(st, step))
  {
    var r := Next(st, step);
    if r.draws < SESSIONS {
      forall x | 0 <= x < |r.records| && r.records[x].stage.Registered? && !r.records[x].gone ensures Served(r, x) {
        assert Served(st, x);
      }
    }
  }

  lemma StepFaithful(st: State, step: Step)
    requires Inv(st) && Faithful(st) && Can(st, step)
    ensures Faithful(Next(st, step))
  {
    match step
    case Draw(c) => DrawFaithful(st, c);
    case Register(c) => RegisterFaithful(st, c);
    case Fail(cause) => FailFaithful(st, cause);
    case TakeReply(call, session) => TakeFaithful(st, call, session);
    case Remove(c) => RemoveFaithful(st, c);
    case _ => OtherFaithful(st, step);
  }

  // ---------------------------------------------------------------------------------
  // Whole runs
  // ---------------------------------------------------------------------------------

  predicate Joined(states: seq<State>, steps: seq<Step>, k: nat)
    requires k < |steps| < |states|
  {
    Can(states[k], steps[k]) && states[k + 1] == Next(states[k], steps[k])
  }

  predicate IsRun(states: seq<State>, steps: seq<Step>)
  {
    && |states| == |steps| + 1 && states[0] == State([], map[], 0)
    && forall k :: 0 <= k < |steps| ==> Joined(states, steps, k)
  }

  lemma {:induction false} RunInv(states: seq<State>, steps: seq<Step>, k: nat)
    requires IsRun(states, steps) && k <= |steps|
    ensures Inv(states[k]) && Faithful(states[k])
  {
    if k > 0 {
      RunInv(states, steps, k - 1);
      assert Joined(states, steps, k - 1);
      StepInv(states[k - 1], steps[k - 1]);
      StepFaithful(states[k - 1], steps[k - 1]);
    }
  }

  /** Over every run a call is answered at most once, only by an answer that fits it, and
      whoever delivers the answer finds the slot empty. */
  lemma AnsweredOnce(states: seq<State>, steps: seq<Step>, k: nat, c: nat)
    requires IsRun(states, steps) && k <= |steps| && c < |states[k].records|
    ensures var r := states[k].records[c];
            && r.sent <= 1 && |r.got| <= 1 && (r.held != [] ==> Can(states[k], Deliver(c)))
            && (forall i :: 0 <= i < |r.got| ==> Fits(r, r.got[i]))
  {
    RunInv(states, steps, k);
    assert RecordSound(states[k].records[c], Live(states[k], c));
  }

  /** Sessions of pending calls are nonzero and distinct, even after the counter wraps. */
  lemma LiveSessionsDistinct(states: seq<State>, steps: seq<Step>, k: nat, c: nat, d: nat)
    requires IsRun(states, steps) && k <= |steps| && c < d < |states[k].records|
    requires Live(states[k], c) && Live(states[k], d)
    ensures 0 < states[k].records[c].session != states[k].records[d].session
  {
    RunInv(states, steps, k);
    assert RecordSound(states[k].records[c], true);
  }

  /** Until the counter wraps around, no waiting caller is forgotten. */
  lemma WaitersServed(states: seq<State>, steps: seq<Step>, k: nat, c: nat)
    requires IsRun(states, steps) && k <= |steps| && c < |states[k].records| && states[k].draws < SESSIONS
    requires states[k].records[c].stage.Registered? && !states[k].records[c].gone
    ensures Served(states[k], c)
  {
    RunInv(states, steps, k);
  }
}
