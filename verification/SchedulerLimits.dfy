/** Two runs that show where the guarantees end: one loses a permit for good, so that fewer
    handlers can run than there are workers, and one loses a wakeup during shutdown. */
module SchedulerLimits {
  import opened SchedulerModel
  import opened Scheduler
  import opened SchedulerRuns

  /** There is a run of a scheduler with two workers, from its beginning to `st`. */
  ghost predicate Reached(st: State)
  {
    exists states, steps :: IsRunFrom(2, 1, states, steps) && states[|steps|] == st
  }

  lemma Onward(st: State, step: Step)
    requires Reached(st) && Can(st, step)
    ensures Reached(Next(st, step))
  {
    var states, steps :| IsRunFrom(2, 1, states, steps) && states[|steps|] == st;
    var more, further := states + [Next(st, step)], steps + [step];
    forall k | 0 <= k < |further| ensures Joined(more, further, k) {
      if k < |steps| { assert Joined(states, steps, k); }
    }
    assert IsRunFrom(2, 1, more, further) && more[|further|] == Next(st, step);
  }

  /** The one service of the run. */
  function Only(waiting: seq<Item>, log: Log, ready: bool, permit: bool): Service
  {
    Service(Mail(waiting, false, 1, Admitting), log, ready, permit, false, true)
  }

  function Dispatcher(pc: Pc): Thread { Thread(0, pc, Running, 0, 0, false) }

  function Sent(pc: Pc): Thread { Thread(0, pc, Running, 0, 0, false) }

  function Runs(pc: Pc, n: nat, item: nat): Thread { Thread(0, pc, Running, n, item, false) }

  function Snap(sv: Service, threads: seq<Thread>, queue: seq<nat>, tokens: nat): State
  {
    State([sv], threads, queue, false, false, tokens, 2, 1)
  }

  lemma FirstSend()
    ensures Reached(Snap(Only([Envelope(0)], Log(1, [], [], false), true, false),
                         [Dispatcher(DWaiting), Sent(Ended)], [0], 0))
  {
    var st := Init(2, 1);
    var none: seq<Step> := [];
    assert IsRunFrom(2, 1, [st], none) && [st][|none|] == st;
    assert Reached(st);
    Onward(st, Create(1));
    st := Next(st, Create(1));
    assert st == Snap(Only([], Log(0, [], [], false), false, false), [Dispatcher(DWaiting)], [], 0);
    SendAndSchedule(Log(0, [], [], false), false, [Dispatcher(DWaiting)], 0);
  }

  /** A send to the idle service, up to its place in the ready queue. */
  lemma SendAndSchedule(log: Log, permit: bool, threads: seq<Thread>, tokens: nat)
    requires Reached(Snap(Only([], log, false, permit), threads, [], tokens))
    ensures Reached(Snap(Only([Envelope(log.accepted)], log.(accepted := log.accepted + 1), true, permit),
                         threads + [Sent(Ended)], [0], tokens))
  {
    var st := Snap(Only([], log, false, permit), threads, [], tokens);
    var now := log.(accepted := log.accepted + 1);
    var n := |threads|;
    Onward(st, Send(0));
    st := Next(st, Send(0));
    assert [] + [Envelope(log.accepted)] == [Envelope(log.accepted)];
    assert st == Snap(Only([Envelope(log.accepted)], now, false, permit), threads + [Sent(Waking)], [], tokens);
    Onward(st, Move(n, true));
    st := Next(st, Move(n, true));
    assert st == Snap(Only([Envelope(log.accepted)], now, true, permit), threads + [Sent(Queueing)], [], tokens);
    Onward(st, Move(n, true));
    st := Next(st, Move(n, true));
    assert st == Snap(Only([Envelope(log.accepted)], now, true, permit), threads + [Sent(Ended)], [0], tokens);
  }

  /** Thread i moves and nothing but itself and the service changes. */
  lemma Single(sv: Service, threads: seq<Thread>, tokens: nat, i: nat, sv1: Service, t: Thread, tokens1: nat)
    requires Reached(Snap(sv, threads, [], tokens)) && i < |threads| && threads[i].svc == 0
    requires Enabled(threads[i], sv, Snap(sv, threads, [], tokens), true)
    requires Do(threads[i], sv, Snap(sv, threads, [], tokens), true) == Local(t, sv1, tokens1)
    ensures Reached(Snap(sv1, threads[i := t], [], tokens1))
  {
    var st := Snap(sv, threads, [], tokens);
    Onward(st, Move(i, true));
    assert Next(st, Move(i, true)) == Snap(sv1, threads[i := t], [], tokens1);
  }

  /** The dispatcher takes the service from the queue ... */
  lemma TakeOne(sv: Service, threads: seq<Thread>, tokens: nat)
    requires threads != [] && threads[0] == Dispatcher(DWaiting)
    requires Reached(Snap(sv, threads, [0], tokens))
    ensures Reached(Snap(sv, threads[0 := Dispatcher(DPopped)], [], tokens))
  {
    var st := Snap(sv, threads, [0], tokens);
    Onward(st, Take(0));
    assert Next(st, Take(0)) == Snap(sv, threads[0 := Dispatcher(DPopped)], [], tokens);
  }

  /** ... and starts a batch for it. */
  lemma Start(sv: Service, threads: seq<Thread>, tokens: nat)
    requires threads != [] && threads[0] == Dispatcher(DStarting)
    requires Reached(Snap(sv, threads, [], tokens))
    ensures Reached(Snap(sv, threads[0 := Dispatcher(DWaiting)] + [Runs(Popping, 0, 0)], [], tokens))
  {
    var st := Snap(sv, threads, [], tokens);
    Onward(st, Move(0, true));
    assert Next(st, Move(0, true)) == Snap(sv, threads[0 := Dispatcher(DWaiting)] + [Runs(Popping, 0, 0)], [], tokens);
  }

  lemma Dispatch(sv: Service, threads: seq<Thread>, tokens: nat)
    requires sv.registered && tokens < 2 && threads != [] && threads[0] == Dispatcher(DWaiting)
    requires Reached(Snap(sv, threads, [0], tokens))
    ensures Reached(Snap(sv.(permit := true), threads + [Runs(Popping, 0, 0)], [], tokens + 1))
  {
    TakeOne(sv, threads, tokens);
    var a := threads[0 := Dispatcher(DPopped)];
    Single(sv, a, tokens, 0, sv, Dispatcher(DAcquired), tokens + 1);
    var b := a[0 := Dispatcher(DAcquired)];
    Single(sv, b, tokens + 1, 0, sv, Dispatcher(DGranted), tokens + 1);
    var c := b[0 := Dispatcher(DGranted)];
    Single(sv, c, tokens + 1, 0, sv.(permit := true), Dispatcher(DStarting), tokens + 1);
    var d := c[0 := Dispatcher(DStarting)];
    Start(sv.(permit := true), d, tokens + 1);
    assert d[0 := Dispatcher(DWaiting)] == threads;
  }

  /** Batch i takes and finishes the one waiting envelope ... */
  lemma HandleOne(log: Log, permit: bool, threads: seq<Thread>, tokens: nat, i: nat, k: nat)
    requires i < |threads| && threads[i] == Runs(Popping, 0, 0)
    requires Reached(Snap(Only([Envelope(k)], log, true, permit), threads, [], tokens))
    ensures Reached(Snap(Only([], log.(begun := log.begun + [k], ended := log.ended + [k]), false, permit),
                         threads[i := Runs(Recheck, 1, k)], [], tokens))
  {
    var taken := log.(begun := log.begun + [k]);
    var ended := taken.(ended := taken.ended + [k]);
    var sv := Only([], taken, true, permit);
    assert [Envelope(k)][1..] == [];
    Single(Only([Envelope(k)], log, true, permit), threads, tokens, i, sv, Runs(Handling, 0, k), tokens);
    var a := threads[i := Runs(Handling, 0, k)];
    Single(sv, a, tokens, i, Only([], ended, true, permit), Runs(Checking, 0, k), tokens);
    var b := a[i := Runs(Checking, 0, k)];
    LeaveLoop(Only([], ended, true, permit), b, tokens, i, k);
    assert b[i := Runs(Recheck, 1, k)] == threads[i := Runs(Recheck, 1, k)];
  }

  /** ... and clears `ready`, having done as much as a batch may. */
  lemma LeaveLoop(sv: Service, threads: seq<Thread>, tokens: nat, i: nat, k: nat)
    requires i < |threads| && threads[i] == Runs(Checking, 0, k) && !sv.finalized
    requires Reached(Snap(sv, threads, [], tokens))
    ensures Reached(Snap(sv.(ready := false), threads[i := Runs(Recheck, 1, k)], [], tokens))
  {
    Single(sv, threads, tokens, i, sv, Runs(Popping, 1, k), tokens);
    var a := threads[i := Runs(Popping, 1, k)];
    Single(sv, a, tokens, i, sv, Runs(ClearTail, 1, k), tokens);
    var b := a[i := Runs(ClearTail, 1, k)];
    Single(sv, b, tokens, i, sv.(ready := false), Runs(Recheck, 1, k), tokens);
    assert b[i := Runs(Recheck, 1, k)] == threads[i := Runs(Recheck, 1, k)];
  }

  predicate Idle(st: State)
  {
    st.queue == [] && forall i :: 0 <= i < |st.threads| ==> st.threads[i].pc.DWaiting? || st.threads[i].pc.Ended?
  }

  const LOG_ONE := Log(1, [0], [0], false)
  const LOG_TWO := Log(2, [0, 1], [0, 1], false)

  /** The first batch has cleared `ready` and has yet to give its permit back. */
  lemma FirstBatch()
    ensures Reached(Snap(Only([], LOG_ONE, false, true),
                         [Dispatcher(DWaiting), Sent(Ended), Runs(Recheck, 1, 0)], [], 1))
  {
    var log := Log(1, [], [], false);
    var threads := [Dispatcher(DWaiting), Sent(Ended)];
    FirstSend();
    Dispatch(Only([Envelope(0)], log, true, false), threads, 0);
    HandleOne(log, true, threads + [Runs(Popping, 0, 0)], 1, 2, 0);
    assert log.(begun := log.begun + [0], ended := log.ended + [0]) == LOG_ONE;
    assert (threads + [Runs(Popping, 0, 0)])[2 := Runs(Recheck, 1, 0)] ==
           [Dispatcher(DWaiting), Sent(Ended), Runs(Recheck, 1, 0)];
  }

  /** A second batch starts, and ends its work, meanwhile. */
  lemma Overlap()
    ensures Reached(Snap(Only([], LOG_TWO, false, true),
                         [Dispatcher(DWaiting), Sent(Ended), Runs(Recheck, 1, 0), Sent(Ended), Runs(Recheck, 1, 1)],
                         [], 2))
  {
    var log := Log(2, [0], [0], false);
    var threads := [Dispatcher(DWaiting), Sent(Ended), Runs(Recheck, 1, 0)];
    FirstBatch();
    SendAndSchedule(LOG_ONE, true, threads, 1);
    var more := threads + [Sent(Ended)];
    Dispatch(Only([Envelope(1)], log, true, true), more, 1);
    HandleOne(log, true, more + [Runs(Popping, 0, 0)], 2, 4, 1);
    assert log.(begun := log.begun + [1], ended := log.ended + [1]) == LOG_TWO;
    assert (more + [Runs(Popping, 0, 0)])[4 := Runs(Recheck, 1, 1)] ==
           [Dispatcher(DWaiting), Sent(Ended), Runs(Recheck, 1, 0), Sent(Ended), Runs(Recheck, 1, 1)];
  }

  /** With two workers and one service, a run ends with nothing left to do and one permit
      still taken: from then on one handler at a time can run. */
  lemma PermitLost()
    ensures exists st :: Reached(st) && Idle(st) && !st.done && st.tokens == 1 && Leak(st) == 1
  {
    Overlap();
    var sv := Only([], LOG_TWO, false, true);
    var free := sv.(permit := false);
    var a := [Dispatcher(DWaiting), Sent(Ended), Runs(Recheck, 1, 0), Sent(Ended), Runs(Recheck, 1, 1)];
    Single(sv, a, 2, 2, sv, Runs(Releasing, 1, 0), 2);
    var b := a[2 := Runs(Releasing, 1, 0)];
    Single(sv, b, 2, 2, free, Runs(Freeing, 1, 0), 2);
    var c := b[2 := Runs(Freeing, 1, 0)];
    Single(free, c, 2, 2, free, Runs(Ended, 1, 0), 1);
    var d := c[2 := Runs(Ended, 1, 0)];
    Single(free, d, 1, 4, free, Runs(Releasing, 1, 1), 1);
    var e := d[4 := Runs(Releasing, 1, 1)];
    Single(free, e, 1, 4, free, Runs(Ended, 1, 1), 1);
    var f := e[4 := Runs(Ended, 1, 1)];
    var st := Snap(free, f, [], 1);
    assert Idle(st);
    IdleLeak(st);
    assert Flags(st.services) == 0;
  }

  /** At rest the leak is what is missing from the permits. */
  lemma IdleLeak(st: State)
    requires Idle(st)
    ensures Leak(st) == st.tokens - Flags(st.services)
  {
    CountNone(st.threads, Pending);
    CountNone(st.threads, Returning);
  }

  /** Service 0 has mail and is not finalized, the ready queue is open, and nothing will run it. */
  predicate Forgotten(st: State)
  {
    && !st.queueClosed && |st.services| == 1 && !st.services[0].finalized && st.services[0].mail.items != []
    && !Driven(st, 0) && !Asked(st, 0)
  }

  function Dropped(sv: Service): State
  {
    State([sv], [Dispatcher(DLost), Sent(Ended)], [], false, true, 0, 2, 1)
  }

  lemma DropInHand(sv: Service)
    requires Reached(Snap(sv, [Dispatcher(DPopped), Sent(Ended)], [], 0))
    ensures Reached(Dropped(sv))
  {
    var st := Snap(sv, [Dispatcher(DPopped), Sent(Ended)], [], 0);
    Onward(st, CloseDone);
    st := Next(st, CloseDone);
    Onward(st, Move(0, false));
    assert Next(st, Move(0, false)) == Dropped(sv);
  }

  /** While the scheduler is closing and its queue is still open, the dispatcher may drop the
      service it has in hand. */
  lemma WakeupLostInShutdown()
    ensures exists st :: Reached(st) && st.done && Forgotten(st)
  {
    var sv := Only([Envelope(0)], Log(1, [], [], false), true, false);
    var threads := [Dispatcher(DWaiting), Sent(Ended)];
    FirstSend();
    TakeOne(sv, threads, 0);
    assert threads[0 := Dispatcher(DPopped)] == [Dispatcher(DPopped), Sent(Ended)];
    DropInHand(sv);
    assert Forgotten(Dropped(sv));
  }
}
