/** What every interleaving of the scheduler keeps: one batch per service, envelopes in
    acceptance order, no lost wakeup, and never more running handlers than workers. */
module Scheduler {
  import opened SchedulerModel

  // ---------------------------------------------------------------------------------
  // Counting threads
  // ---------------------------------------------------------------------------------

  /** Owns(s) is the right that setting the `ready` flag of s hands over.  Live threads stand
      for a permit of their own; Pending ones have taken a permit and not yet set the flag;
      Returning ones have cleared the flag and not yet given the permit back. */
  datatype Class =
    Owns(s: nat) | Wakes(s: nat) | Lives(s: nat) | Handles(s: nat) | Live | Pending | Returning | Executing

  predicate OwnerPc(pc: Pc)
  {
    pc.Queueing? || pc.Undoing? || pc.DPopped? || pc.DAcquired? || pc.DGranted? || pc.DStarting?
    || pc.DLost? || pc.Popping? || pc.Handling? || pc.Checking? || pc.Stopping? || pc.ClearStop? || pc.ClearTail?
  }

  predicate WakerPc(pc: Pc) { pc.Waking? || pc.Recheck? || pc.RecheckFinal? }

  predicate InHandler(t: Thread) { HandlerPc(t.pc) }

  predicate IsLive(t: Thread)
  {
    || t.pc.DStarting? || t.pc.Popping? || t.pc.Checking? || t.pc.ClearStop? || t.pc.ClearTail?
    || t.pc.Recheck? || t.pc.RecheckFinal? || t.pc.Releasing?
    || (t.tail && (t.pc.Waking? || t.pc.Queueing? || t.pc.Undoing?))
    || (InHandler(t) && t.hold.Running?)
  }

  predicate IsPending(t: Thread)
  {
    t.pc.DAcquired? || t.pc.DGranted? || t.pc.DDropping? || (InHandler(t) && t.hold.Regaining?)
  }

  predicate IsReturning(t: Thread) { t.pc.Freeing? || (InHandler(t) && t.hold.Yielding?) }

  predicate Is(t: Thread, c: Class)
  {
    match c
    case Owns(s) => t.svc == s && OwnerPc(t.pc)
    case Wakes(s) => t.svc == s && WakerPc(t.pc)
    case Lives(s) => t.svc == s && IsLive(t)
    case Handles(s) => t.svc == s && t.pc.Handling?
    case Live => IsLive(t)
    case Pending => IsPending(t)
    case Returning => IsReturning(t)
    case Executing => InHandler(t) && t.hold.Running?
  }

  function One(b: bool): nat { if b then 1 else 0 }

  function Count(ts: seq<Thread>, c: Class): nat
  {
    if ts == [] then 0 else Count(ts[..|ts| - 1], c) + One(Is(ts[|ts| - 1], c))
  }

  lemma CountAppend(ts: seq<Thread>, t: Thread, c: Class)
    ensures Count(ts + [t], c) == Count(ts, c) + One(Is(t, c))
  {
    assert (ts + [t])[..|ts|] == ts;
  }

  lemma {:induction false} CountUpdate(ts: seq<Thread>, i: nat, t: Thread, c: Class)
    requires i < |ts|
    ensures Count(ts[i := t], c) + One(Is(ts[i], c)) == Count(ts, c) + One(Is(t, c))
  {
    var n := |ts| - 1;
    if i < n {
      CountUpdate(ts[..n], i, t, c);
      assert ts[i := t][..n] == ts[..n][i := t];
    } else {
      assert ts[i := t][..n] == ts[..n];
    }
  }

  lemma {:induction false} CountOne(ts: seq<Thread>, i: nat, c: Class)
    requires i < |ts| && Is(ts[i], c)
    ensures Count(ts, c) >= 1
  {
    if i < |ts| - 1 { CountOne(ts[..|ts| - 1], i, c); }
  }

  lemma {:induction false} CountTwo(ts: seq<Thread>, i: nat, j: nat, c: Class)
    requires i < j < |ts| && Is(ts[i], c) && Is(ts[j], c)
    ensures Count(ts, c) >= 2
  {
    var n := |ts| - 1;
    if j < n { CountTwo(ts[..n], i, j, c); } else { CountOne(ts[..n], i, c); }
  }

  lemma {:induction false} CountFind(ts: seq<Thread>, c: Class) returns (i: nat)
    requires Count(ts, c) >= 1
    ensures i < |ts| && Is(ts[i], c)
  {
    var n := |ts| - 1;
    if Is(ts[n], c) { i := n; } else { i := CountFind(ts[..n], c); }
  }

  lemma {:induction false} CountBelow(ts: seq<Thread>, c: Class, d: Class)
    requires forall i :: 0 <= i < |ts| && Is(ts[i], c) ==> Is(ts[i], d)
    ensures Count(ts, c) <= Count(ts, d)
  {
    if ts != [] { CountBelow(ts[..|ts| - 1], c, d); }
  }

  function InQueue(queue: seq<nat>, s: nat): nat
  {
    if queue == [] then 0 else InQueue(queue[1..], s) + One(queue[0] == s)
  }

  lemma {:induction false} InQueueAppend(queue: seq<nat>, x: nat, s: nat)
    ensures InQueue(queue + [x], s) == InQueue(queue, s) + One(x == s)
  {
    if queue == [] {
      assert queue + [x] == [x];
    } else {
      assert (queue + [x])[1..] == queue[1..] + [x];
      InQueueAppend(queue[1..], x, s);
    }
  }

  function Flags(services: seq<Service>): nat
  {
    if services == [] then 0 else Flags(services[..|services| - 1]) + One(services[|services| - 1].permit)
  }

  lemma {:induction false} FlagsUpdate(services: seq<Service>, s: nat, sv: Service)
    requires s < |services|
    ensures Flags(services[s := sv]) + One(services[s].permit) == Flags(services) + One(sv.permit)
  {
    var n := |services| - 1;
    if s < n {
      FlagsUpdate(services[..n], s, sv);
      assert services[s := sv][..n] == services[..n][s := sv];
    } else {
      assert services[s := sv][..n] == services[..n];
    }
  }

  lemma {:induction false} FlagsFind(services: seq<Service>) returns (s: nat)
    requires Flags(services) >= 1
    ensures s < |services| && services[s].permit
  {
    var n := |services| - 1;
    if services[n].permit { s := n; } else { s := FlagsFind(services[..n]); }
  }

  // ---------------------------------------------------------------------------------
  // The invariant
  // ---------------------------------------------------------------------------------

  /** The rights to run service s: its place in the ready queue and the threads that own it. */
  function Owners(st: State, s: nat): nat { InQueue(st.queue, s) + Count(st.threads, Owns(s)) }

  /** About one service: at most one right to run it exists, and only while `ready` is set;
      while the ready queue is open `ready` is never set without it, and a nonempty mailbox
      has the right to run or a thread that will ask for it; and a set permit flag has a batch
      that will clear it. */
  predicate Sound(sv: Service, owners: nat, wakers: nat, live: nat, closed: bool)
  {
    && owners <= One(sv.ready)
    && (!closed && !sv.finalized && sv.ready ==> owners == 1)
    && (!closed && !sv.finalized && sv.mail.items != [] ==> owners + wakers >= 1)
    && (sv.permit ==> live >= 1)
    && (!sv.registered || sv.mail.closed ==> sv.finalized)
    && (sv.mail.closed ==> sv.mail.items == [])
  }

  predicate ServiceSound(st: State, s: nat)
    requires s < |st.services|
  {
    Sound(st.services[s], Owners(st, s), Count(st.threads, Wakes(s)), Count(st.threads, Lives(s)),
          st.queueClosed)
  }

  predicate AllSound(st: State) { forall s :: 0 <= s < |st.services| ==> ServiceSound(st, s) }

  predicate ThreadSound(t: Thread, services: seq<Service>, closed: bool, done: bool)
  {
    && (t.pc.Undoing? ==> closed) && (t.pc.DLost? ==> done)
    && (!t.pc.DWaiting? && !t.pc.Ended? ==> t.svc < |services|)
    && (t.pc.ClearStop? ==> t.svc < |services| && services[t.svc].finalized)
    && (!InHandler(t) ==> t.hold.Running?)
  }

  /** Where only the dispatcher, the first thread, can be. */
  predicate Dispatches(pc: Pc) { DispatcherPc(pc) || pc.DLost? }

  predicate ThreadsSound(st: State)
  {
    && (forall i :: 0 <= i < |st.threads| ==> ThreadSound(st.threads[i], st.services, st.queueClosed, st.done))
    && |st.threads| >= 1 && (forall i :: 1 <= i < |st.threads| ==> !Dispatches(st.threads[i].pc))
    && (forall k :: 0 <= k < |st.queue| ==> st.queue[k] < |st.services|)
    && (st.queueClosed ==> st.done)
  }

  /** Permits that nothing will ever give back, or that only threads whose flag another
      thread cleared still stand for. */
  function Leak(st: State): int
  {
    st.tokens - Count(st.threads, Pending) - Count(st.threads, Returning) - Flags(st.services)
  }

  predicate PermitsSound(st: State)
  {
    && 1 <= st.workers && st.tokens <= st.workers
    && (!st.done ==> Standing(st) <= st.tokens)
    && (!st.done ==> 0 <= Leak(st) <= st.workers - 1)
  }

  predicate Inv(st: State) { AllSound(st) && ThreadsSound(st) && PermitsSound(st) }

  // ---------------------------------------------------------------------------------
  // One operation, seen from its own thread and service
  // ---------------------------------------------------------------------------------

  /** What one operation of a thread does to the numbers about its service. */
  predicate KeepsSound(t: Thread, sv: Service, e: Effect, owners: nat, wakers: nat, live: nat, closed: bool)
    requires owners >= One(OwnerPc(t.pc)) && wakers >= One(WakerPc(t.pc)) && live >= One(IsLive(t))
  {
    Sound(e.service,
          owners - One(OwnerPc(t.pc)) + One(OwnerPc(e.thread.pc)) + One(e.enqueue) + One(e.spawn),
          wakers - One(WakerPc(t.pc)) + One(WakerPc(e.thread.pc)),
          live - One(IsLive(t)) + One(IsLive(e.thread)) + One(e.spawn), closed)
  }

  /** A flag is about to be set that is set already. */
  predicate Overwrites(t: Thread, sv: Service)
  {
    sv.permit && (t.pc.DGranted? || (InHandler(t) && t.hold.Regaining?))
  }

  /** A thread never stands for more permits than it took, and the leak grows exactly when a
      flag is set that was set already. */
  predicate KeepsPermits(t: Thread, sv: Service, e: Effect, tokens: nat)
  {
    && One(IsPending(e.thread)) + One(IsLive(e.thread)) + One(IsReturning(e.thread)) + One(e.spawn) + tokens
       <= One(IsPending(t)) + One(IsLive(t)) + One(IsReturning(t)) + e.tokens
    && e.tokens - One(IsPending(e.thread)) - One(IsReturning(e.thread)) - One(e.service.permit)
       == tokens - One(IsPending(t)) - One(IsReturning(t)) - One(sv.permit) + One(Overwrites(t, sv))
  }

  predicate KeepsThread(t: Thread, sv: Service, e: Effect, st: State)
  {
    && e.thread.svc == t.svc && (!InHandler(e.thread) ==> e.thread.hold.Running?)
    && (e.thread.pc.ClearStop? ==> e.service.finalized) && (e.thread.pc.Undoing? ==> st.queueClosed)
    && (e.thread.pc.DLost? ==> st.done) && (Dispatches(e.thread.pc) ==> Dispatches(t.pc))
    && e.service.finalized == sv.finalized
    && (st.tokens <= st.workers ==> e.tokens <= st.workers)
  }

  /** The numbers about the service of a thread, all of which count the thread itself. */
  datatype Tally = Tally(owners: nat, wakers: nat, live: nat)

  predicate Counts(n: Tally, t: Thread)
  {
    n.owners >= One(OwnerPc(t.pc)) && n.wakers >= One(WakerPc(t.pc)) && n.live >= One(IsLive(t))
  }

  predicate Keeps(t: Thread, sv: Service, e: Effect, st: State, n: Tally)
    requires Counts(n, t)
  {
    && KeepsSound(t, sv, e, n.owners, n.wakers, n.live, st.queueClosed)
    && KeepsThread(t, sv, e, st)
    && (!st.done ==> KeepsPermits(t, sv, e, st.tokens))
  }

  /** What a thread may rely on when it moves. */
  predicate Before(t: Thread, sv: Service, st: State, n: Tally)
  {
    && Counts(n, t) && Sound(sv, n.owners, n.wakers, n.live, st.queueClosed) && (st.queueClosed ==> st.done)
    && (t.pc.ClearStop? ==> sv.finalized) && (t.pc.Undoing? ==> st.queueClosed) && (!InHandler(t) ==> t.hold.Running?)
    && (t.pc.DLost? ==> st.done)
    && (!st.done && (IsPending(t) || IsReturning(t)) ==> st.tokens >= 1)
  }

  lemma WakeKeeps(t: Thread, sv: Service, st: State, n: Tally)
    requires t.pc.Waking? && Before(t, sv, st, n)
    ensures Keeps(t, sv, ScheduleDo(t, sv, st), st, n)
  {
  }

  lemma ScheduleKeeps(t: Thread, sv: Service, st: State, n: Tally)
    requires SchedulePc(t.pc) && Before(t, sv, st, n)
    ensures Keeps(t, sv, ScheduleDo(t, sv, st), st, n)
  {
    if t.pc.Waking? { WakeKeeps(t, sv, st, n); }
  }

  lemma DispatcherKeeps(t: Thread, sv: Service, st: State, choice: bool, n: Tally)
    requires DispatcherPc(t.pc) && Before(t, sv, st, n)
    requires t.pc.DPopped? ==> if choice then st.tokens < st.workers else st.done
    ensures Keeps(t, sv, DispatcherDo(t, sv, st, choice), st, n)
  {
  }

  lemma HandlerKeeps(t: Thread, sv: Service, st: State, choice: bool, n: Tally)
    requires HandlerPc(t.pc) && Before(t, sv, st, n)
    requires if choice && t.hold.Running? then t.pc.Stopping? ==> sv.finalized else HoldEnabled(t, st, choice)
    ensures Keeps(t, sv, HandlerDo(t, sv, st, choice), st, n)
  {
    if choice && t.hold.Running? {
    } else {
      HoldKeeps(t, sv, st, choice, n);
    }
  }

  /** Giving a permit back and taking another inside a handler. */
  lemma HoldKeeps(t: Thread, sv: Service, st: State, choice: bool, n: Tally)
    requires HandlerPc(t.pc) && Before(t, sv, st, n) && HoldEnabled(t, st, choice)
    ensures Keeps(t, sv, HoldStep(t, sv, st, choice), st, n)
  {
  }

  lemma LoopKeeps(t: Thread, sv: Service, st: State, n: Tally)
    requires LoopPc(t.pc) && Before(t, sv, st, n)
    ensures Keeps(t, sv, LoopDo(t, sv, st), st, n)
  {
  }

  lemma RecheckKeeps(t: Thread, sv: Service, st: State, n: Tally)
    requires (t.pc.Recheck? || t.pc.RecheckFinal?) && Before(t, sv, st, n)
    ensures Keeps(t, sv, TailDo(t, sv, st), st, n)
  {
  }

  lemma TailKeeps(t: Thread, sv: Service, st: State, n: Tally)
    requires !SchedulePc(t.pc) && !DispatcherPc(t.pc) && !HandlerPc(t.pc) && !LoopPc(t.pc) && Before(t, sv, st, n)
    ensures Keeps(t, sv, TailDo(t, sv, st), st, n)
  {
    if t.pc.Recheck? || t.pc.RecheckFinal? { RecheckKeeps(t, sv, st, n); }
  }

  lemma DoKeeps(t: Thread, sv: Service, st: State, choice: bool, n: Tally)
    requires Enabled(t, sv, st, choice) && Before(t, sv, st, n)
    ensures Keeps(t, sv, Do(t, sv, st, choice), st, n)
  {
    if SchedulePc(t.pc) {
      ScheduleKeeps(t, sv, st, n);
    } else if DispatcherPc(t.pc) {
      DispatcherKeeps(t, sv, st, choice, n);
    } else if HandlerPc(t.pc) {
      HandlerKeeps(t, sv, st, choice, n);
    } else if LoopPc(t.pc) {
      LoopKeeps(t, sv, st, n);
    } else {
      TailKeeps(t, sv, st, n);
    }
  }

  // ---------------------------------------------------------------------------------
  // Every step keeps the invariant
  // ---------------------------------------------------------------------------------

  /** The counts after thread i has become `t`, with `spawn` new batches of service s. */
  lemma CountApply(ts: seq<Thread>, i: nat, t: Thread, spawn: bool, s: nat, c: Class)
    requires i < |ts|
    ensures Count(ts[i := t] + (if spawn then [Batch(s)] else []), c)
         == Count(ts, c) - One(Is(ts[i], c)) + One(Is(t, c)) + One(spawn && Is(Batch(s), c))
  {
    CountUpdate(ts, i, t, c);
    if spawn {
      CountAppend(ts[i := t], Batch(s), c);
    } else {
      assert ts[i := t] + [] == ts[i := t];
    }
  }

  lemma InQueueApply(queue: seq<nat>, enqueue: bool, x: nat, s: nat)
    ensures InQueue(queue + (if enqueue then [x] else []), s) == InQueue(queue, s) + One(enqueue && x == s)
  {
    if enqueue { InQueueAppend(queue, x, s); } else { assert queue + [] == queue; }
  }

  function TallyOf(st: State, s: nat): Tally
  {
    Tally(Owners(st, s), Count(st.threads, Wakes(s)), Count(st.threads, Lives(s)))
  }

  lemma BeforeMove(st: State, i: nat)
    requires Inv(st) && i < |st.threads| && st.threads[i].svc < |st.services|
    ensures var t := st.threads[i]; Before(t, st.services[t.svc], st, TallyOf(st, t.svc))
  {
    var t := st.threads[i];
    var s := t.svc;
    assert ServiceSound(st, s) && ThreadSound(t, st.services, st.queueClosed, st.done);
    if OwnerPc(t.pc) { CountOne(st.threads, i, Owns(s)); }
    if WakerPc(t.pc) { CountOne(st.threads, i, Wakes(s)); }
    if IsLive(t) { CountOne(st.threads, i, Lives(s)); }
    if IsPending(t) { CountOne(st.threads, i, Pending); }
    if IsReturning(t) { CountOne(st.threads, i, Returning); }
  }

  lemma MoveSound(st: State, i: nat, e: Effect, s: nat)
    requires Inv(st) && i < |st.threads| && st.threads[i].svc < |st.services| && s < |st.services|
    requires var t := st.threads[i];
             && Before(t, st.services[t.svc], st, TallyOf(st, t.svc))
             && Keeps(t, st.services[t.svc], e, st, TallyOf(st, t.svc))
    ensures ServiceSound(Apply(st, i, e), s)
  {
    var t := st.threads[i];
    assert ServiceSound(st, s);
    InQueueApply(st.queue, e.enqueue, t.svc, s);
    CountApply(st.threads, i, e.thread, e.spawn, t.svc, Owns(s));
    CountApply(st.threads, i, e.thread, e.spawn, t.svc, Wakes(s));
    CountApply(st.threads, i, e.thread, e.spawn, t.svc, Lives(s));
  }

  function Standing(st: State): nat
  {
    Count(st.threads, Pending) + Count(st.threads, Live) + Count(st.threads, Returning)
  }

  /** One operation never lets more threads stand for a permit than permits were taken. */
  lemma MoveStanding(st: State, i: nat, e: Effect)
    requires i < |st.threads| && st.threads[i].svc < |st.services|
    requires KeepsPermits(st.threads[i], st.services[st.threads[i].svc], e, st.tokens)
    ensures Standing(Apply(st, i, e)) + st.tokens <= Standing(st) + e.tokens
  {
    var t := st.threads[i];
    CountApply(st.threads, i, e.thread, e.spawn, t.svc, Pending);
    CountApply(st.threads, i, e.thread, e.spawn, t.svc, Live);
    CountApply(st.threads, i, e.thread, e.spawn, t.svc, Returning);
  }

  lemma MoveLeak(st: State, i: nat, e: Effect)
    requires i < |st.threads| && st.threads[i].svc < |st.services|
    requires KeepsPermits(st.threads[i], st.services[st.threads[i].svc], e, st.tokens)
    ensures Leak(Apply(st, i, e)) == Leak(st) + One(Overwrites(st.threads[i], st.services[st.threads[i].svc]))
  {
    var t := st.threads[i];
    FlagsUpdate(st.services, t.svc, e.service);
    CountApply(st.threads, i, e.thread, e.spawn, t.svc, Pending);
    CountApply(st.threads, i, e.thread, e.spawn, t.svc, Returning);
  }

  lemma MovePermits(st: State, i: nat, e: Effect)
    requires PermitsSound(st) && i < |st.threads| && st.threads[i].svc < |st.services|
    requires var t := st.threads[i];
             e.tokens <= st.workers && (!st.done ==> KeepsPermits(t, st.services[t.svc], e, st.tokens))
    ensures PermitsSound(Apply(st, i, e))
    ensures !st.done ==>
      Leak(Apply(st, i, e)) == Leak(st) + One(Overwrites(st.threads[i], st.services[st.threads[i].svc]))
  {
    if !st.done {
      MoveStanding(st, i, e);
      MoveLeak(st, i, e);
      if Overwrites(st.threads[i], st.services[st.threads[i].svc]) {
        CountOne(st.threads, i, Pending);
        FlagsOne(st.services, st.threads[i].svc);
      }
    }
  }

  lemma {:induction false} FlagsOne(services: seq<Service>, s: nat)
    requires s < |services| && services[s].permit
    ensures Flags(services) >= 1
  {
    if s < |services| - 1 { FlagsOne(services[..|services| - 1], s); }
  }

  lemma MoveThreads(st: State, i: nat, e: Effect)
    requires Inv(st) && i < |st.threads| && st.threads[i].svc < |st.services|
    requires KeepsThread(st.threads[i], st.services[st.threads[i].svc], e, st)
    ensures ThreadsSound(Apply(st, i, e))
  {
    var r := Apply(st, i, e);
    forall k | 0 <= k < |r.threads| ensures ThreadSound(r.threads[k], r.services, r.queueClosed, r.done) {
      if k < |st.threads| && k != i { assert ThreadSound(st.threads[k], st.services, st.queueClosed, st.done); }
    }
  }

  lemma MoveInv(st: State, i: nat, choice: bool)
    requires Inv(st) && Can(st, Move(i, choice))
    ensures Inv(Next(st, Move(i, choice)))
    ensures !st.done ==>
      Leak(Next(st, Move(i, choice))) == Leak(st) + One(Overwrites(st.threads[i], st.services[st.threads[i].svc]))
  {
    var t := st.threads[i];
    var sv := st.services[t.svc];
    var e := Do(t, sv, st, choice);
    BeforeMove(st, i);
    DoKeeps(t, sv, st, choice, TallyOf(st, t.svc));
    forall s | 0 <= s < |st.services| ensures ServiceSound(Apply(st, i, e), s) {
      MoveSound(st, i, e, s);
    }
    MovePermits(st, i, e);
    MoveThreads(st, i, e);
  }

  /** A step that changes one service, keeps its flags, and may start a waking thread. */
  lemma PutInv(st: State, s: nat, sv: Service, wake: bool)
    requires Inv(st) && s < |st.services|
    requires sv.ready == st.services[s].ready && sv.permit == st.services[s].permit
    requires st.services[s].finalized ==> sv.finalized
    requires !sv.registered || sv.mail.closed ==> sv.finalized
    requires sv.mail.closed ==> sv.mail.items == []
    requires wake || sv.mail.items == [] || sv.mail.items == st.services[s].mail.items
    ensures Inv(Put(st, s, sv, wake)) && Leak(Put(st, s, sv, wake)) == Leak(st)
  {
    var r := Put(st, s, sv, wake);
    FlagsUpdate(st.services, s, sv);
    forall c ensures Count(r.threads, c) == Count(st.threads, c) + One(wake && Is(Waker(s), c)) {
      if wake { CountAppend(st.threads, Waker(s), c); } else { assert r.threads == st.threads; }
    }
    forall x | 0 <= x < |r.services| ensures ServiceSound(r, x) {
      assert ServiceSound(st, x);
    }
    forall k | 0 <= k < |r.threads| ensures ThreadSound(r.threads[k], r.services, r.queueClosed, r.done) {
      if k < |st.threads| { assert ThreadSound(st.threads[k], st.services, st.queueClosed, st.done); }
    }
  }

  lemma {:induction false} CountNone(ts: seq<Thread>, c: Class)
    requires forall i :: 0 <= i < |ts| ==> !Is(ts[i], c)
    ensures Count(ts, c) == 0
  {
    if ts != [] { CountNone(ts[..|ts| - 1], c); }
  }

  lemma {:induction false} InQueueNone(queue: seq<nat>, s: nat)
    requires forall k :: 0 <= k < |queue| ==> queue[k] < s
    ensures InQueue(queue, s) == 0
  {
    if queue != [] { InQueueNone(queue[1..], s); }
  }

  lemma CreateInv(st: State, capacity: nat)
    requires Inv(st)
    ensures Inv(Next(st, Create(capacity))) && Leak(Next(st, Create(capacity))) == Leak(st)
  {
    var r := Next(st, Create(capacity));
    var n := |st.services|;
    assert r.services[..n] == st.services;
    forall i | 0 <= i < |st.threads|
      ensures !Is(st.threads[i], Owns(n)) && ThreadSound(st.threads[i], r.services, r.queueClosed, r.done)
    {
      assert ThreadSound(st.threads[i], st.services, st.queueClosed, st.done);
    }
    CountNone(st.threads, Owns(n));
    InQueueNone(st.queue, n);
    forall x | 0 <= x < |r.services| ensures ServiceSound(r, x) {
      if x < n { assert ServiceSound(st, x); }
    }
  }

  lemma CloseInv(st: State, step: Step)
    requires Inv(st) && (step.CloseDone? || step.CloseQueue?) && Can(st, step)
    ensures Inv(Next(st, step))
  {
    var r := Next(st, step);
    forall x | 0 <= x < |r.services| ensures ServiceSound(r, x) {
      assert ServiceSound(st, x);
    }
    forall k | 0 <= k < |r.threads| ensures ThreadSound(r.threads[k], r.services, r.queueClosed, r.done) {
      assert ThreadSound(st.threads[k], st.services, st.queueClosed, st.done);
    }
  }

  lemma TakeCounts(st: State, i: nat, c: Class)
    requires Can(st, Take(i))
    ensures Count(Next(st, Take(i)).threads, c) ==
            Count(st.threads, c) + One(!st.queueClosed && c.Owns? && c.s == st.queue[0])
  {
    CountUpdate(st.threads, i, Next(st, Take(i)).threads[i], c);
  }

  lemma TakeInv(st: State, i: nat)
    requires Inv(st) && Can(st, Take(i))
    ensures Inv(Next(st, Take(i))) && Leak(Next(st, Take(i))) == Leak(st)
  {
    var r := Next(st, Take(i));
    assert ThreadSound(st.threads[i], st.services, st.queueClosed, st.done);
    forall x | 0 <= x < |r.services| ensures ServiceSound(r, x) {
      assert ServiceSound(st, x);
      TakeCounts(st, i, Owns(x));
      TakeCounts(st, i, Wakes(x));
      TakeCounts(st, i, Lives(x));
    }
    TakeCounts(st, i, Pending);
    TakeCounts(st, i, Live);
    TakeCounts(st, i, Returning);
    forall k | 0 <= k < |r.threads| ensures ThreadSound(r.threads[k], r.services, r.queueClosed, r.done) {
      assert ThreadSound(st.threads[k], st.services, st.queueClosed, st.done);
    }
  }

  /** The step sets a permit flag that is set already: two batches of one service overlap. */
  predicate Overlaps(st: State, step: Step)
    requires Can(st, step)
  {
    step.Move? && Overwrites(st.threads[step.i], st.services[st.threads[step.i].svc])
  }

  lemma StepInv(st: State, step: Step)
    requires Inv(st) && Can(st, step)
    ensures Inv(Next(st, step))
    ensures !Next(st, step).done ==> Leak(Next(st, step)) == Leak(st) + One(Overlaps(st, step))
  {
    match step
    case Create(capacity) => CreateInv(st, capacity);
    case Send(s) => assert ServiceSound(st, s); PutInv(st, s, Accept(st.services[s]), true);
    case RequestStop(s, discard) => assert ServiceSound(st, s); PutInv(st, s, Halt(st.services[s], discard), false);
    case PushStop(s) => assert ServiceSound(st, s); PutInv(st, s, PutStop(st.services[s]), true);
    case Finalize(s) => assert ServiceSound(st, s); PutInv(st, s, st.services[s].(finalized := true), false);
    case CloseMailbox(s) => assert ServiceSound(st, s); PutInv(st, s, Shut(st.services[s]), false);
    case Unregister(s) => assert ServiceSound(st, s); PutInv(st, s, st.services[s].(registered := false), false);
    case CloseDone => CloseInv(st, step);
    case CloseQueue => CloseInv(st, step);
    case Take(i) => TakeInv(st, i);
    case Move(i, choice) => MoveInv(st, i, choice);
  }
}
