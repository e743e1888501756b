/** The guarantees of the scheduler over whole runs. */
module SchedulerRuns {
  import opened SchedulerModel
  import opened Scheduler

  // ---------------------------------------------------------------------------------
  // The order of handling
  // ---------------------------------------------------------------------------------

  function Number(item: Item): seq<nat> { match item case Envelope(k) => [k] case Stop => [] }

  function Numbers(items: seq<Item>): seq<nat> { if items == [] then [] else Number(items[0]) + Numbers(items[1..]) }

  lemma {:induction false} NumbersAppend(items: seq<Item>, item: Item)
    ensures Numbers(items + [item]) == Numbers(items) + Number(item)
  {
    var more := items + [item];
    if items == [] {
      assert more[0] == item && more[1..] == [];
      assert Numbers(more) == Number(item) + [];
    } else {
      assert more[0] == items[0] && more[1..] == items[1..] + [item];
      NumbersAppend(items[1..], item);
      assert Numbers(more) == Number(items[0]) + (Numbers(items[1..]) + Number(item));
    }
  }

  predicate Ascending(q: seq<nat>) { forall i, j :: 0 <= i < j < |q| ==> q[i] < q[j] }

  /** The envelopes that were begun, then those still waiting. */
  function InLine(sv: Service): seq<nat> { sv.log.begun + Numbers(sv.mail.items) }

  /** They stand in acceptance order, and unless some were thrown away they are all that
      were accepted.  A stop request stands last and lets nothing in behind it. */
  predicate LogSound(sv: Service)
  {
    && Ascending(InLine(sv)) && (forall i :: 0 <= i < |InLine(sv)| ==> InLine(sv)[i] < sv.log.accepted)
    && (!sv.log.dropped ==> |InLine(sv)| == sv.log.accepted)
    && (forall i :: 0 <= i < |sv.mail.items| && sv.mail.items[i].Stop? ==>
          i == |sv.mail.items| - 1 && sv.mail.gate.Stopped?)
  }

  predicate LogsSound(st: State) { forall s :: 0 <= s < |st.services| ==> LogSound(st.services[s]) }

  /** An envelope in hand is the one that began last; nothing else is unfinished. */
  predicate HandlingSound(st: State)
  {
    && (forall i :: 0 <= i < |st.threads| && st.threads[i].pc.Handling? ==> HandSound(st, st.threads[i]))
    && (forall s :: 0 <= s < |st.services| ==> IdleSound(st, s))
  }

  predicate HandSound(st: State, t: Thread)
  {
    t.svc < |st.services| && st.services[t.svc].log.begun == st.services[t.svc].log.ended + [t.item]
  }

  predicate IdleSound(st: State, s: nat)
    requires s < |st.services|
  {
    Count(st.threads, Handles(s)) == 0 ==> st.services[s].log.begun == st.services[s].log.ended
  }

  lemma SameLine(sv: Service, r: Service)
    requires LogSound(sv) && r.mail == sv.mail && r.log.begun == sv.log.begun
    requires r.log.accepted == sv.log.accepted && (sv.log.dropped ==> r.log.dropped)
    ensures LogSound(r)
  {
  }

  lemma PopLog(sv: Service, t: Thread, st: State)
    requires LogSound(sv)
    ensures LogSound(PopDo(t, sv, st).service)
  {
    if t.n < st.maxBatch && sv.mail.items != [] {
      var items := sv.mail.items;
      SameInLine(sv);
      assert InLine(PopDo(t, sv, st).service) == InLine(sv);
      assert forall i :: 0 <= i < |items| - 1 ==> items[1..][i] == items[i + 1];
    }
  }

  /** Taking the first item moves its number from the waiting to the begun. */
  lemma SameInLine(sv: Service)
    requires sv.mail.items != []
    ensures sv.log.begun + Number(sv.mail.items[0]) + Numbers(sv.mail.items[1..]) == InLine(sv)
  {
  }

  lemma DoLog(t: Thread, sv: Service, st: State, choice: bool)
    requires LogSound(sv)
    ensures LogSound(Do(t, sv, st, choice).service)
  {
    if t.pc.Popping? {
      PopLog(sv, t, st);
    } else {
      DoSameLine(t, sv, st, choice);
      SameLine(sv, Do(t, sv, st, choice).service);
    }
  }

  /** Only taking an item touches the mailbox and the list of the begun, and only finishing
      it the list of the ended. */
  predicate KeepsLine(t: Thread, sv: Service, e: Effect, choice: bool)
  {
    && e.service.mail == sv.mail
    && e.service.log == (if FinishesItem(t, choice) then sv.log.(ended := sv.log.ended + [t.item]) else sv.log)
    && (e.thread.pc.Handling? <==> t.pc.Handling? && !FinishesItem(t, choice)) && e.thread.item == t.item
  }

  predicate FinishesItem(t: Thread, choice: bool) { t.pc.Handling? && t.hold.Running? && choice }

  lemma DoSameLine(t: Thread, sv: Service, st: State, choice: bool)
    requires !t.pc.Popping?
    ensures KeepsLine(t, sv, Do(t, sv, st, choice), choice)
  {
    if SchedulePc(t.pc) || DispatcherPc(t.pc) {
      OutsideSameLine(t, sv, st, choice);
    } else if HandlerPc(t.pc) {
      assert KeepsLine(t, sv, HandlerDo(t, sv, st, choice), choice);
    } else if LoopPc(t.pc) {
      assert KeepsLine(t, sv, LoopDo(t, sv, st), choice);
    } else {
      assert KeepsLine(t, sv, TailDo(t, sv, st), choice);
    }
  }

  lemma OutsideSameLine(t: Thread, sv: Service, st: State, choice: bool)
    requires SchedulePc(t.pc) || DispatcherPc(t.pc)
    ensures KeepsLine(t, sv, Do(t, sv, st, choice), choice)
  {
    if SchedulePc(t.pc) {
      assert KeepsLine(t, sv, ScheduleDo(t, sv, st), choice);
    } else {
      assert KeepsLine(t, sv, DispatcherDo(t, sv, st, choice), choice);
    }
  }

  lemma AcceptLog(sv: Service)
    requires LogSound(sv) && sv.mail.gate.Admitting?
    ensures LogSound(Accept(sv))
  {
    NumbersAppend(sv.mail.items, Envelope(sv.log.accepted));
    assert InLine(Accept(sv)) == InLine(sv) + [sv.log.accepted];
  }

  lemma HaltLog(sv: Service, discard: bool)
    requires LogSound(sv) && sv.mail.gate.Admitting?
    ensures LogSound(Halt(sv, discard))
  {
    assert InLine(Halt(sv, discard)) <= InLine(sv);
  }

  lemma PutStopLog(sv: Service)
    requires LogSound(sv) && sv.mail.gate.Halted?
    ensures LogSound(PutStop(sv))
  {
    NumbersAppend(sv.mail.items, Stop);
    assert InLine(PutStop(sv)) == InLine(sv);
  }

  lemma ShutLog(sv: Service)
    requires LogSound(sv)
    ensures LogSound(Shut(sv))
  {
    assert InLine(Shut(sv)) <= InLine(sv);
  }

  lemma NewLog(capacity: nat)
    ensures LogSound(NewService(capacity))
  {
  }

  lemma StepLogs(st: State, step: Step)
    requires LogsSound(st) && Can(st, step)
    ensures LogsSound(Next(st, step))
  {
    match step
    case Create(capacity) => NewLog(capacity);
    case Send(s) => AcceptLog(st.services[s]);
    case RequestStop(s, discard) => HaltLog(st.services[s], discard);
    case PushStop(s) => PutStopLog(st.services[s]);
    case Finalize(s) => SameLine(st.services[s], st.services[s].(finalized := true));
    case CloseMailbox(s) => ShutLog(st.services[s]);
    case Unregister(s) => SameLine(st.services[s], st.services[s].(registered := false));
    case CloseDone =>
    case CloseQueue =>
    case Take(i) =>
    case Move(i, choice) =>
      var t := st.threads[i];
      DoLog(t, st.services[t.svc], st, choice);
  }

  // ---------------------------------------------------------------------------------
  // The envelope in hand
  // ---------------------------------------------------------------------------------

  lemma SoleOwner(st: State, i: nat, j: nat)
    requires Inv(st) && i < |st.threads| && j < |st.threads| && OwnerPc(st.threads[i].pc) && OwnerPc(st.threads[j].pc)
    requires st.threads[i].svc == st.threads[j].svc
    ensures i == j
  {
    var s := st.threads[i].svc;
    assert ThreadSound(st.threads[i], st.services, st.queueClosed, st.done);
    assert ServiceSound(st, s);
    if i < j { CountTwo(st.threads, i, j, Owns(s)); } else if j < i { CountTwo(st.threads, j, i, Owns(s)); }
  }

  lemma NoneElseHandles(st: State, i: nat)
    requires Inv(st) && i < |st.threads| && OwnerPc(st.threads[i].pc) && !st.threads[i].pc.Handling?
    ensures Count(st.threads, Handles(st.threads[i].svc)) == 0
  {
    forall j | 0 <= j < |st.threads| ensures !Is(st.threads[j], Handles(st.threads[i].svc)) {
      if Is(st.threads[j], Handles(st.threads[i].svc)) { SoleOwner(st, i, j); }
    }
    CountNone(st.threads, Handles(st.threads[i].svc));
  }

  /** Threads that do not move keep the envelope in hand. */
  lemma OthersKeepHand(st: State, i: nat, e: Effect, k: nat)
    requires Inv(st) && HandlingSound(st) && i < |st.threads| && st.threads[i].svc < |st.services|
    requires k < |st.threads| && k != i && st.threads[k].pc.Handling?
    requires OwnerPc(st.threads[i].pc) || e.service.log == st.services[st.threads[i].svc].log
    ensures HandSound(Apply(st, i, e), st.threads[k])
  {
    assert HandSound(st, st.threads[k]);
    if st.threads[k].svc == st.threads[i].svc && OwnerPc(st.threads[i].pc) { SoleOwner(st, i, k); }
  }

  lemma MoveHandling(st: State, i: nat, choice: bool)
    requires Inv(st) && HandlingSound(st) && Can(st, Move(i, choice))
    ensures HandlingSound(Next(st, Move(i, choice)))
  {
    var t := st.threads[i];
    var sv := st.services[t.svc];
    var e := Do(t, sv, st, choice);
    var r := Apply(st, i, e);
    MoveOwnHand(st, i, choice);
    forall k | 0 <= k < |r.threads| && r.threads[k].pc.Handling? ensures HandSound(r, r.threads[k]) {
      if k < |st.threads| && k != i { OthersKeepHand(st, i, e, k); }
    }
    forall s | 0 <= s < |r.services| ensures IdleSound(r, s) {
      CountApply(st.threads, i, e.thread, e.spawn, t.svc, Handles(s));
      assert IdleSound(st, s);
      if t.pc.Handling? { assert HandSound(st, t); }
    }
  }

  /** The thread that moves: it takes an envelope into an empty hand, keeps it, or finishes it. */
  lemma MoveOwnHand(st: State, i: nat, choice: bool)
    requires Inv(st) && HandlingSound(st) && Can(st, Move(i, choice))
    ensures var t := st.threads[i];
            var sv := st.services[t.svc];
            var e := Do(t, sv, st, choice);
            && e.thread.svc == t.svc
            && (e.thread.pc.Handling? ==> e.service.log.begun == e.service.log.ended + [e.thread.item])
            && (t.pc.Handling? && !e.thread.pc.Handling? ==> e.service.log.begun == e.service.log.ended)
            && (!t.pc.Handling? && !e.thread.pc.Handling? ==> e.service.log == sv.log)
            && (OwnerPc(t.pc) || e.service.log == sv.log)
  {
    var t := st.threads[i];
    var sv := st.services[t.svc];
    BeforeMove(st, i);
    DoKeeps(t, sv, st, choice, TallyOf(st, t.svc));
    if t.pc.Popping? {
      NoneElseHandles(st, i);
      assert IdleSound(st, t.svc);
    } else {
      DoSameLine(t, sv, st, choice);
      if t.pc.Handling? { assert HandSound(st, t); }
    }
  }

  lemma PutHandling(st: State, s: nat, sv: Service, wake: bool)
    requires HandlingSound(st) && s < |st.services|
    requires sv.log.begun == st.services[s].log.begun && sv.log.ended == st.services[s].log.ended
    ensures HandlingSound(Put(st, s, sv, wake))
  {
    var r := Put(st, s, sv, wake);
    forall k | 0 <= k < |r.threads| && r.threads[k].pc.Handling? ensures HandSound(r, r.threads[k]) {
      assert k < |st.threads| && HandSound(st, st.threads[k]);
    }
    forall x | 0 <= x < |r.services| ensures IdleSound(r, x) {
      assert IdleSound(st, x);
      if wake { CountAppend(st.threads, Waker(s), Handles(x)); } else { assert r.threads == st.threads; }
    }
  }

  lemma TakeHandling(st: State, i: nat)
    requires HandlingSound(st) && Can(st, Take(i))
    ensures HandlingSound(Next(st, Take(i)))
  {
    var r := Next(st, Take(i));
    forall k | 0 <= k < |r.threads| && r.threads[k].pc.Handling? ensures HandSound(r, r.threads[k]) {
      assert HandSound(st, st.threads[k]);
    }
    forall x | 0 <= x < |r.services| ensures IdleSound(r, x) {
      assert IdleSound(st, x);
      TakeCounts(st, i, Handles(x));
    }
  }

  lemma CreateHandling(st: State, capacity: nat)
    requires HandlingSound(st)
    ensures HandlingSound(Next(st, Create(capacity)))
  {
    var r := Next(st, Create(capacity));
    forall k | 0 <= k < |r.threads| && r.threads[k].pc.Handling? ensures HandSound(r, r.threads[k]) {
      assert HandSound(st, st.threads[k]);
    }
    forall x | 0 <= x < |r.services| ensures IdleSound(r, x) {
      if x < |st.services| { assert IdleSound(st, x); }
    }
  }

  lemma SameHandling(st: State, r: State)
    requires HandlingSound(st) && r.services == st.services && r.threads == st.threads
    ensures HandlingSound(r)
  {
    forall k | 0 <= k < |r.threads| && r.threads[k].pc.Handling? ensures HandSound(r, r.threads[k]) {
      assert HandSound(st, st.threads[k]);
    }
    forall x | 0 <= x < |r.services| ensures IdleSound(r, x) {
      assert IdleSound(st, x);
    }
  }

  lemma StepHandling(st: State, step: Step)
    requires Inv(st) && HandlingSound(st) && Can(st, step)
    ensures HandlingSound(Next(st, step))
  {
    match step
    case Create(capacity) => CreateHandling(st, capacity);
    case Send(s) => PutHandling(st, s, Accept(st.services[s]), true);
    case RequestStop(s, discard) => PutHandling(st, s, Halt(st.services[s], discard), false);
    case PushStop(s) => PutHandling(st, s, PutStop(st.services[s]), true);
    case Finalize(s) => PutHandling(st, s, st.services[s].(finalized := true), false);
    case CloseMailbox(s) => PutHandling(st, s, Shut(st.services[s]), false);
    case Unregister(s) => PutHandling(st, s, st.services[s].(registered := false), false);
    case CloseDone => SameHandling(st, Next(st, step));
    case CloseQueue => SameHandling(st, Next(st, step));
    case Take(i) => TakeHandling(st, i);
    case Move(i, choice) => MoveHandling(st, i, choice);
  }

  // ---------------------------------------------------------------------------------
  // Whole runs
  // ---------------------------------------------------------------------------------

  predicate Good(st: State) { Inv(st) && LogsSound(st) && HandlingSound(st) }

  lemma InitGood(workers: nat, maxBatch: nat)
    requires workers >= 1
    ensures Good(Init(workers, maxBatch))
  {
    var st := Init(workers, maxBatch);
    var t := st.threads[0];
    assert st.threads == [] + [t];
    CountAppend([], t, Pending);
    CountAppend([], t, Live);
    CountAppend([], t, Returning);
    assert ThreadSound(t, st.services, st.queueClosed, st.done);
  }

  lemma {:induction false} RunGood(workers: nat, maxBatch: nat, states: seq<State>, steps: seq<Step>, k: nat)
    requires IsRunFrom(workers, maxBatch, states, steps) && k <= |steps|
    ensures Good(states[k]) && states[k].workers == workers
  {
    if k == 0 {
      InitGood(workers, maxBatch);
    } else {
      RunGood(workers, maxBatch, states, steps, k - 1);
      assert Joined(states, steps, k - 1);
      StepInv(states[k - 1], steps[k - 1]);
      StepLogs(states[k - 1], steps[k - 1]);
      StepHandling(states[k - 1], steps[k - 1]);
    }
  }

  /** At every moment of every run, at most one batch runs handlers of a service, whether it
      is running, waiting in a call, or shutting the service down. */
  lemma OneBatchPerService(workers: nat, maxBatch: nat, states: seq<State>, steps: seq<Step>, k: nat, i: nat, j: nat)
    requires IsRunFrom(workers, maxBatch, states, steps) && k <= |steps|
    requires i < j < |states[k].threads| && InHandler(states[k].threads[i]) && InHandler(states[k].threads[j])
    ensures states[k].threads[i].svc != states[k].threads[j].svc
  {
    RunGood(workers, maxBatch, states, steps, k);
    if states[k].threads[i].svc == states[k].threads[j].svc { SoleOwner(states[k], i, j); }
  }

  /** Envelopes are handled in acceptance order, each at most once, and one ends before the
      next begins.  Unless mail was thrown away, what was begun and what still waits are all
      the envelopes that were accepted. */
  lemma HandledInOrder(workers: nat, maxBatch: nat, states: seq<State>, steps: seq<Step>, k: nat, s: nat)
    requires IsRunFrom(workers, maxBatch, states, steps) && k <= |steps| && s < |states[k].services|
    ensures var sv := states[k].services[s];
            && Ascending(sv.log.begun)
            && (sv.log.begun == sv.log.ended || exists x :: sv.log.begun == sv.log.ended + [x])
            && |InLine(sv)| <= sv.log.accepted
            && (!sv.log.dropped ==>
                  |InLine(sv)| == sv.log.accepted && forall n :: 0 <= n < sv.log.accepted ==> InLine(sv)[n] == n)
  {
    var st := states[k];
    var sv := st.services[s];
    RunGood(workers, maxBatch, states, steps, k);
    assert LogSound(sv) && IdleSound(st, s);
    assert sv.log.begun <= InLine(sv);
    if Count(st.threads, Handles(s)) >= 1 {
      var i := CountFind(st.threads, Handles(s));
      assert HandSound(st, st.threads[i]);
      assert sv.log.begun == sv.log.ended + [st.threads[i].item];
    }
    Dense(InLine(sv), sv.log.accepted);
  }

  /** An ascending sequence below n has at most n members, and is 0, 1, ... if it has n. */
  lemma {:induction false} Dense(q: seq<nat>, n: nat)
    requires Ascending(q) && forall i :: 0 <= i < |q| ==> q[i] < n
    ensures |q| <= n
    ensures |q| == n ==> forall i :: 0 <= i < n ==> q[i] == i
  {
    if q != [] {
      var m := |q| - 1;
      Dense(q[..m], q[m]);
    }
  }

  /** The dispatcher returned with s in hand when the scheduler began to close. */
  predicate Lost(st: State, s: nat) { st.threads != [] && st.threads[0].pc.DLost? && st.threads[0].svc == s }

  /** Somebody is on the way to run s: it stands in the ready queue, or a thread owns it. */
  predicate Driven(st: State, s: nat)
  {
    s in st.queue || exists i :: 0 <= i < |st.threads| && Drives(st.threads[i], s)
  }

  predicate Drives(t: Thread, s: nat) { t.svc == s && OwnerPc(t.pc) && !t.pc.DLost? }

  predicate Asked(st: State, s: nat) { exists i :: 0 <= i < |st.threads| && Is(st.threads[i], Wakes(s)) }

  /** While the ready queue is open, only the service in the dispatcher's hand can be lost, and
      exactly when the dispatcher returned because the scheduler is closing: any other service
      with mail that is not finalized is on its way, or some thread is about to ask for it. */
  lemma NoLostWakeup(workers: nat, maxBatch: nat, states: seq<State>, steps: seq<Step>, k: nat, s: nat)
    requires IsRunFrom(workers, maxBatch, states, steps) && k <= |steps| && s < |states[k].services|
    requires !states[k].queueClosed && !states[k].services[s].finalized && states[k].services[s].mail.items != []
    ensures !Asked(states[k], s) ==> (Driven(states[k], s) <==> !Lost(states[k], s))
    ensures Asked(states[k], s) || Driven(states[k], s) || Lost(states[k], s)
    ensures Lost(states[k], s) ==> states[k].done && states[k].services[s].ready && !Driven(states[k], s)
  {
    var st := states[k];
    RunGood(workers, maxBatch, states, steps, k);
    assert ServiceSound(st, s);
    if Lost(st, s) {
      assert ThreadSound(st.threads[0], st.services, st.queueClosed, st.done);
      LostNotDriven(st, s);
    } else {
      NotLostMoves(st, s);
    }
  }

  /** The dispatcher keeps the one right to run a service that it lost. */
  lemma LostNotDriven(st: State, s: nat)
    requires Inv(st) && s < |st.services| && Lost(st, s)
    ensures !Driven(st, s) && st.services[s].ready
  {
    assert ServiceSound(st, s);
    CountOne(st.threads, 0, Owns(s));
    if s in st.queue { QueueCounts(st.queue, s); }
    forall i | 0 <= i < |st.threads| ensures !Drives(st.threads[i], s) {
      if Drives(st.threads[i], s) { SoleOwner(st, 0, i); }
    }
  }

  lemma NotLostMoves(st: State, s: nat)
    requires Inv(st) && s < |st.services| && !Lost(st, s)
    requires !st.queueClosed && !st.services[s].finalized && st.services[s].mail.items != []
    ensures Asked(st, s) || Driven(st, s)
  {
    assert ServiceSound(st, s);
    if Count(st.threads, Owns(s)) >= 1 {
      var i := CountFind(st.threads, Owns(s));
      assert Drives(st.threads[i], s);
    } else if Count(st.threads, Wakes(s)) >= 1 {
      var i := CountFind(st.threads, Wakes(s));
      assert Is(st.threads[i], Wakes(s));
    } else {
      QueueFind(st.queue, s);
    }
  }

  lemma {:induction false} QueueCounts(queue: seq<nat>, s: nat)
    requires s in queue
    ensures InQueue(queue, s) >= 1
  {
    if queue[0] != s { QueueCounts(queue[1..], s); }
  }

  /** What the dispatcher lost stays lost: in the rest of the run nobody drives the service
      again, so that none of the mail it still holds, and none it may still get, is handled. */
  lemma {:induction false} LostForGood(
    workers: nat, maxBatch: nat, states: seq<State>, steps: seq<Step>, j: nat, k: nat, s: nat)
    requires IsRunFrom(workers, maxBatch, states, steps) && j <= k <= |steps|
    requires s < |states[j].services| && Lost(states[j], s)
    ensures s < |states[k].services| && Lost(states[k], s) && !Driven(states[k], s)
    ensures states[k].services[s].log.begun == states[j].services[s].log.begun
  {
    RunGood(workers, maxBatch, states, steps, k);
    if j < k {
      LostForGood(workers, maxBatch, states, steps, j, k - 1, s);
      RunGood(workers, maxBatch, states, steps, k - 1);
      assert Joined(states, steps, k - 1);
      LostStep(states[k - 1], steps[k - 1], s);
    }
    LostNotDriven(states[k], s);
  }

  lemma LostStep(st: State, step: Step, s: nat)
    requires Inv(st) && Can(st, step) && s < |st.services| && Lost(st, s)
    ensures var r := Next(st, step);
            s < |r.services| && Lost(r, s) && r.services[s].log.begun == st.services[s].log.begun
  {
    if step.Move? && st.threads[step.i].svc == s && st.threads[step.i].pc.Popping? {
      SoleOwner(st, 0, step.i);
    }
  }

  lemma {:induction false} QueueFind(queue: seq<nat>, s: nat)
    requires InQueue(queue, s) >= 1
    ensures s in queue
  {
    if queue[0] != s { QueueFind(queue[1..], s); }
  }

  // ---------------------------------------------------------------------------------
  // Permits bound the batches at work
  // ---------------------------------------------------------------------------------

  /** A handler goes on after a call without having got a permit again. */
  predicate Resumes(t: Thread, e: Effect) { t.hold.Yielded? && e.thread.hold.Running? }

  function Stands(t: Thread): nat { One(IsPending(t)) + One(IsLive(t)) + One(IsReturning(t)) }

  /** A thread stands for no more permits than it took, except when it goes on without one. */
  predicate TakesPermits(t: Thread, e: Effect, tokens: nat)
  {
    Stands(e.thread) + One(e.spawn) + tokens <= Stands(t) + e.tokens + One(Resumes(t, e))
  }

  lemma HoldTakes(t: Thread, sv: Service, st: State, choice: bool)
    requires HandlerPc(t.pc) && HoldEnabled(t, st, choice)
    ensures var e := HoldStep(t, sv, st, choice); TakesPermits(t, e, st.tokens) && (Resumes(t, e) ==> st.done)
  {
  }

  lemma DoTakes(t: Thread, sv: Service, st: State, choice: bool)
    requires Enabled(t, sv, st, choice) && (!InHandler(t) ==> t.hold.Running?)
    ensures var e := Do(t, sv, st, choice); TakesPermits(t, e, st.tokens) && (Resumes(t, e) ==> st.done)
  {
    if HandlerPc(t.pc) && !(choice && t.hold.Running?) { HoldTakes(t, sv, st, choice); }
  }

  predicate ResumesAt(st: State, step: Step)
    requires Can(st, step)
  {
    step.Move? && var t := st.threads[step.i]; Resumes(t, Do(t, st.services[t.svc], st, step.choice))
  }

  lemma MoveTakes(st: State, i: nat, e: Effect)
    requires i < |st.threads| && st.threads[i].svc < |st.services| && TakesPermits(st.threads[i], e, st.tokens)
    ensures Standing(Apply(st, i, e)) + st.tokens <= Standing(st) + e.tokens + One(Resumes(st.threads[i], e))
  {
    var t := st.threads[i];
    CountApply(st.threads, i, e.thread, e.spawn, t.svc, Pending);
    CountApply(st.threads, i, e.thread, e.spawn, t.svc, Live);
    CountApply(st.threads, i, e.thread, e.spawn, t.svc, Returning);
  }

  lemma WakerStands(st: State, s: nat, sv: Service, wake: bool)
    requires s < |st.services|
    ensures Standing(Put(st, s, sv, wake)) == Standing(st)
  {
    if wake {
      CountAppend(st.threads, Waker(s), Pending);
      CountAppend(st.threads, Waker(s), Live);
      CountAppend(st.threads, Waker(s), Returning);
    } else {
      assert st.threads + [] == st.threads;
    }
  }

  lemma StepTakes(st: State, step: Step)
    requires ThreadsSound(st) && Can(st, step)
    ensures Standing(Next(st, step)) + st.tokens <= Standing(st) + Next(st, step).tokens + One(ResumesAt(st, step))
    ensures ResumesAt(st, step) ==> st.done
  {
    match step
    case Send(s) => WakerStands(st, s, Accept(st.services[s]), true);
    case RequestStop(s, discard) => WakerStands(st, s, Halt(st.services[s], discard), false);
    case PushStop(s) => WakerStands(st, s, PutStop(st.services[s]), true);
    case Finalize(s) => WakerStands(st, s, st.services[s].(finalized := true), false);
    case CloseMailbox(s) => WakerStands(st, s, Shut(st.services[s]), false);
    case Unregister(s) => WakerStands(st, s, st.services[s].(registered := false), false);
    case Take(i) =>
      TakeCounts(st, i, Pending);
      TakeCounts(st, i, Live);
      TakeCounts(st, i, Returning);
    case Move(i, choice) =>
      var t := st.threads[i];
      assert ThreadSound(t, st.services, st.queueClosed, st.done);
      DoTakes(t, st.services[t.svc], st, choice);
      MoveTakes(st, i, Do(t, st.services[t.svc], st, choice));
    case _ =>
  }

  /** How often a handler went on without a permit. */
  function Resumed(states: seq<State>, steps: seq<Step>, k: nat): nat
    requires IsRun(states, steps) && k <= |steps|
  {
    if k == 0 then 0
    else
      assert Joined(states, steps, k - 1);
      Resumed(states, steps, k - 1) + One(ResumesAt(states[k - 1], steps[k - 1]))
  }

  lemma {:induction false} StandingBounded(workers: nat, maxBatch: nat, states: seq<State>, steps: seq<Step>, k: nat)
    requires IsRunFrom(workers, maxBatch, states, steps) && k <= |steps|
    ensures Standing(states[k]) <= states[k].tokens + Resumed(states, steps, k)
    ensures !states[k].done ==> Resumed(states, steps, k) == 0
  {
    if k > 0 {
      StandingBounded(workers, maxBatch, states, steps, k - 1);
      RunThreads(workers, maxBatch, states, steps, k - 1);
      assert Joined(states, steps, k - 1);
      StepTakes(states[k - 1], steps[k - 1]);
      if states[k - 1].done { DoneStays(states[k - 1], steps[k - 1]); }
    }
  }

  lemma RunThreads(workers: nat, maxBatch: nat, states: seq<State>, steps: seq<Step>, k: nat)
    requires IsRunFrom(workers, maxBatch, states, steps) && k <= |steps|
    ensures ThreadsSound(states[k])
  {
    RunGood(workers, maxBatch, states, steps, k);
  }

  lemma DoneStays(st: State, step: Step)
    requires Can(st, step) && st.done
    ensures Next(st, step).done
  {
  }

  /** Always, the batches at work, counting their tails, those that have just taken a permit and
      those about to give one back together exceed the permits taken by at most the number of
      handlers that went on without one, and permits never exceed the workers.  No handler goes
      on without a permit until shutdown. */
  lemma HandlersBounded(workers: nat, maxBatch: nat, states: seq<State>, steps: seq<Step>, k: nat)
    requires IsRunFrom(workers, maxBatch, states, steps) && k <= |steps|
    ensures Count(states[k].threads, Live) + Count(states[k].threads, Pending) + Count(states[k].threads, Returning)
         <= states[k].tokens + Resumed(states, steps, k)
    ensures Count(states[k].threads, Executing) <= Count(states[k].threads, Live)
    ensures states[k].tokens <= workers && (!states[k].done ==> Resumed(states, steps, k) == 0)
  {
    RunGood(workers, maxBatch, states, steps, k);
    CountBelow(states[k].threads, Executing, Live);
    StandingBounded(workers, maxBatch, states, steps, k);
  }

  /** Permits can be lost, but never all of them: when every permit is taken, some thread is
      about to give one back or holds one through a flag that its batch will clear. */
  lemma PermitComesBack(workers: nat, maxBatch: nat, states: seq<State>, steps: seq<Step>, k: nat)
    requires IsRunFrom(workers, maxBatch, states, steps) && k <= |steps|
    requires !states[k].done && states[k].tokens == workers
    ensures exists i :: 0 <= i < |states[k].threads| && GivesBack(states[k], states[k].threads[i])
  {
    var st := states[k];
    RunGood(workers, maxBatch, states, steps, k);
    var i: nat;
    if Count(st.threads, Pending) >= 1 {
      i := CountFind(st.threads, Pending);
    } else if Count(st.threads, Returning) >= 1 {
      i := CountFind(st.threads, Returning);
    } else {
      var s := FlagsFind(st.services);
      assert ServiceSound(st, s);
      i := CountFind(st.threads, Lives(s));
    }
    assert GivesBack(st, st.threads[i]);
  }

  predicate GivesBack(st: State, t: Thread)
  {
    IsPending(t) || IsReturning(t) || (IsLive(t) && t.svc < |st.services| && st.services[t.svc].permit)
  }

  /** How often a permit flag was set while it was set: two batches of one service overlap. */
  function Overlapped(states: seq<State>, steps: seq<Step>, k: nat): nat
    requires IsRun(states, steps) && k <= |steps|
  {
    if k == 0 then 0
    else
      assert Joined(states, steps, k - 1);
      Overlapped(states, steps, k - 1) + One(Overlaps(states[k - 1], steps[k - 1]))
  }

  /** Exactly one permit is lost for each overlap, for good, and never the last one. */
  lemma {:induction false} LeakIsOverlaps(workers: nat, maxBatch: nat, states: seq<State>, steps: seq<Step>, k: nat)
    requires IsRunFrom(workers, maxBatch, states, steps) && k <= |steps| && !states[k].done
    ensures Leak(states[k]) == Overlapped(states, steps, k) <= workers - 1
  {
    if k == 0 {
      InitLeak(workers, maxBatch);
    } else {
      assert Joined(states, steps, k - 1);
      LeakStep(workers, maxBatch, states, steps, k);
      LeakIsOverlaps(workers, maxBatch, states, steps, k - 1);
    }
    RunLeak(workers, maxBatch, states, steps, k);
  }

  lemma RunLeak(workers: nat, maxBatch: nat, states: seq<State>, steps: seq<Step>, k: nat)
    requires IsRunFrom(workers, maxBatch, states, steps) && k <= |steps| && !states[k].done
    ensures Leak(states[k]) <= workers - 1
  {
    RunGood(workers, maxBatch, states, steps, k);
  }

  lemma LeakStep(workers: nat, maxBatch: nat, states: seq<State>, steps: seq<Step>, k: nat)
    requires IsRunFrom(workers, maxBatch, states, steps) && 0 < k <= |steps| && !states[k].done
    requires Joined(states, steps, k - 1)
    ensures !states[k - 1].done
    ensures Leak(states[k]) == Leak(states[k - 1]) + One(Overlaps(states[k - 1], steps[k - 1]))
  {
    RunGood(workers, maxBatch, states, steps, k - 1);
    StepInv(states[k - 1], steps[k - 1]);
  }

  lemma InitLeak(workers: nat, maxBatch: nat)
    ensures Leak(Init(workers, maxBatch)) == 0
  {
    var st := Init(workers, maxBatch);
    CountNone(st.threads, Pending);
    CountNone(st.threads, Returning);
  }
}
