/** The scheduler of the runtime as a state machine: senders, the dispatcher, the batches
    that run handlers, and shutdown, interleaved one atomic operation at a time. */
module SchedulerModel {

  datatype Item = Envelope(number: nat) | Stop

  /** A stop first halts the mailbox, which lets no more envelopes in, and then leaves its request. */
  datatype Gate = Admitting | Halted | Stopped

  datatype Mail = Mail(items: seq<Item>, closed: bool, capacity: nat, gate: Gate)

  /** `accepted` counts the envelopes the mailbox took in; `begun` and `ended` list, by
      acceptance number, the envelopes whose handling began and ended; `dropped` says that
      some were thrown away by a discarding stop or by closing the mailbox. */
  datatype Log = Log(accepted: nat, begun: seq<nat>, ended: seq<nat>, dropped: bool)

  datatype Service = Service(mail: Mail, log: Log, ready: bool, permit: bool, finalized: bool, registered: bool)

  /** Where a thread is.  Waking, Queueing and Undoing are the three operations of a
      schedule call.  The names in D are the dispatcher's; at DLost it has returned, because the
      scheduler is closing, with a service in hand that it took from the queue. */
  datatype Pc =
    | Waking | Queueing | Undoing
    | DWaiting | DPopped | DAcquired | DDropping | DGranted | DStarting | DLost
    | Popping | Handling | Checking | Stopping | ClearStop
    | ClearTail | Recheck | RecheckFinal | Releasing | Freeing
    | Ended

  /** A handler that makes a synchronous call gives its permit back and takes another. */
  datatype Hold = Running | Yielding | Yielded | Regaining

  /** `tail` says that a schedule call is the last act of a batch, `n` counts the envelopes
      of the batch and `item` is the one in hand. */
  datatype Thread = Thread(svc: nat, pc: Pc, hold: Hold, n: nat, item: nat, tail: bool)

  datatype State = State(
    services: seq<Service>, threads: seq<Thread>, queue: seq<nat>, queueClosed: bool,
    done: bool, tokens: nat, workers: nat, maxBatch: nat)

  datatype Step =
    | Create(capacity: nat)
    | Send(s: nat)
    | RequestStop(s: nat, discard: bool)
    | PushStop(s: nat)
    | Finalize(s: nat)
    | CloseMailbox(s: nat)
    | Unregister(s: nat)
    | CloseDone
    | CloseQueue
    | Take(i: nat)
    | Move(i: nat, choice: bool)

  function NewService(capacity: nat): Service
  {
    Service(Mail([], false, capacity, Admitting), Log(0, [], [], false), false, false, false, true)
  }

  /** A thread that has just put something into a mailbox. */
  function Waker(s: nat): Thread { Thread(s, Waking, Running, 0, 0, false) }

  function Batch(s: nat): Thread { Thread(s, Popping, Running, 0, 0, false) }

  // ---------------------------------------------------------------------------------
  // One operation of one thread
  // ---------------------------------------------------------------------------------

  /** What a thread does to itself, to its service, and to what everybody shares. */
  datatype Effect = Effect(thread: Thread, service: Service, enqueue: bool, tokens: nat, spawn: bool)

  function Local(t: Thread, sv: Service, tokens: nat): Effect { Effect(t, sv, false, tokens, false) }

  function Go(t: Thread, pc: Pc): Thread { t.(pc := pc) }

  /** After a schedule call. */
  function After(t: Thread): Thread { Go(t, if t.tail then Releasing else Ended) }

  /** Releasing never blocks, and takes nothing from an empty channel. */
  function Release(tokens: nat): nat { if tokens > 0 then tokens - 1 else 0 }

  /** A synchronous call of a handler: give the permit back, wait, take another one. */
  predicate HoldEnabled(t: Thread, st: State, choice: bool)
  {
    t.hold.Yielded? ==> if choice then st.tokens < st.workers else st.done
  }

  function HoldStep(t: Thread, sv: Service, st: State, choice: bool): Effect
  {
    match t.hold
    case Running =>
      if sv.permit then Local(t.(hold := Yielding), sv.(permit := false), st.tokens) else Local(t, sv, st.tokens)
    case Yielding => Local(t.(hold := Yielded), sv, Release(st.tokens))
    case Yielded =>
      if choice then Local(t.(hold := Regaining), sv, st.tokens + 1) else Local(t.(hold := Running), sv, st.tokens)
    case Regaining => Local(t.(hold := Running), sv.(permit := true), st.tokens)
  }

  /** `choice` decides between finishing a handler and calling out, and between the ready
      cases of a select. */
  predicate Enabled(t: Thread, sv: Service, st: State, choice: bool)
  {
    match t.pc
    case DPopped => if choice then st.tokens < st.workers else st.done
    case Handling => (choice && t.hold.Running?) || HoldEnabled(t, st, choice)
    case Stopping => if choice && t.hold.Running? then sv.finalized else HoldEnabled(t, st, choice)
    case DWaiting => false
    case DLost => false
    case Ended => false
    case _ => true
  }

  predicate SchedulePc(pc: Pc) { pc.Waking? || pc.Queueing? || pc.Undoing? }

  predicate DispatcherPc(pc: Pc)
  {
    pc.DWaiting? || pc.DPopped? || pc.DAcquired? || pc.DDropping? || pc.DGranted? || pc.DStarting?
  }

  predicate HandlerPc(pc: Pc) { pc.Handling? || pc.Stopping? }

  predicate LoopPc(pc: Pc) { pc.Popping? || pc.Checking? || pc.ClearStop? || pc.ClearTail? }

  function Do(t: Thread, sv: Service, st: State, choice: bool): Effect
  {
    if SchedulePc(t.pc) then ScheduleDo(t, sv, st)
    else if DispatcherPc(t.pc) then DispatcherDo(t, sv, st, choice)
    else if HandlerPc(t.pc) then HandlerDo(t, sv, st, choice)
    else if LoopPc(t.pc) then LoopDo(t, sv, st)
    else TailDo(t, sv, st)
  }

  /** Set `ready` if it is clear; if that succeeded, put the service into the queue; if the
      queue is closed, clear `ready` again. */
  function ScheduleDo(t: Thread, sv: Service, st: State): Effect
    requires SchedulePc(t.pc)
  {
    match t.pc
    case Waking =>
      if sv.ready then Local(After(t), sv, st.tokens) else Local(Go(t, Queueing), sv.(ready := true), st.tokens)
    case Queueing =>
      if st.queueClosed then Local(Go(t, Undoing), sv, st.tokens) else Effect(After(t), sv, true, st.tokens, false)
    case Undoing => Local(After(t), sv.(ready := false), st.tokens)
  }

  /** Take a permit for the service in hand, look the service up, and start a batch. */
  function DispatcherDo(t: Thread, sv: Service, st: State, choice: bool): Effect
    requires DispatcherPc(t.pc)
  {
    match t.pc
    case DWaiting => Local(t, sv, st.tokens)
    case DPopped => if choice then Local(Go(t, DAcquired), sv, st.tokens + 1) else Local(Go(t, DLost), sv, st.tokens)
    case DAcquired => Local(Go(t, if sv.registered then DGranted else DDropping), sv, st.tokens)
    case DDropping => Local(Go(t, DWaiting), sv, Release(st.tokens))
    case DGranted => Local(Go(t, DStarting), sv.(permit := true), st.tokens)
    case DStarting => Effect(Go(t, DWaiting), sv, false, st.tokens, true)
  }

  function HandlerDo(t: Thread, sv: Service, st: State, choice: bool): Effect
    requires HandlerPc(t.pc)
  {
    if choice && t.hold.Running? then
      if t.pc.Handling? then Local(Go(t, Checking), sv.(log := sv.log.(ended := sv.log.ended + [t.item])), st.tokens)
      else Local(Go(t, ClearStop), sv, st.tokens)
    else HoldStep(t, sv, st, choice)
  }

  /** The batch loop: take the next item, run it, and stop at a stop request, at a finalized
      service, at an empty mailbox or after `maxBatch` envelopes. */
  function LoopDo(t: Thread, sv: Service, st: State): Effect
    requires LoopPc(t.pc)
  {
    match t.pc
    case Popping => PopDo(t, sv, st)
    case Checking =>
      Local(if sv.finalized then Go(t, ClearStop) else Go(t, Popping).(n := t.n + 1), sv, st.tokens)
    case ClearStop => Local(Go(t, Releasing), sv.(ready := false), st.tokens)
    case ClearTail => Local(Go(t, Recheck), sv.(ready := false), st.tokens)
  }

  function PopDo(t: Thread, sv: Service, st: State): Effect
  {
    if t.n >= st.maxBatch || sv.mail.items == [] then Local(Go(t, ClearTail), sv, st.tokens)
    else
      var head, rest := sv.mail.items[0], sv.(mail := sv.mail.(items := sv.mail.items[1..]));
      match head
      case Stop => Local(Go(t, Stopping), rest, st.tokens)
      case Envelope(k) =>
        Local(Go(t, Handling).(item := k), rest.(log := sv.log.(begun := sv.log.begun + [k])), st.tokens)
  }

  /** After the loop: schedule the service again if it has mail, and give the permit back. */
  function TailDo(t: Thread, sv: Service, st: State): Effect
  {
    match t.pc
    case Recheck => Local(Go(t, if sv.mail.items != [] then RecheckFinal else Releasing), sv, st.tokens)
    case RecheckFinal =>
      Local(if sv.finalized then Go(t, Releasing) else Go(t, Waking).(tail := true), sv, st.tokens)
    case Releasing =>
      if sv.permit then Local(Go(t, Freeing), sv.(permit := false), st.tokens) else Local(Go(t, Ended), sv, st.tokens)
    case Freeing => Local(Go(t, Ended), sv, Release(st.tokens))
    case _ => Local(t, sv, st.tokens)
  }

  // ---------------------------------------------------------------------------------
  // The whole system
  // ---------------------------------------------------------------------------------

  predicate Accepting(mail: Mail) { !mail.closed && mail.gate.Admitting? && |mail.items| < mail.capacity }

  predicate Can(st: State, step: Step)
  {
    match step
    case Create(_) => true
    case Send(s) => s < |st.services| && Accepting(st.services[s].mail)
    case RequestStop(s, _) => s < |st.services| && !st.services[s].mail.closed && st.services[s].mail.gate.Admitting?
    case PushStop(s) => s < |st.services| && !st.services[s].mail.closed && st.services[s].mail.gate.Halted?
    case Finalize(s) => s < |st.services|
    case CloseMailbox(s) => s < |st.services| && st.services[s].finalized
    case Unregister(s) => s < |st.services| && st.services[s].finalized
    case CloseDone => true
    case CloseQueue => st.done
    case Take(i) => i < |st.threads| && st.threads[i].pc.DWaiting? && (st.queueClosed || st.queue != [])
    case Move(i, choice) =>
      i < |st.threads| && st.threads[i].svc < |st.services|
      && Enabled(st.threads[i], st.services[st.threads[i].svc], st, choice)
  }

  /** Service s becomes `sv`; with `wake`, a thread will schedule it. */
  function Put(st: State, s: nat, sv: Service, wake: bool): State
    requires s < |st.services|
  {
    st.(services := st.services[s := sv], threads := st.threads + (if wake then [Waker(s)] else []))
  }

  function Accept(sv: Service): Service
  {
    sv.(mail := sv.mail.(items := sv.mail.items + [Envelope(sv.log.accepted)]),
        log := sv.log.(accepted := sv.log.accepted + 1))
  }

  function Halt(sv: Service, discard: bool): Service
  {
    sv.(mail := sv.mail.(items := if discard then [] else sv.mail.items, gate := Halted),
        log := sv.log.(dropped := sv.log.dropped || (discard && sv.mail.items != [])))
  }

  function PutStop(sv: Service): Service
  {
    sv.(mail := sv.mail.(items := sv.mail.items + [Stop], gate := Stopped))
  }

  function Shut(sv: Service): Service
  {
    sv.(mail := sv.mail.(closed := true, items := []), log := sv.log.(dropped := true))
  }

  function Apply(st: State, i: nat, e: Effect): State
    requires i < |st.threads| && st.threads[i].svc < |st.services|
  {
    var s := st.threads[i].svc;
    st.(services := st.services[s := e.service],
        threads := st.threads[i := e.thread] + (if e.spawn then [Batch(s)] else []),
        queue := st.queue + (if e.enqueue then [s] else []),
        tokens := e.tokens)
  }

  function Next(st: State, step: Step): State
    requires Can(st, step)
  {
    match step
    case Create(capacity) => st.(services := st.services + [NewService(capacity)])
    case Send(s) => Put(st, s, Accept(st.services[s]), true)
    case RequestStop(s, discard) => Put(st, s, Halt(st.services[s], discard), false)
    case PushStop(s) => Put(st, s, PutStop(st.services[s]), true)
    case Finalize(s) => Put(st, s, st.services[s].(finalized := true), false)
    case CloseMailbox(s) => Put(st, s, Shut(st.services[s]), false)
    case Unregister(s) => Put(st, s, st.services[s].(registered := false), false)
    case CloseDone => st.(done := true)
    case CloseQueue => st.(queueClosed := true, queue := [])
    case Take(i) =>
      if st.queueClosed then st.(threads := st.threads[i := Go(st.threads[i], Ended)])
      else st.(threads := st.threads[i := Go(st.threads[i], DPopped).(svc := st.queue[0])], queue := st.queue[1..])
    case Move(i, choice) => Apply(st, i, Do(st.threads[i], st.services[st.threads[i].svc], st, choice))
  }

  /** A scheduler that has just been made: one dispatcher and nothing to do. */
  function Init(workers: nat, maxBatch: nat): State
  {
    State([], [Thread(0, DWaiting, Running, 0, 0, false)], [], false, false, 0, workers, maxBatch)
  }

  predicate Joined(states: seq<State>, steps: seq<Step>, k: nat)
    requires k < |steps| < |states|
  {
    Can(states[k], steps[k]) && states[k + 1] == Next(states[k], steps[k])
  }

  /** A run: consecutive states are joined by steps. */
  predicate IsRun(states: seq<State>, steps: seq<Step>)
  {
    && |states| == |steps| + 1
    && forall k :: 0 <= k < |steps| ==> Joined(states, steps, k)
  }

  predicate IsRunFrom(workers: nat, maxBatch: nat, states: seq<State>, steps: seq<Step>)
  {
    workers >= 1 && IsRun(states, steps) && states[0] == Init(workers, maxBatch)
  }
}
