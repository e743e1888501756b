/** The bounded task runner: concurrent submissions, a fixed set of workers, and closing. */
module Runner {

  /** A submission: it waits for the read lock, checks the status, puts its task into the
      queue, counts it, and lets go of the lock. */
  datatype Submitter = Outside | Entered | Counting | Refused | Accepted

  datatype Worker = Selecting | Holding(task: nat) | Leaving | Gone

  datatype Closer = Open | Locked | Cancelled | DrainHolding(task: nat) | Closed

  datatype Status = IsRunning | IsClosing | IsClosed

  /** Task number n is the one of submission n.  `accepted` and `completed` record the tasks
      taken in and completed; `submittedCount` and `completedCount` are the counters. */
  datatype State = State(
    submitters: seq<Submitter>, workers: seq<Worker>, closer: Closer, status: Status, cancelled: bool,
    queue: seq<nat>, capacity: nat, submittedCount: nat, completedCount: nat,
    accepted: seq<nat>, completed: seq<nat>)

  datatype Step =
    | Arrive
    | Enter(i: nat)
    | Push(i: nat)
    | CountIn(i: nat)
    | Select(w: nat, quit: bool)
    | Complete(w: nat)
    | Leave(w: nat)
    | Lock
    | Cancel
    | Drain
    | CompleteDrained

  // ---------------------------------------------------------------------------------
  // Steps
  // ---------------------------------------------------------------------------------

  predicate Inside(s: Submitter) { s.Entered? || s.Counting? }

  predicate AllGone(workers: seq<Worker>) { forall w :: 0 <= w < |workers| ==> workers[w].Gone? }

  predicate Can(st: State, step: Step)
  {
    match step
    case Arrive => true
    case Enter(i) => i < |st.submitters| && st.submitters[i].Outside? && (st.closer.Open? || st.closer.Closed?)
    case Push(i) => i < |st.submitters| && st.submitters[i].Entered?
    case CountIn(i) => i < |st.submitters| && st.submitters[i].Counting?
    case Select(w, quit) =>
      w < |st.workers| && st.workers[w].Selecting? && if quit then st.cancelled else st.queue != []
    case Complete(w) => w < |st.workers| && st.workers[w].Holding?
    case Leave(w) => w < |st.workers| && st.workers[w].Leaving?
    case Lock => st.closer.Open? && forall i :: 0 <= i < |st.submitters| ==> !Inside(st.submitters[i])
    case Cancel => st.closer.Locked?
    case Drain => st.closer.Cancelled?
    case CompleteDrained => st.closer.DrainHolding?
  }

  function Finish(st: State, task: nat): State
  {
    st.(completed := st.completed + [task], completedCount := st.completedCount + 1)
  }

  function Next(st: State, step: Step): State
    requires Can(st, step)
  {
    match step
    case Arrive => st.(submitters := st.submitters + [Outside])
    case Enter(i) => st.(submitters := st.submitters[i := Entered])
    case Push(i) =>
      if st.status.IsRunning? && |st.queue| < st.capacity then
        st.(submitters := st.submitters[i := Counting], queue := st.queue + [i], accepted := st.accepted + [i])
      else st.(submitters := st.submitters[i := Refused])
    case CountIn(i) => st.(submitters := st.submitters[i := Accepted], submittedCount := st.submittedCount + 1)
    case Select(w, quit) =>
      if quit then st.(workers := st.workers[w := Leaving])
      else st.(workers := st.workers[w := Holding(st.queue[0])], queue := st.queue[1..])
    case Complete(w) => Finish(st, st.workers[w].task).(workers := st.workers[w := Selecting])
    case Leave(w) =>
      var workers := st.workers[w := Gone];
      st.(workers := workers, status := if AllGone(workers) then IsClosed else st.status)
    case Lock => st.(closer := Locked, status := IsClosing)
    case Cancel => st.(closer := Cancelled, cancelled := true)
    case Drain =>
      if st.queue == [] then st.(closer := Closed)
      else st.(closer := DrainHolding(st.queue[0]), queue := st.queue[1..])
    case CompleteDrained => Finish(st, st.closer.task).(closer := Cancelled)
  }

  predicate IsInit(st: State)
  {
    && st.submitters == [] && st.closer.Open? && st.status.IsRunning? && !st.cancelled && st.queue == []
    && st.submittedCount == 0 && st.completedCount == 0 && st.accepted == [] && st.completed == []
    && |st.workers| > 0 && forall w :: 0 <= w < |st.workers| ==> st.workers[w].Selecting?
  }

  // ---------------------------------------------------------------------------------
  // Conservation of tasks
  // ---------------------------------------------------------------------------------

  function One(b: bool): nat { if b then 1 else 0 }

  /** Which tasks are counted. */
  datatype Which = Task(number: nat) | Any

  predicate Is(task: nat, which: Which) { which.Any? || which.number == task }

  function Copies(q: seq<nat>, which: Which): nat
  {
    if q == [] then 0 else Copies(q[1..], which) + One(Is(q[0], which))
  }

  lemma {:induction false} CopiesAppend(q: seq<nat>, x: nat, which: Which)
    ensures Copies(q + [x], which) == Copies(q, which) + One(Is(x, which))
  {
    if q == [] {
      assert q + [x] == [x];
    } else {
      assert (q + [x])[1..] == q[1..] + [x];
      CopiesAppend(q[1..], x, which);
    }
  }

  lemma {:induction false} CopiesAny(q: seq<nat>)
    ensures Copies(q, Any) == |q|
  {
    if q != [] { CopiesAny(q[1..]); }
  }

  predicate Holds(w: Worker, which: Which) { w.Holding? && Is(w.task, which) }

  function Held(workers: seq<Worker>, which: Which): nat
  {
    if workers == [] then 0 else Held(workers[..|workers| - 1], which) + One(Holds(workers[|workers| - 1], which))
  }

  lemma {:induction false} HeldUpdate(workers: seq<Worker>, w: nat, x: Worker, which: Which)
    requires w < |workers|
    ensures Held(workers[w := x], which) + One(Holds(workers[w], which)) == Held(workers, which) + One(Holds(x, which))
  {
    var n := |workers| - 1;
    if w < n {
      HeldUpdate(workers[..n], w, x, which);
      assert workers[w := x][..n] == workers[..n][w := x];
    } else {
      assert workers[w := x][..n] == workers[..n];
    }
  }

  lemma {:induction false} HeldNone(workers: seq<Worker>, which: Which)
    requires forall w :: 0 <= w < |workers| ==> !workers[w].Holding?
    ensures Held(workers, which) == 0
  {
    if workers != [] { HeldNone(workers[..|workers| - 1], which); }
  }

  predicate CloserHolds(c: Closer, which: Which) { c.DrainHolding? && Is(c.task, which) }

  /** How often a task is in the queue, in somebody's hands, or among the completed ones. */
  function Places(st: State, which: Which): nat
  {
    Copies(st.queue, which) + Held(st.workers, which) + One(CloserHolds(st.closer, which)) + Copies(st.completed, which)
  }

  predicate WasAccepted(st: State, task: nat)
  {
    task < |st.submitters| && (st.submitters[task].Counting? || st.submitters[task].Accepted?)
  }

  /** Every accepted task is in exactly one place, and nothing else is anywhere. */
  ghost predicate Conserved(st: State) { forall which :: Places(st, which) == Copies(st.accepted, which) }

  /** A submission has at most one accepted task. */
  ghost predicate AcceptedOnce(st: State)
  {
    forall task: nat :: Copies(st.accepted, Task(task)) == One(WasAccepted(st, task))
  }

  function Uncounted(submitters: seq<Submitter>): nat
  {
    if submitters == [] then 0
    else Uncounted(submitters[..|submitters| - 1]) + if submitters[|submitters| - 1].Counting? then 1 else 0
  }

  lemma {:induction false} UncountedUpdate(submitters: seq<Submitter>, i: nat, s: Submitter)
    requires i < |submitters|
    ensures Uncounted(submitters[i := s]) + (if submitters[i].Counting? then 1 else 0)
         == Uncounted(submitters) + (if s.Counting? then 1 else 0)
  {
    var n := |submitters| - 1;
    if i < n {
      UncountedUpdate(submitters[..n], i, s);
      assert submitters[i := s][..n] == submitters[..n][i := s];
    } else {
      assert submitters[i := s][..n] == submitters[..n];
    }
  }

  lemma {:induction false} UncountedNone(submitters: seq<Submitter>)
    requires forall i :: 0 <= i < |submitters| ==> !submitters[i].Counting?
    ensures Uncounted(submitters) == 0
  {
    if submitters != [] { UncountedNone(submitters[..|submitters| - 1]); }
  }

  predicate Counted(st: State)
  {
    st.submittedCount + Uncounted(st.submitters) == |st.accepted| && st.completedCount == |st.completed|
  }

  predicate NoneInside(submitters: seq<Submitter>) { forall i :: 0 <= i < |submitters| ==> !Inside(submitters[i]) }

  predicate NoneCounting(submitters: seq<Submitter>) { forall i :: 0 <= i < |submitters| ==> !submitters[i].Counting? }

  predicate NoneLeft(workers: seq<Worker>)
  {
    forall w :: 0 <= w < |workers| ==> workers[w].Selecting? || workers[w].Holding?
  }

  /** While the closer holds the lock nobody is inside; once it has drained the queue, the
      queue stays empty; and workers leave only after the cancellation. */
  predicate ClosingSound(st: State)
  {
    && (!st.closer.Open? ==> !st.status.IsRunning? && NoneCounting(st.submitters))
    && (!st.closer.Open? && !st.closer.Closed? ==> NoneInside(st.submitters))
    && (st.closer.Closed? ==> st.queue == [])
    && (st.cancelled ==> !st.closer.Open?)
    && |st.workers| > 0
    && (if st.cancelled then AllGone(st.workers) ==> st.status.IsClosed? else NoneLeft(st.workers))
  }

  ghost predicate Inv(st: State) { Conserved(st) && AcceptedOnce(st) && Counted(st) && ClosingSound(st) }

  lemma SubmitClosing(st: State, step: Step)
    requires ClosingSound(st) && Can(st, step) && (step.Arrive? || step.Enter? || step.Push? || step.CountIn?)
    ensures ClosingSound(Next(st, step))
  {
  }

  lemma WorkerClosing(st: State, step: Step)
    requires ClosingSound(st) && Can(st, step) && (step.Select? || step.Complete? || step.Leave?)
    ensures ClosingSound(Next(st, step))
  {
    var r := Next(st, step);
    if !step.Leave? { assert !r.workers[step.w].Gone?; }
  }

  lemma CloserClosing(st: State, step: Step)
    requires ClosingSound(st) && Can(st, step) && (step.Lock? || step.Cancel? || step.Drain? || step.CompleteDrained?)
    ensures ClosingSound(Next(st, step))
  {
    if st.closer.Locked? && !st.cancelled { assert !st.workers[0].Gone?; }
  }

  lemma SubmitInv(st: State, step: Step)
    requires Inv(st) && Can(st, step) && (step.Arrive? || step.Enter? || step.Push? || step.CountIn?)
    ensures Inv(Next(st, step))
  {
    var r := Next(st, step);
    SubmitClosing(st, step);
    if step.Arrive? {
      assert r.submitters[..|st.submitters|] == st.submitters;
    } else {
      UncountedUpdate(st.submitters, step.i, r.submitters[step.i]);
    }
    forall which ensures Places(r, which) == Copies(r.accepted, which) {
      assert Places(st, which) == Copies(st.accepted, which);
      if step.Push? {
        CopiesAppend(st.queue, step.i, which);
        CopiesAppend(st.accepted, step.i, which);
      }
    }
    forall task: nat ensures Copies(r.accepted, Task(task)) == One(WasAccepted(r, task)) {
      assert Copies(st.accepted, Task(task)) == One(WasAccepted(st, task));
      if step.Push? { CopiesAppend(st.accepted, step.i, Task(task)); }
    }
  }

  lemma SameAccepted(st: State, r: State)
    requires AcceptedOnce(st) && r.accepted == st.accepted && r.submitters == st.submitters
    ensures AcceptedOnce(r)
  {
    forall task: nat ensures Copies(r.accepted, Task(task)) == One(WasAccepted(r, task)) {
      assert Copies(st.accepted, Task(task)) == One(WasAccepted(st, task));
    }
  }

  lemma WorkerInv(st: State, step: Step)
    requires Inv(st) && Can(st, step) && (step.Select? || step.Complete? || step.Leave?)
    ensures Inv(Next(st, step))
  {
    var r := Next(st, step);
    WorkerClosing(st, step);
    forall which ensures Places(r, which) == Copies(r.accepted, which) {
      assert Places(st, which) == Copies(st.accepted, which);
      HeldUpdate(st.workers, step.w, r.workers[step.w], which);
      if step.Complete? { CopiesAppend(st.completed, st.workers[step.w].task, which); }
    }
    SameAccepted(st, r);
  }

  lemma CloserInv(st: State, step: Step)
    requires Inv(st) && Can(st, step) && (step.Lock? || step.Cancel? || step.Drain? || step.CompleteDrained?)
    ensures Inv(Next(st, step))
  {
    var r := Next(st, step);
    CloserClosing(st, step);
    forall which ensures Places(r, which) == Copies(r.accepted, which) {
      assert Places(st, which) == Copies(st.accepted, which);
      if step.CompleteDrained? { CopiesAppend(st.completed, st.closer.task, which); }
    }
    SameAccepted(st, r);
  }

  lemma StepInv(st: State, step: Step)
    requires Inv(st) && Can(st, step)
    ensures Inv(Next(st, step))
  {
    if step.Arrive? || step.Enter? || step.Push? || step.CountIn? {
      SubmitInv(st, step);
    } else if step.Select? || step.Complete? || step.Leave? {
      WorkerInv(st, step);
    } else {
      CloserInv(st, step);
    }
  }

  // ---------------------------------------------------------------------------------
  // Whole runs
  // ---------------------------------------------------------------------------------

  predicate Joined(states: seq<State>, steps: seq<Step>, k: nat)
    requires k < |steps| < |states|
  {
    Can(states[k], steps[k]) && states[k + 1] == Next(states[k], steps[k])
  }

  predicate IsRun(states: seq<State>, steps: seq<Step>)
  {
    && |states| == |steps| + 1 && IsInit(states[0])
    && forall k :: 0 <= k < |steps| ==> Joined(states, steps, k)
  }

  lemma InitInv(st: State)
    requires IsInit(st)
    ensures Inv(st)
  {
    forall which ensures Places(st, which) == 0 {
      HeldNone(st.workers, which);
    }
  }

  lemma {:induction false} RunInv(states: seq<State>, steps: seq<Step>, k: nat)
    requires IsRun(states, steps) && k <= |steps|
    ensures Inv(states[k])
  {
    if k == 0 {
      InitInv(states[0]);
    } else {
      RunInv(states, steps, k - 1);
      assert Joined(states, steps, k - 1);
      StepInv(states[k - 1], steps[k - 1]);
    }
  }

  /** No task is completed twice, and none that was not accepted. */
  lemma CompletedAtMostOnce(states: seq<State>, steps: seq<Step>, k: nat, task: nat)
    requires IsRun(states, steps) && k <= |steps|
    ensures Copies(states[k].completed, Task(task)) <= One(WasAccepted(states[k], task))
  {
    RunInv(states, steps, k);
    assert Places(states[k], Task(task)) == Copies(states[k].accepted, Task(task));
  }

  /** When closing returns without an error, the queue is empty, every accepted task has
      been completed exactly once, and the counters agree. */
  lemma ClosedMeansComplete(states: seq<State>, steps: seq<Step>, k: nat, task: nat)
    requires IsRun(states, steps) && k <= |steps|
    requires states[k].closer.Closed? && AllGone(states[k].workers)
    ensures states[k].queue == [] && states[k].status.IsClosed?
    ensures Copies(states[k].completed, Task(task)) == One(WasAccepted(states[k], task))
    ensures states[k].completedCount == states[k].submittedCount == |states[k].accepted|
  {
    RunInv(states, steps, k);
    var st := states[k];
    assert Places(st, Task(task)) == Copies(st.accepted, Task(task)) && Places(st, Any) == Copies(st.accepted, Any);
    HeldNone(st.workers, Task(task));
    HeldNone(st.workers, Any);
    CopiesAny(st.completed);
    CopiesAny(st.accepted);
    UncountedNone(st.submitters);
  }
}
