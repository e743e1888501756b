/** Node agents and their runners: for each request and target, Runtime.Stop is called at most
    once, however often the request is repeated and whatever is lost. */
module ControlAgents {
  import opened RefSets
  import opened ControlModel

  // ---------------------------------------------------------------------------------
  // Counting jobs
  // ---------------------------------------------------------------------------------

  /** A job is open until its runner has reported, and the agent heard, that nothing was done. */
  predicate IsOpen(job: Job) { !(job.stage.Arrived? && job.result.TPending?) }

  datatype Class = Open(key: Key) | Called(key: Key)

  predicate Is(job: Job, c: Class)
  {
    KeyOf(job.task) == c.key && if c.Open? then IsOpen(job) else job.called
  }

  function One(b: bool): nat { if b then 1 else 0 }

  function Count(jobs: seq<Job>, c: Class): nat
  {
    if jobs == [] then 0 else Count(jobs[..|jobs| - 1], c) + One(Is(jobs[|jobs| - 1], c))
  }

  lemma CountAppend(jobs: seq<Job>, job: Job, c: Class)
    ensures Count(jobs + [job], c) == Count(jobs, c) + One(Is(job, c))
  {
    assert (jobs + [job])[..|jobs|] == jobs;
  }

  lemma {:induction false} CountUpdate(jobs: seq<Job>, j: nat, job: Job, c: Class)
    requires j < |jobs|
    ensures Count(jobs[j := job], c) + One(Is(jobs[j], c)) == Count(jobs, c) + One(Is(job, c))
  {
    var n := |jobs| - 1;
    if j < n {
      CountUpdate(jobs[..n], j, job, c);
      assert jobs[j := job][..n] == jobs[..n][j := job];
    } else {
      assert jobs[j := job][..n] == jobs[..n];
    }
  }

  lemma {:induction false} CountOne(jobs: seq<Job>, j: nat, c: Class)
    requires j < |jobs| && Is(jobs[j], c)
    ensures Count(jobs, c) >= 1
  {
    if j < |jobs| - 1 { CountOne(jobs[..|jobs| - 1], j, c); }
  }

  lemma {:induction false} CalledIsOpen(jobs: seq<Job>, key: Key)
    requires forall j :: 0 <= j < |jobs| ==> JobSound(jobs[j])
    ensures Count(jobs, Called(key)) <= Count(jobs, Open(key))
  {
    if jobs != [] { CalledIsOpen(jobs[..|jobs| - 1], key); }
  }

  // ---------------------------------------------------------------------------------
  // The invariant
  // ---------------------------------------------------------------------------------

  /** Runtime.Stop is called only after the Directory showed the published set, and only such
      a job reports a stop. */
  predicate JobSound(job: Job)
  {
    && (job.called ==> !job.stage.InQueue? && !job.stage.Matched? && (job.result.TStopped? || job.result.TFailed?))
    && (job.called || job.stage.Matched? ==> job.seen == job.task.published)
    && (job.result.TStopped? ==> job.called)
  }

  predicate JobsSound(jobs: seq<Job>, tasks: set<StopTask>)
  {
    forall j :: 0 <= j < |jobs| ==> JobSound(jobs[j]) && jobs[j].task in tasks
  }

  predicate ReceiptSound(r: Receipt, key: Key, jobs: seq<Job>, tasks: set<StopTask>)
  {
    && KeyOf(r.task) == key && r.task in tasks
    && Count(jobs, Open(key)) <= One(!r.state.TPending?)
    && (r.state.TStopped? ==> Count(jobs, Called(key)) >= 1)
  }

  predicate ReceiptsSound(receipts: map<Key, Receipt>, jobs: seq<Job>, tasks: set<StopTask>)
  {
    forall key :: key in receipts ==> ReceiptSound(receipts[key], key, jobs, tasks)
  }

  /** Without a receipt there is no job. */
  ghost predicate NoStrays(receipts: map<Key, Receipt>, jobs: seq<Job>)
  {
    forall key :: key !in receipts ==> Count(jobs, Open(key)) == 0 && Count(jobs, Called(key)) == 0
  }

  predicate ReportsSound(reports: set<Report>, jobs: seq<Job>)
  {
    forall r :: r in reports && r.state.TStopped? ==> Count(jobs, Called(r.key)) >= 1
  }

  ghost predicate AgentsSound(a: Agents)
  {
    JobsSound(a.jobs, a.tasks) && ReceiptsSound(a.receipts, a.jobs, a.tasks) && NoStrays(a.receipts, a.jobs)
    && ReportsSound(a.reports, a.jobs)
  }

  // ---------------------------------------------------------------------------------
  // Steps
  // ---------------------------------------------------------------------------------

  lemma RunJobSound(a: Agents, env: Env, step: AgentStep)
    requires JobsSound(a.jobs, a.tasks) && AgentCan(a, env, step) && !step.Begin? && !step.ReportState?
    ensures JobSound(RunJob(a, env, step)) && RunJob(a, env, step).task == a.jobs[step.j].task
    ensures !step.ResultArrives? ==> IsOpen(RunJob(a, env, step)) == IsOpen(a.jobs[step.j])
    ensures a.jobs[step.j].called ==> RunJob(a, env, step).called
  {
    assert JobSound(a.jobs[step.j]);
  }

  /** A job that moves keeps its key; calls only grow, and its report can only close it. */
  lemma MovedCounts(a: Agents, env: Env, step: AgentStep, key: Key)
    requires JobsSound(a.jobs, a.tasks) && AgentCan(a, env, step) && !step.Begin? && !step.ReportState?
    ensures var jobs := a.jobs[step.j := RunJob(a, env, step)];
            && Count(jobs, Called(key)) >= Count(a.jobs, Called(key))
            && (key != KeyOf(a.jobs[step.j].task) ==> Count(jobs, Called(key)) == Count(a.jobs, Called(key))
                                                      && Count(jobs, Open(key)) == Count(a.jobs, Open(key)))
            && (!step.ResultArrives? ==> Count(jobs, Open(key)) == Count(a.jobs, Open(key)))
  {
    RunJobSound(a, env, step);
    CountUpdate(a.jobs, step.j, RunJob(a, env, step), Called(key));
    CountUpdate(a.jobs, step.j, RunJob(a, env, step), Open(key));
  }

  lemma SubmitSound(a: Agents, task: StopTask, submission: Submission)
    requires AgentsSound(a) && task in a.tasks && Submits(a, task)
    ensures AgentsSound(Submitted(a, task, submission))
  {
    var r := Submitted(a, task, submission);
    var mine := KeyOf(task);
    assert Count(a.jobs, Open(mine)) == 0 by {
      if mine in a.receipts { assert ReceiptSound(a.receipts[mine], mine, a.jobs, a.tasks); }
    }
    forall c ensures Count(r.jobs, c) == Count(a.jobs, c) + One(submission.Queued? && c == Open(mine)) {
      if submission.Queued? { CountAppend(a.jobs, r.jobs[|a.jobs|], c); }
    }
    forall key | key in r.receipts ensures ReceiptSound(r.receipts[key], key, r.jobs, r.tasks) {
      if key != mine { assert ReceiptSound(a.receipts[key], key, a.jobs, a.tasks); }
    }
    forall x | x in r.reports && x.state.TStopped? ensures Count(r.jobs, Called(x.key)) >= 1 {
      assert Count(a.jobs, Called(x.key)) >= 1;
    }
  }

  lemma ReportSound(a: Agents, key: Key)
    requires AgentsSound(a) && key in a.receipts
    ensures AgentsSound(a.(reports := a.reports + {Report(key, a.receipts[key].state)}))
  {
    assert ReceiptSound(a.receipts[key], key, a.jobs, a.tasks);
  }

  lemma MoveSound(a: Agents, env: Env, step: AgentStep)
    requires AgentsSound(a) && AgentCan(a, env, step) && !step.Begin? && !step.ReportState? && !step.ResultArrives?
    ensures AgentsSound(AgentDo(a, env, step))
  {
    var r := AgentDo(a, env, step);
    RunJobSound(a, env, step);
    forall key
      ensures Count(r.jobs, Called(key)) >= Count(a.jobs, Called(key))
      ensures Count(r.jobs, Open(key)) == Count(a.jobs, Open(key))
    {
      MovedCounts(a, env, step, key);
    }
    forall key | key in r.receipts ensures ReceiptSound(r.receipts[key], key, r.jobs, r.tasks) {
      assert ReceiptSound(a.receipts[key], key, a.jobs, a.tasks);
    }
    forall key | key !in r.receipts ensures Count(r.jobs, Called(key)) == 0 {
      CalledIsOpen(r.jobs, key);
    }
  }

  lemma ArriveSound(a: Agents, env: Env, j: nat)
    requires AgentsSound(a) && AgentCan(a, env, ResultArrives(j))
    ensures AgentsSound(AgentDo(a, env, ResultArrives(j)))
  {
    var step := ResultArrives(j);
    var r := AgentDo(a, env, step);
    var job := a.jobs[j];
    var mine := KeyOf(job.task);
    RunJobSound(a, env, step);
    assert JobSound(job);
    CountUpdate(a.jobs, j, r.jobs[j], Open(mine));
    CountUpdate(a.jobs, j, r.jobs[j], Called(mine));
    CountOne(a.jobs, j, Open(mine));
    if job.called { CountOne(a.jobs, j, Called(mine)); }
    forall key
      ensures Count(r.jobs, Called(key)) == Count(a.jobs, Called(key))
      ensures Count(r.jobs, Open(key)) <= Count(a.jobs, Open(key))
    {
      CountUpdate(a.jobs, j, r.jobs[j], Called(key));
      CountUpdate(a.jobs, j, r.jobs[j], Open(key));
    }
    forall key | key in r.receipts ensures ReceiptSound(r.receipts[key], key, r.jobs, r.tasks) {
      assert ReceiptSound(a.receipts[key], key, a.jobs, a.tasks);
    }
  }

  lemma AgentStepSound(a: Agents, env: Env, step: AgentStep)
    requires AgentsSound(a) && AgentCan(a, env, step)
    ensures AgentsSound(AgentDo(a, env, step))
  {
    match step
    case Begin(task, submission) => if Submits(a, task) { SubmitSound(a, task, submission); }
    case ReportState(key) => ReportSound(a, key);
    case ResultArrives(j) => ArriveSound(a, env, j);
    case _ => MoveSound(a, env, step);
  }

  /** New tasks on their way disturb nothing. */
  lemma TasksGrow(a: Agents, tasks: set<StopTask>)
    requires AgentsSound(a)
    ensures AgentsSound(a.(tasks := a.tasks + tasks))
  {
    forall key | key in a.receipts ensures ReceiptSound(a.receipts[key], key, a.jobs, a.tasks + tasks) {
      assert ReceiptSound(a.receipts[key], key, a.jobs, a.tasks);
    }
  }

  lemma AtMostOneCall(a: Agents, key: Key)
    requires AgentsSound(a)
    ensures Count(a.jobs, Called(key)) <= 1
  {
    CalledIsOpen(a.jobs, key);
    if key in a.receipts { assert ReceiptSound(a.receipts[key], key, a.jobs, a.tasks); }
  }

  lemma AgentCallsGrow(a: Agents, env: Env, step: AgentStep, key: Key)
    requires AgentsSound(a) && AgentCan(a, env, step)
    ensures Count(AgentDo(a, env, step).jobs, Called(key)) >= Count(a.jobs, Called(key))
  {
    match step
    case Begin(task, submission) =>
      if Submits(a, task) && submission.Queued? {
        CountAppend(a.jobs, AgentDo(a, env, step).jobs[|a.jobs|], Called(key));
      }
    case ReportState(_) =>
    case _ => MovedCounts(a, env, step, key);
  }
}
