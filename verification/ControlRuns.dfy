/** The guarantees of draining, stopping and recovering over whole runs. */
module ControlRuns {
  import opened RefSets
  import opened ControlModel
  import A = ControlAgents
  import D = ControlDrains
  import M = ControlMakers

  // ---------------------------------------------------------------------------------
  // Drains and recoveries in the system
  // ---------------------------------------------------------------------------------

  ghost predicate DrainsSound(drains: map<nat, Drain>, env: Env)
  {
    forall id :: id in drains ==> D.DrainSound(drains[id], env.known, env.guards)
  }

  ghost predicate RecoveriesSound(recoveries: map<nat, Recovery>, known: set<Ref>)
  {
    forall id :: id in recoveries ==> D.RecoverySound(recoveries[id], known)
  }

  /** What a sender's publish call carries, or carried when it was applied. */
  predicate SenderSound(s: Sender, content: ServiceSet, drains: map<nat, Drain>, recoveries: map<nat, Recovery>)
  {
    match s
    case FromDrain(id) => id in drains && content == RequestedSet(drains[id].request)
    case FromRecovery(id) =>
      id in recoveries && !D.BeforeCandidate(recoveries[id].phase) && content == recoveries[id].candidate
  }

  predicate SendersSound(env: Env, drains: map<nat, Drain>, recoveries: map<nat, Recovery>)
  {
    && (forall s :: s in env.wishes ==> SenderSound(s, WishedSet(env.wishes[s]), drains, recoveries))
    && (forall s :: s in env.applied ==> SenderSound(s, env.applied[s], drains, recoveries))
  }

  function Occurs(publishes: seq<Sender>, s: Sender): nat
  {
    if publishes == [] then 0
    else Occurs(publishes[..|publishes| - 1], s) + if publishes[|publishes| - 1] == s then 1 else 0
  }

  lemma OccursAppend(publishes: seq<Sender>, x: Sender, s: Sender)
    ensures Occurs(publishes + [x], s) == Occurs(publishes, s) + if x == s then 1 else 0
  {
    assert (publishes + [x])[..|publishes|] == publishes;
  }

  predicate Unpublished(s: Sender, drains: map<nat, Drain>, recoveries: map<nat, Recovery>)
  {
    match s
    case FromDrain(id) => id !in drains || D.BeforePublish(drains[id].phase)
    case FromRecovery(id) => id !in recoveries || D.BeforeCandidate(recoveries[id].phase)
  }

  /** Nobody calls publish twice. */
  ghost predicate PublishesSound(publishes: seq<Sender>, drains: map<nat, Drain>, recoveries: map<nat, Recovery>)
  {
    forall s :: Occurs(publishes, s) <= if Unpublished(s, drains, recoveries) then 0 else 1
  }

  ghost predicate PublishInv(st: State)
  {
    && D.EnvSound(st.env) && DrainsSound(st.drains, st.env) && RecoveriesSound(st.recoveries, st.env.known)
    && SendersSound(st.env, st.drains, st.recoveries) && PublishesSound(st.env.publishes, st.drains, st.recoveries)
  }

  // ---------------------------------------------------------------------------------
  // Stops in the system
  // ---------------------------------------------------------------------------------

  predicate StopSound(op: StopOp, d: Drain)
  {
    && d.phase.ReadyToStop? && op.published == d.published && op.group == d.request.group && |op.targets| == |d.targets|
    && forall i :: 0 <= i < |op.targets| ==> op.targets[i].target == d.targets[i]
  }

  predicate StopsSound(stops: map<nat, StopOp>, drains: map<nat, Drain>)
  {
    forall id :: id in stops ==> id in drains && StopSound(stops[id], drains[id])
  }

  predicate TaskSound(task: StopTask, drains: map<nat, Drain>)
  {
    && task.id in drains && drains[task.id].phase.ReadyToStop?
    && task.target in SetOf(drains[task.id].targets) && task.published == drains[task.id].published
  }

  predicate TasksSound(tasks: set<StopTask>, drains: map<nat, Drain>)
  {
    forall t :: t in tasks ==> TaskSound(t, drains)
  }

  /** A target that the coordinator holds for stopped was stopped by its agent. */
  predicate StopReported(op: StopOp, id: nat, jobs: seq<Job>)
  {
    forall i :: 0 <= i < |op.targets| && op.targets[i].state.TStopped? ==>
      A.Count(jobs, A.Called(KeyAt(op, id, i))) >= 1
  }

  predicate StopsReported(stops: map<nat, StopOp>, jobs: seq<Job>)
  {
    forall id :: id in stops ==> StopReported(stops[id], id, jobs)
  }

  predicate StopPhaseSound(op: StopOp) { op.phase.StopCompleted? ==> Concluded(op.targets).StopCompleted? }

  predicate StopPhasesSound(stops: map<nat, StopOp>) { forall id :: id in stops ==> StopPhaseSound(stops[id]) }

  ghost predicate StopInv(st: State)
  {
    && StopsSound(st.stops, st.drains) && TasksSound(st.agents.tasks, st.drains) && A.AgentsSound(st.agents)
    && StopsReported(st.stops, st.agents.jobs) && StopPhasesSound(st.stops)
  }

  // ---------------------------------------------------------------------------------
  // Replacements in the system
  // ---------------------------------------------------------------------------------

  predicate CreateTasksSound(tasks: set<CreateTask>, recoveries: map<nat, Recovery>)
  {
    forall t :: t in tasks ==> t.id in recoveries
  }

  predicate BuildNew(b: Build, recoveries: map<nat, Recovery>, known: set<Ref>)
  {
    b.made.Some? ==> b.task.id in recoveries && D.IsNew(recoveries[b.task.id], b.made.value, known)
  }

  /** What was made is new to its recovery, and no two builds made the same. */
  predicate BuildsNew(builds: seq<Build>, recoveries: map<nat, Recovery>, known: set<Ref>)
  {
    && (forall j :: 0 <= j < |builds| ==> BuildNew(builds[j], recoveries, known))
    && (forall i, j :: 0 <= i < j < |builds| && builds[i].made.Some? ==> builds[i].made != builds[j].made)
  }

  /** What the coordinator holds for the replacement of a target was made for it. */
  predicate TargetsMade(r: Recovery, id: nat, builds: seq<Build>)
  {
    forall i :: 0 <= i < |r.targets| ==> M.StateSound(r.targets[i].state, builds, CreateKey(CreateTaskAt(r, id, i)))
  }

  predicate RecoveriesMade(recoveries: map<nat, Recovery>, builds: seq<Build>)
  {
    forall id :: id in recoveries ==> TargetsMade(recoveries[id], id, builds)
  }

  ghost predicate MakeInv(st: State)
  {
    && M.MakersSound(st.makers) && CreateTasksSound(st.makers.tasks, st.recoveries)
    && BuildsNew(st.makers.builds, st.recoveries, st.env.known) && RecoveriesMade(st.recoveries, st.makers.builds)
  }

  /** A reported replacement is new to the recovery it is reported to. */
  lemma ReportedIsNew(st: State, id: nat, i: nat, state: Making)
    requires MakeInv(st) && id in st.recoveries && i < |st.recoveries[id].targets|
    requires CreateReport(CreateTaskAt(st.recoveries[id], id, i), state) in st.makers.reports
    ensures state.MCreated? ==> D.IsNew(st.recoveries[id], state.ref, st.env.known)
  {
    if state.MCreated? {
      var task := CreateTaskAt(st.recoveries[id], id, i);
      assert M.StateSound(CreateReport(task, state).state, st.makers.builds, CreateKey(task));
      var j :| 0 <= j < |st.makers.builds| && CreateKey(st.makers.builds[j].task) == CreateKey(task)
               && st.makers.builds[j].made == Some(state.ref);
      assert BuildNew(st.makers.builds[j], st.recoveries, st.env.known);
    }
  }

  // ---------------------------------------------------------------------------------
  // Steps keep the publish discipline
  // ---------------------------------------------------------------------------------

  lemma EnvPublish(st: State, e: EnvStep)
    requires PublishInv(st) && EnvCan(st.env, e)
    ensures PublishInv(Next(st, EnvMoves(e)))
  {
    D.EnvStepSound(st.env, e);
    var env := EnvDo(st.env, e);
    forall id | id in st.drains ensures D.DrainSound(st.drains[id], env.known, env.guards) {
      D.DrainSoundGrows(st.drains[id], st.env.known, st.env.guards, env.known, env.guards);
    }
    EnvSenders(st.env, e, st.drains, st.recoveries);
  }

  lemma EnvSenders(env: Env, e: EnvStep, drains: map<nat, Drain>, recoveries: map<nat, Recovery>)
    requires SendersSound(env, drains, recoveries) && EnvCan(env, e)
    ensures SendersSound(EnvDo(env, e), drains, recoveries)
  {
    if e.ApplyWish? { assert SenderSound(e.sender, WishedSet(env.wishes[e.sender]), drains, recoveries); }
  }

  lemma StartPublish(st: State, id: nat, request: DrainRequest)
    requires PublishInv(st) && Can(st, StartDrain(id, request))
    ensures PublishInv(Next(st, StartDrain(id, request)))
  {
    var r := Next(st, StartDrain(id, request));
    NewDrainSound(st.env, r.drains[id]);
    SendersKept(st.env, st.drains, r.drains, st.recoveries);
    forall s ensures Occurs(st.env.publishes, s) <= if Unpublished(s, r.drains, st.recoveries) then 0 else 1 {
      assert Occurs(st.env.publishes, s) <= if Unpublished(s, st.drains, st.recoveries) then 0 else 1;
    }
  }

  lemma NewDrainSound(env: Env, d: Drain)
    requires ValidSet(RequestedSet(d.request), env.known) && d.phase.Preparing? && d.original == NOTHING
    requires d.guarded == {}
    ensures D.DrainSound(d, env.known, env.guards)
  {
  }

  /** Changing one drain without its request does not disturb what is on its way. */
  lemma SendersKept(env: Env, drains: map<nat, Drain>, drains1: map<nat, Drain>, recoveries: map<nat, Recovery>)
    requires SendersSound(env, drains, recoveries)
    requires forall x :: x in drains ==> x in drains1 && drains1[x].request == drains[x].request
    ensures SendersSound(env, drains1, recoveries)
  {
    forall s | s in env.wishes ensures SenderSound(s, WishedSet(env.wishes[s]), drains1, recoveries) {
      assert SenderSound(s, WishedSet(env.wishes[s]), drains, recoveries);
    }
    forall s | s in env.applied ensures SenderSound(s, env.applied[s], drains1, recoveries) {
      assert SenderSound(s, env.applied[s], drains, recoveries);
    }
  }

  lemma DrainPublish(st: State, id: nat, step: DrainStep)
    requires PublishInv(st) && Can(st, DrainMoves(id, step))
    ensures PublishInv(Next(st, DrainMoves(id, step)))
  {
    var d := st.drains[id];
    var d1 := DrainDo(d, st.env, id, step);
    var drains1 := st.drains[id := d1];
    var env1 := DrainEnv(d, st.env, id, step);
    if FromDrain(id) in st.env.applied {
      assert SenderSound(FromDrain(id), st.env.applied[FromDrain(id)], st.drains, st.recoveries);
    }
    D.DrainStepSound(d, st.env, id, step);
    D.DrainEnvSound(d, st.env, id, step);
    DrainSenders(st, id, step, drains1);
    DrainCalls(st, id, step, drains1);
    forall x | x in drains1 ensures D.DrainSound(drains1[x], env1.known, env1.guards) {
    }
  }

  lemma DrainSenders(st: State, id: nat, step: DrainStep, drains1: map<nat, Drain>)
    requires SendersSound(st.env, st.drains, st.recoveries) && id in st.drains && id in drains1
    requires drains1 == st.drains[id := drains1[id]] && drains1[id].request == st.drains[id].request
    ensures SendersSound(DrainEnv(st.drains[id], st.env, id, step), drains1, st.recoveries)
  {
    SendersKept(st.env, st.drains, drains1, st.recoveries);
    var env1 := DrainEnv(st.drains[id], st.env, id, step);
    forall s | s in env1.wishes ensures SenderSound(s, WishedSet(env1.wishes[s]), drains1, st.recoveries) {
      if s in st.env.wishes && s != FromDrain(id) {
        assert SenderSound(s, WishedSet(st.env.wishes[s]), drains1, st.recoveries);
      }
    }
  }

  lemma DrainCalls(st: State, id: nat, step: DrainStep, drains1: map<nat, Drain>)
    requires id in st.drains && DrainCan(st.drains[id], st.env, id, step)
    requires PublishesSound(st.env.publishes, st.drains, st.recoveries)
    requires drains1 == st.drains[id := DrainDo(st.drains[id], st.env, id, step)]
    ensures PublishesSound(DrainEnv(st.drains[id], st.env, id, step).publishes, drains1, st.recoveries)
  {
    var publishes1 := DrainEnv(st.drains[id], st.env, id, step).publishes;
    forall s ensures Occurs(publishes1, s) <= if Unpublished(s, drains1, st.recoveries) then 0 else 1 {
      assert Occurs(st.env.publishes, s) <= if Unpublished(s, st.drains, st.recoveries) then 0 else 1;
      if step.Publish? { OccursAppend(st.env.publishes, FromDrain(id), s); }
    }
  }

  lemma BeginRecoveryPublish(st: State, id: nat, group: nat, expected: ServiceSet, plans: seq<Plan>)
    requires PublishInv(st) && StopsSound(st.stops, st.drains) && Can(st, BeginRecovery(id, group, expected, plans))
    ensures PublishInv(Next(st, BeginRecovery(id, group, expected, plans)))
  {
    var r := Next(st, BeginRecovery(id, group, expected, plans));
    NewRecoverySound(st, id, group, expected, plans);
    forall s ensures Occurs(st.env.publishes, s) <= if Unpublished(s, st.drains, r.recoveries) then 0 else 1 {
      assert Occurs(st.env.publishes, s) <= if Unpublished(s, st.drains, st.recoveries) then 0 else 1;
    }
    RecoverySendersKept(st.env, st.drains, st.recoveries, r.recoveries);
  }

  /** The targets of a stop were in the Directory once, so the runtime knows them. */
  lemma NewRecoverySound(st: State, id: nat, group: nat, expected: ServiceSet, plans: seq<Plan>)
    requires PublishInv(st) && StopsSound(st.stops, st.drains) && RecoveryReady(st, id, group, expected)
    requires |plans| == |st.stops[id].targets|
    ensures D.RecoverySound(NewRecovery(st.stops[id], group, expected, plans), st.env.known)
  {
    var op := st.stops[id];
    var r := NewRecovery(op, group, expected, plans);
    var d := st.drains[id];
    assert StopSound(op, d) && D.DrainSound(d, st.env.known, st.env.guards);
    forall x | x in D.Removed(r.targets) ensures x in st.env.known && x !in SetOf(expected.refs) {
      var i :| 0 <= i < |r.targets| && r.targets[i].removed == x;
      assert x == op.targets[i].target == d.targets[i];
      assert d.targets[i] in SetOf(d.targets);
    }
    forall i, j | 0 <= i < j < |r.targets| ensures r.targets[i].removed != r.targets[j].removed {
      assert Less(d.targets[i], d.targets[j]);
    }
  }

  lemma RecoverySendersKept(
    env: Env, drains: map<nat, Drain>, recoveries: map<nat, Recovery>, recoveries1: map<nat, Recovery>)
    requires SendersSound(env, drains, recoveries)
    requires forall x :: x in recoveries && !D.BeforeCandidate(recoveries[x].phase) ==>
      x in recoveries1 && recoveries1[x].candidate == recoveries[x].candidate
        && !D.BeforeCandidate(recoveries1[x].phase)
    ensures SendersSound(env, drains, recoveries1)
  {
    forall s | s in env.wishes ensures SenderSound(s, WishedSet(env.wishes[s]), drains, recoveries1) {
      assert SenderSound(s, WishedSet(env.wishes[s]), drains, recoveries);
    }
    forall s | s in env.applied ensures SenderSound(s, env.applied[s], drains, recoveries1) {
      assert SenderSound(s, env.applied[s], drains, recoveries);
    }
  }

  lemma RecoveryPublish(st: State, id: nat, step: RecoveryStep)
    requires PublishInv(st) && MakeInv(st) && Can(st, RecoveryMoves(id, step))
    ensures PublishInv(Next(st, RecoveryMoves(id, step)))
  {
    var r := st.recoveries[id];
    var r1 := RecoveryDo(r, st.makers.reports, st.env, id, step);
    var env1 := RecoveryEnv(r, st.env, id, step);
    var recoveries1 := st.recoveries[id := r1];
    if FromRecovery(id) in st.env.applied {
      assert SenderSound(FromRecovery(id), st.env.applied[FromRecovery(id)], st.drains, st.recoveries);
    }
    if step.TakeReceipt? { ReportedIsNew(st, id, step.i, step.state); }
    D.RecoveryStepSound(r, st.makers.reports, st.env, id, step);
    D.RecoveryEnvSound(r, st.makers.reports, st.env, id, step);
    RecoverySenders(st, id, step, recoveries1);
    RecoveryCalls(st, id, step, recoveries1);
  }

  lemma MakerPublish(st: State, m: MakerStep)
    requires PublishInv(st) && MakerCan(st.makers, st.env, m)
    ensures PublishInv(Next(st, MakerMoves(m)))
  {
    var env1 := MakerEnv(st.env, m);
    forall x | x in st.recoveries ensures D.RecoverySound(st.recoveries[x], env1.known) {
      D.RecoverySoundGrows(st.recoveries[x], st.env.known, env1.known);
    }
    forall x | x in st.drains ensures D.DrainSound(st.drains[x], env1.known, env1.guards) {
      D.DrainSoundGrows(st.drains[x], st.env.known, st.env.guards, env1.known, env1.guards);
    }
  }

  /** A recovery leaves the phases before its publish call for good, by making that call or
      by giving up. */
  lemma RecoveryForward(r: Recovery, reports: set<CreateReport>, env: Env, id: nat, step: RecoveryStep)
    requires RecoveryCan(r, reports, env, id, step)
    ensures D.BeforeCandidate(RecoveryDo(r, reports, env, id, step).phase) ==>
        D.BeforeCandidate(r.phase) && !step.PublishCandidate?
    ensures step.PublishCandidate? ==> D.BeforeCandidate(r.phase)
    ensures !step.PublishCandidate? ==> RecoveryDo(r, reports, env, id, step).candidate == r.candidate
    ensures RecoveryEnv(r, env, id, step).publishes
         == env.publishes + if step.PublishCandidate? then [FromRecovery(id)] else []
  {
  }

  lemma RecoverySenders(st: State, id: nat, step: RecoveryStep, recoveries1: map<nat, Recovery>)
    requires SendersSound(st.env, st.drains, st.recoveries)
    requires id in st.recoveries && RecoveryCan(st.recoveries[id], st.makers.reports, st.env, id, step)
    requires recoveries1 == st.recoveries[id := RecoveryDo(st.recoveries[id], st.makers.reports, st.env, id, step)]
    ensures SendersSound(RecoveryEnv(st.recoveries[id], st.env, id, step), st.drains, recoveries1)
  {
    RecoveryForward(st.recoveries[id], st.makers.reports, st.env, id, step);
    RecoverySendersKept(st.env, st.drains, st.recoveries, recoveries1);
    var env1 := RecoveryEnv(st.recoveries[id], st.env, id, step);
    forall s | s in env1.wishes ensures SenderSound(s, WishedSet(env1.wishes[s]), st.drains, recoveries1) {
      if s in st.env.wishes && s != FromRecovery(id) {
        assert SenderSound(s, WishedSet(st.env.wishes[s]), st.drains, recoveries1);
      }
    }
  }

  lemma RecoveryCalls(st: State, id: nat, step: RecoveryStep, recoveries1: map<nat, Recovery>)
    requires id in st.recoveries && RecoveryCan(st.recoveries[id], st.makers.reports, st.env, id, step)
    requires PublishesSound(st.env.publishes, st.drains, st.recoveries)
    requires recoveries1 == st.recoveries[id := RecoveryDo(st.recoveries[id], st.makers.reports, st.env, id, step)]
    ensures PublishesSound(RecoveryEnv(st.recoveries[id], st.env, id, step).publishes, st.drains, recoveries1)
  {
    var publishes1 := RecoveryEnv(st.recoveries[id], st.env, id, step).publishes;
    RecoveryForward(st.recoveries[id], st.makers.reports, st.env, id, step);
    forall s ensures Occurs(publishes1, s) <= if Unpublished(s, st.drains, recoveries1) then 0 else 1 {
      assert Occurs(st.env.publishes, s) <= if Unpublished(s, st.drains, st.recoveries) then 0 else 1;
      if step.PublishCandidate? { OccursAppend(st.env.publishes, FromRecovery(id), s); }
    }
  }

  lemma StepPublish(st: State, step: Step)
    requires PublishInv(st) && StopsSound(st.stops, st.drains) && MakeInv(st) && Can(st, step)
    ensures PublishInv(Next(st, step))
  {
    match step
    case EnvMoves(e) => EnvPublish(st, e);
    case StartDrain(id, request) => StartPublish(st, id, request);
    case DrainMoves(id, d) => DrainPublish(st, id, d);
    case BeginRecovery(id, group, expected, plans) => BeginRecoveryPublish(st, id, group, expected, plans);
    case RecoveryMoves(id, r) => RecoveryPublish(st, id, r);
    case MakerMoves(m) => MakerPublish(st, m);
    case _ =>
  }

  // ---------------------------------------------------------------------------------
  // Steps keep the stop discipline
  // ---------------------------------------------------------------------------------

  /** A drain that is ready stays as it is. */
  lemma ReadyIsFinal(d: Drain, env: Env, id: nat, step: DrainStep)
    requires DrainCan(d, env, id, step)
    ensures !d.phase.ReadyToStop?
  {
  }

  lemma DrainsStop(st: State, drains1: map<nat, Drain>)
    requires StopInv(st)
    requires forall id :: id in st.drains && st.drains[id].phase.ReadyToStop? ==>
        id in drains1 && drains1[id] == st.drains[id]
    ensures StopsSound(st.stops, drains1) && TasksSound(st.agents.tasks, drains1)
  {
    forall t | t in st.agents.tasks ensures TaskSound(t, drains1) {
      assert TaskSound(t, st.drains);
    }
  }

  lemma BeginStopInv(st: State, id: nat, agents: seq<Ref>)
    requires StopInv(st) && Can(st, BeginStop(id, agents))
    ensures StopInv(Next(st, BeginStop(id, agents)))
  {
  }

  lemma AgentStop(st: State, a: AgentStep)
    requires StopInv(st) && AgentCan(st.agents, st.env, a)
    ensures StopInv(Next(st, AgentMoves(a)))
  {
    var r := Next(st, AgentMoves(a));
    A.AgentStepSound(st.agents, st.env, a);
    forall id | id in st.stops ensures StopReported(st.stops[id], id, r.agents.jobs) {
      assert StopReported(st.stops[id], id, st.agents.jobs);
      forall i | 0 <= i < |st.stops[id].targets| && st.stops[id].targets[i].state.TStopped?
        ensures A.Count(r.agents.jobs, A.Called(KeyAt(st.stops[id], id, i))) >= 1
      {
        A.AgentCallsGrow(st.agents, st.env, a, KeyAt(st.stops[id], id, i));
      }
    }
  }

  lemma StopMoveInv(st: State, id: nat, step: StopStep)
    requires StopInv(st) && Can(st, StopMoves(id, step))
    ensures StopInv(Next(st, StopMoves(id, step)))
  {
    var op := st.stops[id];
    var op1 := StopDo(op, st.agents.reports, st.env, id, step);
    assert StopSound(op, st.drains[id]);
    StopOpSound(op, op1, st.drains[id], st.agents, st.env, id, step);
    A.TasksGrow(st.agents, StopTasks(op, st.env, id, step));
    StopTasksSound(op, st.drains, st.env, id, step);
  }

  lemma StopOpSound(op: StopOp, op1: StopOp, d: Drain, agents: Agents, env: Env, id: nat, step: StopStep)
    requires StopSound(op, d) && StopReported(op, id, agents.jobs) && A.ReportsSound(agents.reports, agents.jobs)
    requires StopCan(op, agents.reports, env, id, step) && op1 == StopDo(op, agents.reports, env, id, step)
    ensures StopSound(op1, d) && StopReported(op1, id, agents.jobs) && StopPhaseSound(op1)
  {
  }

  lemma StopTasksSound(op: StopOp, drains: map<nat, Drain>, env: Env, id: nat, step: StopStep)
    requires id in drains && StopSound(op, drains[id])
    ensures TasksSound(StopTasks(op, env, id, step), drains)
  {
    var d := drains[id];
    forall t | t in StopTasks(op, env, id, step) ensures TaskSound(t, drains) {
      assert t.target == d.targets[step.i];
    }
  }

  lemma StepStop(st: State, step: Step)
    requires StopInv(st) && Can(st, step)
    ensures StopInv(Next(st, step))
  {
    match step
    case StartDrain(id, request) => DrainsStop(st, Next(st, step).drains);
    case DrainMoves(id, d) =>
      ReadyIsFinal(st.drains[id], st.env, id, d);
      DrainsStop(st, Next(st, step).drains);
    case BeginStop(id, agents) => BeginStopInv(st, id, agents);
    case StopMoves(id, s) => StopMoveInv(st, id, s);
    case AgentMoves(a) => AgentStop(st, a);
    case _ =>
  }

  // ---------------------------------------------------------------------------------
  // Steps keep the replacements
  // ---------------------------------------------------------------------------------

  /** A recovery keeps what it is about. */
  predicate SameAim(r: Recovery, s: Recovery)
  {
    s.expected == r.expected && D.Removed(s.targets) == D.Removed(r.targets)
  }

  lemma BuildsStayNew(builds: seq<Build>, recoveries: map<nat, Recovery>, known: set<Ref>,
                      recoveries1: map<nat, Recovery>, known1: set<Ref>)
    requires BuildsNew(builds, recoveries, known) && known <= known1
    requires forall id :: id in recoveries ==> id in recoveries1 && SameAim(recoveries[id], recoveries1[id])
    ensures BuildsNew(builds, recoveries1, known1)
  {
    forall j | 0 <= j < |builds| ensures BuildNew(builds[j], recoveries1, known1) {
      assert BuildNew(builds[j], recoveries, known);
    }
  }

  lemma BeginRecoveryMake(st: State, id: nat, group: nat, expected: ServiceSet, plans: seq<Plan>)
    requires MakeInv(st) && Can(st, BeginRecovery(id, group, expected, plans))
    ensures MakeInv(Next(st, BeginRecovery(id, group, expected, plans)))
  {
    var r := Next(st, BeginRecovery(id, group, expected, plans));
    BuildsStayNew(st.makers.builds, st.recoveries, st.env.known, r.recoveries, st.env.known);
    forall x | x in r.recoveries ensures TargetsMade(r.recoveries[x], x, st.makers.builds) {
      if x != id { assert TargetsMade(st.recoveries[x], x, st.makers.builds); }
    }
  }

  lemma RecoveryAim(r: Recovery, reports: set<CreateReport>, env: Env, id: nat, step: RecoveryStep)
    requires RecoveryCan(r, reports, env, id, step)
    ensures SameAim(r, RecoveryDo(r, reports, env, id, step))
  {
    if step.TakeReceipt? { D.SameRemoved(r.targets, step.i, r.targets[step.i].(state := step.state)); }
  }

  lemma RecoveryMade(r: Recovery, reports: set<CreateReport>, env: Env, id: nat, step: RecoveryStep, builds: seq<Build>)
    requires RecoveryCan(r, reports, env, id, step) && TargetsMade(r, id, builds) && M.ReportsSound(reports, builds)
    ensures TargetsMade(RecoveryDo(r, reports, env, id, step), id, builds)
  {
    var s := RecoveryDo(r, reports, env, id, step);
    forall i | 0 <= i < |s.targets|
      ensures M.StateSound(s.targets[i].state, builds, CreateKey(CreateTaskAt(s, id, i)))
    {
      assert M.StateSound(r.targets[i].state, builds, CreateKey(CreateTaskAt(r, id, i)));
      if step.TakeReceipt? && i == step.i {
        var report := CreateReport(CreateTaskAt(r, id, i), step.state);
        assert M.StateSound(report.state, builds, CreateKey(report.task));
      }
    }
  }

  lemma RecoveryMake(st: State, id: nat, step: RecoveryStep)
    requires MakeInv(st) && Can(st, RecoveryMoves(id, step))
    ensures MakeInv(Next(st, RecoveryMoves(id, step)))
  {
    var r := Next(st, RecoveryMoves(id, step));
    RecoveryAim(st.recoveries[id], st.makers.reports, st.env, id, step);
    RecoveryMade(st.recoveries[id], st.makers.reports, st.env, id, step, st.makers.builds);
    M.TasksGrow(st.makers, CreateTasks(st.recoveries[id], id, step));
    BuildsStayNew(st.makers.builds, st.recoveries, st.env.known, r.recoveries, r.env.known);
    forall x | x in r.recoveries ensures TargetsMade(r.recoveries[x], x, st.makers.builds) {
      if x != id { assert TargetsMade(st.recoveries[x], x, st.makers.builds); }
    }
  }

  /** One build changes, and what it made is still what it made, or is new. */
  lemma BuildMoves(builds: seq<Build>, recoveries: map<nat, Recovery>, known: set<Ref>, j: nat, b: Build)
    requires BuildsNew(builds, recoveries, known) && j < |builds| && BuildNew(b, recoveries, known)
    requires b.made == builds[j].made || forall i :: 0 <= i < |builds| && b.made.Some? ==> builds[i].made != b.made
    ensures BuildsNew(builds[j := b], recoveries, known)
  {
  }

  lemma BuildStarts(builds: seq<Build>, recoveries: map<nat, Recovery>, known: set<Ref>, b: Build)
    requires BuildsNew(builds, recoveries, known) && b.made.None?
    ensures BuildsNew(builds + [b], recoveries, known)
  {
  }

  lemma RunIsNew(st: State, m: MakerStep)
    requires MakeInv(st) && RecoveriesSound(st.recoveries, st.env.known) && MakerCan(st.makers, st.env, m)
    requires !m.BeginCreate? && !m.ReportCreate?
    ensures var b, builds := RunBuild(st.makers, st.env, m), st.makers.builds;
            && BuildNew(b, st.recoveries, MakerEnv(st.env, m).known)
            && (b.made == builds[m.j].made
                || forall i :: 0 <= i < |builds| && b.made.Some? ==> builds[i].made != b.made)
  {
    var builds := st.makers.builds;
    assert M.BuildSound(builds[m.j]) && BuildNew(builds[m.j], st.recoveries, st.env.known);
    if m.CallCreate? && m.made.Some? { CalledIsNew(st, m.j, m.made.value); }
  }

  /** The runtime issues references that it has not issued before. */
  lemma MadeIsNew(st: State, m: MakerStep)
    requires MakeInv(st) && RecoveriesSound(st.recoveries, st.env.known) && MakerCan(st.makers, st.env, m)
    ensures BuildsNew(MakerDo(st.makers, st.env, m).builds, st.recoveries, MakerEnv(st.env, m).known)
  {
    var builds, known1 := st.makers.builds, MakerEnv(st.env, m).known;
    BuildsStayNew(builds, st.recoveries, st.env.known, st.recoveries, known1);
    match m
    case BeginCreate(task, submission) =>
      if submission.Queued? {
        BuildStarts(builds, st.recoveries, known1, Build(task, InQueue, false, None, MFailed));
      } else {
        assert builds + [] == builds;
      }
    case ReportCreate(_) =>
    case _ =>
      RunIsNew(st, m);
      BuildMoves(builds, st.recoveries, known1, m.j, RunBuild(st.makers, st.env, m));
  }

  lemma CalledIsNew(st: State, j: nat, ref: Ref)
    requires MakeInv(st) && RecoveriesSound(st.recoveries, st.env.known) && j < |st.makers.builds|
    requires ref !in st.env.known
    ensures var id := st.makers.builds[j].task.id;
            id in st.recoveries && D.IsNew(st.recoveries[id], ref, st.env.known + {ref})
    ensures forall i :: 0 <= i < |st.makers.builds| ==> st.makers.builds[i].made != Some(ref)
  {
    assert st.makers.builds[j].task in st.makers.tasks;
    assert D.RecoverySound(st.recoveries[st.makers.builds[j].task.id], st.env.known);
    forall i | 0 <= i < |st.makers.builds| ensures st.makers.builds[i].made != Some(ref) {
      assert BuildNew(st.makers.builds[i], st.recoveries, st.env.known);
    }
  }

  lemma MakerMake(st: State, m: MakerStep)
    requires MakeInv(st) && RecoveriesSound(st.recoveries, st.env.known) && MakerCan(st.makers, st.env, m)
    ensures MakeInv(Next(st, MakerMoves(m)))
  {
    var r := Next(st, MakerMoves(m));
    M.MakerStepSound(st.makers, st.env, m);
    MadeIsNew(st, m);
    forall id | id in st.recoveries ensures TargetsMade(st.recoveries[id], id, r.makers.builds) {
      assert TargetsMade(st.recoveries[id], id, st.makers.builds);
      forall i | 0 <= i < |st.recoveries[id].targets|
        ensures M.StateSound(st.recoveries[id].targets[i].state, r.makers.builds,
                             CreateKey(CreateTaskAt(st.recoveries[id], id, i)))
      {
        M.StateStays(st.makers, st.env, m, st.recoveries[id].targets[i].state,
                     CreateKey(CreateTaskAt(st.recoveries[id], id, i)));
      }
    }
  }

  lemma StepMake(st: State, step: Step)
    requires MakeInv(st) && RecoveriesSound(st.recoveries, st.env.known) && Can(st, step)
    ensures MakeInv(Next(st, step))
  {
    match step
    case EnvMoves(e) =>
    case BeginRecovery(id, group, expected, plans) => BeginRecoveryMake(st, id, group, expected, plans);
    case RecoveryMoves(id, r) => RecoveryMake(st, id, r);
    case MakerMoves(m) => MakerMake(st, m);
    case _ =>
  }

  // ---------------------------------------------------------------------------------
  // Whole runs
  // ---------------------------------------------------------------------------------

  ghost predicate Inv(st: State) { PublishInv(st) && StopInv(st) && MakeInv(st) }

  lemma InitInv(st: State)
    requires IsInit(st)
    ensures Inv(st)
  {
  }

  lemma {:induction false} RunInv(states: seq<State>, steps: seq<Step>, k: nat)
    requires IsRun(states, steps) && k <= |steps|
    ensures Inv(states[k])
  {
    if k == 0 {
      InitInv(states[0]);
    } else {
      RunInv(states, steps, k - 1);
      assert Joined(states, steps, k - 1);
      StepPublish(states[k - 1], steps[k - 1]);
      StepStop(states[k - 1], steps[k - 1]);
      StepMake(states[k - 1], steps[k - 1]);
    }
  }

  /** At most once: over one lifetime of an agent, Runtime.Stop is called at most once for a
      request and a target, despite retries, late requests, full queues and lost results. */
  lemma StopAtMostOnce(states: seq<State>, steps: seq<Step>, k: nat, key: Key)
    requires IsRun(states, steps) && k <= |steps|
    ensures A.Count(states[k].agents.jobs, A.Called(key)) <= 1
  {
    RunInv(states, steps, k);
    A.AtMostOneCall(states[k].agents, key);
  }

  /** At most once: over one lifetime of an agent, Runtime.CreateService is called at most once for
      a request and a removed service, despite retries, late requests, full queues and lost
      results. */
  lemma CreateAtMostOnce(states: seq<State>, steps: seq<Step>, k: nat, key: Key)
    requires IsRun(states, steps) && k <= |steps|
    ensures M.Count(states[k].makers.builds, M.Called(key)) <= 1
  {
    RunInv(states, steps, k);
    M.AtMostOneBuild(states[k].makers, key);
  }

  /** Safe: whatever is stopped belongs to a drain that reached ReadyToStop, its guard is
      draining and drains for the rest of the run, and the set that the Directory showed just
      before did not contain it. */
  lemma StopIsSafe(states: seq<State>, steps: seq<Step>, k: nat, j: nat, later: nat)
    requires IsRun(states, steps) && k <= later <= |steps|
    requires j < |states[k].agents.jobs| && states[k].agents.jobs[j].called
    ensures var job := states[k].agents.jobs[j];
            && job.task.id in states[k].drains && states[k].drains[job.task.id].phase.ReadyToStop?
            && job.task.target in SetOf(states[k].drains[job.task.id].original.refs)
            && job.task.target in states[k].env.guards && job.task.target in states[later].env.guards
            && job.task.target !in SetOf(job.seen.refs)
  {
    RunInv(states, steps, k);
    CalledIsSafe(states[k], j);
    GuardsStay(states, steps, k, later);
  }

  lemma CalledIsSafe(st: State, j: nat)
    requires DrainsSound(st.drains, st.env) && StopInv(st) && j < |st.agents.jobs| && st.agents.jobs[j].called
    ensures var job := st.agents.jobs[j];
            && job.task.id in st.drains && st.drains[job.task.id].phase.ReadyToStop?
            && job.task.target in SetOf(st.drains[job.task.id].original.refs)
            && job.task.target in st.env.guards && job.task.target !in SetOf(job.seen.refs)
  {
    var job := st.agents.jobs[j];
    assert A.JobSound(job) && TaskSound(job.task, st.drains);
    assert D.DrainSound(st.drains[job.task.id], st.env.known, st.env.guards);
  }

  /** A guard that drains never stops draining. */
  lemma {:induction false} GuardsStay(states: seq<State>, steps: seq<Step>, j: nat, k: nat)
    requires IsRun(states, steps) && j <= k <= |steps|
    ensures states[j].env.guards <= states[k].env.guards
    decreases k
  {
    if j < k {
      GuardsStay(states, steps, j, k - 1);
      assert Joined(states, steps, k - 1);
      GuardsGrow(states[k - 1], steps[k - 1]);
    }
  }

  lemma GuardsGrow(st: State, step: Step)
    requires Can(st, step)
    ensures st.env.guards <= Next(st, step).env.guards
  {
  }

  /** A completed stop has stopped each of its targets, exactly once. */
  lemma CompletedStop(states: seq<State>, steps: seq<Step>, k: nat, id: nat, i: nat)
    requires IsRun(states, steps) && k <= |steps| && id in states[k].stops
    requires states[k].stops[id].phase.StopCompleted? && i < |states[k].stops[id].targets|
    ensures A.Count(states[k].agents.jobs, A.Called(KeyAt(states[k].stops[id], id, i))) == 1
  {
    RunInv(states, steps, k);
    var op := states[k].stops[id];
    assert StopReported(op, id, states[k].agents.jobs) && StopPhaseSound(op);
    AllStopped(op.targets, i);
    A.AtMostOneCall(states[k].agents, KeyAt(op, id, i));
  }

  lemma AllStopped(targets: seq<StopTarget>, i: nat)
    requires Concluded(targets).StopCompleted? && i < |targets|
    ensures targets[i].state.TStopped?
  {
    assert !AnyIn(targets, TSuperseded) && !AnyIn(targets, TPending) && !AnyIn(targets, TQueued)
        && !AnyIn(targets, TFailed);
  }

  /** Nobody publishes twice: each drain and each recovery calls publish at most once. */
  lemma PublishAtMostOnce(states: seq<State>, steps: seq<Step>, k: nat, sender: Sender)
    requires IsRun(states, steps) && k <= |steps|
    ensures Occurs(states[k].env.publishes, sender) <= 1
  {
    RunInv(states, steps, k);
  }

  /** A drain that recorded a publish recorded the requested content at the next version. */
  lemma RecordedPublish(states: seq<State>, steps: seq<Step>, k: nat, id: nat)
    requires IsRun(states, steps) && k <= |steps| && id in states[k].drains
    requires D.HasPublished(states[k].drains[id].phase)
    ensures var d := states[k].drains[id];
            && d.published.refs == d.request.refs && d.published.tags == d.request.tags
            && d.published.version == Version(d.request.expected.epoch, d.request.expected.revision + 1)
            && AreTargets(d.targets, d.original, d.published)
  {
    RunInv(states, steps, k);
    assert D.DrainSound(states[k].drains[id], states[k].env.known, states[k].env.guards);
  }

  /** What a recovery holds for its targets was made for each of them, by different builds. */
  lemma ReplacementsMade(st: State, id: nat, i: nat)
    requires MakeInv(st) && id in st.recoveries && i < |st.recoveries[id].targets|
    requires st.recoveries[id].targets[i].state.MCreated?
    ensures var r := st.recoveries[id];
            var key := CreateKey(CreateTaskAt(r, id, i));
            && M.MadeFor(st.makers.builds, key, r.targets[i].state.ref)
            && M.Count(st.makers.builds, M.Called(key)) == 1
  {
    var r := st.recoveries[id];
    var key := CreateKey(CreateTaskAt(r, id, i));
    assert TargetsMade(r, id, st.makers.builds);
    assert M.StateSound(r.targets[i].state, st.makers.builds, key);
    var j :| 0 <= j < |st.makers.builds| && CreateKey(st.makers.builds[j].task) == key
             && st.makers.builds[j].made == Some(r.targets[i].state.ref);
    assert M.BuildSound(st.makers.builds[j]);
    M.CountOne(st.makers.builds, j, M.Called(key));
    M.AtMostOneBuild(st.makers, key);
  }

  lemma ReplacementsDiffer(st: State, id: nat, i: nat, j: nat)
    requires MakeInv(st) && id in st.recoveries && i < j < |st.recoveries[id].targets|
    requires D.RemovedOnce(st.recoveries[id].targets)
    requires st.recoveries[id].targets[i].state.MCreated? && st.recoveries[id].targets[j].state.MCreated?
    ensures st.recoveries[id].targets[i].state.ref != st.recoveries[id].targets[j].state.ref
  {
    var r, builds := st.recoveries[id], st.makers.builds;
    ReplacementsMade(st, id, i);
    ReplacementsMade(st, id, j);
    var a :| 0 <= a < |builds| && CreateKey(builds[a].task) == CreateKey(CreateTaskAt(r, id, i))
             && builds[a].made == Some(r.targets[i].state.ref);
    var b :| 0 <= b < |builds| && CreateKey(builds[b].task) == CreateKey(CreateTaskAt(r, id, j))
             && builds[b].made == Some(r.targets[j].state.ref);
    assert a != b;
  }

  lemma {:induction false} DistinctSize(s: seq<Ref>)
    requires Distinct(s)
    ensures |SetOf(s)| == |s|
  {
    if s == [] {
      EmptySet(s);
    } else {
      var n := |s| - 1;
      DistinctSize(s[..n]);
      SetOfAppend(s[..n], s[n]);
      assert s == s[..n] + [s[n]];
      assert s[n] !in SetOf(s[..n]);
    }
  }

  lemma SortedDistinct(s: seq<Ref>)
    requires StrictlySorted(s)
    ensures Distinct(s)
  {
    forall i, j | 0 <= i < j < |s| ensures s[i] != s[j] { assert Less(s[i], s[j]); }
  }

  /** A completed recovery gave each of its targets one replacement, made for it by the one
      creation of its agent, and the Directory as many services more as were removed. */
  lemma ReplacesEach(states: seq<State>, steps: seq<Step>, k: nat, id: nat)
    requires IsRun(states, steps) && k <= |steps| && id in states[k].recoveries
    requires states[k].recoveries[id].phase.RecoveryCompleted?
    ensures var r, builds := states[k].recoveries[id], states[k].makers.builds;
            && AllCreated(r.targets) && Distinct(CreatedRefs(r.targets))
            && |r.published.refs| == |r.expected.refs| + |r.targets|
            && forall i :: 0 <= i < |r.targets| ==> Replaced(builds, r, id, i)
  {
    RunInv(states, steps, k);
    var st, r := states[k], states[k].recoveries[id];
    var created := CreatedRefs(r.targets);
    D.CompletedRefs(r, st.env.known);
    forall i, j | 0 <= i < j < |created| ensures created[i] != created[j] { ReplacementsDiffer(st, id, i, j); }
    forall i | 0 <= i < |r.targets| ensures Replaced(st.makers.builds, r, id, i) { ReplacementsMade(st, id, i); }
    PublishedSize(r, st.env.known);
  }

  predicate Replaced(builds: seq<Build>, r: Recovery, id: nat, i: nat)
  {
    && i < |r.targets| && r.targets[i].state.MCreated?
    && M.MadeFor(builds, CreateKey(CreateTaskAt(r, id, i)), r.targets[i].state.ref)
    && M.Count(builds, M.Called(CreateKey(CreateTaskAt(r, id, i)))) == 1
  }

  lemma PublishedSize(r: Recovery, known: set<Ref>)
    requires D.RecoverySound(r, known) && r.phase.RecoveryCompleted? && Distinct(CreatedRefs(r.targets))
    ensures |r.published.refs| == |r.expected.refs| + |r.targets|
  {
    var created := CreatedRefs(r.targets);
    D.CompletedRefs(r, known);
    SortedDistinct(r.published.refs);
    SortedDistinct(r.expected.refs);
    DistinctSize(r.published.refs);
    DistinctSize(r.expected.refs);
    DistinctSize(created);
    forall x | x in SetOf(created) ensures x !in SetOf(r.expected.refs) {
      var i :| 0 <= i < |created| && created[i] == x;
      assert D.TargetSound(r, i, known);
    }
    assert SetOf(r.expected.refs) !! SetOf(created);
  }

  /** A completed recovery published the strictly sorted union of the expected and the created
      services at the next version, and none of the services that were removed. */
  lemma CompletedRecovery(states: seq<State>, steps: seq<Step>, k: nat, id: nat)
    requires IsRun(states, steps) && k <= |steps| && id in states[k].recoveries
    requires states[k].recoveries[id].phase.RecoveryCompleted?
    ensures var r := states[k].recoveries[id];
            && StrictlySorted(r.published.refs) && r.published.version == NextVersion(r.expected.version)
            && AllCreated(r.targets) && SetOf(r.published.refs)
               == SetOf(r.expected.refs) + SetOf(CreatedRefs(r.targets))
            && SetOf(r.published.refs) !! D.Removed(r.targets)
  {
    RunInv(states, steps, k);
    D.CompletedRefs(states[k].recoveries[id], states[k].env.known);
  }
}
