/** Draining, stopping and recovering services: a coordinator, node agents with their
    runners, guards, and a versioned Directory that others may publish to as well.  Requests
    between them may be late or lost, and calls may time out after they took effect. */
module ControlModel {
  import opened RefSets

  datatype Option<T> = None | Some(value: T)

  datatype Version = Version(epoch: nat, revision: nat)

  datatype ServiceSet = ServiceSet(version: Version, refs: seq<Ref>, tags: nat)

  function NextVersion(v: Version): Version { Version(v.epoch, v.revision + 1) }

  // ---------------------------------------------------------------------------------
  // Drains
  // ---------------------------------------------------------------------------------

  datatype DrainRequest = DrainRequest(group: nat, expected: Version, refs: seq<Ref>, tags: nat)

  /** Publishing: the Directory has been read and matched.  Asked: a publish call is open.
      GuardingChecked and WaitingChecked: the Directory still showed the published set. */
  datatype DrainPhase =
    | Preparing | Publishing | Asked | PublishUnknown
    | Guarding | GuardingChecked | Waiting | WaitingChecked
    | ReadyToStop | Conflict | Superseded

  datatype Drain = Drain(request: DrainRequest, phase: DrainPhase, original: ServiceSet, published: ServiceSet,
                         targets: seq<Ref>, guarded: set<Ref>)

  function RequestedSet(r: DrainRequest): ServiceSet { ServiceSet(NextVersion(r.expected), r.refs, r.tags) }

  predicate VersionAfter(expected: Version, actual: Version)
  {
    if actual.epoch != expected.epoch then actual.epoch != 0 else actual.revision > expected.revision
  }

  ghost predicate AreTargets(targets: seq<Ref>, original: ServiceSet, published: ServiceSet)
  {
    StrictlySorted(targets) && SetOf(targets) == SetOf(original.refs) - SetOf(published.refs)
  }

  // ---------------------------------------------------------------------------------
  // Stops
  // ---------------------------------------------------------------------------------

  datatype TargetState = TPending | TQueued | TStopped | TFailed | TSuperseded

  datatype StopPhase = Dispatching | StopWaiting | StopCompleted | StopFailed | StopSuperseded

  datatype StopTarget = StopTarget(target: Ref, agent: Ref, state: TargetState)

  datatype StopOp = StopOp(group: nat, published: ServiceSet, targets: seq<StopTarget>, phase: StopPhase)

  predicate StopTerminal(p: StopPhase) { p.StopCompleted? || p.StopFailed? || p.StopSuperseded? }

  predicate AnyIn(targets: seq<StopTarget>, state: TargetState)
  {
    exists i :: 0 <= i < |targets| && targets[i].state == state
  }

  /** What the states of the targets make of a stop. */
  function Concluded(targets: seq<StopTarget>): StopPhase
  {
    if AnyIn(targets, TSuperseded) then StopSuperseded
    else if AnyIn(targets, TPending) || AnyIn(targets, TQueued) then StopWaiting
    else if AnyIn(targets, TFailed) then StopFailed
    else StopCompleted
  }

  datatype StopTask = StopTask(agent: Ref, id: nat, target: Ref, group: nat, published: ServiceSet)

  datatype Key = Key(agent: Ref, id: nat, target: Ref)

  function KeyOf(t: StopTask): Key { Key(t.agent, t.id, t.target) }

  datatype Receipt = Receipt(task: StopTask, state: TargetState)

  /** A job is one submission to a runner.  `called` says that Runtime.Stop was called for it
      and `seen` is the set that the Directory showed just before; `result` is what the
      runner reports, and the report may arrive at the agent once or be lost. */
  datatype JobStage = InQueue | Matched | Answering | Arrived | Lost

  datatype Job = Job(task: StopTask, stage: JobStage, called: bool, seen: ServiceSet, result: TargetState)

  datatype Report = Report(key: Key, state: TargetState)

  // ---------------------------------------------------------------------------------
  // Recoveries
  // ---------------------------------------------------------------------------------

  datatype RecoveryPhase = Creating | AwaitingConfirmation | RecoveryAsked | RecoveryPublishing
    | RecoveryCompleted | RecoveryFailed | RecoveryAbandoned

  /** How far a node is with the replacement of a service.  MFull says that its runner had no
      room, after which the task may be submitted again. */
  datatype Making = MPending | MCreating | MFull | MFailed | MCreated(ref: Ref)

  /** `state` is what the coordinator knows of a target. */
  datatype RecoveryTarget = RecoveryTarget(removed: Ref, agent: Ref, blueprint: nat, state: Making)

  datatype Recovery = Recovery(group: nat, expected: ServiceSet, targets: seq<RecoveryTarget>, phase: RecoveryPhase,
                               candidate: ServiceSet, published: ServiceSet)

  predicate AllCreated(targets: seq<RecoveryTarget>) { forall i :: 0 <= i < |targets| ==> targets[i].state.MCreated? }

  function CreatedRefs(targets: seq<RecoveryTarget>): seq<Ref>
    requires AllCreated(targets)
  {
    seq(|targets|, i requires 0 <= i < |targets| => targets[i].state.ref)
  }

  ghost predicate IsCandidate(refs: seq<Ref>, r: Recovery)
    requires AllCreated(r.targets)
  {
    StrictlySorted(refs) && SetOf(refs) == SetOf(r.expected.refs) + SetOf(CreatedRefs(r.targets))
  }

  function CandidateSet(r: Recovery, refs: seq<Ref>): ServiceSet
  {
    ServiceSet(NextVersion(r.expected.version), refs, r.expected.tags)
  }

  datatype CreateTask = CreateTask(agent: Ref, id: nat, removed: Ref, blueprint: nat)

  function CreateKey(t: CreateTask): Key { Key(t.agent, t.id, t.removed) }

  datatype CreateReceipt = CreateReceipt(task: CreateTask, state: Making)

  /** A build is one submission to a recovery runner.  `called` says that Runtime.CreateService was
      called for it and `made` is the service that this made, be it reported or not; `result` is
      what the runner reports, and the report may arrive at the agent once or be lost. */
  datatype Build = Build(task: CreateTask, stage: JobStage, called: bool, made: Option<Ref>, result: Making)

  datatype CreateReport = CreateReport(task: CreateTask, state: Making)

  // ---------------------------------------------------------------------------------
  // The environment: the Directory, the guards, publish calls on their way
  // ---------------------------------------------------------------------------------

  datatype Sender = FromDrain(id: nat) | FromRecovery(id: nat)

  /** A publish call on its way: it compares the version and sets the content. */
  datatype Wish = Wish(group: nat, expected: Version, refs: seq<Ref>, tags: nat)

  function WishedSet(w: Wish): ServiceSet { ServiceSet(NextVersion(w.expected), w.refs, w.tags) }

  /** `publishes` lists who called publish, in order.  `guards` are the services whose guard
      is draining, and `known` the references the runtime has ever issued. */
  datatype Env = Env(directory: map<nat, ServiceSet>, known: set<Ref>, guards: set<Ref>, wishes: map<Sender, Wish>,
                     applied: map<Sender, ServiceSet>, refused: set<Sender>, publishes: seq<Sender>)

  datatype EnvStep =
    | OtherPublish(group: nat, content: ServiceSet)
    | ApplyWish(sender: Sender)
    | GuardBegins(ref: Ref)

  /** Directory sets are sorted, and name services that the runtime has issued. */
  predicate ValidSet(s: ServiceSet, known: set<Ref>) { StrictlySorted(s.refs) && SetOf(s.refs) <= known }

  predicate EnvCan(env: Env, step: EnvStep)
  {
    match step
    case OtherPublish(_, content) => ValidSet(content, env.known)
    case ApplyWish(sender) => sender in env.wishes
    case GuardBegins(_) => true
  }

  function EnvDo(env: Env, step: EnvStep): Env
    requires EnvCan(env, step)
  {
    match step
    case OtherPublish(group, content) => env.(directory := env.directory[group := content])
    case ApplyWish(sender) =>
      var w := env.wishes[sender];
      var rest := env.(wishes := env.wishes - {sender});
      if w.group in env.directory && env.directory[w.group].version == w.expected
      then rest.(directory := env.directory[w.group := WishedSet(w)], applied := env.applied[sender := WishedSet(w)])
      else rest.(refused := env.refused + {sender})
    case GuardBegins(ref) => env.(guards := env.guards + {ref})
  }

  predicate Shows(env: Env, group: nat, content: ServiceSet)
  {
    group in env.directory && env.directory[group] == content
  }

  function CallPublish(env: Env, sender: Sender, w: Wish): Env
  {
    env.(wishes := env.wishes[sender := w], publishes := env.publishes + [sender])
  }

  // ---------------------------------------------------------------------------------
  // Steps of a drain
  // ---------------------------------------------------------------------------------

  datatype DrainStep =
    | ReadDirectory
    | Publish
    | PublishSucceeds(targets: seq<Ref>)
    | PublishConflicts
    | PublishTimesOut
    | ConfirmPublished(targets: seq<Ref>)
    | CheckDirectory
    | SeeGuarded(ref: Ref)
    | AllGuarded
    | VisitorsGone
    | Pause

  ghost predicate DrainCan(d: Drain, env: Env, id: nat, step: DrainStep)
  {
    match step
    case ReadDirectory => d.phase.Preparing? && d.request.group in env.directory
    case Publish => d.phase.Publishing?
    case PublishSucceeds(targets) =>
      d.phase.Asked? && FromDrain(id) in env.applied && AreTargets(targets, d.original, env.applied[FromDrain(id)])
    case PublishConflicts => d.phase.Asked? && FromDrain(id) in env.refused
    case PublishTimesOut => d.phase.Asked?
    case ConfirmPublished(targets) =>
      d.phase.PublishUnknown? && d.request.group in env.directory
      && AreTargets(targets, d.original, env.directory[d.request.group])
    case CheckDirectory => (d.phase.Guarding? || d.phase.Waiting?) && d.request.group in env.directory
    case SeeGuarded(ref) => d.phase.GuardingChecked? && ref in env.guards
    case AllGuarded => d.phase.GuardingChecked? && SetOf(d.targets) <= d.guarded
    case VisitorsGone => d.phase.WaitingChecked?
    case Pause => d.phase.GuardingChecked? || d.phase.WaitingChecked?
  }

  function Confirmed(d: Drain, published: ServiceSet, targets: seq<Ref>): Drain
  {
    d.(phase := Guarding, published := published, targets := targets, guarded := {})
  }

  ghost function DrainDo(d: Drain, env: Env, id: nat, step: DrainStep): Drain
    requires DrainCan(d, env, id, step)
  {
    match step
    case ReadDirectory =>
      var current := env.directory[d.request.group];
      if current.version != d.request.expected then d.(phase := Conflict)
      else d.(phase := Publishing, original := current)
    case Publish => d.(phase := Asked)
    case PublishSucceeds(targets) => Confirmed(d, env.applied[FromDrain(id)], targets)
    case PublishConflicts => d.(phase := Conflict)
    case PublishTimesOut => d.(phase := PublishUnknown)
    case ConfirmPublished(targets) =>
      var current := env.directory[d.request.group];
      if current == RequestedSet(d.request) then Confirmed(d, current, targets)
      else if VersionAfter(d.request.expected, current.version) then d.(phase := Superseded)
      else d
    case CheckDirectory =>
      if env.directory[d.request.group] != d.published then d.(phase := Superseded)
      else d.(phase := if d.phase.Guarding? then GuardingChecked else WaitingChecked)
    case SeeGuarded(ref) => d.(guarded := d.guarded + {ref})
    case AllGuarded => d.(phase := Waiting)
    case VisitorsGone => d.(phase := ReadyToStop)
    case Pause => d.(phase := if d.phase.GuardingChecked? then Guarding else Waiting)
  }

  function DrainEnv(d: Drain, env: Env, id: nat, step: DrainStep): Env
  {
    if step.Publish?
    then CallPublish(env, FromDrain(id), Wish(d.request.group, d.request.expected, d.request.refs, d.request.tags))
    else env
  }

  // ---------------------------------------------------------------------------------
  // Steps of a stop
  // ---------------------------------------------------------------------------------

  datatype StopStep =
    | SendStop(i: nat)
    | TakeReport(i: nat, state: TargetState)
    | Conclude

  function KeyAt(op: StopOp, id: nat, i: nat): Key
    requires i < |op.targets|
  {
    Key(op.targets[i].agent, id, op.targets[i].target)
  }

  predicate StopCan(op: StopOp, reports: set<Report>, env: Env, id: nat, step: StopStep)
  {
    && !StopTerminal(op.phase)
    && match step
       case SendStop(i) => i < |op.targets| && op.targets[i].state.TPending? && op.group in env.directory
       case TakeReport(i, state) => i < |op.targets| && Report(KeyAt(op, id, i), state) in reports
       case Conclude => true
  }

  function StopDo(op: StopOp, reports: set<Report>, env: Env, id: nat, step: StopStep): StopOp
    requires StopCan(op, reports, env, id, step)
  {
    match step
    case SendStop(i) => if env.directory[op.group] != op.published then op.(phase := StopSuperseded) else op
    case TakeReport(i, state) => op.(targets := op.targets[i := op.targets[i].(state := state)])
    case Conclude => op.(phase := Concluded(op.targets))
  }

  function TaskAt(op: StopOp, id: nat, i: nat): StopTask
    requires i < |op.targets|
  {
    StopTask(op.targets[i].agent, id, op.targets[i].target, op.group, op.published)
  }

  function StopTasks(op: StopOp, env: Env, id: nat, step: StopStep): set<StopTask>
  {
    if step.SendStop? && step.i < |op.targets| && Shows(env, op.group, op.published) then {TaskAt(op, id, step.i)}
    else {}
  }

  // ---------------------------------------------------------------------------------
  // Steps of the agents and their runners
  // ---------------------------------------------------------------------------------

  datatype Agents = Agents(tasks: set<StopTask>, receipts: map<Key, Receipt>, jobs: seq<Job>, reports: set<Report>)

  datatype Submission = Queued | Full | Closed

  datatype AgentStep =
    | Begin(task: StopTask, submission: Submission)
    | ReportState(key: Key)
    | Read(j: nat, available: bool)
    | Cancel(j: nat)
    | CallStop(j: nat, ok: bool)
    | ResultArrives(j: nat)
    | ResultLost(j: nat)

  predicate AgentCan(a: Agents, env: Env, step: AgentStep)
  {
    match step
    case Begin(task, _) => task in a.tasks
    case ReportState(key) => key in a.receipts
    case Read(j, available) =>
      j < |a.jobs| && a.jobs[j].stage.InQueue? && (available ==> a.jobs[j].task.group in env.directory)
    case Cancel(j) => j < |a.jobs| && a.jobs[j].stage.InQueue?
    case CallStop(j, _) => j < |a.jobs| && a.jobs[j].stage.Matched?
    case ResultArrives(j) => j < |a.jobs| && a.jobs[j].stage.Answering?
    case ResultLost(j) => j < |a.jobs| && a.jobs[j].stage.Answering?
  }

  /** A task is submitted when it is new, or when its receipt says that it is pending. */
  predicate Submits(a: Agents, task: StopTask)
  {
    KeyOf(task) in a.receipts ==> a.receipts[KeyOf(task)] == Receipt(task, TPending)
  }

  function Submitted(a: Agents, task: StopTask, submission: Submission): Agents
  {
    match submission
    case Queued =>
      a.(receipts := a.receipts[KeyOf(task) := Receipt(task, TQueued)],
         jobs := a.jobs + [Job(task, InQueue, false, task.published, TPending)])
    case Full => a.(receipts := a.receipts[KeyOf(task) := Receipt(task, TPending)])
    case Closed => a.(receipts := a.receipts[KeyOf(task) := Receipt(task, TFailed)])
  }

  function Answer(job: Job, result: TargetState): Job { job.(stage := Answering, result := result) }

  /** The Directory is read once more before anything is stopped. */
  function ReadJob(job: Job, env: Env, available: bool): Job
    requires available ==> job.task.group in env.directory
  {
    if !available then Answer(job, TPending)
    else if env.directory[job.task.group] != job.task.published then Answer(job, TSuperseded)
    else job.(stage := Matched, seen := env.directory[job.task.group])
  }

  function RunJob(a: Agents, env: Env, step: AgentStep): Job
    requires AgentCan(a, env, step) && !step.Begin? && !step.ReportState?
  {
    var job := a.jobs[step.j];
    match step
    case Read(_, available) => ReadJob(job, env, available)
    case Cancel(_) => Answer(job, TFailed)
    case CallStop(_, ok) => Answer(job, if ok then TStopped else TFailed).(called := true)
    case ResultArrives(_) => job.(stage := Arrived)
    case ResultLost(_) => job.(stage := Lost)
  }

  /** A result changes a receipt only while it is queued. */
  function Record(receipts: map<Key, Receipt>, job: Job): map<Key, Receipt>
  {
    var key := KeyOf(job.task);
    if key in receipts && receipts[key].state.TQueued? then receipts[key := receipts[key].(state := job.result)]
    else receipts
  }

  function AgentDo(a: Agents, env: Env, step: AgentStep): Agents
    requires AgentCan(a, env, step)
  {
    match step
    case Begin(task, submission) => if Submits(a, task) then Submitted(a, task, submission) else a
    case ReportState(key) => a.(reports := a.reports + {Report(key, a.receipts[key].state)})
    case _ =>
      var moved := a.(jobs := a.jobs[step.j := RunJob(a, env, step)]);
      if step.ResultArrives? then moved.(receipts := Record(a.receipts, a.jobs[step.j])) else moved
  }

  // ---------------------------------------------------------------------------------
  // Steps of a recovery
  // ---------------------------------------------------------------------------------

  datatype RecoveryStep =
    | SendCreate(i: nat)
    | TakeReceipt(i: nat, state: Making)
    | AllAreCreated
    | Fail
    | PublishCandidate(refs: seq<Ref>)
    | CandidatePublished
    | CandidateTimesOut
    | Resolve
    | Abandon

  function CreateTaskAt(r: Recovery, id: nat, i: nat): CreateTask
    requires i < |r.targets|
  {
    CreateTask(r.targets[i].agent, id, r.targets[i].removed, r.targets[i].blueprint)
  }

  ghost predicate RecoveryCan(r: Recovery, reports: set<CreateReport>, env: Env, id: nat, step: RecoveryStep)
  {
    match step
    case SendCreate(i) => r.phase.Creating? && i < |r.targets| && r.targets[i].state.MPending?
    case TakeReceipt(i, state) =>
      && r.phase.Creating? && i < |r.targets| && (r.targets[i].state.MPending? || r.targets[i].state.MCreating?)
      && CreateReport(CreateTaskAt(r, id, i), state) in reports
    case AllAreCreated => r.phase.Creating? && AllCreated(r.targets)
    case Fail => r.phase.Creating? || r.phase.AwaitingConfirmation?
    case PublishCandidate(refs) =>
      r.phase.AwaitingConfirmation? && Shows(env, r.group, r.expected) && AllCreated(r.targets) && IsCandidate(refs, r)
    case CandidatePublished => r.phase.RecoveryAsked? && FromRecovery(id) in env.applied
    case CandidateTimesOut => r.phase.RecoveryAsked?
    case Resolve => r.phase.RecoveryPublishing? && r.group in env.directory
    case Abandon => !r.phase.RecoveryCompleted? && !r.phase.RecoveryPublishing? && !r.phase.RecoveryAsked?
  }

  ghost function RecoveryDo(r: Recovery, reports: set<CreateReport>, env: Env, id: nat, step: RecoveryStep): Recovery
    requires RecoveryCan(r, reports, env, id, step)
  {
    match step
    case SendCreate(i) => r
    case TakeReceipt(i, state) => r.(targets := r.targets[i := r.targets[i].(state := state)])
    case AllAreCreated => r.(phase := AwaitingConfirmation)
    case Fail => r.(phase := RecoveryFailed)
    case PublishCandidate(refs) => r.(phase := RecoveryAsked, candidate := CandidateSet(r, refs))
    case CandidatePublished => r.(phase := RecoveryCompleted, published := env.applied[FromRecovery(id)])
    case CandidateTimesOut => r.(phase := RecoveryPublishing)
    case Resolve =>
      if env.directory[r.group] == r.candidate then r.(phase := RecoveryCompleted, published := r.candidate)
      else if env.directory[r.group] != r.expected then r.(phase := RecoveryFailed)
      else r
    case Abandon => r.(phase := RecoveryAbandoned)
  }

  function RecoveryEnv(r: Recovery, env: Env, id: nat, step: RecoveryStep): Env
  {
    if step.PublishCandidate?
    then CallPublish(env, FromRecovery(id), Wish(r.group, r.expected.version, step.refs, r.expected.tags))
    else env
  }

  function CreateTasks(r: Recovery, id: nat, step: RecoveryStep): set<CreateTask>
  {
    if step.SendCreate? && step.i < |r.targets| then {CreateTaskAt(r, id, step.i)} else {}
  }

  // ---------------------------------------------------------------------------------
  // Steps of the agents and their recovery runners
  // ---------------------------------------------------------------------------------

  datatype Makers = Makers(tasks: set<CreateTask>, receipts: map<Key, CreateReceipt>, builds: seq<Build>,
                           reports: set<CreateReport>)

  datatype MakerStep =
    | BeginCreate(task: CreateTask, submission: Submission)
    | ReportCreate(key: Key)
    | GiveUp(j: nat)
    | CallCreate(j: nat, made: Option<Ref>, ok: bool)
    | CreateArrives(j: nat)
    | CreateLost(j: nat)

  /** The runtime issues a new reference for every service. */
  predicate MakerCan(m: Makers, env: Env, step: MakerStep)
  {
    match step
    case BeginCreate(task, _) => task in m.tasks
    case ReportCreate(key) => key in m.receipts
    case GiveUp(j) => j < |m.builds| && m.builds[j].stage.InQueue?
    case CallCreate(j, made, _) =>
      j < |m.builds| && m.builds[j].stage.InQueue? && (made.Some? ==> made.value !in env.known)
    case CreateArrives(j) => j < |m.builds| && m.builds[j].stage.Answering?
    case CreateLost(j) => j < |m.builds| && m.builds[j].stage.Answering?
  }

  /** A task is submitted when it is new, or when the queue was full the last time. */
  predicate SubmitsCreate(receipts: map<Key, CreateReceipt>, task: CreateTask)
  {
    CreateKey(task) in receipts ==> receipts[CreateKey(task)] == CreateReceipt(task, MFull)
  }

  function SubmittedState(submission: Submission): Making
  {
    match submission case Queued => MCreating case Full => MFull case Closed => MFailed
  }

  function SubmittedCreate(m: Makers, task: CreateTask, submission: Submission): Makers
  {
    m.(receipts := m.receipts[CreateKey(task) := CreateReceipt(task, SubmittedState(submission))],
       builds := m.builds + if submission.Queued? then [Build(task, InQueue, false, None, MFailed)] else [])
  }

  function RunBuild(m: Makers, env: Env, step: MakerStep): Build
    requires MakerCan(m, env, step) && !step.BeginCreate? && !step.ReportCreate?
  {
    var b := m.builds[step.j];
    match step
    case GiveUp(_) => b.(stage := Answering, result := MFailed)
    case CallCreate(_, made, ok) =>
      b.(stage := Answering, called := true, made := made,
         result := if ok && made.Some? then MCreated(made.value) else MFailed)
    case CreateArrives(_) => b.(stage := Arrived)
    case CreateLost(_) => b.(stage := Lost)
  }

  /** A result changes a receipt only while it is creating, and for the same blueprint. */
  function RecordCreate(receipts: map<Key, CreateReceipt>, b: Build): map<Key, CreateReceipt>
  {
    var key := CreateKey(b.task);
    if key in receipts && receipts[key].state.MCreating? && receipts[key].task.blueprint == b.task.blueprint
    then receipts[key := receipts[key].(state := b.result)] else receipts
  }

  function MakerDo(m: Makers, env: Env, step: MakerStep): Makers
    requires MakerCan(m, env, step)
  {
    match step
    case BeginCreate(task, submission) =>
      if SubmitsCreate(m.receipts, task) then SubmittedCreate(m, task, submission) else m
    case ReportCreate(key) =>
      m.(reports := m.reports + {CreateReport(m.receipts[key].task, m.receipts[key].state)})
    case _ =>
      var moved := m.(builds := m.builds[step.j := RunBuild(m, env, step)]);
      if step.CreateArrives? then moved.(receipts := RecordCreate(m.receipts, m.builds[step.j])) else moved
  }

  function MakerEnv(env: Env, step: MakerStep): Env
  {
    if step.CallCreate? && step.made.Some? then env.(known := env.known + {step.made.value}) else env
  }

  // ---------------------------------------------------------------------------------
  // The whole system
  // ---------------------------------------------------------------------------------

  datatype State = State(env: Env, drains: map<nat, Drain>, stops: map<nat, StopOp>, recoveries: map<nat, Recovery>,
                         agents: Agents, makers: Makers)

  /** Who replaces a removed service, and by what. */
  datatype Plan = Plan(agent: Ref, blueprint: nat)

  datatype Step =
    | EnvMoves(env: EnvStep)
    | StartDrain(id: nat, request: DrainRequest)
    | DrainMoves(id: nat, drain: DrainStep)
    | BeginStop(id: nat, agents: seq<Ref>)
    | StopMoves(id: nat, stop: StopStep)
    | AgentMoves(agent: AgentStep)
    | BeginRecovery(id: nat, group: nat, expected: ServiceSet, plans: seq<Plan>)
    | RecoveryMoves(id: nat, recovery: RecoveryStep)
    | MakerMoves(maker: MakerStep)

  /** Only a drain that is ready can be stopped, and only while the Directory shows its set. */
  predicate StopReady(st: State, id: nat)
  {
    && id in st.drains && id !in st.stops && st.drains[id].phase.ReadyToStop?
    && Shows(st.env, st.drains[id].request.group, st.drains[id].published)
  }

  function NewStop(d: Drain, agents: seq<Ref>): StopOp
    requires |agents| == |d.targets|
  {
    StopOp(d.request.group, d.published,
           seq(|agents|, i requires 0 <= i < |agents| => StopTarget(d.targets[i], agents[i], TPending)), Dispatching)
  }

  predicate RecoveryReady(st: State, id: nat, group: nat, expected: ServiceSet)
  {
    && id in st.stops && id !in st.recoveries && StopTerminal(st.stops[id].phase)
    && StrictlySorted(expected.refs) && Shows(st.env, group, expected)
    && forall i :: 0 <= i < |st.stops[id].targets| ==> st.stops[id].targets[i].target !in SetOf(expected.refs)
  }

  function NewTarget(target: Ref, plan: Plan): RecoveryTarget
  {
    RecoveryTarget(target, plan.agent, plan.blueprint, MPending)
  }

  function NewRecovery(op: StopOp, group: nat, expected: ServiceSet, plans: seq<Plan>): Recovery
    requires |plans| == |op.targets|
  {
    Recovery(group, expected,
             seq(|plans|, i requires 0 <= i < |plans| => NewTarget(op.targets[i].target, plans[i])),
             Creating, expected, expected)
  }

  const NOTHING := ServiceSet(Version(0, 0), [], 0)

  ghost predicate Can(st: State, step: Step)
  {
    match step
    case EnvMoves(e) => EnvCan(st.env, e)
    case StartDrain(id, request) => id !in st.drains && ValidSet(RequestedSet(request), st.env.known)
    case DrainMoves(id, d) => id in st.drains && DrainCan(st.drains[id], st.env, id, d)
    case BeginStop(id, agents) => StopReady(st, id) && |agents| == |st.drains[id].targets|
    case StopMoves(id, s) => id in st.stops && StopCan(st.stops[id], st.agents.reports, st.env, id, s)
    case AgentMoves(a) => AgentCan(st.agents, st.env, a)
    case BeginRecovery(id, group, expected, plans) =>
      RecoveryReady(st, id, group, expected) && |plans| == |st.stops[id].targets|
    case RecoveryMoves(id, r) =>
      id in st.recoveries && RecoveryCan(st.recoveries[id], st.makers.reports, st.env, id, r)
    case MakerMoves(m) => MakerCan(st.makers, st.env, m)
  }

  ghost function Next(st: State, step: Step): State
    requires Can(st, step)
  {
    match step
    case EnvMoves(e) => st.(env := EnvDo(st.env, e))
    case StartDrain(id, request) => st.(drains := st.drains[id := Drain(request, Preparing, NOTHING, NOTHING, [], {})])
    case DrainMoves(id, d) =>
      st.(drains := st.drains[id := DrainDo(st.drains[id], st.env, id, d)],
          env := DrainEnv(st.drains[id], st.env, id, d))
    case BeginStop(id, agents) => st.(stops := st.stops[id := NewStop(st.drains[id], agents)])
    case StopMoves(id, s) =>
      st.(stops := st.stops[id := StopDo(st.stops[id], st.agents.reports, st.env, id, s)],
          agents := st.agents.(tasks := st.agents.tasks + StopTasks(st.stops[id], st.env, id, s)))
    case AgentMoves(a) => st.(agents := AgentDo(st.agents, st.env, a))
    case BeginRecovery(id, group, expected, plans) =>
      st.(recoveries := st.recoveries[id := NewRecovery(st.stops[id], group, expected, plans)])
    case RecoveryMoves(id, r) =>
      st.(recoveries := st.recoveries[id := RecoveryDo(st.recoveries[id], st.makers.reports, st.env, id, r)],
          env := RecoveryEnv(st.recoveries[id], st.env, id, r),
          makers := st.makers.(tasks := st.makers.tasks + CreateTasks(st.recoveries[id], id, r)))
    case MakerMoves(m) => st.(makers := MakerDo(st.makers, st.env, m), env := MakerEnv(st.env, m))
  }

  /** At the start the Directory may hold any valid sets; nothing has been asked for. */
  predicate IsInit(st: State)
  {
    && (forall g :: g in st.env.directory ==> ValidSet(st.env.directory[g], st.env.known))
    && st.env.wishes == map[] && st.env.applied == map[] && st.env.refused == {} && st.env.publishes == []
    && st.drains == map[] && st.stops == map[] && st.recoveries == map[]
    && st.agents == Agents({}, map[], [], {}) && st.makers == Makers({}, map[], [], {})
  }

  ghost predicate Joined(states: seq<State>, steps: seq<Step>, k: nat)
    requires k < |steps| < |states|
  {
    Can(states[k], steps[k]) && states[k + 1] == Next(states[k], steps[k])
  }

  ghost predicate IsRun(states: seq<State>, steps: seq<Step>)
  {
    && |states| == |steps| + 1 && IsInit(states[0])
    && forall k :: 0 <= k < |steps| ==> Joined(states, steps, k)
  }
}
