/** Node agents and their recovery runners: for each request and removed service,
    Runtime.CreateService is called at most once, however often the request is repeated and
    whatever is lost. */
module ControlMakers {
  import opened RefSets
  import opened ControlModel

  // ---------------------------------------------------------------------------------
  // Counting builds
  // ---------------------------------------------------------------------------------

  datatype Class = Any(key: Key) | Called(key: Key)

  predicate Is(b: Build, c: Class) { CreateKey(b.task) == c.key && (c.Called? ==> b.called) }

  function One(b: bool): nat { if b then 1 else 0 }

  function Count(builds: seq<Build>, c: Class): nat
  {
    if builds == [] then 0 else Count(builds[..|builds| - 1], c) + One(Is(builds[|builds| - 1], c))
  }

  lemma CountAppend(builds: seq<Build>, b: Build, c: Class)
    ensures Count(builds + [b], c) == Count(builds, c) + One(Is(b, c))
  {
    assert (builds + [b])[..|builds|] == builds;
  }

  lemma {:induction false} CountUpdate(builds: seq<Build>, j: nat, b: Build, c: Class)
    requires j < |builds|
    ensures Count(builds[j := b], c) + One(Is(builds[j], c)) == Count(builds, c) + One(Is(b, c))
  {
    var n := |builds| - 1;
    if j < n {
      CountUpdate(builds[..n], j, b, c);
      assert builds[j := b][..n] == builds[..n][j := b];
    } else {
      assert builds[j := b][..n] == builds[..n];
    }
  }

  lemma {:induction false} CountOne(builds: seq<Build>, j: nat, c: Class)
    requires j < |builds| && Is(builds[j], c)
    ensures Count(builds, c) >= 1
  {
    if j < |builds| - 1 { CountOne(builds[..|builds| - 1], j, c); }
  }

  lemma {:induction false} CalledIsAny(builds: seq<Build>, key: Key)
    ensures Count(builds, Called(key)) <= Count(builds, Any(key))
  {
    if builds != [] { CalledIsAny(builds[..|builds| - 1], key); }
  }

  // ---------------------------------------------------------------------------------
  // The invariant
  // ---------------------------------------------------------------------------------

  /** The service was made for this request and removed service. */
  predicate MadeFor(builds: seq<Build>, key: Key, ref: Ref)
  {
    exists j :: 0 <= j < |builds| && CreateKey(builds[j].task) == key && builds[j].made == Some(ref)
  }

  /** Only a build for which a service was made reports one, and then that one. */
  predicate BuildSound(b: Build)
  {
    && (b.stage.InQueue? ==> !b.called) && (b.made.Some? ==> b.called)
    && (b.result.MFailed? || (b.result.MCreated? && b.made == Some(b.result.ref)))
  }

  predicate BuildsSound(builds: seq<Build>, tasks: set<CreateTask>)
  {
    forall j :: 0 <= j < |builds| ==> BuildSound(builds[j]) && builds[j].task in tasks
  }

  predicate StateSound(state: Making, builds: seq<Build>, key: Key)
  {
    state.MCreated? ==> MadeFor(builds, key, state.ref)
  }

  predicate ReceiptSound(r: CreateReceipt, key: Key, builds: seq<Build>, tasks: set<CreateTask>)
  {
    && CreateKey(r.task) == key && r.task in tasks && Count(builds, Any(key)) <= One(!r.state.MFull?)
    && StateSound(r.state, builds, key)
  }

  predicate ReceiptsSound(receipts: map<Key, CreateReceipt>, builds: seq<Build>, tasks: set<CreateTask>)
  {
    forall key :: key in receipts ==> ReceiptSound(receipts[key], key, builds, tasks)
  }

  /** Without a receipt there is no build. */
  ghost predicate NoStrays(receipts: map<Key, CreateReceipt>, builds: seq<Build>)
  {
    forall key :: key !in receipts ==> Count(builds, Any(key)) == 0
  }

  predicate ReportsSound(reports: set<CreateReport>, builds: seq<Build>)
  {
    forall r :: r in reports ==> StateSound(r.state, builds, CreateKey(r.task))
  }

  ghost predicate MakersSound(m: Makers)
  {
    && BuildsSound(m.builds, m.tasks) && ReceiptsSound(m.receipts, m.builds, m.tasks)
    && NoStrays(m.receipts, m.builds) && ReportsSound(m.reports, m.builds)
  }

  // ---------------------------------------------------------------------------------
  // Steps
  // ---------------------------------------------------------------------------------

  lemma MadeGrows(builds: seq<Build>, b: Build, key: Key, ref: Ref)
    requires MadeFor(builds, key, ref)
    ensures MadeFor(builds + [b], key, ref)
  {
    var j :| 0 <= j < |builds| && CreateKey(builds[j].task) == key && builds[j].made == Some(ref);
    assert (builds + [b])[j] == builds[j];
  }

  lemma MadeStays(builds: seq<Build>, j: nat, b: Build, key: Key, ref: Ref)
    requires MadeFor(builds, key, ref) && j < |builds| && b.task == builds[j].task
    requires builds[j].made.Some? ==> b.made == builds[j].made
    ensures MadeFor(builds[j := b], key, ref)
  {
    var i :| 0 <= i < |builds| && CreateKey(builds[i].task) == key && builds[i].made == Some(ref);
    assert builds[j := b][i].made == Some(ref);
  }

  lemma RunBuildSound(m: Makers, env: Env, step: MakerStep)
    requires BuildsSound(m.builds, m.tasks) && MakerCan(m, env, step) && !step.BeginCreate? && !step.ReportCreate?
    ensures var b := RunBuild(m, env, step);
            && BuildSound(b) && b.task == m.builds[step.j].task
            && (m.builds[step.j].called ==> b.called)
            && (m.builds[step.j].made.Some? ==> b.made == m.builds[step.j].made)
  {
    assert BuildSound(m.builds[step.j]);
  }

  lemma SubmitSound(m: Makers, task: CreateTask, submission: Submission)
    requires MakersSound(m) && task in m.tasks && SubmitsCreate(m.receipts, task)
    ensures MakersSound(SubmittedCreate(m, task, submission))
  {
    var r := SubmittedCreate(m, task, submission);
    var mine := CreateKey(task);
    assert Count(m.builds, Any(mine)) == 0 by {
      if mine in m.receipts { assert ReceiptSound(m.receipts[mine], mine, m.builds, m.tasks); }
    }
    forall c ensures Count(r.builds, c) == Count(m.builds, c) + One(submission.Queued? && c == Any(mine)) {
      if submission.Queued? { CountAppend(m.builds, r.builds[|m.builds|], c); } else { assert r.builds == m.builds; }
    }
    forall key, ref | MadeFor(m.builds, key, ref) ensures MadeFor(r.builds, key, ref) {
      if submission.Queued? {
        MadeGrows(m.builds, r.builds[|m.builds|], key, ref);
      } else {
        assert r.builds == m.builds;
      }
    }
    forall key | key in r.receipts ensures ReceiptSound(r.receipts[key], key, r.builds, r.tasks) {
      if key != mine { assert ReceiptSound(m.receipts[key], key, m.builds, m.tasks); }
    }
    forall x | x in r.reports ensures StateSound(x.state, r.builds, CreateKey(x.task)) {
      assert StateSound(x.state, m.builds, CreateKey(x.task));
    }
  }

  lemma ReportSound(m: Makers, key: Key)
    requires MakersSound(m) && key in m.receipts
    ensures MakersSound(m.(reports := m.reports + {CreateReport(m.receipts[key].task, m.receipts[key].state)}))
  {
    assert ReceiptSound(m.receipts[key], key, m.builds, m.tasks);
  }

  /** A build that moves keeps its key, and what was made. */
  lemma MovedBuilds(m: Makers, env: Env, step: MakerStep)
    requires BuildsSound(m.builds, m.tasks) && MakerCan(m, env, step) && !step.BeginCreate? && !step.ReportCreate?
    ensures var builds := m.builds[step.j := RunBuild(m, env, step)];
            && BuildsSound(builds, m.tasks)
            && (forall key :: Count(builds, Any(key)) == Count(m.builds, Any(key)))
            && (forall key, ref :: MadeFor(m.builds, key, ref) ==> MadeFor(builds, key, ref))
  {
    var b := RunBuild(m, env, step);
    RunBuildSound(m, env, step);
    forall key ensures Count(m.builds[step.j := b], Any(key)) == Count(m.builds, Any(key)) {
      CountUpdate(m.builds, step.j, b, Any(key));
    }
    forall key, ref | MadeFor(m.builds, key, ref) ensures MadeFor(m.builds[step.j := b], key, ref) {
      MadeStays(m.builds, step.j, b, key, ref);
    }
  }

  lemma RecordSound(receipts: map<Key, CreateReceipt>, builds: seq<Build>, tasks: set<CreateTask>, j: nat, key: Key)
    requires ReceiptsSound(receipts, builds, tasks) && j < |builds| && BuildSound(builds[j]) && key in receipts
    ensures key in RecordCreate(receipts, builds[j])
    ensures ReceiptSound(RecordCreate(receipts, builds[j])[key], key, builds, tasks)
  {
    assert ReceiptSound(receipts[key], key, builds, tasks);
  }

  lemma MoveSound(m: Makers, env: Env, step: MakerStep)
    requires MakersSound(m) && MakerCan(m, env, step) && !step.BeginCreate? && !step.ReportCreate?
    ensures MakersSound(MakerDo(m, env, step))
  {
    var builds := m.builds[step.j := RunBuild(m, env, step)];
    MovedBuilds(m, env, step);
    forall key | key in m.receipts ensures ReceiptSound(m.receipts[key], key, builds, m.tasks) {
      assert ReceiptSound(m.receipts[key], key, m.builds, m.tasks);
    }
    forall x | x in m.reports ensures StateSound(x.state, builds, CreateKey(x.task)) {
      assert StateSound(x.state, m.builds, CreateKey(x.task));
    }
    if step.CreateArrives? {
      forall key | key in m.receipts
        ensures ReceiptSound(RecordCreate(m.receipts, builds[step.j])[key], key, builds, m.tasks)
      {
        RecordSound(m.receipts, builds, m.tasks, step.j, key);
      }
      assert RecordCreate(m.receipts, builds[step.j]) == RecordCreate(m.receipts, m.builds[step.j]);
    }
  }

  lemma MakerStepSound(m: Makers, env: Env, step: MakerStep)
    requires MakersSound(m) && MakerCan(m, env, step)
    ensures MakersSound(MakerDo(m, env, step))
  {
    match step
    case BeginCreate(task, submission) => if SubmitsCreate(m.receipts, task) { SubmitSound(m, task, submission); }
    case ReportCreate(key) => ReportSound(m, key);
    case _ => MoveSound(m, env, step);
  }

  /** New tasks on their way disturb nothing. */
  lemma TasksGrow(m: Makers, tasks: set<CreateTask>)
    requires MakersSound(m)
    ensures MakersSound(m.(tasks := m.tasks + tasks))
  {
    forall key | key in m.receipts ensures ReceiptSound(m.receipts[key], key, m.builds, m.tasks + tasks) {
      assert ReceiptSound(m.receipts[key], key, m.builds, m.tasks);
    }
  }

  lemma AtMostOneBuild(m: Makers, key: Key)
    requires MakersSound(m)
    ensures Count(m.builds, Called(key)) <= Count(m.builds, Any(key)) <= 1
  {
    CalledIsAny(m.builds, key);
    if key in m.receipts { assert ReceiptSound(m.receipts[key], key, m.builds, m.tasks); }
  }

  /** What was reported as made stays made. */
  lemma StateStays(m: Makers, env: Env, step: MakerStep, state: Making, key: Key)
    requires MakersSound(m) && MakerCan(m, env, step) && StateSound(state, m.builds, key)
    ensures StateSound(state, MakerDo(m, env, step).builds, key)
  {
    if state.MCreated? {
      match step
      case BeginCreate(task, submission) =>
        if SubmitsCreate(m.receipts, task) && submission.Queued? {
          MadeGrows(m.builds, MakerDo(m, env, step).builds[|m.builds|], key, state.ref);
        } else {
          assert m.builds + [] == m.builds;
        }
      case ReportCreate(_) =>
      case _ =>
        RunBuildSound(m, env, step);
        MadeStays(m.builds, step.j, RunBuild(m, env, step), key, state.ref);
    }
  }
}
