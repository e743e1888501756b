/** The guard, the agent's receipts and the conclusion of a stop as the objects and loops they
    are, tied to the steps of the protocol. */
module ControlServices {
  import opened RefSets
  import opened ControlModel

  datatype GuardReply = Rejected | Unauthorized | Handled | Draining

  /** Wraps a service: once draining, it refuses the external commands for good. */
  class Guard {
    const controller: Ref
    const external: set<nat>
    var draining: bool

    constructor (controller: Ref, external: set<nat>)
      ensures this.controller == controller && this.external == external && !draining
    {
      this.controller, this.external, draining := controller, external, false;
    }

    /** Nothing clears the flag, and only the controller sets it. */
    method Begin(source: Ref) returns (reply: GuardReply)
      modifies this
      ensures draining <==> old(draining) || source == controller
      ensures reply == if source == controller then Draining else Unauthorized
    {
      if source != controller {
        return Unauthorized;
      }
      draining := true;
      reply := Draining;
    }

    method Handle(command: nat) returns (reply: GuardReply)
      ensures reply == Rejected <==> draining && command in external
      ensures reply == Rejected || reply == Handled
    {
      if draining && command in external {
        return Rejected;
      }
      reply := Handled;
    }
  }

  /** The answer to a stop request: an error, or the state of the receipt. */
  datatype StopReply = InvalidStopRequest | Holding(state: TargetState)

  datatype CreateReply = InvalidRecoveryRequest | Making(state: Making)

  /** The receipts of one node agent, for stops and for replacements.  `submission` is the runner's
      answer to a task, should the agent submit it. */
  class NodeAgent {
    var receipts: map<Key, Receipt>
    var creates: map<Key, CreateReceipt>

    constructor ()
      ensures receipts == map[] && creates == map[]
    {
      receipts, creates := map[], map[];
    }

    method BeginNodeStop(task: StopTask, submission: Submission, ghost a: Agents)
      returns (submitted: bool, reply: StopReply)
      requires a.receipts == receipts
      modifies this`receipts
      ensures submitted <==> Submits(a, task)
      ensures receipts == (if submitted then Submitted(a, task, submission) else a).receipts
      ensures KeyOf(task) in receipts
      ensures reply == if receipts[KeyOf(task)].task == task then Holding(receipts[KeyOf(task)].state)
                       else InvalidStopRequest
    {
      var key := KeyOf(task);
      submitted := false;
      if key in receipts {
        if receipts[key].task != task {
          return submitted, InvalidStopRequest;
        }
        if !receipts[key].state.TPending? {
          return submitted, Holding(receipts[key].state);
        }
      }
      var state := match submission case Queued => TQueued case Full => TPending case Closed => TFailed;
      receipts := receipts[key := Receipt(task, state)];
      submitted, reply := true, Holding(state);
    }

    method NodeStopResult(job: Job) returns (ok: bool)
      modifies this`receipts
      ensures receipts == Record(old(receipts), job)
      ensures ok <==> KeyOf(job.task) in old(receipts) && old(receipts)[KeyOf(job.task)].state.TQueued?
    {
      var key := KeyOf(job.task);
      if key !in receipts || !receipts[key].state.TQueued? {
        return false;
      }
      receipts := receipts[key := receipts[key].(state := job.result)];
      ok := true;
    }

    method BeginRecoveryCreate(task: CreateTask, submission: Submission, ghost m: Makers)
      returns (submitted: bool, reply: CreateReply)
      requires m.receipts == creates
      modifies this`creates
      ensures submitted <==> SubmitsCreate(m.receipts, task)
      ensures creates == (if submitted then SubmittedCreate(m, task, submission) else m).receipts
      ensures CreateKey(task) in creates
      ensures reply == if creates[CreateKey(task)].task == task then Making(creates[CreateKey(task)].state)
                       else InvalidRecoveryRequest
    {
      var key := CreateKey(task);
      submitted := false;
      if key in creates {
        if creates[key].task != task {
          return submitted, InvalidRecoveryRequest;
        }
        if !creates[key].state.MFull? {
          return submitted, Making(creates[key].state);
        }
      }
      var state := match submission case Queued => MCreating case Full => MFull case Closed => MFailed;
      creates := creates[key := CreateReceipt(task, state)];
      submitted, reply := true, Making(state);
    }

    method RecoveryCreateResult(b: Build) returns (ok: bool)
      modifies this`creates
      ensures creates == RecordCreate(old(creates), b)
      ensures ok <==> CreateKey(b.task) in old(creates) && old(creates)[CreateKey(b.task)].state.MCreating?
                      && old(creates)[CreateKey(b.task)].task.blueprint == b.task.blueprint
    {
      var key := CreateKey(b.task);
      if key !in creates || !creates[key].state.MCreating? || creates[key].task.blueprint != b.task.blueprint {
        return false;
      }
      creates := creates[key := creates[key].(state := b.result)];
      ok := true;
    }
  }

  /** One pass over the targets decides the phase of a stop. */
  method ConcludeStop(targets: seq<StopTarget>) returns (phase: StopPhase)
    ensures phase == Concluded(targets)
  {
    var allStopped, allTerminal, anyFailed := true, true, false;
    for i := 0 to |targets|
      invariant !AnyIn(targets[..i], TSuperseded)
      invariant allTerminal <==> !AnyIn(targets[..i], TPending) && !AnyIn(targets[..i], TQueued)
      invariant anyFailed <==> AnyIn(targets[..i], TFailed)
      invariant allStopped <==> allTerminal && !anyFailed
    {
      var rest, t := targets[..i], targets[i];
      assert targets[..i + 1] == rest + [t];
      forall state ensures AnyIn(rest + [t], state) <==> AnyIn(rest, state) || t.state == state {
        AnyInAppend(rest, t, state);
      }
      match t.state
      case TSuperseded =>
        assert AnyIn(targets, TSuperseded);
        return StopSuperseded;
      case TStopped =>
      case TFailed => allStopped, anyFailed := false, true;
      case TPending => allStopped, allTerminal := false, false;
      case TQueued => allStopped, allTerminal := false, false;
    }
    assert targets[..|targets|] == targets;
    if allStopped {
      return StopCompleted;
    }
    if allTerminal && anyFailed {
      return StopFailed;
    }
    phase := StopWaiting;
  }

  lemma AnyInAppend(targets: seq<StopTarget>, t: StopTarget, state: TargetState)
    ensures AnyIn(targets + [t], state) <==> AnyIn(targets, state) || t.state == state
  {
    var more := targets + [t];
    if AnyIn(targets, state) {
      var i :| 0 <= i < |targets| && targets[i].state == state;
      assert more[i].state == state;
    }
    if t.state == state { assert more[|targets|].state == state; }
  }
}
