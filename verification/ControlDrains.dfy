/** Drains and recoveries: what they publish, how often, and what a finished one guarantees. */
module ControlDrains {
  import opened RefSets
  import opened ControlModel

  // ---------------------------------------------------------------------------------
  // The environment
  // ---------------------------------------------------------------------------------

  predicate ValidWish(w: Wish, known: set<Ref>) { StrictlySorted(w.refs) && SetOf(w.refs) <= known }

  predicate EnvSound(env: Env)
  {
    && (forall g :: g in env.directory ==> ValidSet(env.directory[g], env.known))
    && (forall s :: s in env.wishes ==> ValidWish(env.wishes[s], env.known))
  }

  lemma EnvStepSound(env: Env, step: EnvStep)
    requires EnvSound(env) && EnvCan(env, step)
    ensures EnvSound(EnvDo(env, step)) && EnvDo(env, step).known == env.known && env.guards <= EnvDo(env, step).guards
    ensures EnvDo(env, step).publishes == env.publishes
  {
    if step.ApplyWish? { assert ValidWish(env.wishes[step.sender], env.known); }
  }

  // ---------------------------------------------------------------------------------
  // One drain
  // ---------------------------------------------------------------------------------

  predicate HasPublished(p: DrainPhase)
  {
    p.Guarding? || p.GuardingChecked? || p.Waiting? || p.WaitingChecked? || p.ReadyToStop?
  }

  predicate HasGuarded(p: DrainPhase) { p.Waiting? || p.WaitingChecked? || p.ReadyToStop? }

  predicate BeforePublish(p: DrainPhase) { p.Preparing? || p.Publishing? }

  /** Once it has published, a drain's record is exactly the requested content at the next
      version, and its targets are what that removed; once it waits for visitors, every
      target's guard is draining. */
  ghost predicate DrainSound(d: Drain, known: set<Ref>, guards: set<Ref>)
  {
    && ValidSet(RequestedSet(d.request), known) && ValidSet(d.original, known)
    && (HasPublished(d.phase) ==>
          d.published == RequestedSet(d.request) && AreTargets(d.targets, d.original, d.published))
    && d.guarded <= guards
    && (HasGuarded(d.phase) ==> SetOf(d.targets) <= d.guarded)
  }

  lemma DrainSoundGrows(d: Drain, known: set<Ref>, guards: set<Ref>, known1: set<Ref>, guards1: set<Ref>)
    requires DrainSound(d, known, guards) && known <= known1 && guards <= guards1
    ensures DrainSound(d, known1, guards1)
  {
  }

  lemma DrainStepSound(d: Drain, env: Env, id: nat, step: DrainStep)
    requires EnvSound(env) && DrainSound(d, env.known, env.guards) && DrainCan(d, env, id, step)
    requires FromDrain(id) in env.applied ==> env.applied[FromDrain(id)] == RequestedSet(d.request)
    ensures DrainSound(DrainDo(d, env, id, step), env.known, env.guards)
    ensures DrainDo(d, env, id, step).request == d.request
  {
  }

  lemma DrainEnvSound(d: Drain, env: Env, id: nat, step: DrainStep)
    requires EnvSound(env) && DrainSound(d, env.known, env.guards)
    ensures EnvSound(DrainEnv(d, env, id, step))
    ensures DrainEnv(d, env, id, step).known == env.known && DrainEnv(d, env, id, step).guards == env.guards
  {
  }

  // ---------------------------------------------------------------------------------
  // One recovery
  // ---------------------------------------------------------------------------------

  predicate BeforeCandidate(p: RecoveryPhase) { p.Creating? || p.AwaitingConfirmation? }

  predicate HasCandidate(p: RecoveryPhase) { p.RecoveryAsked? || p.RecoveryPublishing? || p.RecoveryCompleted? }

  function Removed(targets: seq<RecoveryTarget>): set<Ref> { set i | 0 <= i < |targets| :: targets[i].removed }

  /** The runtime has issued the reference, and after the recovery began. */
  predicate IsNew(r: Recovery, ref: Ref, known: set<Ref>)
  {
    ref in known && ref !in Removed(r.targets) && ref !in SetOf(r.expected.refs)
  }

  /** What the coordinator holds for the replacement of a target is new. */
  predicate TargetSound(r: Recovery, i: nat, known: set<Ref>)
    requires i < |r.targets|
  {
    r.targets[i].state.MCreated? ==> IsNew(r, r.targets[i].state.ref, known)
  }

  predicate RemovedOnce(targets: seq<RecoveryTarget>)
  {
    forall i, j :: 0 <= i < j < |targets| ==> targets[i].removed != targets[j].removed
  }

  ghost predicate RecoverySound(r: Recovery, known: set<Ref>)
  {
    && ValidSet(r.expected, known) && Removed(r.targets) <= known && Removed(r.targets) !! SetOf(r.expected.refs)
    && RemovedOnce(r.targets) && (forall i :: 0 <= i < |r.targets| ==> TargetSound(r, i, known))
    && (r.phase.AwaitingConfirmation? ==> AllCreated(r.targets))
    && (HasCandidate(r.phase) ==>
          AllCreated(r.targets) && IsCandidate(r.candidate.refs, r) && r.candidate == CandidateSet(r, r.candidate.refs))
    && (r.phase.RecoveryCompleted? ==> r.published == r.candidate)
  }

  lemma RecoverySoundGrows(r: Recovery, known: set<Ref>, known1: set<Ref>)
    requires RecoverySound(r, known) && known <= known1
    ensures RecoverySound(r, known1)
  {
    forall i | 0 <= i < |r.targets| ensures TargetSound(r, i, known1) {
      assert TargetSound(r, i, known);
    }
  }

  lemma SameRemoved(targets: seq<RecoveryTarget>, i: nat, t: RecoveryTarget)
    requires i < |targets| && t.removed == targets[i].removed
    ensures Removed(targets[i := t]) == Removed(targets)
    ensures RemovedOnce(targets) ==> RemovedOnce(targets[i := t])
  {
    var more := targets[i := t];
    forall x | x in Removed(targets) ensures x in Removed(more) {
      var k :| 0 <= k < |targets| && targets[k].removed == x;
      assert more[k].removed == x;
    }
    forall x | x in Removed(more) ensures x in Removed(targets) {
      var k :| 0 <= k < |more| && more[k].removed == x;
      assert targets[k].removed == x;
    }
  }

  lemma ReceiptTaken(r: Recovery, reports: set<CreateReport>, env: Env, id: nat, i: nat, state: Making)
    requires RecoverySound(r, env.known) && RecoveryCan(r, reports, env, id, TakeReceipt(i, state))
    requires state.MCreated? ==> IsNew(r, state.ref, env.known)
    ensures RecoverySound(RecoveryDo(r, reports, env, id, TakeReceipt(i, state)), env.known)
  {
    var s := RecoveryDo(r, reports, env, id, TakeReceipt(i, state));
    SameRemoved(r.targets, i, s.targets[i]);
    forall k | 0 <= k < |s.targets| ensures TargetSound(s, k, env.known) {
      assert TargetSound(r, k, env.known);
    }
  }

  lemma RecoveryStepSound(r: Recovery, reports: set<CreateReport>, env: Env, id: nat, step: RecoveryStep)
    requires RecoverySound(r, env.known) && RecoveryCan(r, reports, env, id, step)
    requires FromRecovery(id) in env.applied && HasCandidate(r.phase) ==> env.applied[FromRecovery(id)] == r.candidate
    requires step.TakeReceipt? && step.state.MCreated? ==> IsNew(r, step.state.ref, env.known)
    ensures RecoverySound(RecoveryDo(r, reports, env, id, step), env.known)
  {
    if step.TakeReceipt? {
      ReceiptTaken(r, reports, env, id, step.i, step.state);
    } else {
      SameTargets(r, RecoveryDo(r, reports, env, id, step), env.known);
    }
  }

  lemma SameTargets(r: Recovery, s: Recovery, known: set<Ref>)
    requires s.targets == r.targets && s.expected == r.expected
    requires forall i :: 0 <= i < |r.targets| ==> TargetSound(r, i, known)
    ensures forall i :: 0 <= i < |s.targets| ==> TargetSound(s, i, known)
  {
    forall i | 0 <= i < |s.targets| ensures TargetSound(s, i, known) {
      assert TargetSound(r, i, known);
    }
  }

  lemma CreatedKnown(r: Recovery, known: set<Ref>)
    requires RecoverySound(r, known) && AllCreated(r.targets)
    ensures SetOf(CreatedRefs(r.targets)) <= known && SetOf(CreatedRefs(r.targets)) !! Removed(r.targets)
  {
    var refs := CreatedRefs(r.targets);
    forall x | x in SetOf(refs) ensures x in known && x !in Removed(r.targets) {
      var i :| 0 <= i < |refs| && refs[i] == x;
      assert TargetSound(r, i, known);
    }
  }

  lemma RecoveryEnvSound(r: Recovery, reports: set<CreateReport>, env: Env, id: nat, step: RecoveryStep)
    requires EnvSound(env) && RecoverySound(r, env.known) && RecoveryCan(r, reports, env, id, step)
    ensures EnvSound(RecoveryEnv(r, env, id, step)) && RecoveryEnv(r, env, id, step).known == env.known
    ensures RecoveryEnv(r, env, id, step).guards == env.guards
  {
    if step.PublishCandidate? { CreatedKnown(r, env.known); }
  }

  /** A completed recovery has published the expected and the created services, sorted, and
      none of those that were removed. */
  lemma CompletedRefs(r: Recovery, known: set<Ref>)
    requires RecoverySound(r, known) && r.phase.RecoveryCompleted?
    ensures StrictlySorted(r.published.refs) && r.published.version == NextVersion(r.expected.version)
    ensures AllCreated(r.targets) && SetOf(r.published.refs) == SetOf(r.expected.refs) + SetOf(CreatedRefs(r.targets))
    ensures SetOf(r.published.refs) !! Removed(r.targets)
  {
    CreatedKnown(r, known);
  }
}
