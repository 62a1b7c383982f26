/**
 The Prometheus fail-safe: when a rollout is rolled back for unavailability, and
 what a lost status write does to that promise.
 */
module CanaryFailSafe {
  import opened Options
  import opened PromQL
  import opened CanaryModel
  import opened CanarySafety
  import opened CanaryMoves
  import opened CanaryEvidence

  /** A logged evaluation that produced no verdict. */
  ghost predicate FailedAt(steps: seq<Step>, e: Event) {
    && e.Evaluated? && e.step < |steps| && steps[e.step].pause.Some?
    && Evaluate(e.policy, steps[e.step].pause.value, e.answers).Unreachable?
  }

  /** From entry k on, the log holds no answered evaluation, and k is a failed one. */
  ghost predicate DarkSince(steps: seq<Step>, log: seq<Event>, k: int) {
    && 0 <= k < |log| && FailedAt(steps, log[k])
    && forall i :: k <= i < |log| && log[i].Evaluated? ==> FailedAt(steps, log[i])
  }

  /** The recorded outage start is that of a failed evaluation after which all failed. */
  ghost predicate OutageLogged(steps: seq<Step>, s: Status, log: seq<Event>) {
    s.promUnreachableSince.Some? ==>
      exists k :: DarkSince(steps, log, k) && Stamp(log[k].at) == s.promUnreachableSince.value
  }

  /** The reconcile gets an answer while an outage is recorded. */
  ghost predicate Recovers(w: World, env: Env) {
    && w.status.phase == RolloutInProgress && !w.spec.abort
    && OnPauseStep(w.spec, w.status) && w.status.pauseStartedAt.Some? && w.status.promUnreachableSince.Some?
    && !Evaluate(w.spec.policy, w.spec.steps[w.status.stepIndex].pause.value, env.answers).Unreachable?
  }

  /** The write that clears the outage after a recovery is not lost. */
  ghost predicate ClearLands(w: World, a: Action) {
    a.Reconciles? && Recovers(w, a.env) && a.cut >= |HealWrites(w.status)| ==> a.cut > |HealWrites(w.status)|
  }

  /** An answered evaluation forgets the outage with its first write. */
  lemma FirstWriteClears(w: World, d: int, elapsed: int, v: Verdict, n: nat)
    requires w.status.phase == RolloutInProgress && w.status.stableVersion != "" && w.status.canaryVersion != ""
    requires !v.Unreachable?
    ensures var s' := ApplyAll(w, Cut(ReachablePlan(w.spec, w.status, d, elapsed, v).writes, n)).status;
            if n > 0 then s'.promUnreachableSince.None? else s' == w.status
  {
    ReachableMoves(w, d, elapsed, v, n);
    if n == 0 {
      assert Cut(ReachablePlan(w.spec, w.status, d, elapsed, v).writes, 0) == [];
    }
  }

  lemma ReachablePause(w: World, env: Env, cut: nat)
    requires Inv(w) && Recovers(w, env) && cut >= |HealWrites(w.status)|
    ensures var s' := Reconcile(w, env, cut).status;
            if cut > |HealWrites(w.status)| then s'.promUnreachableSince.None? else s' == w.status
  {
    var heal, body := HealWrites(w.status), BodyPlan(w, env).writes;
    CutAppend(heal, body, cut);
    HealSafe(w);
    SafeWritesKeep(w, heal, false);
    BodyAfterHeal(w, env);
    ApplyAppend(w, heal, Cut(body, cut - |heal|));
    var d := w.spec.steps[w.status.stepIndex].pause.value;
    var v := Evaluate(w.spec.policy, d, env.answers);
    FirstWriteClears(ApplyAll(w, heal), d, env.now - w.status.pauseStartedAt.value, v, cut - |heal|);
  }

  /**
   Exactly when a recovery is recorded: the outage is forgotten if and only if at
   least one call after the healing writes succeeds.
   */
  lemma RecoveryRecordedIff(w: World, env: Env, cut: nat)
    requires Inv(w) && Recovers(w, env)
    ensures Reconcile(w, env, cut).status.promUnreachableSince.None? <==> cut > |HealWrites(w.status)|
  {
    if cut < |HealWrites(w.status)| {
      ReconcileMoves(w, env, cut);
    } else {
      ReachablePause(w, env, cut);
    }
  }

  lemma DarkExtends(steps: seq<Step>, log: seq<Event>, k: int, more: seq<Event>)
    requires DarkSince(steps, log, k)
    requires forall i :: 0 <= i < |more| && more[i].Evaluated? ==> FailedAt(steps, more[i])
    ensures DarkSince(steps, log + more, k) && (log + more)[k] == log[k]
  {
  }

  lemma OutageExtends(steps: seq<Step>, s: Status, s': Status, log: seq<Event>, more: seq<Event>)
    requires OutageLogged(steps, s, log)
    requires forall i :: 0 <= i < |more| && more[i].Evaluated? ==> FailedAt(steps, more[i])
    requires s'.promUnreachableSince == s.promUnreachableSince || s'.promUnreachableSince.None?
    ensures OutageLogged(steps, s', log + more)
  {
    if s'.promUnreachableSince.Some? {
      var k :| DarkSince(steps, log, k) && Stamp(log[k].at) == s.promUnreachableSince.value;
      DarkExtends(steps, log, k, more);
    }
  }

  /** A failed evaluation keeps or opens the outage it belongs to. */
  lemma OutageAfterFailure(w: World, env: Env, cut: nat, log: seq<Event>)
    requires EvidenceInv(w, log) && OutageLogged(w.spec.steps, w.status, log)
    requires !w.spec.abort && cut >= |HealWrites(w.status)|
    requires OnPauseStep(w.spec, w.status) && w.status.pauseStartedAt.Some?
    requires Evaluate(w.spec.policy, w.spec.steps[w.status.stepIndex].pause.value, env.answers).Unreachable?
    ensures var log' := log + Events(w, Reconciles(env, cut));
            && OutageLogged(w.spec.steps, w.status, log')
            && OutageLogged(w.spec.steps, Marked(w.status, env.now), log')
  {
    var e := Evaluated(w.status.stepIndex, env.now, w.spec.policy, env.answers);
    var more := Events(w, Reconciles(env, cut));
    assert more == [e];
    OutageExtends(w.spec.steps, w.status, w.status, log, more);
    if w.status.promUnreachableSince.None? {
      var log' := log + more;
      assert log'[|log|] == e && DarkSince(w.spec.steps, log', |log|);
    }
  }

  /** The status a fail-safe rollback leaves. */
  ghost predicate FailSafeFired(s: Status) {
    s.phase == RolloutFailed && s.failure == Some(PrometheusUnavailable)
  }

  /** The last evaluation of the log closes an unbroken outage of at least the timeout. */
  ghost predicate LongOutage(failSafe: int, steps: seq<Step>, log: seq<Event>) {
    exists k :: DarkSince(steps, log, k) && log[|log| - 1].Evaluated?
                && log[|log| - 1].at - Stamp(log[k].at) >= failSafe
  }

  /** Without an evaluation the outage record is kept or dropped, and nothing fires. */
  lemma NoEvaluation(w: World, env: Env, cut: nat)
    requires Inv(w) && w.status.phase == RolloutInProgress
    requires Events(w, Reconciles(env, cut)) == [] || !Events(w, Reconciles(env, cut))[0].Evaluated?
    ensures var s' := Reconcile(w, env, cut).status;
            && (s'.promUnreachableSince == w.status.promUnreachableSince || s'.promUnreachableSince.None?)
            && !FailSafeFired(s')
  {
    ReconcileMoves(w, env, cut);
  }

  lemma OutageNext(w: World, a: Action, log: seq<Event>)
    requires EvidenceInv(w, log) && OutageLogged(w.spec.steps, w.status, log)
    requires Legal(w, a) && ClearLands(w, a)
    ensures var s', log' := Next(w, a).status, log + Events(w, a);
            && OutageLogged(w.spec.steps, s', log')
            && (FailSafeFired(s') ==> LongOutage(w.failSafe, w.spec.steps, log'))
  {
    var s, s' := w.status, Next(w, a).status;
    if !a.Reconciles? {
      OutageExtends(w.spec.steps, s, s', log, Events(w, a));
    } else {
      if Events(w, a) == [] || !Events(w, a)[0].Evaluated? {
        NoEvaluation(w, a.env, a.cut);
        OutageExtends(w.spec.steps, s, s', log, Events(w, a));
      } else if Evaluate(w.spec.policy, w.spec.steps[s.stepIndex].pause.value, a.env.answers).Unreachable? {
        OutageFailure(w, a.env, a.cut, log);
      } else {
        OutageAnswered(w, a.env, a.cut, log);
      }
    }
  }

  /** An answered evaluation whose clearing write lands leaves no outage and fires nothing. */
  lemma OutageAnswered(w: World, env: Env, cut: nat, log: seq<Event>)
    requires EvidenceInv(w, log) && !w.spec.abort && cut >= |HealWrites(w.status)|
    requires OnPauseStep(w.spec, w.status) && w.status.pauseStartedAt.Some?
    requires !Evaluate(w.spec.policy, w.spec.steps[w.status.stepIndex].pause.value, env.answers).Unreachable?
    requires ClearLands(w, Reconciles(env, cut))
    ensures Reconcile(w, env, cut).status.promUnreachableSince.None?
    ensures !FailSafeFired(Reconcile(w, env, cut).status)
  {
    ReconcileMoves(w, env, cut);
    if Recovers(w, env) {
      ReachablePause(w, env, cut);
    }
  }

  /** What a failed evaluation can do to the status. */
  lemma FailureMove(w: World, env: Env, cut: nat)
    requires Inv(w) && w.status.phase == RolloutInProgress && !w.spec.abort && cut >= |HealWrites(w.status)|
    requires OnPauseStep(w.spec, w.status) && w.status.pauseStartedAt.Some?
    requires Evaluate(w.spec.policy, w.spec.steps[w.status.stepIndex].pause.value, env.answers).Unreachable?
    ensures Reconcile(w, env, cut).status == w.status || UnreachableMove(w, env, Reconcile(w, env, cut).status)
  {
    ReconcileMoves(w, env, cut);
  }

  lemma OutageFailure(w: World, env: Env, cut: nat, log: seq<Event>)
    requires EvidenceInv(w, log) && OutageLogged(w.spec.steps, w.status, log)
    requires !w.spec.abort && cut >= |HealWrites(w.status)|
    requires OnPauseStep(w.spec, w.status) && w.status.pauseStartedAt.Some?
    requires Evaluate(w.spec.policy, w.spec.steps[w.status.stepIndex].pause.value, env.answers).Unreachable?
    ensures var s', log' := Reconcile(w, env, cut).status, log + Events(w, Reconciles(env, cut));
            && OutageLogged(w.spec.steps, s', log')
            && (FailSafeFired(s') ==> LongOutage(w.failSafe, w.spec.steps, log'))
  {
    var s', log' := Reconcile(w, env, cut).status, log + Events(w, Reconciles(env, cut));
    FailureMove(w, env, cut);
    OutageAfterFailure(w, env, cut, log);
    if FailSafeFired(s') {
      var marked := Marked(w.status, env.now);
      assert env.now - marked.promUnreachableSince.value >= w.failSafe;
      var k :| DarkSince(w.spec.steps, log', k) && Stamp(log'[k].at) == marked.promUnreachableSince.value;
      assert log'[|log'| - 1] == Evaluated(w.status.stepIndex, env.now, w.spec.policy, env.answers);
    }
  }

  lemma {:induction false} OutageAlways(w: World, acts: seq<Action>)
    requires AtStart(w) && LegalRun(w, acts) && OneRollout(w, acts)
    requires forall n :: 0 <= n < |acts| ==> ClearLands(After(w, acts[..n]), acts[n])
    ensures var w', log := After(w, acts), Log(w, acts);
            && w'.failSafe == w.failSafe
            && OutageLogged(w.spec.steps, w'.status, log)
            && (acts != [] && FailSafeFired(w'.status) ==> LongOutage(w.failSafe, w.spec.steps, log))
    decreases |acts|
  {
    if acts == [] {
    } else {
      var n := |acts| - 1;
      var front := acts[..n];
      LegalFront(w, acts);
      OneRolloutFront(w, acts);
      assert forall k :: 0 <= k <= n ==> front[..k] == acts[..k];
      EvidenceAlways(w, front);
      OutageAlways(w, front);
      OutageNext(After(w, front), acts[n], Log(w, front));
      if acts[n].Reconciles? {
        ApplyKeepsSpec(After(w, front), Cut(ReconcilePlan(After(w, front), acts[n].env).writes, acts[n].cut));
      }
    }
  }

  /**
   Fail-safe, only if: in every run in which no recovery's clearing write is lost, a
   rollback for unavailability closes an unbroken series of failed evaluations that
   lasted at least the timeout.
   */
  lemma FailSafeOnlyAfterOutage(w: World, acts: seq<Action>)
    requires AtStart(w) && LegalRun(w, acts) && OneRollout(w, acts) && acts != []
    requires forall n :: 0 <= n < |acts| ==> ClearLands(After(w, acts[..n]), acts[n])
    requires FailSafeFired(After(w, acts).status)
    ensures LongOutage(w.failSafe, w.spec.steps, Log(w, acts))
  {
    OutageAlways(w, acts);
  }

  /** Fail-safe, if: a failed evaluation at or past the timeout rolls back when its calls succeed. */
  lemma FailSafeFires(w: World, env: Env, cut: nat)
    requires Inv(w) && w.status.phase == RolloutInProgress && !w.spec.abort
    requires OnPauseStep(w.spec, w.status) && w.status.pauseStartedAt.Some?
    requires Evaluate(w.spec.policy, w.spec.steps[w.status.stepIndex].pause.value, env.answers).Unreachable?
    requires env.now - Marked(w.status, env.now).promUnreachableSince.value >= w.failSafe
    requires cut >= |HealWrites(w.status)| + 7
    ensures FailSafeFired(Reconcile(w, env, cut).status)
  {
    var heal, s := HealWrites(w.status), w.status;
    var marked := Marked(s, env.now);
    var rb := RollbackWrites(w.spec, marked, PrometheusUnavailable);
    var front := heal + MarkWrites(s, env.now);
    assert ReconcilePlan(w, env).writes == front + rb;
    assert |rb| == 6;
    CutAppend(front, rb, cut);
    ApplyAppend(w, front, rb);
    ApplyAppend(w, heal, MarkWrites(s, env.now));
    BodyAfterHeal(w, env);
    var w1 := ApplyAll(w, heal);
    if s.promUnreachableSince.None? {
      ApplyOne(w1, WriteStatus(marked));
    }
    var w2 := ApplyAll(w, front);
    assert w2.status == marked && w2.spec == w.spec;
    RollbackMoves(w2, PrometheusUnavailable, 6);
    assert Cut(rb, 6) == rb;
  }

  /**
   The promise does not survive a lost write: for every recorded outage, an answered
   evaluation whose clearing call fails, followed by a failed one past the timeout,
   rolls the canary back although Prometheus had answered in between.
   */
  lemma LostRecovery(w: World, answered: Env, failed: Env, cut: nat)
    requires Inv(w) && Recovers(w, answered)
    requires Evaluate(w.spec.policy, w.spec.steps[w.status.stepIndex].pause.value, failed.answers).Unreachable?
    requires failed.now - w.status.promUnreachableSince.value >= w.failSafe && cut >= |HealWrites(w.status)| + 7
    ensures var w1 := Next(w, Reconciles(answered, |HealWrites(w.status)|));
            w1.status == w.status && FailSafeFired(Next(w1, Reconciles(failed, cut)).status)
  {
    var h := |HealWrites(w.status)|;
    ReachablePause(w, answered, h);
    NextKeeps(w, Reconciles(answered, h), false);
    ApplyKeepsSpec(w, Cut(ReconcilePlan(w, answered).writes, h));
    FailSafeFires(Next(w, Reconciles(answered, h)), failed, cut);
  }
}
