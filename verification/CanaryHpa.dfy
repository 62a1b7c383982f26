/**
 The autoscaler during a rollout (PauseHPA and restoreHPA in internal/rollout/canary.go):
 it is deleted when a rollout starts and comes back only with the calls that end one.
 */
module CanaryHpa {
  import opened Options
  import opened PromQL
  import opened CanaryModel
  import opened CanarySafety
  import opened CanaryEvidence
  import opened CanaryTiming
  import opened CanaryOutcome

  /** The writes bring the HPA back only as the last call before a status write that ends the rollout. */
  ghost predicate RestoresLast(ops: seq<Write>) {
    (exists i :: 0 <= i < |ops| && ops[i].EnsureHPA?) ==> EndsRollout(ops)
  }

  ghost predicate EndsRollout(ops: seq<Write>) {
    && |ops| >= 2 && ops[|ops| - 1].WriteStatus? && ops[|ops| - 1].status.phase != RolloutInProgress
    && forall i :: 0 <= i < |ops| && ops[i].EnsureHPA? ==> i == |ops| - 2
  }

  lemma HealNeverRestores(ops: seq<Write>, s: Status)
    requires RestoresLast(ops)
    ensures RestoresLast(HealWrites(s) + ops)
  {
    var heal := HealWrites(s);
    assert forall i :: 0 <= i < |heal| ==> !heal[i].EnsureHPA?;
    assert forall i :: |heal| <= i < |heal + ops| ==> (heal + ops)[i] == ops[i - |heal|];
  }

  lemma RollbackRestoresLast(spec: Spec, s: Status, reason: Reason, first: seq<Write>)
    requires forall i :: 0 <= i < |first| ==> first[i].WriteStatus?
    ensures RestoresLast(first + RollbackWrites(spec, s, reason))
  {
  }

  ghost predicate OnlyStatus(ops: seq<Write>) {
    forall i :: 0 <= i < |ops| ==> ops[i].WriteStatus?
  }

  lemma ElapseOnlyStatus(s: Status, d: int, elapsed: int, first: seq<Write>)
    requires OnlyStatus(first)
    ensures OnlyStatus(first + ElapsePlan(s, d, elapsed).writes) && OnlyStatus(first + SmallSamplePlan(s, d, elapsed).writes)
  {
  }

  lemma UnreachableRestoresLast(w: World, now: int)
    ensures RestoresLast(UnreachablePlan(w.failSafe, w.spec, w.status, now).writes)
  {
    RollbackRestoresLast(w.spec, Marked(w.status, now), PrometheusUnavailable, MarkWrites(w.status, now));
  }

  lemma ReachableRestoresLast(w: World, d: int, elapsed: int, v: Verdict)
    requires !v.Unreachable?
    ensures RestoresLast(ReachablePlan(w.spec, w.status, d, elapsed, v).writes)
  {
    var first := ClearWrites(w.status);
    if v.Breached? {
      RollbackRestoresLast(w.spec, Cleared(w.status), ThresholdBreached, first);
    } else {
      ElapseOnlyStatus(Cleared(w.status), d, elapsed, first);
    }
  }

  lemma PauseRestoresLast(w: World, d: int, env: Env)
    ensures RestoresLast(PausePlan(w.failSafe, w.spec, w.status, d, env).writes)
  {
    if w.status.pauseStartedAt.Some? {
      var v := Evaluate(w.spec.policy, d, env.answers);
      if v.Unreachable? {
        UnreachableRestoresLast(w, env.now);
      } else {
        ReachableRestoresLast(w, d, env.now - w.status.pauseStartedAt.value, v);
      }
    }
  }

  lemma RollbackAlone(spec: Spec, s: Status, reason: Reason)
    ensures RestoresLast(RollbackWrites(spec, s, reason))
  {
    RollbackRestoresLast(spec, s, reason, []);
    assert [] + RollbackWrites(spec, s, reason) == RollbackWrites(spec, s, reason);
  }

  lemma PromoteRestoresLast(s: Status, c: Cluster)
    ensures RestoresLast(PromotePlan(s, c).writes)
  {
  }

  lemma BodyRestoresLast(w: World, env: Env)
    ensures RestoresLast(BodyPlan(w, env).writes)
  {
    if w.status.stepIndex >= |w.spec.steps| {
      PromoteRestoresLast(w.status, w.cluster);
    } else {
      var step := w.spec.steps[w.status.stepIndex];
      if step.setWeight.None? && step.pause.Some? {
        PauseRestoresLast(w, step.pause.value, env);
      } else if step.setWeight.None? {
        RollbackAlone(w.spec, w.status, InvalidStep);
      }
    }
  }

  lemma PlanRestoresLast(w: World, env: Env)
    requires w.status.phase == RolloutInProgress
    ensures RestoresLast(ReconcilePlan(w, env).writes)
  {
    if w.spec.abort {
      RollbackAlone(w.spec, w.status, ManualAbort);
    } else {
      BodyRestoresLast(w, env);
      HealNeverRestores(BodyPlan(w, env).writes, w.status);
    }
  }

  lemma {:induction false} HpaStaysAway(w: World, ops: seq<Write>)
    requires !w.cluster.hpa && forall i :: 0 <= i < |ops| ==> !ops[i].EnsureHPA?
    ensures !ApplyAll(w, ops).cluster.hpa
    decreases |ops|
  {
    if ops == [] {
    } else {
      assert !ops[0].EnsureHPA?;
      HpaStaysAway(Apply(w, ops[0]), ops[1..]);
    }
  }

  lemma EndingEnds(w: World, ops: seq<Write>)
    requires EndsRollout(ops)
    ensures ApplyAll(w, ops).status.phase != RolloutInProgress
  {
    var front, last := ops[..|ops| - 1], ops[|ops| - 1];
    assert ops == front + [last];
    ApplySnoc(w, front, last);
  }

  /** Writes that bring the HPA back but leave the rollout in progress were cut before the last. */
  lemma CutBeforeEnd(w: World, ops: seq<Write>, n: nat)
    requires !w.cluster.hpa && RestoresLast(ops)
    requires ApplyAll(w, Cut(ops, n)).cluster.hpa && ApplyAll(w, Cut(ops, n)).status.phase == RolloutInProgress
    ensures EndsRollout(ops) && n == |ops| - 1
  {
    var cut := Cut(ops, n);
    if forall i :: 0 <= i < |cut| ==> !cut[i].EnsureHPA? {
      HpaStaysAway(w, cut);
    } else {
      var i :| 0 <= i < |cut| && cut[i].EnsureHPA?;
      assert ops[i] == cut[i];
      EndingEnds(w, ops);
    }
  }

  /** The reconcile issued every call of an ending but lost its final status write. */
  ghost predicate LosesEnding(w: World, a: Action) {
    && a.Reconciles? && EndsRollout(ReconcilePlan(w, a.env).writes)
    && a.cut == |ReconcilePlan(w, a.env).writes| - 1
  }

  /** The HPA comes back within a rollout only by a lost ending. */
  lemma OneStepHpa(w: World, a: Action)
    requires w.status.phase == RolloutInProgress && !w.cluster.hpa
    requires Next(w, a).status.phase == RolloutInProgress && Next(w, a).cluster.hpa
    ensures LosesEnding(w, a)
  {
    PlanRestoresLast(w, a.env);
    CutBeforeEnd(w, ReconcilePlan(w, a.env).writes, a.cut);
  }

  /**
   The HPA is paused for the whole rollout: if it exists while the rollout is still in
   progress, some earlier reconcile had made every call that ends the rollout but its
   last, the status write.
   */
  lemma {:induction false} HpaPaused(w: World, acts: seq<Action>) returns (m: nat)
    requires !w.cluster.hpa && OneRollout(w, acts)
    requires After(w, acts).status.phase == RolloutInProgress && After(w, acts).cluster.hpa
    ensures m < |acts| && LosesEnding(After(w, acts[..m]), acts[m])
    decreases |acts|
  {
    m := |acts| - 1;
    var front := acts[..m];
    OneRolloutFront(w, acts);
    if After(w, front).cluster.hpa {
      m := HpaPaused(w, front);
      assert front[..m] == acts[..m];
    } else {
      OneStepHpa(After(w, front), acts[m]);
    }
  }

  /** A start that is recorded has made all its calls: it pauses the HPA and touches nothing else. */
  lemma StartPauses(w: World, env: Env, cut: nat)
    requires CanaryTriggered(w.spec, w.status) && Reconcile(w, env, cut).status.phase == RolloutInProgress
    ensures Reconcile(w, env, cut).cluster == w.cluster.(hpa := false)
  {
    StartOutcome(w, env, cut);
    CutAll(ReconcilePlan(w, env).writes);
    StartResult(w, env);
  }

  /** So it is in every rollout, from the reconcile that records it: any state before it, any cut. */
  lemma HpaPausedFromStart(w: World, a: Action, acts: seq<Action>) returns (m: nat)
    requires Inv(w) && BeginsRollout(w, a) && OneRollout(Next(w, a), acts)
    requires After(Next(w, a), acts).status.phase == RolloutInProgress && After(Next(w, a), acts).cluster.hpa
    ensures m < |acts| && LosesEnding(After(Next(w, a), acts[..m]), acts[m])
  {
    if CanaryTriggered(w.spec, w.status) {
      StartPauses(w, a.env, a.cut);
      m := HpaPaused(Next(w, a), acts);
    } else {
      OutsideRollout(w, Cut(ChildrenPlan(w, a.env).writes, a.cut));
      assert false;
    }
  }
}
