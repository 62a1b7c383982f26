/**
 What a reconcile of a rollout leaves and when it asks to be woken again, field by field,
 from what it found stored and was answered.
 */
module CanaryResults {
  import opened Options
  import opened Durations
  import opened PromQL
  import opened CanaryModel
  import opened CanarySafety
  import opened CanaryMoves
  import opened CanaryTiming

  // ---------------------------------------------------------------------------
  // Endings
  // ---------------------------------------------------------------------------

  /** Nothing of the canary is left, and the HPA is back. */
  ghost predicate Removed(c: Cluster) {
    c.canaryImage.None? && !c.canaryService && c.route.None? && c.hpa
  }

  /** No bookkeeping of the rollout is left. */
  ghost predicate Forgotten(s: Status) {
    && s.canaryWeight == 0 && s.stepIndex == 0 && s.pauseStartedAt.None? && s.promUnreachableSince.None?
    && !s.sampleInsufficient
  }

  /** The promotion of w is w'. */
  ghost predicate IsPromotion(w: World, w': World) {
    && w'.status.phase == Running && w'.status.stableVersion == w.status.canaryVersion
    && w'.status.canaryVersion == "" && w'.status.failure.None?
    && w'.cluster.stableImage == Some(w.status.canaryVersion)
  }

  /** The rollback of w is w'; the rejected image stays on record. */
  ghost predicate IsRollback(w: World, w': World, reason: Reason) {
    && w'.status.phase == RolloutFailed && w'.status.stableVersion == w.status.stableVersion
    && w'.status.canaryVersion == w.status.canaryVersion && w'.status.failure == Some(reason)
    && w'.cluster.stableImage == (if w.cluster.stableImage.Some? then Some(w.status.stableVersion) else None)
  }

  /** Why a rollout that stands on step i is rolled back. */
  ghost predicate Causes(w: World, env: Env, reason: Reason) {
    var s, steps := w.status, w.spec.steps;
    match reason
    case ManualAbort => w.spec.abort
    case InvalidStep => !w.spec.abort && s.stepIndex < |steps| && steps[s.stepIndex] == Step(None, None)
    case ThresholdBreached =>
      && !w.spec.abort && OnPauseStep(w.spec, s) && s.pauseStartedAt.Some?
      && Representable(steps[s.stepIndex].pause.value) && Exceeds(w.spec.policy, env.answers)
    case PrometheusUnavailable =>
      && !w.spec.abort && OnPauseStep(w.spec, s) && s.pauseStartedAt.Some?
      && (!Representable(steps[s.stepIndex].pause.value) || Unanswered(w.spec.policy, env.answers))
      && env.now - (if s.promUnreachableSince.Some? then s.promUnreachableSince.value else Stamp(env.now)) >= w.failSafe
  }

  /**
   Every way a rollout ends, whatever call the reconcile was cut at: promoted exactly when
   every step was executed and no abort was asked for, and otherwise rolled back for a
   reason that holds. Either way nothing of the rollout is left, in the cluster or in the
   status, but the record of the rejected image.
   */
  lemma EndingExact(w: World, env: Env, cut: nat)
    requires Inv(w) && w.status.phase == RolloutInProgress && Reconcile(w, env, cut).status.phase != RolloutInProgress
    ensures var w' := Reconcile(w, env, cut);
            && Forgotten(w'.status) && Removed(w'.cluster)
            && if !w.spec.abort && w.status.stepIndex == |w.spec.steps| then IsPromotion(w, w')
               else w'.status.failure.Some? && IsRollback(w, w', w'.status.failure.value)
                    && Causes(w, env, w'.status.failure.value)
  {
    ReconcileMoves(w, env, cut);
    if OnPauseStep(w.spec, w.status) {
      VerdictIff(w.spec.policy, w.spec.steps[w.status.stepIndex].pause.value, env.answers);
    }
  }

  /** A rollback in any state, a status without a stable version included: that leaves the stable Deployment alone. */
  lemma RollbackKeepsUnknown(w: World, reason: Reason)
    requires w.status.stableVersion == ""
    ensures ApplyAll(w, RollbackWrites(w.spec, w.status, reason)).cluster.stableImage == w.cluster.stableImage
  {
    var ops := RollbackWrites(w.spec, w.status, reason);
    assert ops == [DeleteCanary, DeleteService, DeleteRoute, EnsureHPA, WriteStatus(RolledBack(w.spec, w.status, reason))];
    StableUntouched(w, ops);
  }

  // ---------------------------------------------------------------------------
  // Steps
  // ---------------------------------------------------------------------------

  /** A weight step, in any state: the split, the record, and nothing else. */
  lemma WeightExact(w: World, weight: int)
    ensures ApplyAll(w, SetWeightPlan(w.status, weight).writes) ==
            w.(status := w.status.(canaryWeight := weight, stepIndex := w.status.stepIndex + 1, pauseStartedAt := None),
               cluster := w.cluster.(canaryImage := Some(w.status.canaryVersion), canaryService := true,
               route := Some(Route(100 - weight, weight))))
  {
    SplitResult(w, w.status.canaryVersion, weight);
    ApplySnoc(w, SplitWrites(w.status.canaryVersion, weight), WriteStatus(WeightSet(w.status, weight)));
  }

  // ---------------------------------------------------------------------------
  // The next wake-up
  // ---------------------------------------------------------------------------

  /** Outside a pause: a second after a weight; none after an ending; an error when promotion cannot begin. */
  lemma WakeAfterStep(w: World, env: Env)
    requires w.status.phase == RolloutInProgress
    ensures var s, steps, outcome := w.status, w.spec.steps, ReconcilePlan(w, env).outcome;
            && (w.spec.abort ==> outcome == Settled)
            && (!w.spec.abort && s.stepIndex >= |steps| ==>
                  && (outcome == Failed <==> s.canaryVersion == "" || w.cluster.stableImage.None?)
                  && (outcome != Failed ==> outcome == Settled))
            && (!w.spec.abort && s.stepIndex < |steps| ==>
                  && (steps[s.stepIndex].setWeight.Some? ==> outcome == Requeue(SECOND))
                  && (steps[s.stepIndex] == Step(None, None) ==> outcome == Settled))
  {
  }

  /** A pause that begins is looked at again when it is over, not before. */
  lemma WakeAfterStart(w: World, d: int, env: Env)
    requires w.status.phase == RolloutInProgress && !w.spec.abort && Pausing(w, d) && w.status.pauseStartedAt.None?
    ensures ReconcilePlan(w, env).outcome == Requeue(d)
  {
  }

  lemma ToNextMultiple(e: int, d: int)
    requires d > 0 && e >= 0
    ensures 0 < d - GoRem(e, d) <= d && e + d - GoRem(e, d) == (e / d + 1) * d
  {
    assert e == e / d * d + e % d;
  }

  /**
   The evaluation of a pause, by the answers alone. Without an answer: ten seconds later,
   unless the fail-safe ends the rollout. With a breach: never. With too few requests
   before three times d and 15 minutes: at the next multiple of d. Otherwise when the pause
   is over, and a second later once it is.
   */
  lemma WakeAfterEvaluation(w: World, d: int, env: Env)
    requires w.status.phase == RolloutInProgress && !w.spec.abort && Pausing(w, d) && w.status.pauseStartedAt.Some?
    ensures var s, p, a, outcome := w.status, w.spec.policy, env.answers, ReconcilePlan(w, env).outcome;
            var elapsed := env.now - s.pauseStartedAt.value;
            var since := if s.promUnreachableSince.Some? then s.promUnreachableSince.value else Stamp(env.now);
            if !Representable(d) || Unanswered(p, a) then
              outcome == if env.now - since >= w.failSafe then Settled else Requeue(10 * SECOND)
            else if Exceeds(p, a) then outcome == Settled
            else if TooFew(p, a) && elapsed < 3 * d && elapsed < 15 * MINUTE then
              && (d > 0 && elapsed >= 0 ==>
                    outcome.Requeue? && 0 < outcome.after <= d && elapsed + outcome.after == (elapsed / d + 1) * d)
              && (outcome == Failed <==> d == 0)
            else outcome == Requeue(if elapsed < d then d - elapsed else SECOND)
  {
    VerdictIff(w.spec.policy, d, env.answers);
    var elapsed := env.now - w.status.pauseStartedAt.value;
    if d > 0 && elapsed >= 0 {
      ToNextMultiple(elapsed, d);
    }
  }
}
