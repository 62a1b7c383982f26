/**
 Admission of canary specs (internal/webhook/agentdeployment_webhook.go) and what an
 admitted spec guarantees about every rollout of it.
 */
module Webhook {
  import opened Options
  import opened PromQL
  import opened CanaryModel
  import opened CanarySafety
  import opened CanaryMoves
  import opened CanaryEvidence

  datatype SpecError =
    | StepsRequired
    | StepInvalid(index: nat)
    | FullWeightMissing
    | ErrorRateRequired
    | ErrorRateInvalid
    | LatencyRequired
    | SampleRequired

  predicate ExactlyOne(step: Step) {
    step.setWeight.Some? != step.pause.Some?
  }

  /** What a canary spec has to satisfy. */
  ghost predicate Acceptable(spec: Spec) {
    && |spec.steps| > 0
    && (forall i :: 0 <= i < |spec.steps| ==> ExactlyOne(spec.steps[i]))
    && (exists i :: 0 <= i < |spec.steps| && spec.steps[i].setWeight == Some(100))
    && spec.policy.maxErrorRate.Fraction?
    && spec.policy.maxP99LatencyMs != 0
    && spec.policy.minRequestSample != 0
  }

  /** validateCanarySpec: no error exactly for the acceptable specs; every bad step is named. */
  method ValidateCanarySpec(spec: Spec) returns (errs: seq<SpecError>)
    ensures errs == [] <==> Acceptable(spec)
    ensures forall i: nat :: StepInvalid(i) in errs <==> i < |spec.steps| && !ExactlyOne(spec.steps[i])
  {
    errs := [];
    if |spec.steps| == 0 {
      errs := errs + [StepsRequired];
    } else {
      for i := 0 to |spec.steps|
        invariant errs == [] <==> forall k :: 0 <= k < i ==> ExactlyOne(spec.steps[k])
        invariant forall k: nat :: StepInvalid(k) in errs <==> k < i && !ExactlyOne(spec.steps[k])
      {
        var step := spec.steps[i];
        var setBoth := step.setWeight.Some? && step.pause.Some?;
        var setNeither := step.setWeight.None? && step.pause.None?;
        if setBoth || setNeither {
          errs := errs + [StepInvalid(i)];
        }
      }
      var hasFullWeight := false;
      for i := 0 to |spec.steps|
        invariant !hasFullWeight
        invariant forall k :: 0 <= k < i ==> spec.steps[k].setWeight != Some(100)
      {
        if spec.steps[i].setWeight == Some(100) {
          hasFullWeight := true;
          break;
        }
      }
      if !hasFullWeight {
        errs := errs + [FullWeightMissing];
      }
    }
    if spec.policy.maxErrorRate.Unset? {
      errs := errs + [ErrorRateRequired];
    } else if spec.policy.maxErrorRate.Malformed? {
      errs := errs + [ErrorRateInvalid];
    }
    if spec.policy.maxP99LatencyMs == 0 {
      errs := errs + [LatencyRequired];
    }
    if spec.policy.minRequestSample == 0 {
      errs := errs + [SampleRequired];
    }
  }

  /**
   What acceptance means for the verdicts: with the minimum of one that the schema sets for
   both numbers when they are given, an accepted spec is judged by its own thresholds and
   never by a default.
   */
  lemma AcceptedThresholds(spec: Spec, a: Answers)
    requires Acceptable(spec) && spec.policy.maxP99LatencyMs >= 0 && spec.policy.minRequestSample >= 0
    ensures var p := spec.policy;
            && (TooFew(p, a) <==> a.count.Some? && Below(a.count.value, p.minRequestSample as real))
            && (TooManyErrors(p, a) <==>
                a.errorRate.Some? && p.maxErrorRate.Fraction? && Above(a.errorRate.value, p.maxErrorRate.f))
            && (TooSlow(p, a) <==> a.p99.Some? && Above(a.p99.value, p.maxP99LatencyMs as real))
  {
  }

  /** The image guard of ValidateUpdate. */
  predicate UpdateForbidden(oldSpec: Spec, oldStatus: Status, newSpec: Spec) {
    oldSpec.image != newSpec.image && oldStatus.phase == RolloutInProgress
  }

  /**
   Every edit of the run passes the schema and the image guard, and none touches the step
   list of a rollout in progress.
   */
  ghost predicate GuardedRun(w: World, acts: seq<Action>) {
    forall n :: 0 <= n < |acts| && acts[n].Edit? ==>
      var u := After(w, acts[..n]);
      && WellFormed(acts[n].spec) && !UpdateForbidden(u.spec, u.status, acts[n].spec)
      && (u.status.phase == RolloutInProgress ==> acts[n].spec.steps == u.spec.steps)
  }

  /** Such runs are the runs of the invariants. */
  lemma GuardedIsLegal(w: World, acts: seq<Action>)
    requires GuardedRun(w, acts)
    ensures LegalRun(w, acts)
  {
    forall n | 0 <= n < |acts| ensures Legal(After(w, acts[..n]), acts[n]) {
      assert acts[n].Edit? ==> !UpdateForbidden(After(w, acts[..n]).spec, After(w, acts[..n]).status, acts[n].spec);
    }
  }

  /** Along one rollout the spec keeps its image, which is the canary's. */
  lemma {:induction false} ImageKept(w: World, acts: seq<Action>)
    requires Inv(w) && w.status.phase == RolloutInProgress && LegalRun(w, acts) && OneRollout(w, acts)
    ensures After(w, acts).spec.image == w.spec.image && After(w, acts).spec.steps == w.spec.steps
    decreases |acts|
  {
    if acts == [] {
    } else {
      var n := |acts| - 1;
      LegalFront(w, acts);
      OneRolloutFront(w, acts);
      ImageKept(w, acts[..n]);
      if acts[n].Reconciles? {
        var u := After(w, acts[..n]);
        ApplyKeepsSpec(u, Cut(ReconcilePlan(u, acts[n].env).writes, acts[n].cut));
      }
    }
  }

  /** A reconcile at a well-formed step does not end the rollout for a malformed one. */
  lemma ValidStepMove(u: World, env: Env, cut: nat)
    requires Inv(u) && u.status.phase == RolloutInProgress
    requires u.status.stepIndex < |u.spec.steps| ==> ExactlyOne(u.spec.steps[u.status.stepIndex])
    requires Reconcile(u, env, cut).status.phase == RolloutFailed
    ensures Reconcile(u, env, cut).status.failure != Some(InvalidStep)
  {
    ReconcileMoves(u, env, cut);
  }

  /** A rollout of an accepted spec never rolls back for a malformed step. */
  lemma NoInvalidStep(w: World, acts: seq<Action>)
    requires AtStart(w) && Acceptable(w.spec) && GuardedRun(w, acts) && OneRollout(w, acts) && acts != []
    requires After(w, acts).status.phase == RolloutFailed
    ensures After(w, acts).status.failure != Some(InvalidStep)
  {
    GuardedIsLegal(w, acts);
    var n := |acts| - 1;
    LegalFront(w, acts);
    OneRolloutFront(w, acts);
    AlwaysConsistent(w, acts[..n]);
    ImageKept(w, acts[..n]);
    assert acts[n].Reconciles?;
    ValidStepMove(After(w, acts[..n]), acts[n].env, acts[n].cut);
  }

  /**
   Every promotion of an accepted spec passed through a recorded canary weight of 100,
   and what it promoted is the image of the spec the rollout started with.
   */
  lemma AcceptedPromotion(w: World, acts: seq<Action>)
    requires AtStart(w) && Acceptable(w.spec) && GuardedRun(w, acts) && OneRollout(w, acts)
    requires After(w, acts).status.phase == Running
    ensures exists n :: 0 <= n <= |acts| && After(w, acts[..n]).status.canaryWeight == 100
    ensures After(w, acts).status.stableVersion == w.spec.image
    ensures After(w, acts).cluster.stableImage == Some(w.spec.image)
  {
    GuardedIsLegal(w, acts);
    PromotionEvidence(w, acts);
    var i :| 0 <= i < |w.spec.steps| && w.spec.steps[i].setWeight == Some(100);
    CertifiedWeight(w.spec.steps, |w.spec.steps|, Log(w, acts), i);
    var full := WeightWasRecorded(w, acts, i, 100);
    var n := |acts| - 1;
    LegalFront(w, acts);
    OneRolloutFront(w, acts);
    AlwaysConsistent(w, acts[..n]);
    ImageKept(w, acts[..n]);
    assert acts[n].Reconciles?;
    ReconcileMoves(After(w, acts[..n]), acts[n].env, acts[n].cut);
  }

  /**
   And it waited out every pause the spec asks for: each began and was later evaluated with
   an answer that justifies its end. (A pause beside a weight in one step would be skipped;
   acceptance excludes it.)
   */
  lemma AcceptedPausesWaited(w: World, acts: seq<Action>, i: nat) returns (j: nat, k: nat)
    requires AtStart(w) && Acceptable(w.spec) && GuardedRun(w, acts) && OneRollout(w, acts)
    requires After(w, acts).status.phase == Running && i < |w.spec.steps| && w.spec.steps[i].pause.Some?
    ensures var log := Log(w, acts);
            && j < k < |log| && log[j].PauseBegun? && log[j].step == log[k].step == i
            && Justifies(w.spec.steps[i].pause.value, log[j].at, log[k])
  {
    GuardedIsLegal(w, acts);
    PromotionEvidence(w, acts);
    assert ExactlyOne(w.spec.steps[i]);
    j, k := CertifiedPause(w.spec.steps, |w.spec.steps|, Log(w, acts), i);
  }
}
