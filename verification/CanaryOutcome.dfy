/**
 What promotions and rollbacks leave behind: the same world however often they were
 cut and retried, healed canary objects while the rollout lasts, and, after a
 rollback, less than the comments in the source promise.
 */
module CanaryOutcome {
  import opened Options
  import opened Durations
  import opened PromQL
  import opened CanaryModel
  import opened CanarySafety
  import opened CanaryMoves
  import opened CanaryEvidence
  import opened CanaryTiming

  // ---------------------------------------------------------------------------
  // Retried endings
  // ---------------------------------------------------------------------------

  /** No spec edit in the run; crashes, retries and out-of-band deletions are allowed. */
  ghost predicate NoEdits(acts: seq<Action>) {
    forall n :: 0 <= n < |acts| ==> !acts[n].Edit?
  }

  lemma OneStepStays(w: World, a: Action)
    requires Inv(w) && w.status.phase == RolloutInProgress && !a.Edit? && w.cluster.stableImage.Some?
    requires w.spec.abort || w.status.stepIndex == |w.spec.steps|
    requires Next(w, a).status.phase == RolloutInProgress
    ensures Next(w, a).status == w.status && Next(w, a).spec == w.spec && Next(w, a).failSafe == w.failSafe
    ensures Next(w, a).cluster.stableImage.Some? && Inv(Next(w, a))
  {
    NextKeeps(w, a, false);
    if a.Reconciles? {
      ReconcileMoves(w, a.env, a.cut);
      ApplyKeepsSpec(w, Cut(ReconcilePlan(w, a.env).writes, a.cut));
      StablePresent(w, Cut(ReconcilePlan(w, a.env).writes, a.cut));
    }
  }

  lemma {:induction false} StaysPut(w: World, acts: seq<Action>)
    requires Inv(w) && w.status.phase == RolloutInProgress && w.cluster.stableImage.Some?
    requires w.spec.abort || w.status.stepIndex == |w.spec.steps|
    requires NoEdits(acts) && OneRollout(w, acts) && After(w, acts).status.phase == RolloutInProgress
    ensures var w' := After(w, acts);
            && Inv(w') && w'.cluster.stableImage.Some?
            && w'.status == w.status && w'.spec == w.spec && w'.failSafe == w.failSafe
    decreases |acts|
  {
    if acts == [] {
    } else {
      var n := |acts| - 1;
      var front := acts[..n];
      OneRolloutFront(w, acts);
      StaysPut(w, front);
      OneStepStays(After(w, front), acts[n]);
    }
  }

  /** The world a completed promotion leaves. */
  function PromotedWorld(w: World): World {
    w.(status := Promoted(w.status), cluster := Cluster(Some(w.status.canaryVersion), None, false, None, true))
  }

  /** The world a completed rollback leaves. */
  function RolledBackWorld(w: World, reason: Reason): World {
    w.(status := RolledBack(w.spec, w.status, reason),
    cluster := Cluster(Some(w.status.stableVersion), None, false, None, true))
  }

  lemma EndingStep(w: World, a: Action)
    requires Inv(w) && w.status.phase == RolloutInProgress && !a.Edit? && w.cluster.stableImage.Some?
    requires w.spec.abort || w.status.stepIndex == |w.spec.steps|
    requires Next(w, a).status.phase != RolloutInProgress
    ensures Next(w, a) == if w.spec.abort then RolledBackWorld(w, ManualAbort) else PromotedWorld(w)
  {
    ReconcileMoves(w, a.env, a.cut);
    ApplyKeepsSpec(w, Cut(ReconcilePlan(w, a.env).writes, a.cut));
  }

  /**
   A promotion, or a manual abort, cut at any call and retried any number of times,
   with canary objects deleted out of band meanwhile, can end in one world only: the
   one the uncut reconcile ends in.
   */
  lemma RetriesConverge(w: World, acts: seq<Action>)
    requires Inv(w) && w.status.phase == RolloutInProgress && w.cluster.stableImage.Some?
    requires w.spec.abort || w.status.stepIndex == |w.spec.steps|
    requires acts != [] && NoEdits(acts) && OneRollout(w, acts)
    requires After(w, acts).status.phase != RolloutInProgress
    ensures After(w, acts) == if w.spec.abort then RolledBackWorld(w, ManualAbort) else PromotedWorld(w)
  {
    var n := |acts| - 1;
    var front := acts[..n];
    OneRolloutFront(w, acts);
    StaysPut(w, front);
    EndingStep(After(w, front), acts[n]);
  }

  /** The uncut reconcile does end the rollout. */
  lemma UncutEnds(w: World, env: Env)
    requires Inv(w) && w.status.phase == RolloutInProgress && w.cluster.stableImage.Some?
    requires w.spec.abort || w.status.stepIndex == |w.spec.steps|
    ensures Full(w, env) == if w.spec.abort then RolledBackWorld(w, ManualAbort) else PromotedWorld(w)
  {
    var ops := ReconcilePlan(w, env).writes;
    CutAll(ops);
    if w.spec.abort {
      RollbackMoves(w, ManualAbort, |ops|);
      EndingStep(w, Reconciles(env, |ops|));
    } else {
      WakeEnds(Clocked(w, env.now, env.now), env);
      EndingStep(w, Reconciles(env, |ops|));
    }
  }

  // ---------------------------------------------------------------------------
  // Self-healing
  // ---------------------------------------------------------------------------

  /** All canary objects are in place and the route shows the recorded weight. */
  ghost predicate Healed(w: World) {
    && w.cluster.canaryImage == Some(w.status.canaryVersion) && w.cluster.canaryService
    && (w.status.canaryWeight > 0 ==>
          w.cluster.route == Some(Route(100 - w.status.canaryWeight, w.status.canaryWeight)))
  }

  lemma HealResult(w: World)
    requires w.status.canaryVersion != ""
    ensures Healed(ApplyAll(w, HealWrites(w.status))) && ApplyAll(w, HealWrites(w.status)).status == w.status
  {
    var s := w.status;
    var pair := [EnsureCanary(s.canaryVersion), EnsureService];
    PairResult(w, s.canaryVersion);
    if s.canaryWeight > 0 {
      ApplySnoc(w, pair, EnsureRoute(100 - s.canaryWeight, s.canaryWeight));
    } else {
      assert HealWrites(s) == pair + [] == pair;
    }
  }

  lemma {:induction false} StatusOnly(w: World, ops: seq<Write>)
    requires forall i :: 0 <= i < |ops| ==> ops[i].WriteStatus?
    ensures ApplyAll(w, ops).cluster == w.cluster
    decreases |ops|
  {
    if ops == [] {
    } else {
      assert ops[0].WriteStatus?;
      StatusOnly(Apply(w, ops[0]), ops[1..]);
    }
  }

  /** A pause that neither advances nor rolls back keeps every object and the weight. */
  lemma PauseKeepsObjects(w: World, d: int, env: Env)
    requires Inv(w) && w.status.phase == RolloutInProgress && Pausing(w, d) && !w.spec.abort
    requires PauseStatus(w.failSafe, w.spec, w.status, d, env).phase == RolloutInProgress
    ensures forall i :: 0 <= i < |PausePlan(w.failSafe, w.spec, w.status, d, env).writes| ==>
              PausePlan(w.failSafe, w.spec, w.status, d, env).writes[i].WriteStatus?
    ensures var s' := PauseStatus(w.failSafe, w.spec, w.status, d, env);
            s'.canaryWeight == w.status.canaryWeight && s'.canaryVersion == w.status.canaryVersion
  {
  }

  /**
   Self-healing: whatever canary objects were deleted, a reconcile whose calls succeed
   and that leaves the rollout in progress leaves all of them in place.
   */
  lemma SelfHealing(w: World, env: Env)
    requires Inv(w) && w.status.phase == RolloutInProgress && !w.spec.abort
    requires Full(w, env).status.phase == RolloutInProgress
    ensures Healed(Full(w, env))
  {
    var s := w.status;
    FullBody(w, env);
    HealResult(w);
    var w1 := ApplyAll(w, HealWrites(s));
    var body := BodyPlan(w1, env).writes;
    if s.stepIndex == |w.spec.steps| {
      CutAll(body);
      PromoteMoves(w1, |body|);
    } else if w.spec.steps[s.stepIndex].setWeight.Some? {
      WeightHeals(w1, w.spec.steps[s.stepIndex].setWeight.value);
    } else if w.spec.steps[s.stepIndex].pause.Some? {
      var d := w.spec.steps[s.stepIndex].pause.value;
      FullPause(w, d, env);
      PauseKeepsObjects(w1, d, env);
      StatusOnly(w1, body);
    } else {
      CutAll(body);
      RollbackMoves(w1, InvalidStep, |body|);
    }
  }

  lemma WeightHeals(w: World, weight: int)
    ensures Healed(ApplyAll(w, SetWeightPlan(w.status, weight).writes))
  {
    SplitResult(w, w.status.canaryVersion, weight);
    ApplySnoc(w, SplitWrites(w.status.canaryVersion, weight), WriteStatus(WeightSet(w.status, weight)));
  }

  // ---------------------------------------------------------------------------
  // Starting a rollout
  // ---------------------------------------------------------------------------

  lemma ChildrenResult(w: World, env: Env)
    requires w.status.phase != RolloutInProgress && !CanaryTriggered(w.spec, w.status)
    ensures Full(w, env) ==
            w.(status := Observed(w.spec, w.status, w.spec.image, env),
               cluster := w.cluster.(stableImage := Some(w.spec.image), hpa := w.cluster.hpa || env.quotaFound))
  {
    var observed := Observed(w.spec, w.status, w.spec.image, env);
    var hpa: seq<Write> := if env.quotaFound then [EnsureHPA] else [];
    var w1 := Apply(w, ApplyStable(w.spec.image));
    ApplyOne(w, ApplyStable(w.spec.image));
    ApplyAppend(w, [ApplyStable(w.spec.image)], hpa);
    if env.quotaFound {
      ApplyOne(w1, EnsureHPA);
    }
    ApplySnoc(w, [ApplyStable(w.spec.image)] + hpa, WriteStatus(observed));
    assert ReconcilePlan(w, env).writes == [ApplyStable(w.spec.image)] + hpa + [WriteStatus(observed)];
  }

  lemma StartResult(w: World, env: Env)
    requires CanaryTriggered(w.spec, w.status)
    ensures Full(w, env) == w.(status := Started(w.spec, w.status), cluster := w.cluster.(hpa := false))
  {
    ApplyOne(w, DeleteHPA);
    ApplySnoc(w, [DeleteHPA], WriteStatus(Started(w.spec, w.status)));
    assert StartPlan(w).writes == [DeleteHPA] + [WriteStatus(Started(w.spec, w.status))];
  }

  /**
   Exactly when a rollout starts: a canary strategy, a version known to be stable, another
   image asked for, and not the one that was just rolled back. The start records that
   image and leaves the stable Deployment alone; any other reconcile outside a
   rollout gives the stable Deployment the image asked for, with no canary.
   */
  lemma RolloutStartsIff(w: World, env: Env)
    requires w.status.phase != RolloutInProgress
    ensures var spec, s, w' := w.spec, w.status, Full(w, env);
            var starts := && spec.canary && s.stableVersion != "" && spec.image != s.stableVersion
                          && !(s.phase == RolloutFailed && spec.image == s.canaryVersion);
            && (w'.status.phase == RolloutInProgress <==> starts)
            && (starts ==>
                  && w'.status.canaryVersion == spec.image && w'.status.stableVersion == s.stableVersion
                  && w'.status.stepIndex == 0 && w'.status.canaryWeight == 0
                  && w'.status.pauseStartedAt.None? && w'.status.promUnreachableSince.None?
                  && w'.status.failure == s.failure && w'.status.sampleInsufficient == s.sampleInsufficient
                  && w'.cluster == w.cluster.(hpa := false) && ReconcilePlan(w, env).outcome == Requeue(5 * SECOND))
            && (!starts ==>
                  w'.cluster == w.cluster.(stableImage := Some(spec.image), hpa := w.cluster.hpa || env.quotaFound))
  {
    if CanaryTriggered(w.spec, w.status) {
      StartResult(w, env);
    } else {
      ChildrenResult(w, env);
    }
  }

  /**
   What such a reconcile learns from the stable Deployment. Its image becomes the stable
   version exactly when it is complete and its pods can pull it; a failed rollout whose
   image differs from the stable version stays failed.
   */
  lemma StableVersionLearnt(w: World, env: Env)
    requires w.status.phase != RolloutInProgress && Full(w, env).status.phase != RolloutInProgress
    ensures var s, s' := w.status, Full(w, env).status;
            var stays := s.phase == RolloutFailed && w.spec.image != s.stableVersion;
            && s'.stableVersion == (if env.complete && !env.pullFailed then w.spec.image else s.stableVersion)
            && (s'.phase == Degraded <==> env.pullFailed)
            && (s'.phase == Pending <==> !env.pullFailed && !env.complete)
            && (s'.phase == RolloutFailed <==> env.complete && !env.pullFailed && stays)
            && (s'.canaryVersion, s'.failure) == (if s'.phase == Running then ("", None) else (s.canaryVersion, s.failure))
            && ReconcilePlan(w, env).outcome ==
               if s'.phase == Pending then Requeue(5 * SECOND) else if env.quotaFound then Settled else Requeue(10 * SECOND)
  {
    RolloutStartsIff(w, env);
    ChildrenResult(w, env);
  }

  /**
   From a deployment to its first canary: once a reconcile has found the stable Deployment
   complete and the agent runs, the next edit of the image under a canary strategy
   starts a rollout of it, with the old image still on the stable Deployment.
   */
  lemma NextEditStarts(w: World, env: Env, spec: Spec, env': Env)
    requires w.status.phase != RolloutInProgress && Full(w, env).status.phase == Running
    requires w.spec.image != "" && spec.canary && spec.image != w.spec.image
    ensures var w' := Full(Full(w, env).(spec := spec), env');
            && w'.status.phase == RolloutInProgress && w'.status.canaryVersion == spec.image
            && w'.status.stableVersion == w.spec.image && w'.cluster.stableImage == Some(w.spec.image)
  {
    RolloutStartsIff(w, env);
    StableVersionLearnt(w, env);
    RolloutStartsIff(Full(w, env).(spec := spec), env');
  }

  // ---------------------------------------------------------------------------
  // After a rollback
  // ---------------------------------------------------------------------------

  /**
   Exactly when the reconcile after a rollback leaves the stable Deployment at the
   stable version: the spec asks for that version, or for one that starts a new canary.
   */
  lemma StableKeptAfterRollbackIff(w: World, env: Env)
    requires w.status.phase == RolloutFailed && w.cluster.stableImage == Some(w.status.stableVersion)
    ensures Full(w, env).cluster.stableImage == Some(w.status.stableVersion) <==>
            w.spec.image == w.status.stableVersion || CanaryTriggered(w.spec, w.status)
  {
    if CanaryTriggered(w.spec, w.status) {
      StartResult(w, env);
    } else {
      ChildrenResult(w, env);
    }
  }

  /**
   In particular a rolled back image is deployed: whenever a reconcile rolls back a
   canary whose image differs from the stable one and the spec is left alone, the next
   reconcile puts the rejected image on the stable Deployment, with no canary.
   */
  lemma RejectedImageDeployed(w: World, env: Env, cut: nat, env': Env)
    requires Inv(w) && w.status.phase == RolloutInProgress && w.status.canaryVersion != w.status.stableVersion
    requires Reconcile(w, env, cut).status.phase == RolloutFailed
    ensures Full(Reconcile(w, env, cut), env').cluster.stableImage == Some(w.status.canaryVersion)
  {
    var w1 := Reconcile(w, env, cut);
    ReconcileMoves(w, env, cut);
    ApplyKeepsSpec(w, Cut(ReconcilePlan(w, env).writes, cut));
    ChildrenResult(w1, env');
  }

  /**
   The guard against retrying the rejected image holds one reconcile longer if and
   only if the stable Deployment is already complete on that image; otherwise the phase
   is overwritten and the same canary starts again, this time with the stable
   Deployment already running the rejected image.
   */
  lemma RetryGuardIff(w: World, env: Env, env': Env)
    requires w.status.phase == RolloutFailed && w.spec.canary && |w.spec.steps| > 0
    requires w.spec.image == w.status.canaryVersion && w.status.stableVersion != ""
    requires w.spec.image != w.status.stableVersion
    ensures var w1 := Full(w, env);
            var restarts := CanaryTriggered(w1.spec, w1.status);
            && (restarts <==> env.pullFailed || !env.complete)
            && (restarts ==> Full(w1, env').status.phase == RolloutInProgress && !StableGuarded(Full(w1, env')))
  {
    ChildrenResult(w, env);
    var w1 := Full(w, env);
    if CanaryTriggered(w1.spec, w1.status) {
      StartResult(w1, env');
    }
  }

  /** The pause of length d is being evaluated and the answers breach a threshold. */
  ghost predicate BreachSeen(w: World, d: int, env: Env) {
    && Inv(w) && w.status.phase == RolloutInProgress && !w.spec.abort && Pausing(w, d)
    && w.status.pauseStartedAt.Some? && Evaluate(w.spec.policy, d, env.answers) == Breached
  }

  /** The calls of a reconcile that acts on a breach: healing, clearing an outage, and the rollback. */
  function BreachCalls(s: Status): nat {
    |HealWrites(s)| + |ClearWrites(s)| + 6
  }

  /** After the healing writes: the clearing write, then the rollback, which ends with its status write. */
  lemma BreachBody(w: World, n: nat)
    requires w.status.phase == RolloutInProgress && w.status.stableVersion != "" && w.status.canaryVersion != ""
    ensures var ops := ClearWrites(w.status) + RollbackWrites(w.spec, Cleared(w.status), ThresholdBreached);
            ApplyAll(w, Cut(ops, n)).status ==
            if n < |ClearWrites(w.status)| then w.status
            else if n < |ClearWrites(w.status)| + 6 then Cleared(w.status)
            else RolledBack(w.spec, Cleared(w.status), ThresholdBreached)
  {
    var rest := RollbackWrites(w.spec, Cleared(w.status), ThresholdBreached);
    var w1 := Apply(w, WriteStatus(Cleared(w.status)));
    if w.status.promUnreachableSince.Some? {
      HeadStatus(w, Cleared(w.status), rest, n);
      if n > 0 {
        RollbackMoves(w1, ThresholdBreached, n - 1);
      }
    } else {
      assert [] + rest == rest && w1 == w;
      RollbackMoves(w, ThresholdBreached, n);
    }
  }

  /** What a reconcile that sees a breach leaves in the status, cut after any call. */
  lemma BreachStatus(w: World, d: int, breach: Env, cut: nat)
    requires BreachSeen(w, d, breach)
    ensures var s := w.status;
            Reconcile(w, breach, cut).status ==
            if cut < |HealWrites(s)| + |ClearWrites(s)| then s
            else if cut < BreachCalls(s) then Cleared(s)
            else RolledBack(w.spec, Cleared(s), ThresholdBreached)
  {
    var heal, body := HealWrites(w.status), BodyPlan(w, breach).writes;
    assert ReconcilePlan(w, breach).writes == heal + body;
    CutAppend(heal, body, cut);
    if cut < |heal| {
      HealPrefix(w, cut);
    } else {
      BodyAfterHeal(w, breach);
      ApplyAppend(w, heal, Cut(body, cut - |heal|));
      BreachBody(ApplyAll(w, heal), cut - |heal|);
    }
  }

  /**
   Exactly when a breach ends the rollout: all its calls succeed, the healing ones, the
   clearing of a recorded outage and the six of the rollback. Otherwise the rollout is
   still in progress at the same step.
   */
  lemma BreachKeptIff(w: World, d: int, breach: Env, cut: nat)
    requires BreachSeen(w, d, breach)
    ensures Reconcile(w, breach, cut).status.phase == RolloutFailed <==> cut >= BreachCalls(w.status)
    ensures cut < BreachCalls(w.status) ==> Reconcile(w, breach, cut).status.phase == RolloutInProgress
    ensures cut >= BreachCalls(w.status) ==> Reconcile(w, breach, cut).status.failure == Some(ThresholdBreached)
  {
    BreachStatus(w, d, breach, cut);
  }

  /**
   What the answers alone decide: a representable window, enough requests, and an exceeded
   threshold end a started pause, when the calls succeed, in a rollback for the breach.
   */
  lemma ExceededRollsBack(w: World, d: int, env: Env)
    requires Inv(w) && w.status.phase == RolloutInProgress && !w.spec.abort && Pausing(w, d)
    requires w.status.pauseStartedAt.Some? && Representable(d) && Exceeds(w.spec.policy, env.answers)
    ensures Full(w, env).status.phase == RolloutFailed && Full(w, env).status.failure == Some(ThresholdBreached)
  {
    VerdictIff(w.spec.policy, d, env.answers);
    BreachKeptIff(w, d, env, |ReconcilePlan(w, env).writes| + BreachCalls(w.status));
  }

  /**
   A breach can be forgotten: if any of those calls fails and the next evaluation is
   healthy, the pause advances as if nothing had happened.
   */
  lemma BreachForgotten(w: World, d: int, breach: Env, healthy: Env, cut: nat)
    requires BreachSeen(w, d, breach) && cut < BreachCalls(w.status)
    requires Evaluate(w.spec.policy, d, healthy.answers) == Healthy
    requires healthy.now - w.status.pauseStartedAt.value >= d
    ensures var w' := Full(Reconcile(w, breach, cut), healthy);
            w'.status.phase == RolloutInProgress && w'.status.stepIndex == w.status.stepIndex + 1
  {
    var w1 := Reconcile(w, breach, cut);
    BreachStatus(w, d, breach, cut);
    NextKeeps(w, Reconciles(breach, cut), false);
    ApplyKeepsSpec(w, Cut(ReconcilePlan(w, breach).writes, cut));
    FullPause(w1, d, healthy);
  }
}
