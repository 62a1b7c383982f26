/**
 What one reconcile of an active rollout can do to the stored status, whatever
 call it is cut at, and what the cluster looks like when it ends the rollout.
 */
module CanaryMoves {
  import opened Options
  import opened PromQL
  import opened CanaryModel
  import opened CanarySafety

  /** The step list entry the rollout stands on is a pause of length d. */
  ghost predicate Pausing(w: World, d: int) {
    OnPauseStep(w.spec, w.status) && w.spec.steps[w.status.stepIndex].pause == Some(d)
  }

  /** The evaluation of a started pause, with the verdict and the measured elapsed time. */
  ghost predicate Evaluating(w: World, d: int, env: Env, v: Verdict, elapsed: int) {
    && Pausing(w, d) && w.status.pauseStartedAt.Some?
    && v == Evaluate(w.spec.policy, d, env.answers)
    && elapsed == env.now - w.status.pauseStartedAt.value
  }

  /** The statuses a failed evaluation may leave. */
  ghost predicate UnreachableMove(w: World, env: Env, s': Status) {
    var marked := Marked(w.status, env.now);
    || s' == marked
    || (s' == RolledBack(w.spec, marked, PrometheusUnavailable)
        && env.now - marked.promUnreachableSince.value >= w.failSafe)
  }

  /** The statuses an answered evaluation may leave. */
  ghost predicate ReachableMove(w: World, d: int, elapsed: int, v: Verdict, s': Status) {
    var c := Cleared(w.status);
    || s' == c
    || (v == Breached && s' == RolledBack(w.spec, c, ThresholdBreached))
    || (v == SampleTooSmall && s' == Flagged(c))
    || (v == Healthy && elapsed >= d && s' == Advanced(c))
    || (v == SampleTooSmall && elapsed >= d && elapsed >= MaxWait(d) && s' == Advanced(c))
  }

  ghost predicate EvaluationMove(w: World, env: Env, d: int, v: Verdict, elapsed: int, s': Status) {
    && Evaluating(w, d, env, v, elapsed)
    && (if v.Unreachable? then UnreachableMove(w, env, s') else ReachableMove(w, d, elapsed, v, s'))
  }

  /** Everything the body of a step can leave in the status after n of its writes. */
  ghost predicate BodyMove(w: World, env: Env, n: nat, s': Status) {
    var s, steps := w.status, w.spec.steps;
    || s' == s
    || (s.stepIndex == |steps| && s' == Promoted(s))
    || (s.stepIndex < |steps| && steps[s.stepIndex].setWeight.Some? && n >= 4
        && s' == WeightSet(s, steps[s.stepIndex].setWeight.value))
    || (OnPauseStep(w.spec, s) && s.pauseStartedAt.None? && n >= 1
        && s' == s.(pauseStartedAt := Some(Stamp(env.now))))
    || (exists d, v, elapsed :: EvaluationMove(w, env, d, v, elapsed, s'))
    || (s.stepIndex < |steps| && steps[s.stepIndex].setWeight.None? && steps[s.stepIndex].pause.None?
        && s' == RolledBack(w.spec, s, InvalidStep))
  }

  /** How a rollout ends: promoted with every step executed, or restored to the stable image. */
  ghost predicate Ended(w: World, w': World) {
    && w'.cluster.canaryImage.None? && !w'.cluster.canaryService && w'.cluster.route.None? && w'.cluster.hpa
    && ( || (w'.status.phase == Running && w.status.stepIndex == |w.spec.steps|
             && w'.status.stableVersion == w.status.canaryVersion && w'.status.canaryVersion == ""
             && w'.cluster.stableImage == Some(w.status.canaryVersion))
         || (w'.status.phase == RolloutFailed && w'.status.failure.Some?
             && w'.status.stableVersion == w.status.stableVersion
             && w'.status.canaryVersion == w.status.canaryVersion
             && w'.cluster.stableImage == if w.cluster.stableImage.Some? then Some(w.status.stableVersion) else None))
  }

  ghost predicate EndsWell(w: World, w': World) {
    w'.status.phase != RolloutInProgress ==> Ended(w, w')
  }

  /** Object writes followed by one status write. */
  lemma TailStatus(w: World, ops: seq<Write>, s: Status, n: nat)
    requires forall i :: 0 <= i < |ops| ==> !ops[i].WriteStatus?
    ensures var w' := ApplyAll(w, Cut(ops + [WriteStatus(s)], n));
            && w'.status == (if n > |ops| then s else w.status)
            && (n > |ops| ==> w' == Apply(ApplyAll(w, ops), WriteStatus(s)))
  {
    CutAppend(ops, [WriteStatus(s)], n);
    if n <= |ops| {
      assert Cut(ops + [WriteStatus(s)], n) == ops[..n];
      ApplyKeeps(w, ops[..n]);
    } else {
      assert Cut(ops + [WriteStatus(s)], n) == ops + [WriteStatus(s)];
      ApplySnoc(w, ops, WriteStatus(s));
    }
  }

  /** A leading status write, then a rest. */
  lemma HeadStatus(w: World, s: Status, rest: seq<Write>, n: nat)
    ensures var w' := ApplyAll(w, Cut([WriteStatus(s)] + rest, n));
            w' == if n == 0 then w else ApplyAll(Apply(w, WriteStatus(s)), Cut(rest, n - 1))
  {
    CutAppend([WriteStatus(s)], rest, n);
    if n == 0 {
      assert Cut([WriteStatus(s)] + rest, n) == [];
    } else {
      ApplyAppend(w, [WriteStatus(s)], Cut(rest, n - 1));
      ApplyOne(w, WriteStatus(s));
    }
  }

  lemma RollbackMoves(w: World, reason: Reason, n: nat)
    requires w.status.phase == RolloutInProgress && w.status.stableVersion != "" && w.status.canaryVersion != ""
    ensures var w' := ApplyAll(w, Cut(RollbackWrites(w.spec, w.status, reason), n));
            && w'.status == (if n >= 6 then RolledBack(w.spec, w.status, reason) else w.status)
            && EndsWell(w, w')
  {
    TeardownResult(w, w.status.stableVersion);
    TailStatus(w, Retire(w.status.stableVersion), RolledBack(w.spec, w.status, reason), n);
  }

  lemma {:induction false} PromoteMoves(w: World, n: nat)
    requires w.status.phase == RolloutInProgress && w.status.canaryVersion != ""
    requires w.status.stepIndex == |w.spec.steps|
    ensures var w' := ApplyAll(w, Cut(PromotePlan(w.status, w.cluster).writes, n));
            && w'.status == (if n >= 6 && w.cluster.stableImage.Some? then Promoted(w.status) else w.status)
            && EndsWell(w, w')
  {
    if w.cluster.stableImage.Some? {
      TeardownResult(w, w.status.canaryVersion);
      TailStatus(w, Retire(w.status.canaryVersion), Promoted(w.status), n);
    } else {
      assert Cut([], n) == [];
    }
  }

  lemma ElapseMoves(w: World, d: int, elapsed: int, n: nat)
    ensures var w' := ApplyAll(w, Cut(ElapsePlan(w.status, d, elapsed).writes, n));
            w'.status == if n >= 1 && elapsed >= d then Advanced(w.status) else w.status
  {
    ApplyOne(w, WriteStatus(Advanced(w.status)));
    assert n == 0 ==> Cut(ElapsePlan(w.status, d, elapsed).writes, n) == [];
  }

  lemma SmallSampleMoves(w: World, d: int, elapsed: int, n: nat)
    ensures var w' := ApplyAll(w, Cut(SmallSamplePlan(w.status, d, elapsed).writes, n));
            w'.status == if n == 0 then w.status
                         else if n >= 2 && elapsed >= d && elapsed >= MaxWait(d) then Advanced(w.status)
                         else Flagged(w.status)
  {
    var flagged := Flagged(w.status);
    var rest := if elapsed < MaxWait(d) then [] else ElapsePlan(flagged, d, elapsed).writes;
    HeadStatus(w, flagged, rest, n);
    assert [WriteStatus(flagged)] + [] == [WriteStatus(flagged)];
    if n > 0 {
      ElapseMoves(Apply(w, WriteStatus(flagged)), d, elapsed, n - 1);
    }
  }

  lemma UnreachableMoves(w: World, env: Env, n: nat)
    requires w.status.phase == RolloutInProgress && w.status.stableVersion != "" && w.status.canaryVersion != ""
    ensures var w' := ApplyAll(w, Cut(UnreachablePlan(w.failSafe, w.spec, w.status, env.now).writes, n));
            && (w'.status == w.status || UnreachableMove(w, env, w'.status)) && EndsWell(w, w')
  {
    var s := w.status;
    var marked := Marked(s, env.now);
    var w1 := Apply(w, WriteStatus(marked));
    var rest :=
      if env.now - marked.promUnreachableSince.value >= w.failSafe then RollbackWrites(w.spec, marked, PrometheusUnavailable)
      else [];
    if s.promUnreachableSince.None? {
      HeadStatus(w, marked, rest, n);
      assert [WriteStatus(marked)] + [] == [WriteStatus(marked)];
      if n > 0 {
        RollbackMoves(w1, PrometheusUnavailable, n - 1);
        assert Cut([], n - 1) == [];
      }
    } else {
      assert w1 == w && [] + rest == rest;
      RollbackMoves(w, PrometheusUnavailable, n);
      assert Cut([], n) == [];
    }
  }

  lemma ReachableMoves(w: World, d: int, elapsed: int, v: Verdict, n: nat)
    requires w.status.phase == RolloutInProgress && w.status.stableVersion != "" && w.status.canaryVersion != ""
    requires !v.Unreachable?
    ensures var w' := ApplyAll(w, Cut(ReachablePlan(w.spec, w.status, d, elapsed, v).writes, n));
            && (w'.status == w.status || ReachableMove(w, d, elapsed, v, w'.status)) && EndsWell(w, w')
            && (n >= 1 ==> w'.status.promUnreachableSince.None?)
  {
    var cleared := Cleared(w.status);
    var w1 := Apply(w, WriteStatus(cleared));
    var rest :=
      match v
      case Breached => RollbackWrites(w.spec, cleared, ThresholdBreached)
      case SampleTooSmall => SmallSamplePlan(cleared, d, elapsed).writes
      case Healthy => ElapsePlan(cleared, d, elapsed).writes;
    var k := if w.status.promUnreachableSince.None? then n else if n == 0 then 0 else n - 1;
    match v {
      case Breached => RollbackMoves(w1, ThresholdBreached, k);
      case SampleTooSmall => SmallSampleMoves(w1, d, elapsed, k);
      case Healthy => ElapseMoves(w1, d, elapsed, k);
    }
    if w.status.promUnreachableSince.Some? {
      HeadStatus(w, cleared, rest, n);
    } else {
      assert w1 == w && [] + rest == rest;
    }
  }

  lemma {:induction false} PauseMoves(w: World, d: int, env: Env, n: nat)
    requires Inv(w) && w.status.phase == RolloutInProgress && Pausing(w, d)
    ensures var w' := ApplyAll(w, Cut(PausePlan(w.failSafe, w.spec, w.status, d, env).writes, n));
            BodyMove(w, env, n, w'.status) && EndsWell(w, w')
  {
    if w.status.pauseStartedAt.None? {
      var s := w.status.(pauseStartedAt := Some(Stamp(env.now)));
      ApplyOne(w, WriteStatus(s));
      assert n == 0 ==> Cut([WriteStatus(s)], n) == [];
    } else {
      var v := Evaluate(w.spec.policy, d, env.answers);
      var elapsed := env.now - w.status.pauseStartedAt.value;
      assert Evaluating(w, d, env, v, elapsed);
      if v.Unreachable? {
        UnreachableMoves(w, env, n);
      } else {
        ReachableMoves(w, d, elapsed, v, n);
      }
      var s' := ApplyAll(w, Cut(PausePlan(w.failSafe, w.spec, w.status, d, env).writes, n)).status;
      assert s' == w.status || EvaluationMove(w, env, d, v, elapsed, s');
    }
  }

  lemma BodyMoves(w: World, env: Env, n: nat)
    requires Inv(w) && w.status.phase == RolloutInProgress
    ensures var w' := ApplyAll(w, Cut(BodyPlan(w, env).writes, n));
            BodyMove(w, env, n, w'.status) && EndsWell(w, w')
  {
    if w.status.stepIndex == |w.spec.steps| {
      PromoteMoves(w, n);
    } else {
      var step := w.spec.steps[w.status.stepIndex];
      if step.setWeight.Some? {
        var weight := step.setWeight.value;
        TailStatus(w, SplitWrites(w.status.canaryVersion, weight), WeightSet(w.status, weight), n);
      } else if step.pause.Some? {
        PauseMoves(w, step.pause.value, env, n);
      } else {
        RollbackMoves(w, InvalidStep, n);
      }
    }
  }

  /** Moves and endings depend on spec, status, timeout and the stable image only. */
  lemma BodyMoveSame(w: World, w1: World, env: Env, n: nat, w': World)
    requires w1.spec == w.spec && w1.status == w.status && w1.failSafe == w.failSafe
    requires w1.cluster.stableImage == w.cluster.stableImage
    requires BodyMove(w1, env, n, w'.status) && EndsWell(w1, w')
    ensures BodyMove(w, env, n, w'.status) && EndsWell(w, w')
  {
    if d, v, elapsed :| EvaluationMove(w1, env, d, v, elapsed, w'.status) {
      assert EvaluationMove(w, env, d, v, elapsed, w'.status);
    }
  }

  /** A step cut after its healing writes. */
  lemma HealedMoves(w: World, env: Env, n: nat)
    requires Inv(w) && w.status.phase == RolloutInProgress
    ensures var w' := ApplyAll(w, HealWrites(w.status) + Cut(BodyPlan(w, env).writes, n));
            EndsWell(w, w') && BodyMove(w, env, n, w'.status)
  {
    var heal, body := HealWrites(w.status), BodyPlan(w, env).writes;
    HealSafe(w);
    SafeWritesKeep(w, heal, false);
    BodyAfterHeal(w, env);
    var w1 := ApplyAll(w, heal);
    BodyMoves(w1, env, n);
    ApplyAppend(w, heal, Cut(body, n));
    BodyMoveSame(w, w1, env, n, ApplyAll(w1, Cut(body, n)));
  }

  lemma HealPrefix(w: World, n: nat)
    ensures ApplyAll(w, Cut(HealWrites(w.status), n)).status == w.status
  {
    var heal := HealWrites(w.status);
    var cut := Cut(heal, n);
    assert forall i :: 0 <= i < |heal| ==> !heal[i].WriteStatus?;
    assert forall i :: 0 <= i < |cut| ==> cut[i] == heal[i];
    ApplyKeeps(w, cut);
  }

  lemma {:induction false} StepMoves(w: World, env: Env, cut: nat)
    requires Inv(w) && w.status.phase == RolloutInProgress
    ensures var w' := ApplyAll(w, Cut(StepPlan(w, env).writes, cut));
            var h := |HealWrites(w.status)|;
            && EndsWell(w, w')
            && if cut < h then w'.status == w.status else BodyMove(w, env, cut - h, w'.status)
  {
    var heal, body := HealWrites(w.status), BodyPlan(w, env).writes;
    CutAppend(heal, body, cut);
    if cut < |heal| {
      HealPrefix(w, cut);
    } else {
      HealedMoves(w, env, cut - |heal|);
    }
  }

  /** What a reconcile of an active rollout, cut after some call, does to the status. */
  ghost predicate ReconcileMove(w: World, env: Env, cut: nat, s': Status) {
    var h := |HealWrites(w.status)|;
    if w.spec.abort then s' == w.status || s' == RolledBack(w.spec, w.status, ManualAbort)
    else if cut < h then s' == w.status
    else BodyMove(w, env, cut - h, s')
  }

  /**
   One reconcile of an active rollout, cut anywhere: the status stays or makes one of
   the moves above, and only after the healing writes; a rollout that ends, ends clean.
   */
  lemma ReconcileMoves(w: World, env: Env, cut: nat)
    requires Inv(w) && w.status.phase == RolloutInProgress
    ensures EndsWell(w, Reconcile(w, env, cut))
    ensures ReconcileMove(w, env, cut, Reconcile(w, env, cut).status)
  {
    if w.spec.abort {
      RollbackMoves(w, ManualAbort, cut);
    } else {
      StepMoves(w, env, cut);
    }
  }
}
