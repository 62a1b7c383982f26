/**
 How long a rollout can take when no API call fails and every wake-up comes no later
 than requested. Early wake-ups, in any number, are allowed: watch events cause them.
 */
module CanaryTiming {
  import opened Options
  import opened Durations
  import opened PromQL
  import opened CanaryModel
  import opened CanarySafety
  import opened CanaryMoves
  import opened CanaryEvidence

  /** A reconcile none of whose calls fails. */
  function Full(w: World, env: Env): World {
    ApplyAll(w, ReconcilePlan(w, env).writes)
  }

  /** A world, the time of its last reconcile and the latest time of the next one. */
  datatype Clocked = Clocked(w: World, now: int, wake: int)

  function Wake(c: Clocked, env: Env): Clocked {
    var outcome := ReconcilePlan(c.w, env).outcome;
    Clocked(Full(c.w, env), env.now, env.now + if outcome.Requeue? then outcome.after else 0)
  }

  function Woken(c: Clocked, envs: seq<Env>): Clocked
    decreases |envs|
  {
    if envs == [] then c else Wake(Woken(c, envs[..|envs| - 1]), envs[|envs| - 1])
  }

  ghost predicate InProgress(c: Clocked) {
    c.w.status.phase == RolloutInProgress
  }

  /** The reconcile comes no earlier than the last one and no later than requested. */
  ghost predicate InTime(c: Clocked, env: Env) {
    c.now <= env.now <= c.wake
  }

  /** Time does not run backwards and no wake-up is late while the rollout lasts. */
  ghost predicate Punctual(c: Clocked, envs: seq<Env>) {
    forall n :: 0 <= n < |envs| ==> InProgress(Woken(c, envs[..n])) && InTime(Woken(c, envs[..n]), envs[n])
  }

  function Max(a: int, b: int): int {
    if a >= b then a else b
  }

  /** The longest useful wait of a pause: three times its length, but not beyond 15 minutes unless it is longer itself. */
  function Settle(d: int): int {
    if d <= 0 || d >= 15 * MINUTE then d else if d >= 5 * MINUTE then 15 * MINUTE else 3 * d
  }

  /** The longest a pause of length d can last, measured from its recorded start. */
  function PauseBound(d: int, failSafe: int): int {
    Settle(d) + Max(d, 10 * SECOND) + failSafe + 10 * SECOND
  }

  function StepBound(step: Step, failSafe: int): int {
    if step.setWeight.Some? || step.pause.None? then SECOND
    else PauseBound(step.pause.value, failSafe) + SECOND
  }

  /** The time allowed for the steps from n on. */
  function Remaining(steps: seq<Step>, n: nat, failSafe: int): int
    requires n <= |steps|
    decreases |steps| - n
  {
    if n == |steps| then 0 else StepBound(steps[n], failSafe) + Remaining(steps, n + 1, failSafe)
  }

  function RolloutBound(steps: seq<Step>, failSafe: int): int {
    5 * SECOND + Remaining(steps, 0, failSafe)
  }

  ghost predicate PositivePauses(steps: seq<Step>) {
    forall i :: 0 <= i < |steps| && steps[i].setWeight.None? && steps[i].pause.Some? ==> steps[i].pause.value > 0
  }

  // ---------------------------------------------------------------------------
  // The status after a full reconcile
  // ---------------------------------------------------------------------------

  /** The status a pause step leaves when all its writes land. */
  function PauseStatus(failSafe: int, spec: Spec, s: Status, d: int, env: Env): Status {
    if s.pauseStartedAt.None? then s.(pauseStartedAt := Some(Stamp(env.now)))
    else
      var elapsed, marked, cleared := env.now - s.pauseStartedAt.value, Marked(s, env.now), Cleared(s);
      match Evaluate(spec.policy, d, env.answers)
      case Unreachable =>
        if env.now - marked.promUnreachableSince.value >= failSafe then RolledBack(spec, marked, PrometheusUnavailable)
        else marked
      case Breached => RolledBack(spec, cleared, ThresholdBreached)
      case SampleTooSmall => if elapsed >= d && elapsed >= MaxWait(d) then Advanced(cleared) else Flagged(cleared)
      case Healthy => if elapsed >= d then Advanced(cleared) else cleared
  }

  lemma CutAll(ops: seq<Write>)
    ensures Cut(ops, |ops|) == ops
  {
  }

  lemma FullUnreachable(w: World, env: Env, d: int)
    requires Inv(w) && w.status.phase == RolloutInProgress && w.status.pauseStartedAt.Some?
    requires Evaluate(w.spec.policy, d, env.answers).Unreachable?
    ensures ApplyAll(w, UnreachablePlan(w.failSafe, w.spec, w.status, env.now).writes).status ==
            PauseStatus(w.failSafe, w.spec, w.status, d, env)
  {
    var s := w.status;
    var marked := Marked(s, env.now);
    var w1 := Apply(w, WriteStatus(marked));
    var rb := RollbackWrites(w.spec, marked, PrometheusUnavailable);
    var fires := env.now - marked.promUnreachableSince.value >= w.failSafe;
    var rest := if fires then rb else [];
    CutAll(rb);
    RollbackMoves(w1, PrometheusUnavailable, |rb|);
    if s.promUnreachableSince.None? {
      ApplyAppend(w, [WriteStatus(marked)], rest);
      ApplyOne(w, WriteStatus(marked));
      assert [WriteStatus(marked)] + [] == [WriteStatus(marked)];
    } else {
      assert w1 == w && [] + rest == rest;
    }
  }

  lemma FullReachable(w: World, d: int, elapsed: int, v: Verdict)
    requires Inv(w) && w.status.phase == RolloutInProgress && !v.Unreachable?
    ensures ApplyAll(w, ReachablePlan(w.spec, w.status, d, elapsed, v).writes).status ==
            var cleared := Cleared(w.status);
            match v
            case Breached => RolledBack(w.spec, cleared, ThresholdBreached)
            case SampleTooSmall => if elapsed >= d && elapsed >= MaxWait(d) then Advanced(cleared) else Flagged(cleared)
            case Healthy => if elapsed >= d then Advanced(cleared) else cleared
  {
    var cleared := Cleared(w.status);
    var w1 := Apply(w, WriteStatus(cleared));
    var rest :=
      match v
      case Breached => RollbackWrites(w.spec, cleared, ThresholdBreached)
      case SampleTooSmall => SmallSamplePlan(cleared, d, elapsed).writes
      case Healthy => ElapsePlan(cleared, d, elapsed).writes;
    CutAll(rest);
    match v {
      case Breached => RollbackMoves(w1, ThresholdBreached, |rest|);
      case SampleTooSmall => SmallSampleMoves(w1, d, elapsed, |rest|);
      case Healthy => ElapseMoves(w1, d, elapsed, |rest|);
    }
    if w.status.promUnreachableSince.Some? {
      ApplyAppend(w, [WriteStatus(cleared)], rest);
      ApplyOne(w, WriteStatus(cleared));
    } else {
      assert w1 == w && [] + rest == rest;
    }
  }

  /** Healing first does not change what the body of a step does to the status. */
  lemma FullBody(w: World, env: Env)
    requires Inv(w) && w.status.phase == RolloutInProgress && !w.spec.abort
    ensures var w1 := ApplyAll(w, HealWrites(w.status));
            && Inv(w1) && w1.status == w.status && w1.spec == w.spec && w1.failSafe == w.failSafe
            && w1.cluster.stableImage == w.cluster.stableImage
            && Full(w, env) == ApplyAll(w1, BodyPlan(w1, env).writes)
            && ReconcilePlan(w, env).outcome == BodyPlan(w1, env).outcome
  {
    HealSafe(w);
    SafeWritesKeep(w, HealWrites(w.status), false);
    BodyAfterHeal(w, env);
    ApplyAppend(w, HealWrites(w.status), BodyPlan(w, env).writes);
  }

  lemma FullPause(w: World, d: int, env: Env)
    requires Inv(w) && w.status.phase == RolloutInProgress && !w.spec.abort && Pausing(w, d)
    ensures Full(w, env).status == PauseStatus(w.failSafe, w.spec, w.status, d, env)
    ensures ReconcilePlan(w, env).outcome == PausePlan(w.failSafe, w.spec, w.status, d, env).outcome
  {
    FullBody(w, env);
    var w1 := ApplyAll(w, HealWrites(w.status));
    var s := w.status;
    if s.pauseStartedAt.None? {
      ApplyOne(w1, WriteStatus(s.(pauseStartedAt := Some(Stamp(env.now)))));
    } else {
      var v := Evaluate(w.spec.policy, d, env.answers);
      if v.Unreachable? {
        FullUnreachable(w1, env, d);
      } else {
        FullReachable(w1, d, env.now - s.pauseStartedAt.value, v);
      }
    }
  }

  lemma FullSetWeightStep(w: World, weight: int, env: Env)
    requires Inv(w) && w.status.phase == RolloutInProgress && !w.spec.abort && w.status.stepIndex < |w.spec.steps|
    requires w.spec.steps[w.status.stepIndex].setWeight == Some(weight)
    ensures Full(w, env).status == WeightSet(w.status, weight)
    ensures ReconcilePlan(w, env).outcome == Requeue(SECOND)
  {
    var plan := ReconcilePlan(w, env);
    CutAll(plan.writes);
    FullSetWeight(w, env, |plan.writes|);
  }

  // ---------------------------------------------------------------------------
  // The deadline
  // ---------------------------------------------------------------------------

  /** A pause of length d since `start`: the next wake-up comes in time for the pause to end in bound. */
  ghost predicate PauseOnTime(c: Clocked, d: int, start: int) {
    var s, reach := c.w.status, start + Settle(d) + Max(d, 10 * SECOND);
    && start <= c.now
    && (s.promUnreachableSince.Some? ==> s.promUnreachableSince.value <= reach && s.promUnreachableSince.value <= c.now)
    && ( || c.wake <= reach
         || (s.promUnreachableSince.Some? && c.wake <= s.promUnreachableSince.value + c.w.failSafe + 10 * SECOND))
  }

  ghost predicate OnTime(c: Clocked, deadline: int) {
    var s, steps, f := c.w.status, c.w.spec.steps, c.w.failSafe;
    && Inv(c.w) && !c.w.spec.abort && PositivePauses(steps) && f >= 0 && c.w.cluster.stableImage.Some?
    && (s.phase == RolloutInProgress ==>
          if s.pauseStartedAt.None? then c.wake + Remaining(steps, s.stepIndex, f) <= deadline
          else
            var d := steps[s.stepIndex].pause.value;
            && PauseOnTime(c, d, s.pauseStartedAt.value)
            && s.pauseStartedAt.value + PauseBound(d, f) + SECOND + Remaining(steps, s.stepIndex + 1, f) <= deadline)
  }

  lemma {:induction false} RemainingNonNegative(steps: seq<Step>, n: nat, failSafe: int)
    requires n <= |steps| && PositivePauses(steps) && failSafe >= 0
    ensures Remaining(steps, n, failSafe) >= 0
    decreases |steps| - n
  {
    if n == |steps| {
    } else {
      RemainingNonNegative(steps, n + 1, failSafe);
    }
  }

  /** A rollout on time has its next wake-up no later than the deadline. */
  lemma OnTimeWakes(c: Clocked, deadline: int)
    requires OnTime(c, deadline) && c.w.status.phase == RolloutInProgress
    ensures c.wake <= deadline
  {
    var s, steps, f := c.w.status, c.w.spec.steps, c.w.failSafe;
    RemainingNonNegative(steps, s.stepIndex, f);
    if s.pauseStartedAt.Some? {
      RemainingNonNegative(steps, s.stepIndex + 1, f);
    }
  }

  lemma StampBounds(t: int)
    ensures t - SECOND < Stamp(t) <= t && Stamp(t) % SECOND == 0
  {
    assert t == t / SECOND * SECOND + t % SECOND;
  }

  /** The stable Deployment stays present through a rollout. */
  lemma {:induction false} StablePresent(w: World, ops: seq<Write>)
    requires w.cluster.stableImage.Some?
    ensures ApplyAll(w, ops).cluster.stableImage.Some?
    decreases |ops|
  {
    if ops == [] {
    } else {
      StablePresent(Apply(w, ops[0]), ops[1..]);
    }
  }

  /** Frame of one wake-up: invariant, spec and stable Deployment. */
  lemma WakeFrame(c: Clocked, env: Env)
    requires Inv(c.w) && c.w.cluster.stableImage.Some?
    ensures var c' := Wake(c, env);
            && Inv(c'.w) && c'.w.spec == c.w.spec && c'.w.failSafe == c.w.failSafe
            && c'.w.cluster.stableImage.Some?
  {
    var ops := ReconcilePlan(c.w, env).writes;
    CutAll(ops);
    NextKeeps(c.w, Reconciles(env, |ops|), false);
    ApplyKeepsSpec(c.w, ops);
    StablePresent(c.w, ops);
  }

  /** A pause that has begun: the requested wake-up is in reach. */
  lemma PauseBegins(c: Clocked, d: int, env: Env, deadline: int)
    requires OnTime(c, deadline) && c.w.status.phase == RolloutInProgress && Pausing(c.w, d)
    requires c.w.status.pauseStartedAt.None? && c.now <= env.now <= c.wake
    ensures OnTime(Wake(c, env), deadline)
  {
    WakeFrame(c, env);
    FullPause(c.w, d, env);
    StampBounds(env.now);
  }

  /** A failed evaluation that does not fire leaves the outage branch of the bound. */
  lemma PauseDark(c: Clocked, d: int, env: Env, deadline: int)
    requires OnTime(c, deadline) && c.w.status.phase == RolloutInProgress && Pausing(c.w, d)
    requires c.w.status.pauseStartedAt.Some? && c.now <= env.now <= c.wake
    requires Evaluate(c.w.spec.policy, d, env.answers).Unreachable?
    ensures OnTime(Wake(c, env), deadline)
  {
    WakeFrame(c, env);
    FullPause(c.w, d, env);
    StampBounds(env.now);
  }

  lemma GoRemBounds(a: int, b: int)
    requires a >= 0 && b > 0
    ensures 0 <= GoRem(a, b) < b
  {
  }

  /** A small sample is extended by a wake-up in reach, or the pause advances. */
  lemma PauseSmall(c: Clocked, d: int, env: Env, deadline: int)
    requires OnTime(c, deadline) && c.w.status.phase == RolloutInProgress && Pausing(c.w, d)
    requires c.w.status.pauseStartedAt.Some? && c.now <= env.now <= c.wake
    requires Evaluate(c.w.spec.policy, d, env.answers) == SampleTooSmall
    ensures OnTime(Wake(c, env), deadline)
  {
    WakeFrame(c, env);
    FullPause(c.w, d, env);
    var elapsed := env.now - c.w.status.pauseStartedAt.value;
    GoRemBounds(elapsed, d);
    var plan := ReconcilePlan(c.w, env);
    assert elapsed < MaxWait(d) ==> plan.outcome == Requeue(d - GoRem(elapsed, d));
  }

  /** A breach rolls back; a healthy evaluation waits for the rest of the pause or advances. */
  lemma PauseDecided(c: Clocked, d: int, env: Env, deadline: int)
    requires OnTime(c, deadline) && c.w.status.phase == RolloutInProgress && Pausing(c.w, d)
    requires c.w.status.pauseStartedAt.Some? && c.now <= env.now <= c.wake
    requires Evaluate(c.w.spec.policy, d, env.answers) in {Breached, Healthy}
    ensures OnTime(Wake(c, env), deadline)
  {
    WakeFrame(c, env);
    FullPause(c.w, d, env);
  }

  lemma WakeOnTime(c: Clocked, env: Env, deadline: int)
    requires OnTime(c, deadline) && c.w.status.phase == RolloutInProgress && c.now <= env.now <= c.wake
    ensures OnTime(Wake(c, env), deadline)
  {
    var s, steps := c.w.status, c.w.spec.steps;
    if s.stepIndex == |steps| || (steps[s.stepIndex].setWeight.None? && steps[s.stepIndex].pause.None?) {
      WakeEnds(c, env);
    } else if steps[s.stepIndex].setWeight.Some? {
      WakeFrame(c, env);
      FullSetWeightStep(c.w, steps[s.stepIndex].setWeight.value, env);
    } else {
      var d := steps[s.stepIndex].pause.value;
      if s.pauseStartedAt.None? {
        PauseBegins(c, d, env, deadline);
      } else if Evaluate(c.w.spec.policy, d, env.answers).Unreachable? {
        PauseDark(c, d, env, deadline);
      } else if Evaluate(c.w.spec.policy, d, env.answers) == SampleTooSmall {
        PauseSmall(c, d, env, deadline);
      } else {
        PauseDecided(c, d, env, deadline);
      }
    }
  }

  /** With all steps done the rollout is promoted; a malformed step rolls it back. */
  lemma WakeEnds(c: Clocked, env: Env)
    requires Inv(c.w) && !c.w.spec.abort && c.w.status.phase == RolloutInProgress && c.w.cluster.stableImage.Some?
    requires var s, steps := c.w.status, c.w.spec.steps;
             s.stepIndex == |steps| || (steps[s.stepIndex].setWeight.None? && steps[s.stepIndex].pause.None?)
    ensures var c' := Wake(c, env);
            && Inv(c'.w) && c'.w.spec == c.w.spec && c'.w.failSafe == c.w.failSafe && c'.w.cluster.stableImage.Some?
            && c'.w.status.phase == if c.w.status.stepIndex == |c.w.spec.steps| then Running else RolloutFailed
  {
    WakeFrame(c, env);
    FullBody(c.w, env);
    var w1 := ApplyAll(c.w, HealWrites(c.w.status));
    var ops := BodyPlan(w1, env).writes;
    CutAll(ops);
    if w1.status.stepIndex == |w1.spec.steps| {
      PromoteMoves(w1, |ops|);
    } else {
      RollbackMoves(w1, InvalidStep, |ops|);
    }
  }

  lemma PunctualFront(c: Clocked, envs: seq<Env>)
    requires envs != [] && Punctual(c, envs)
    ensures var n := |envs| - 1;
            var c' := Woken(c, envs[..n]);
            Punctual(c, envs[..n]) && InProgress(c') && InTime(c', envs[n])
  {
    var front := envs[..|envs| - 1];
    forall k | 0 <= k < |front| ensures InProgress(Woken(c, front[..k])) && InTime(Woken(c, front[..k]), front[k]) {
      assert front[..k] == envs[..k] && front[k] == envs[k];
    }
  }

  lemma {:induction false} AlwaysOnTime(c: Clocked, envs: seq<Env>, deadline: int)
    requires OnTime(c, deadline) && Punctual(c, envs)
    ensures OnTime(Woken(c, envs), deadline)
    decreases |envs|
  {
    if envs == [] {
    } else {
      var n := |envs| - 1;
      PunctualFront(c, envs);
      AlwaysOnTime(c, envs[..n], deadline);
      WakeOnTime(Woken(c, envs[..n]), envs[n], deadline);
    }
  }

  /** A pause that stays in progress asks for a wake-up in the future. */
  lemma PauseRequeues(w: World, d: int, env: Env)
    requires d > 0 && (w.status.pauseStartedAt.Some? ==> w.status.pauseStartedAt.value <= env.now)
    requires w.status.phase == RolloutInProgress
    requires PauseStatus(w.failSafe, w.spec, w.status, d, env).phase == RolloutInProgress
    ensures var outcome := PausePlan(w.failSafe, w.spec, w.status, d, env).outcome;
            outcome.Requeue? && outcome.after > 0
  {
    if w.status.pauseStartedAt.Some? {
      GoRemBounds(env.now - w.status.pauseStartedAt.value, d);
    }
  }

  /** A rollout that stays in progress has its next wake-up after the present one. */
  lemma WakeAdvances(c: Clocked, env: Env, deadline: int)
    requires OnTime(c, deadline) && c.w.status.phase == RolloutInProgress && c.now <= env.now
    requires Wake(c, env).w.status.phase == RolloutInProgress
    ensures Wake(c, env).now < Wake(c, env).wake
  {
    var s, steps := c.w.status, c.w.spec.steps;
    if s.stepIndex == |steps| || (steps[s.stepIndex].setWeight.None? && steps[s.stepIndex].pause.None?) {
      WakeEnds(c, env);
    } else if steps[s.stepIndex].setWeight.Some? {
      FullSetWeightStep(c.w, steps[s.stepIndex].setWeight.value, env);
    } else {
      FullPause(c.w, steps[s.stepIndex].pause.value, env);
      PauseRequeues(c.w, steps[s.stepIndex].pause.value, env);
    }
  }

  lemma AlwaysAhead(c: Clocked, envs: seq<Env>, deadline: int)
    requires OnTime(c, deadline) && Punctual(c, envs) && c.now < c.wake
    ensures Woken(c, envs).w.status.phase == RolloutInProgress ==> Woken(c, envs).now < Woken(c, envs).wake
  {
    if envs == [] {
    } else {
      var n := |envs| - 1;
      PunctualFront(c, envs);
      AlwaysOnTime(c, envs[..n], deadline);
      if Woken(c, envs).w.status.phase == RolloutInProgress {
        WakeAdvances(Woken(c, envs[..n]), envs[n], deadline);
      }
    }
  }

  /** A rollout started at time t, before its first reconcile. */
  function Begun(w: World, t: int): Clocked {
    Clocked(w, t, t + 5 * SECOND)
  }

  /** What a started rollout needs to be bounded. */
  ghost predicate Startable(w: World) {
    && AtStart(w) && !w.spec.abort && PositivePauses(w.spec.steps) && w.failSafe >= 0
    && w.cluster.stableImage.Some?
  }

  /**
   Bounded rollout: started at time t with positive pauses and punctual wake-ups, a
   rollout is in progress only before t plus the bound, and a pause of length d only
   before its start plus PauseBound(d); the next wake-up is within the same bounds.
   */
  lemma RolloutDeadline(w: World, t: int, envs: seq<Env>)
    requires Startable(w) && Punctual(Begun(w, t), envs)
    ensures var c := Woken(Begun(w, t), envs);
            c.w.status.phase == RolloutInProgress ==>
              && c.now < c.wake <= t + RolloutBound(w.spec.steps, w.failSafe)
              && (c.w.status.pauseStartedAt.Some? ==>
                    OnPauseStep(c.w.spec, c.w.status) &&
                    c.now < c.wake <= c.w.status.pauseStartedAt.value
                                      + PauseBound(c.w.spec.steps[c.w.status.stepIndex].pause.value, w.failSafe))
  {
    var c0, deadline := Begun(w, t), t + RolloutBound(w.spec.steps, w.failSafe);
    AlwaysOnTime(c0, envs, deadline);
    AlwaysAhead(c0, envs, deadline);
    WokenFailSafe(c0, envs);
    var c := Woken(c0, envs);
    if c.w.status.phase == RolloutInProgress {
      OnTimeWakes(c, deadline);
    }
  }

  /** Wake-ups are punctual as long as the rollout is in progress. */
  ghost predicate PunctualWhile(c: Clocked, envs: seq<Env>) {
    forall n :: 0 <= n < |envs| && InProgress(Woken(c, envs[..n])) ==> InTime(Woken(c, envs[..n]), envs[n])
  }

  ghost predicate PunctualUpTo(c: Clocked, envs: seq<Env>, n: nat)
    requires n <= |envs|
  {
    forall k :: 0 <= k < n ==> InProgress(Woken(c, envs[..k])) && InTime(Woken(c, envs[..k]), envs[k])
  }

  lemma PunctualPrefix(c: Clocked, envs: seq<Env>, n: nat)
    requires n <= |envs| && PunctualUpTo(c, envs, n)
    ensures Punctual(c, envs[..n])
  {
    var front := envs[..n];
    forall k | 0 <= k < |front| ensures InProgress(Woken(c, front[..k])) && InTime(Woken(c, front[..k]), front[k]) {
      assert front[..k] == envs[..k] && front[k] == envs[k];
    }
  }

  /** A rollout that is no longer in progress has been promoted or rolled back. */
  lemma WakeEnded(c: Clocked, env: Env)
    requires Inv(c.w) && c.w.status.phase == RolloutInProgress && Wake(c, env).w.status.phase != RolloutInProgress
    ensures Wake(c, env).w.status.phase in {Running, RolloutFailed}
  {
    var ops := ReconcilePlan(c.w, env).writes;
    CutAll(ops);
    ReconcileMoves(c.w, env, |ops|);
  }

  lemma EndedWell(w: World, t: int, envs: seq<Env>)
    requires Startable(w) && Punctual(Begun(w, t), envs)
    requires Woken(Begun(w, t), envs).w.status.phase != RolloutInProgress
    ensures Woken(Begun(w, t), envs).w.status.phase in {Running, RolloutFailed}
  {
    if envs != [] {
      var n := |envs| - 1;
      PunctualFront(Begun(w, t), envs);
      AlwaysOnTime(Begun(w, t), envs[..n], t + RolloutBound(w.spec.steps, w.failSafe));
      WakeEnded(Woken(Begun(w, t), envs[..n]), envs[n]);
    }
  }

  lemma EndedInTime(w: World, t: int, envs: seq<Env>)
    requires Startable(w) && Punctual(Begun(w, t), envs)
    ensures Woken(Begun(w, t), envs).now <= t + RolloutBound(w.spec.steps, w.failSafe)
  {
    RemainingNonNegative(w.spec.steps, 0, w.failSafe);
    if envs != [] {
      PunctualFront(Begun(w, t), envs);
      RolloutDeadline(w, t, envs[..|envs| - 1]);
    }
  }

  /** The first wake-ups that end the rollout, or all of them. */
  lemma FirstEnd(c: Clocked, envs: seq<Env>) returns (n: nat)
    requires PunctualWhile(c, envs)
    ensures n <= |envs| && Punctual(c, envs[..n]) && (n < |envs| ==> !InProgress(Woken(c, envs[..n])))
  {
    n := 0;
    while n < |envs| && InProgress(Woken(c, envs[..n]))
      invariant n <= |envs| && PunctualUpTo(c, envs, n)
    {
      n := n + 1;
    }
    PunctualPrefix(c, envs, n);
  }

  /** Wake-ups that go on until the bound do not leave the rollout in progress. */
  lemma NotForever(w: World, t: int, envs: seq<Env>)
    requires Startable(w) && Punctual(Begun(w, t), envs)
    requires envs != [] && envs[|envs| - 1].now >= t + RolloutBound(w.spec.steps, w.failSafe)
    ensures Woken(Begun(w, t), envs).w.status.phase != RolloutInProgress
  {
    RolloutDeadline(w, t, envs);
  }

  /**
   Termination: every rollout whose wake-ups are never late, and go on until t plus its
   bound, is promoted or rolled back by then.
   */
  lemma RolloutEnds(w: World, t: int, envs: seq<Env>) returns (n: nat)
    requires Startable(w) && PunctualWhile(Begun(w, t), envs)
    requires envs != [] && envs[|envs| - 1].now >= t + RolloutBound(w.spec.steps, w.failSafe)
    ensures n <= |envs| && Punctual(Begun(w, t), envs[..n])
    ensures Woken(Begun(w, t), envs[..n]).w.status.phase in {Running, RolloutFailed}
    ensures Woken(Begun(w, t), envs[..n]).now <= t + RolloutBound(w.spec.steps, w.failSafe)
  {
    n := FirstEnd(Begun(w, t), envs);
    if n == |envs| {
      assert envs[..n] == envs;
      NotForever(w, t, envs);
    }
    EndedWell(w, t, envs[..n]);
    EndedInTime(w, t, envs[..n]);
  }

  lemma {:induction false} WokenFailSafe(c: Clocked, envs: seq<Env>)
    ensures Woken(c, envs).w.failSafe == c.w.failSafe
    decreases |envs|
  {
    if envs == [] {
    } else {
      var n := |envs| - 1;
      WokenFailSafe(c, envs[..n]);
      ApplyKeepsSpec(Woken(c, envs[..n]).w, ReconcilePlan(Woken(c, envs[..n]).w, envs[n]).writes);
    }
  }

  // ---------------------------------------------------------------------------
  // A persistently small sample
  // ---------------------------------------------------------------------------

  /** One evaluation with too few requests, at measured elapsed time e. */
  lemma SmallStep(c: Clocked, d: int, env: Env)
    requires Inv(c.w) && !c.w.spec.abort && c.w.status.phase == RolloutInProgress && Pausing(c.w, d) && d > 0
    requires c.w.status.pauseStartedAt.Some? && env.now >= c.w.status.pauseStartedAt.value
    requires Evaluate(c.w.spec.policy, d, env.answers) == SampleTooSmall && c.w.cluster.stableImage.Some?
    ensures var e, c' := env.now - c.w.status.pauseStartedAt.value, Wake(c, env);
            && Inv(c'.w) && c'.w.spec == c.w.spec && c'.w.cluster.stableImage.Some?
            && if e >= Settle(d) then c'.w.status.stepIndex == c.w.status.stepIndex + 1
               else
                 && c'.w.status.phase == RolloutInProgress && c'.w.status.stepIndex == c.w.status.stepIndex
                 && c'.w.status.pauseStartedAt == c.w.status.pauseStartedAt
                 && c'.wake - c.w.status.pauseStartedAt.value ==
                    if e < 3 * d && e < 15 * MINUTE then e + d - e % d else d
  {
    WakeFrame(c, env);
    FullPause(c.w, d, env);
  }

  /**
   Exactly when too small a sample lets a pause end, at any evaluation: once the measured
   time has come to three times the pause, or to 15 minutes and the whole pause. As long as
   it goes on it is flagged.
   */
  lemma SmallSampleEndsIff(c: Clocked, d: int, env: Env)
    requires Inv(c.w) && !c.w.spec.abort && c.w.status.phase == RolloutInProgress && Pausing(c.w, d) && d > 0
    requires c.w.status.pauseStartedAt.Some? && env.now >= c.w.status.pauseStartedAt.value
    requires Representable(d) && TooFew(c.w.spec.policy, env.answers) && c.w.cluster.stableImage.Some?
    ensures Wake(c, env).w.status.stepIndex == c.w.status.stepIndex + 1 <==>
            var elapsed := env.now - c.w.status.pauseStartedAt.value;
            elapsed >= 3 * d || (elapsed >= d && elapsed >= 15 * MINUTE)
    ensures Wake(c, env).w.status.sampleInsufficient <==> Wake(c, env).w.status.stepIndex == c.w.status.stepIndex
  {
    VerdictIff(c.w.spec.policy, d, env.answers);
    SmallStep(c, d, env);
    FullPause(c.w, d, env);
  }

  lemma NextMultiple(e: int, d: int)
    requires d > 0 && d <= e < 3 * d
    ensures e + d - e % d == if e < 2 * d then 2 * d else 3 * d
  {
    if e < 2 * d {
      assert e == 1 * d + (e - d);
      assert e % d == e - d;
    } else {
      assert e % d == e - 2 * d by {
        assert e == 2 * d + (e - 2 * d);
      }
    }
  }

  /** From the second wake-up on, at a multiple of the pause: at most one more extension. */
  lemma LastExtensions(c: Clocked, d: int, start: int, env: Env, last: Env)
    requires Inv(c.w) && !c.w.spec.abort && c.w.status.phase == RolloutInProgress && Pausing(c.w, d)
    requires d > 0 && c.w.cluster.stableImage.Some? && c.w.status.pauseStartedAt == Some(start)
    requires (c.wake - start == 2 * d || c.wake - start == 3 * d) && env.now == c.wake && last.now == Wake(c, env).wake
    requires Evaluate(c.w.spec.policy, d, env.answers) == Evaluate(c.w.spec.policy, d, last.answers) == SampleTooSmall
    ensures var i, c1 := c.w.status.stepIndex, Wake(c, env);
            var c2 := Wake(c1, last);
            || (c1.w.status.stepIndex == i + 1 && c1.now - start == c.wake - start)
            || (c2.w.status.stepIndex == i + 1 && c2.now - start == 3 * d)
  {
    SmallStep(c, d, env);
    var e := env.now - start;
    if e < Settle(d) {
      NextMultiple(e, d);
      SmallStep(Wake(c, env), d, last);
    }
  }

  /**
   A pause whose sample stays too small, woken exactly when requested, advances at its
   first, second or third evaluation; from the second on, the measured time is exactly
   twice or three times the pause.
   */
  lemma SmallSampleAdvances(c: Clocked, d: int, envs: seq<Env>)
    requires Inv(c.w) && !c.w.spec.abort && c.w.status.phase == RolloutInProgress && Pausing(c.w, d)
    requires d > 0 && c.w.cluster.stableImage.Some?
    requires c.w.status.pauseStartedAt == Some(Stamp(c.now)) && c.wake == c.now + d
    requires |envs| == 3
    requires forall n :: 0 <= n < 3 ==> Evaluate(c.w.spec.policy, d, envs[n].answers) == SampleTooSmall
    requires envs[0].now == c.wake
    requires envs[1].now == Wake(c, envs[0]).wake && envs[2].now == Wake(Wake(c, envs[0]), envs[1]).wake
    ensures var start, i := Stamp(c.now), c.w.status.stepIndex;
            var c1 := Wake(c, envs[0]);
            var c2 := Wake(c1, envs[1]);
            var c3 := Wake(c2, envs[2]);
            || c1.w.status.stepIndex == i + 1
            || (c2.w.status.stepIndex == i + 1 && (c2.now - start == 2 * d || c2.now - start == 3 * d))
            || (c3.w.status.stepIndex == i + 1 && c3.now - start == 3 * d)
  {
    var start := Stamp(c.now);
    StampBounds(c.now);
    SmallStep(c, d, envs[0]);
    var c1 := Wake(c, envs[0]);
    var e1 := envs[0].now - start;
    if e1 < Settle(d) {
      NextMultiple(e1, d);
      LastExtensions(c1, d, start, envs[1], envs[2]);
    }
  }
}
