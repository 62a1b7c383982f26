/**
 The rollout controller as code that changes the stored objects call by call
 (internal/rollout/canary.go and the canary dispatch of the AgentDeployment
 reconciler). Every API call may fail: the object holds the number of calls the
 API server still accepts. Each method is proved to perform a prefix of its plan.
 */
module CanaryController {
  import opened Options
  import opened Durations
  import opened PromQL
  import opened CanaryModel

  /** From `w` with `n` calls left, the plan was carried out as far as the calls reach. */
  ghost predicate Carried(plan: Plan, w: World, n: nat, w': World, n': nat, r: Outcome) {
    && w' == ApplyAll(w, Cut(plan.writes, n))
    && n' == (if n < |plan.writes| then 0 else n - |plan.writes|)
    && r == (if n < |plan.writes| then Failed else plan.outcome)
  }

  lemma CarriedNothing(w: World, n: nat, r: Outcome)
    ensures Carried(Plan([], r), w, n, w, n, r)
  {
  }

  lemma CarriedOne(op: Write, w: World, n: nat)
    ensures n == 0 ==> Carried(Plan([op], Settled), w, n, w, 0, Failed)
    ensures n > 0 ==> Carried(Plan([op], Settled), w, n, Apply(w, op), n - 1, Settled)
  {
    ApplyOne(w, op);
  }

  /** A first part carried out completely, then a second. */
  lemma CarriedThen(a: Plan, b: Plan, w: World, n: nat, w1: World, n1: nat, w2: World, n2: nat, r: Outcome)
    requires a.outcome == Settled
    requires Carried(a, w, n, w1, n1, Settled)
    requires Carried(b, w1, n1, w2, n2, r)
    ensures Carried(Plan(a.writes + b.writes, b.outcome), w, n, w2, n2, r)
  {
    CutAppend(a.writes, b.writes, n);
    ApplyAppend(w, a.writes, Cut(b.writes, n1));
  }

  /** A first part cut short: the second never starts. */
  lemma CarriedCut(a: Plan, b: Plan, w: World, n: nat, w1: World, n1: nat)
    requires a.outcome == Settled
    requires Carried(a, w, n, w1, n1, Failed)
    ensures Carried(Plan(a.writes + b.writes, b.outcome), w, n, w1, n1, Failed)
  {
    CutAppend(a.writes, b.writes, n);
  }

  lemma CarriedTeardown(w: World, n: nat)
    ensures n < 4 ==> Carried(Plan(Teardown(), Settled), w, n, TornDown(w, n), 0, Failed)
    ensures n >= 4 ==> Carried(Plan(Teardown(), Settled), w, n, TornDown(w, 4), n - 4, Settled)
  {
    TeardownCut(w, if n < 4 then n else 4);
    assert n >= 4 ==> Cut(Teardown(), n) == Cut(Teardown(), 4);
  }

  class Controller {
    const failSafe: int
    var spec: Spec
    var status: Status
    var stableImage: Option<string>
    var canaryImage: Option<string>
    var canaryService: bool
    var route: Option<Route>
    var hpa: bool
    /** API calls that succeed before the next one fails. */
    var callsLeft: nat

    constructor (failSafe: int, spec: Spec, status: Status, c: Cluster, calls: nat)
      ensures World() == CanaryModel.World(failSafe, spec, status, c) && callsLeft == calls
    {
      this.failSafe := failSafe;
      this.spec := spec;
      this.status := status;
      stableImage, canaryImage, canaryService := c.stableImage, c.canaryImage, c.canaryService;
      route, hpa := c.route, c.hpa;
      callsLeft := calls;
    }

    function World(): World
      reads this
    {
      CanaryModel.World(failSafe, spec, status, Cluster(stableImage, canaryImage, canaryService, route, hpa))
    }

    /** Whether the API accepts the next call. */
    method Accepted() returns (ok: bool)
      modifies this`callsLeft
      ensures ok <==> old(callsLeft) > 0
      ensures callsLeft == if ok then old(callsLeft) - 1 else 0
    {
      ok := callsLeft > 0;
      if ok {
        callsLeft := callsLeft - 1;
      }
    }

    /** ensureCanaryDeployment: create or update with status.canaryVersion. */
    method EnsureCanaryDeployment() returns (r: Outcome)
      modifies this
      ensures Carried(Plan([EnsureCanary(old(status.canaryVersion))], Settled), old(World()), old(callsLeft),
                      World(), callsLeft, r)
    {
      CarriedOne(EnsureCanary(status.canaryVersion), World(), callsLeft);
      var ok := Accepted();
      if !ok { return Failed; }
      canaryImage := Some(status.canaryVersion);
      r := Settled;
    }

    method EnsureCanaryService() returns (r: Outcome)
      modifies this
      ensures Carried(Plan([EnsureService], Settled), old(World()), old(callsLeft), World(), callsLeft, r)
    {
      CarriedOne(EnsureService, World(), callsLeft);
      var ok := Accepted();
      if !ok { return Failed; }
      canaryService := true;
      r := Settled;
    }

    /** ensureHTTPRoute: create when absent, skip when equal, update otherwise. */
    method EnsureHTTPRoute(stableWeight: int, canaryWeight: int) returns (r: Outcome)
      modifies this
      ensures Carried(Plan([EnsureRoute(stableWeight, canaryWeight)], Settled), old(World()), old(callsLeft),
                      World(), callsLeft, r)
    {
      CarriedOne(EnsureRoute(stableWeight, canaryWeight), World(), callsLeft);
      var ok := Accepted();
      if !ok { return Failed; }
      var desired := Route(stableWeight, canaryWeight);
      if route.None? {
        route := Some(desired);
      } else if route.value != desired {
        route := Some(desired);
      }
      r := Settled;
    }

    /** deleteCanaryDeployment, deleteCanaryService, deleteHTTPRoute and restoreHPA in order. */
    method TearDown() returns (r: Outcome)
      modifies this
      ensures Carried(Plan(Teardown(), Settled), old(World()), old(callsLeft), World(), callsLeft, r)
    {
      CarriedTeardown(World(), callsLeft);
      var ok := Accepted();
      if !ok { return Failed; }
      if canaryImage.Some? { canaryImage := None; }
      ok := Accepted();
      if !ok { return Failed; }
      canaryService := false;
      ok := Accepted();
      if !ok { return Failed; }
      if route.Some? { route := None; }
      ok := Accepted();
      if !ok { return Failed; }
      hpa := true;
      r := Settled;
    }

    /** Status().Update with the given status. */
    method UpdateStatus(s: Status) returns (r: Outcome)
      modifies this
      ensures Carried(Plan([WriteStatus(s)], Settled), old(World()), old(callsLeft), World(), callsLeft, r)
    {
      CarriedOne(WriteStatus(s), World(), callsLeft);
      var ok := Accepted();
      if !ok { return Failed; }
      status := s;
      r := Settled;
    }

    /** The image update of the stable Deployment, tolerating its absence. */
    method SetStableImage(image: string) returns (r: Outcome)
      modifies this
      ensures Carried(Plan([RestoreStable(image)], Settled), old(World()), old(callsLeft), World(), callsLeft, r)
    {
      CarriedOne(RestoreStable(image), World(), callsLeft);
      var ok := Accepted();
      if !ok { return Failed; }
      if stableImage.Some? { stableImage := Some(image); }
      r := Settled;
    }

    method Rollback(reason: Reason) returns (r: Outcome)
      modifies this
      ensures Carried(Plan(RollbackWrites(old(spec), old(status), reason), Settled), old(World()), old(callsLeft),
                      World(), callsLeft, r)
    {
      ghost var w0, n0 := World(), callsLeft;
      ghost var first := Plan(if status.stableVersion != "" then [RestoreStable(status.stableVersion)] else [], Settled);
      ghost var second := Plan(Teardown(), Settled);
      ghost var third := Plan([WriteStatus(RolledBack(spec, status, reason))], Settled);
      ghost var rest := Plan(second.writes + third.writes, Settled);
      assert first.writes + rest.writes == RollbackWrites(spec, status, reason);
      r := Settled;
      CarriedNothing(w0, n0, Settled);
      if status.stableVersion != "" {
        r := SetStableImage(status.stableVersion);
        if r == Failed {
          CarriedCut(first, rest, w0, n0, World(), callsLeft);
          return;
        }
      }
      ghost var w1, n1 := World(), callsLeft;
      assert Carried(first, w0, n0, w1, n1, Settled);
      StatusKept(first.writes, w0, n0, w1);
      r := TearDown();
      if r == Failed {
        CarriedCut(second, third, w1, n1, World(), callsLeft);
        CarriedThen(first, rest, w0, n0, w1, n1, World(), callsLeft, r);
        return;
      }
      ghost var w2, n2 := World(), callsLeft;
      StatusKept(second.writes, w1, n1, w2);
      // The fields the source assigns on the re-fetched object.
      var latest := status;
      latest := latest.(phase := RolloutFailed);
      if latest.canaryVersion == "" {
        latest := latest.(canaryVersion := spec.image);
      }
      latest := latest.(canaryWeight := 0, stepIndex := 0, pauseStartedAt := None, promUnreachableSince := None);
      latest := latest.(failure := Some(reason));
      latest := latest.(sampleInsufficient := false);
      r := UpdateStatus(latest);
      CarriedThen(second, third, w1, n1, w2, n2, World(), callsLeft, r);
      CarriedThen(first, rest, w0, n0, w1, n1, World(), callsLeft, r);
    }

    method Promote() returns (r: Outcome)
      modifies this
      ensures Carried(PromotePlan(old(status), old(World()).cluster), old(World()), old(callsLeft),
                      World(), callsLeft, r)
    {
      ghost var w0, n0 := World(), callsLeft;
      CarriedNothing(w0, n0, Failed);
      if status.canaryVersion == "" { return Failed; }
      if stableImage.None? { return Failed; }
      ghost var first := Plan([RestoreStable(status.canaryVersion)], Settled);
      ghost var second := Plan(Teardown(), Settled);
      ghost var third := Plan([WriteStatus(Promoted(status))], Settled);
      ghost var rest := Plan(second.writes + third.writes, Settled);
      assert first.writes + rest.writes == PromotePlan(status, w0.cluster).writes;
      r := SetStableImage(status.canaryVersion);
      if r == Failed {
        CarriedCut(first, rest, w0, n0, World(), callsLeft);
        return;
      }
      ghost var w1, n1 := World(), callsLeft;
      StatusKept(first.writes, w0, n0, w1);
      r := TearDown();
      if r == Failed {
        CarriedCut(second, third, w1, n1, World(), callsLeft);
        CarriedThen(first, rest, w0, n0, w1, n1, World(), callsLeft, r);
        return;
      }
      ghost var w2, n2 := World(), callsLeft;
      StatusKept(second.writes, w1, n1, w2);
      var latest := status.(stableVersion := status.canaryVersion, canaryVersion := "");
      latest := latest.(canaryWeight := 0, stepIndex := 0, pauseStartedAt := None, promUnreachableSince := None);
      latest := latest.(phase := Running);
      latest := latest.(failure := None, sampleInsufficient := false);
      r := UpdateStatus(latest);
      CarriedThen(second, third, w1, n1, w2, n2, World(), callsLeft, r);
      CarriedThen(first, rest, w0, n0, w1, n1, World(), callsLeft, r);
    }

    /** Step's self-healing of the canary Deployment, Service and HTTPRoute. */
    method Heal() returns (r: Outcome)
      modifies this
      ensures Carried(Plan(HealWrites(old(status)), Settled), old(World()), old(callsLeft), World(), callsLeft, r)
    {
      ghost var w0, n0 := World(), callsLeft;
      ghost var s := status;
      ghost var first := Plan(if s.canaryVersion != "" then [EnsureCanary(s.canaryVersion), EnsureService] else [], Settled);
      ghost var second := Plan(if s.canaryWeight > 0 then [EnsureRoute(100 - s.canaryWeight, s.canaryWeight)] else [], Settled);
      r := Settled;
      CarriedNothing(w0, n0, Settled);
      if status.canaryVersion != "" {
        r := EnsureCanaryObjects();
        if r == Failed {
          CarriedCut(first, second, w0, n0, World(), callsLeft);
          return;
        }
      }
      ghost var w1, n1 := World(), callsLeft;
      assert Carried(first, w0, n0, w1, n1, Settled);
      StatusKept(first.writes, w0, n0, w1);
      CarriedNothing(w1, n1, Settled);
      if status.canaryWeight > 0 {
        r := EnsureHTTPRoute(100 - status.canaryWeight, status.canaryWeight);
      }
      CarriedThen(first, second, w0, n0, w1, n1, World(), callsLeft, r);
    }

    /** The canary Deployment followed by the canary Service. */
    method EnsureCanaryObjects() returns (r: Outcome)
      modifies this
      ensures Carried(Plan([EnsureCanary(old(status.canaryVersion)), EnsureService], Settled),
                      old(World()), old(callsLeft), World(), callsLeft, r)
    {
      ghost var w0, n0 := World(), callsLeft;
      ghost var first := Plan([EnsureCanary(status.canaryVersion)], Settled);
      ghost var second := Plan([EnsureService], Settled);
      assert first.writes + second.writes == [EnsureCanary(status.canaryVersion), EnsureService];
      r := EnsureCanaryDeployment();
      if r == Failed {
        CarriedCut(first, second, w0, n0, World(), callsLeft);
        return;
      }
      ghost var w1, n1 := World(), callsLeft;
      r := EnsureCanaryService();
      CarriedThen(first, second, w0, n0, w1, n1, World(), callsLeft, r);
    }

    method ExecuteSetWeight(weight: int) returns (r: Outcome)
      modifies this
      ensures Carried(SetWeightPlan(old(status), weight), old(World()), old(callsLeft), World(), callsLeft, r)
    {
      ghost var w0, n0 := World(), callsLeft;
      ghost var first := Plan([EnsureCanary(status.canaryVersion), EnsureService], Settled);
      ghost var second := Plan([EnsureRoute(100 - weight, weight)], Settled);
      ghost var third := Plan([WriteStatus(WeightSet(status, weight))], Requeue(SECOND));
      ghost var rest := Plan(second.writes + third.writes, Requeue(SECOND));
      assert first.writes + rest.writes == SetWeightPlan(status, weight).writes;
      r := EnsureCanaryObjects();
      if r == Failed {
        CarriedCut(first, rest, w0, n0, World(), callsLeft);
        return;
      }
      ghost var w1, n1 := World(), callsLeft;
      StatusKept(first.writes, w0, n0, w1);
      var stableWeight := 100 - weight;
      r := EnsureHTTPRoute(stableWeight, weight);
      if r == Failed {
        CarriedCut(second, third, w1, n1, World(), callsLeft);
        CarriedThen(first, rest, w0, n0, w1, n1, World(), callsLeft, r);
        return;
      }
      ghost var w2, n2 := World(), callsLeft;
      StatusKept(second.writes, w1, n1, w2);
      r := UpdateStatus(status.(canaryWeight := weight, stepIndex := status.stepIndex + 1, pauseStartedAt := None));
      if r == Settled {
        r := Requeue(SECOND);
      }
      CarriedThen(second, third, w1, n1, w2, n2, World(), callsLeft, r);
      CarriedThen(first, rest, w0, n0, w1, n1, World(), callsLeft, r);
    }

    /** The branch of executePause that records the start. */
    method BeginPause(duration: int, now: int) returns (r: Outcome)
      modifies this
      ensures Carried(Plan([WriteStatus(old(status).(pauseStartedAt := Some(Stamp(now))))], Requeue(duration)),
                      old(World()), old(callsLeft), World(), callsLeft, r)
    {
      r := UpdateStatus(status.(pauseStartedAt := Some(Stamp(now))));
      if r == Settled {
        r := Requeue(duration);
      }
    }

    /** executePause up to the evaluation, and its two halves after it. */
    method ExecutePause(duration: int, now: int, answers: Answers) returns (r: Outcome)
      modifies this
      ensures forall env: Env | env.now == now && env.answers == answers ::
                Carried(PausePlan(failSafe, old(spec), old(status), duration, env), old(World()), old(callsLeft),
                        World(), callsLeft, r)
    {
      if status.pauseStartedAt.None? {
        r := BeginPause(duration, now);
        return;
      }
      var elapsed := now - status.pauseStartedAt.value;
      var verdict := Evaluate(spec.policy, duration, answers);
      if verdict.Unreachable? {
        r := OnUnreachable(now);
      } else {
        r := OnReachable(duration, elapsed, verdict);
      }
    }

    /** The branch of executePause taken when the evaluation failed. */
    method OnUnreachable(now: int) returns (r: Outcome)
      modifies this
      ensures Carried(UnreachablePlan(failSafe, old(spec), old(status), now), old(World()), old(callsLeft),
                      World(), callsLeft, r)
    {
      ghost var w0, n0 := World(), callsLeft;
      ghost var marked := Marked(status, now);
      ghost var first := Plan(MarkWrites(status, now), Settled);
      ghost var fires := now - marked.promUnreachableSince.value >= failSafe;
      ghost var second :=
        if fires then Plan(RollbackWrites(spec, marked, PrometheusUnavailable), Settled)
        else Plan([], Requeue(10 * SECOND));
      assert first.writes + [] == first.writes;
      assert UnreachablePlan(failSafe, spec, status, now) == Plan(first.writes + second.writes, second.outcome);
      CarriedNothing(w0, n0, Settled);
      if status.promUnreachableSince.None? {
        r := UpdateStatus(status.(promUnreachableSince := Some(Stamp(now))));
        if r == Failed {
          CarriedCut(first, second, w0, n0, World(), callsLeft);
          return;
        }
        ApplyOne(w0, WriteStatus(marked));
      }
      ghost var w1, n1 := World(), callsLeft;
      assert Carried(first, w0, n0, w1, n1, Settled);
      var unreachable := now - status.promUnreachableSince.value;
      CarriedNothing(w1, n1, Requeue(10 * SECOND));
      if unreachable >= failSafe {
        r := Rollback(PrometheusUnavailable);
      } else {
        r := Requeue(10 * SECOND);
      }
      CarriedThen(first, second, w0, n0, w1, n1, World(), callsLeft, r);
    }

    /** The branches of executePause taken when Prometheus answered. */
    method OnReachable(duration: int, elapsed: int, verdict: Verdict) returns (r: Outcome)
      requires !verdict.Unreachable?
      modifies this
      ensures Carried(ReachablePlan(old(spec), old(status), duration, elapsed, verdict), old(World()), old(callsLeft),
                      World(), callsLeft, r)
    {
      ghost var w0, n0 := World(), callsLeft;
      ghost var s' := Cleared(status);
      ghost var first := Plan(ClearWrites(status), Settled);
      ghost var second :=
        match verdict
        case Breached => Plan(RollbackWrites(spec, s', ThresholdBreached), Settled)
        case SampleTooSmall => SmallSamplePlan(s', duration, elapsed)
        case Healthy => ElapsePlan(s', duration, elapsed);
      CarriedNothing(w0, n0, Settled);
      if status.promUnreachableSince.Some? {
        r := UpdateStatus(status.(promUnreachableSince := None));
        if r == Failed {
          CarriedCut(first, second, w0, n0, World(), callsLeft);
          return;
        }
        ApplyOne(w0, WriteStatus(s'));
      }
      ghost var w1, n1 := World(), callsLeft;
      assert Carried(first, w0, n0, w1, n1, Settled) && status == s';
      if verdict.Breached? {
        r := Rollback(ThresholdBreached);
      } else if verdict.SampleTooSmall? {
        r := OnSmallSample(duration, elapsed);
      } else {
        r := OnElapsed(duration, elapsed);
      }
      CarriedThen(first, second, w0, n0, w1, n1, World(), callsLeft, r);
    }

    method OnSmallSample(duration: int, elapsed: int) returns (r: Outcome)
      modifies this
      ensures Carried(SmallSamplePlan(old(status), duration, elapsed), old(World()), old(callsLeft),
                      World(), callsLeft, r)
    {
      ghost var w0, n0 := World(), callsLeft;
      var maxWait := 3 * duration;
      if maxWait > 15 * MINUTE {
        maxWait := 15 * MINUTE;
      }
      ghost var first := Plan([WriteStatus(Flagged(status))], Settled);
      ghost var second :=
        if elapsed < maxWait then Plan([], if duration == 0 then Failed else Requeue(duration - GoRem(elapsed, duration)))
        else ElapsePlan(Flagged(status), duration, elapsed);
      assert first.writes + [] == first.writes;
      assert SmallSamplePlan(status, duration, elapsed) == Plan(first.writes + second.writes, second.outcome);
      r := UpdateStatus(status.(sampleInsufficient := true));
      if r == Failed {
        CarriedCut(first, second, w0, n0, World(), callsLeft);
        return;
      }
      ghost var w1, n1 := World(), callsLeft;
      ApplyOne(w0, WriteStatus(Flagged(w0.status)));
      if elapsed < maxWait {
        if duration == 0 {
          r := Failed;
        } else {
          r := Requeue(duration - GoRem(elapsed, duration));
        }
        CarriedNothing(w1, n1, r);
      } else {
        r := OnElapsed(duration, elapsed);
      }
      CarriedThen(first, second, w0, n0, w1, n1, World(), callsLeft, r);
    }

    method OnElapsed(duration: int, elapsed: int) returns (r: Outcome)
      modifies this
      ensures Carried(ElapsePlan(old(status), duration, elapsed), old(World()), old(callsLeft), World(), callsLeft, r)
    {
      if elapsed < duration {
        r := Requeue(duration - elapsed);
        CarriedNothing(World(), callsLeft, r);
        return;
      }
      r := UpdateStatus(status.(sampleInsufficient := false, stepIndex := status.stepIndex + 1, pauseStartedAt := None));
      if r == Settled {
        r := Requeue(SECOND);
      }
    }

    /** Step: self-heal, then the step the index points at. */
    method Step(env: Env) returns (r: Outcome)
      modifies this
      ensures Carried(StepPlan(old(World()), env), old(World()), old(callsLeft), World(), callsLeft, r)
    {
      ghost var w0, n0 := World(), callsLeft;
      ghost var heal := Plan(HealWrites(status), Settled);
      ghost var body := BodyPlan(w0, env);
      r := Heal();
      if r == Failed {
        CarriedCut(heal, body, w0, n0, World(), callsLeft);
        return;
      }
      ghost var w1, n1 := World(), callsLeft;
      BodyAfterHeal(w0, env);
      assert BodyPlan(w1, env) == body;
      if status.stepIndex >= |spec.steps| {
        r := Promote();
      } else {
        var step := spec.steps[status.stepIndex];
        if step.setWeight.Some? {
          r := ExecuteSetWeight(step.setWeight.value);
        } else if step.pause.Some? {
          r := ExecutePause(step.pause.value, env.now, env.answers);
        } else {
          r := Rollback(InvalidStep);
        }
      }
      CarriedThen(heal, body, w0, n0, w1, n1, World(), callsLeft, r);
    }

    /** startCanary: pause the HPA, then record the rollout. */
    method StartCanary() returns (r: Outcome)
      modifies this
      ensures Carried(StartPlan(old(World())), old(World()), old(callsLeft), World(), callsLeft, r)
    {
      ghost var w0, n0 := World(), callsLeft;
      ghost var first := Plan([DeleteHPA], Settled);
      ghost var second := Plan([WriteStatus(Started(spec, status))], Requeue(5 * SECOND));
      assert StartPlan(w0) == Plan(first.writes + second.writes, second.outcome);
      CarriedOne(DeleteHPA, w0, n0);
      var ok := Accepted();
      if !ok {
        CarriedCut(first, second, w0, n0, World(), callsLeft);
        return Failed;
      }
      hpa := false;
      ghost var w1, n1 := World(), callsLeft;
      var latest := status.(phase := RolloutInProgress, canaryVersion := spec.image);
      latest := latest.(stepIndex := 0, canaryWeight := 0, pauseStartedAt := None, promUnreachableSince := None);
      r := UpdateStatus(latest);
      if r == Settled {
        r := Requeue(5 * SECOND);
      }
      CarriedThen(first, second, w0, n0, w1, n1, World(), callsLeft, r);
    }

    /** The reconcile of the child objects and of the status outside a rollout. */
    method ReconcileChildren(env: Env) returns (r: Outcome)
      requires status.phase != RolloutInProgress
      modifies this
      ensures Carried(ChildrenPlan(old(World()), env), old(World()), old(callsLeft), World(), callsLeft, r)
    {
      ghost var w0, n0 := World(), callsLeft;
      ghost var plan := ChildrenPlan(w0, env);
      ghost var observed := Observed(spec, status, spec.image, env);
      ghost var first := Plan([ApplyStable(spec.image)], Settled);
      ghost var second := Plan(if env.quotaFound then [EnsureHPA] else [], Settled);
      ghost var third := Plan([WriteStatus(observed)], plan.outcome);
      ghost var rest := Plan(second.writes + third.writes, plan.outcome);
      assert plan.writes == first.writes + rest.writes;
      CarriedOne(ApplyStable(spec.image), w0, n0);
      var ok := Accepted();
      if !ok {
        CarriedCut(first, rest, w0, n0, World(), callsLeft);
        return Failed;
      }
      stableImage := Some(spec.image);
      ghost var w1, n1 := World(), callsLeft;
      CarriedNothing(w1, n1, Settled);
      CarriedOne(EnsureHPA, w1, n1);
      if env.quotaFound {
        ok := Accepted();
        if !ok {
          CarriedCut(second, third, w1, n1, World(), callsLeft);
          CarriedThen(first, rest, w0, n0, w1, n1, World(), callsLeft, Failed);
          return Failed;
        }
        hpa := true;
      }
      ghost var w2, n2 := World(), callsLeft;
      assert Carried(second, w1, n1, w2, n2, Settled);
      var latest := status;
      if env.pullFailed {
        latest := latest.(phase := Degraded);
      } else if env.complete {
        if !(latest.phase == RolloutFailed && spec.image != latest.stableVersion) {
          latest := latest.(phase := Running, canaryVersion := "", failure := None);
        }
        latest := latest.(stableVersion := stableImage.value);
      } else {
        latest := latest.(phase := Pending);
      }
      assert latest == observed;
      r := UpdateStatus(latest);
      if r == Settled {
        r := if latest.phase == Pending then Requeue(5 * SECOND)
             else if env.quotaFound then Settled else Requeue(10 * SECOND);
      }
      CarriedThen(second, third, w1, n1, w2, n2, World(), callsLeft, r);
      CarriedThen(first, rest, w0, n0, w1, n1, World(), callsLeft, r);
    }

    /** One reconcile: abort, active rollout, new rollout, or the child objects. */
    method Reconcile(env: Env) returns (r: Outcome)
      modifies this
      ensures World() == CanaryModel.Reconcile(old(World()), env, old(callsLeft))
      ensures Carried(ReconcilePlan(old(World()), env), old(World()), old(callsLeft), World(), callsLeft, r)
    {
      if AbortRequested(spec, status) {
        r := Rollback(ManualAbort);
      } else if status.phase == RolloutInProgress {
        r := Step(env);
      } else if CanaryTriggered(spec, status) {
        r := StartCanary();
      } else {
        r := ReconcileChildren(env);
      }
    }
  }

  /** Writes other than status writes leave spec and status alone, however far they get. */
  lemma {:induction false} StatusKept(ops: seq<Write>, w: World, n: nat, w': World)
    requires w' == ApplyAll(w, Cut(ops, n))
    requires forall i :: 0 <= i < |ops| ==> !ops[i].WriteStatus?
    ensures w'.status == w.status && w'.spec == w.spec
  {
    var cut := Cut(ops, n);
    assert forall i :: 0 <= i < |cut| ==> cut[i] == ops[i];
    ApplyKeeps(w, cut);
  }
}
