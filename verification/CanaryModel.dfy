/**
 The canary rollout as a plan of API writes.

 One reconcile reads the AgentDeployment, decides, and then issues API calls one
 after the other, stopping at the first that fails. Which calls it would issue is
 fixed by the state it read and by what it observes meanwhile (the clock, the
 Prometheus answers, the progress of the stable Deployment), so a reconcile is a
 plan: a list of writes and an outcome. A crash or an API error leaves a prefix of
 the list applied.
 */
module CanaryModel {
  import opened Options
  import opened Durations
  import opened PromQL

  datatype Phase = Pending | Running | RolloutInProgress | RolloutFailed | Degraded

  /** A step as stored: the webhook, not the type, keeps the two fields exclusive. */
  datatype Step = Step(setWeight: Option<int>, pause: Option<int>)

  datatype Reason = InvalidStep | ManualAbort | PrometheusUnavailable | ThresholdBreached

  /** The rollout part of an AgentDeployment's spec; canary is strategy == "Canary". */
  datatype Spec = Spec(image: string, canary: bool, steps: seq<Step>, policy: Policy, abort: bool)

  /**
   The rollout part of the persisted status. An empty version string is an unset
   field; failure is the RolloutFailed condition with its reason.
   */
  datatype Status = Status(
    phase: Phase, stableVersion: string, canaryVersion: string, canaryWeight: int, stepIndex: nat,
    pauseStartedAt: Option<int>, promUnreachableSince: Option<int>,
    sampleInsufficient: bool, failure: Option<Reason>)

  datatype Route = Route(stableWeight: int, canaryWeight: int)

  /** The child objects: images of the two Deployments, presence of the rest. */
  datatype Cluster = Cluster(
    stableImage: Option<string>, canaryImage: Option<string>, canaryService: bool,
    route: Option<Route>, hpa: bool)

  datatype World = World(failSafe: int, spec: Spec, status: Status, cluster: Cluster)

  /** What one reconcile observes besides the stored objects. */
  datatype Env = Env(now: int, answers: Answers, complete: bool, pullFailed: bool, quotaFound: bool)

  datatype Write =
    | RestoreStable(image: string)   // update the stable Deployment if it exists
    | ApplyStable(image: string)     // create or update the stable Deployment
    | EnsureCanary(image: string)
    | EnsureService
    | EnsureRoute(stableWeight: int, canaryWeight: int)
    | DeleteCanary
    | DeleteService
    | DeleteRoute
    | EnsureHPA
    | DeleteHPA
    | WriteStatus(status: Status)

  datatype Outcome = Requeue(after: int) | Settled | Failed

  datatype Plan = Plan(writes: seq<Write>, outcome: Outcome)

  function Apply(w: World, op: Write): World {
    var c := w.cluster;
    match op
    case RestoreStable(image) =>
      w.(cluster := c.(stableImage := if c.stableImage.Some? then Some(image) else None))
    case ApplyStable(image) => w.(cluster := c.(stableImage := Some(image)))
    case EnsureCanary(image) => w.(cluster := c.(canaryImage := Some(image)))
    case EnsureService => w.(cluster := c.(canaryService := true))
    case EnsureRoute(s, k) => w.(cluster := c.(route := Some(Route(s, k))))
    case DeleteCanary => w.(cluster := c.(canaryImage := None))
    case DeleteService => w.(cluster := c.(canaryService := false))
    case DeleteRoute => w.(cluster := c.(route := None))
    case EnsureHPA => w.(cluster := c.(hpa := true))
    case DeleteHPA => w.(cluster := c.(hpa := false))
    case WriteStatus(s) => w.(status := s)
  }

  function ApplyAll(w: World, ops: seq<Write>): World
    decreases |ops|
  {
    if ops == [] then w else ApplyAll(Apply(w, ops[0]), ops[1..])
  }

  /** The writes that land when the API accepts only the first n calls. */
  function Cut(ops: seq<Write>, n: nat): seq<Write> {
    if n < |ops| then ops[..n] else ops
  }

  /** metav1.Time is stored with a resolution of one second. */
  function Stamp(t: int): int {
    t - t % SECOND
  }

  /** Go's remainder, which takes the sign of the dividend. */
  function GoRem(a: int, b: int): int
    requires b != 0
  {
    if a >= 0 then a % b else -((-a) % b)
  }

  /** The longest a pause is extended for lack of samples. */
  function MaxWait(d: int): int {
    if 3 * d > 15 * MINUTE then 15 * MINUTE else 3 * d
  }

  // ---------------------------------------------------------------------------
  // internal/rollout/canary.go
  // ---------------------------------------------------------------------------

  /** Step's self-healing of the canary objects. */
  function HealWrites(s: Status): seq<Write> {
    (if s.canaryVersion != "" then [EnsureCanary(s.canaryVersion), EnsureService] else [])
    + (if s.canaryWeight > 0 then [EnsureRoute(100 - s.canaryWeight, s.canaryWeight)] else [])
  }

  /** The deletions and the HPA restore that promotion and rollback share. */
  function Teardown(): seq<Write> {
    [DeleteCanary, DeleteService, DeleteRoute, EnsureHPA]
  }

  /** Point the stable Deployment at an image, then remove everything the canary needed. */
  function Retire(image: string): (ops: seq<Write>)
    ensures |ops| == 5 && forall i :: 0 <= i < |ops| ==> !ops[i].WriteStatus?
  {
    [RestoreStable(image)] + Teardown()
  }

  function RolledBack(spec: Spec, s: Status, reason: Reason): Status {
    s.(phase := RolloutFailed,
    canaryVersion := if s.canaryVersion == "" then spec.image else s.canaryVersion,
    canaryWeight := 0, stepIndex := 0, pauseStartedAt := None, promUnreachableSince := None,
    failure := Some(reason), sampleInsufficient := false)
  }

  function RollbackWrites(spec: Spec, s: Status, reason: Reason): seq<Write> {
    (if s.stableVersion != "" then Retire(s.stableVersion) else Teardown())
    + [WriteStatus(RolledBack(spec, s, reason))]
  }

  function Promoted(s: Status): Status {
    s.(phase := Running, stableVersion := s.canaryVersion, canaryVersion := "",
    canaryWeight := 0, stepIndex := 0, pauseStartedAt := None, promUnreachableSince := None,
    failure := None, sampleInsufficient := false)
  }

  /** promote fails at once without a canary version or without a stable Deployment. */
  function PromotePlan(s: Status, c: Cluster): Plan {
    if s.canaryVersion == "" || c.stableImage.None? then Plan([], Failed)
    else Plan(Retire(s.canaryVersion) + [WriteStatus(Promoted(s))], Settled)
  }

  function WeightSet(s: Status, weight: int): Status {
    s.(canaryWeight := weight, stepIndex := s.stepIndex + 1, pauseStartedAt := None)
  }

  /** The canary Deployment and Service, then the traffic split. */
  function SplitWrites(image: string, weight: int): (ops: seq<Write>)
    ensures |ops| == 3 && forall i :: 0 <= i < |ops| ==> !ops[i].WriteStatus?
  {
    [EnsureCanary(image), EnsureService] + [EnsureRoute(100 - weight, weight)]
  }

  function SetWeightPlan(s: Status, weight: int): Plan {
    Plan(SplitWrites(s.canaryVersion, weight) + [WriteStatus(WeightSet(s, weight))], Requeue(SECOND))
  }

  /** The timestamp bookkeeping of a failed evaluation. */
  function Marked(s: Status, now: int): Status {
    if s.promUnreachableSince.None? then s.(promUnreachableSince := Some(Stamp(now))) else s
  }

  function MarkWrites(s: Status, now: int): seq<Write> {
    if s.promUnreachableSince.None? then [WriteStatus(Marked(s, now))] else []
  }

  function Cleared(s: Status): Status {
    s.(promUnreachableSince := None)
  }

  function ClearWrites(s: Status): seq<Write> {
    if s.promUnreachableSince.Some? then [WriteStatus(Cleared(s))] else []
  }

  function Flagged(s: Status): Status {
    s.(sampleInsufficient := true)
  }

  function Advanced(s: Status): Status {
    s.(stepIndex := s.stepIndex + 1, pauseStartedAt := None, sampleInsufficient := false)
  }

  /** executePause after a failed evaluation. */
  function UnreachablePlan(failSafe: int, spec: Spec, s: Status, now: int): Plan {
    var marked := Marked(s, now);
    if now - marked.promUnreachableSince.value >= failSafe then
      Plan(MarkWrites(s, now) + RollbackWrites(spec, marked, PrometheusUnavailable), Settled)
    else
      Plan(MarkWrites(s, now), Requeue(10 * SECOND))
  }

  /** executePause once neither a breach nor a small sample stands in the way. */
  function ElapsePlan(s: Status, d: int, elapsed: int): Plan {
    if elapsed < d then Plan([], Requeue(d - elapsed))
    else Plan([WriteStatus(Advanced(s))], Requeue(SECOND))
  }

  /** The small-sample branch; a zero duration makes Go's remainder panic. */
  function SmallSamplePlan(s: Status, d: int, elapsed: int): Plan {
    var flag := [WriteStatus(Flagged(s))];
    if elapsed < MaxWait(d) then
      Plan(flag, if d == 0 then Failed else Requeue(d - GoRem(elapsed, d)))
    else
      var rest := ElapsePlan(Flagged(s), d, elapsed);
      Plan(flag + rest.writes, rest.outcome)
  }

  function ReachablePlan(spec: Spec, s: Status, d: int, elapsed: int, v: Verdict): Plan
    requires !v.Unreachable?
  {
    var s' := Cleared(s);
    var rest :=
      match v
      case Breached => Plan(RollbackWrites(spec, s', ThresholdBreached), Settled)
      case SampleTooSmall => SmallSamplePlan(s', d, elapsed)
      case Healthy => ElapsePlan(s', d, elapsed);
    Plan(ClearWrites(s) + rest.writes, rest.outcome)
  }

  function PausePlan(failSafe: int, spec: Spec, s: Status, d: int, env: Env): Plan {
    if s.pauseStartedAt.None? then
      Plan([WriteStatus(s.(pauseStartedAt := Some(Stamp(env.now))))], Requeue(d))
    else
      var verdict := Evaluate(spec.policy, d, env.answers);
      if verdict.Unreachable? then UnreachablePlan(failSafe, spec, s, env.now)
      else ReachablePlan(spec, s, d, env.now - s.pauseStartedAt.value, verdict)
  }

  /** Step after the self-healing. */
  function BodyPlan(w: World, env: Env): Plan {
    var s, steps := w.status, w.spec.steps;
    if s.stepIndex >= |steps| then PromotePlan(s, w.cluster)
    else
      var step := steps[s.stepIndex];
      if step.setWeight.Some? then SetWeightPlan(s, step.setWeight.value)
      else if step.pause.Some? then PausePlan(w.failSafe, w.spec, s, step.pause.value, env)
      else Plan(RollbackWrites(w.spec, s, InvalidStep), Settled)
  }

  function StepPlan(w: World, env: Env): Plan {
    var body := BodyPlan(w, env);
    Plan(HealWrites(w.status) + body.writes, body.outcome)
  }

  // ---------------------------------------------------------------------------
  // internal/controller/agentdeployment_controller.go
  // ---------------------------------------------------------------------------

  predicate CanaryTriggered(spec: Spec, s: Status) {
    && spec.canary
    && s.stableVersion != ""
    && spec.image != s.stableVersion
    && s.phase != RolloutInProgress
    && !(s.phase == RolloutFailed && spec.image == s.canaryVersion)
  }

  predicate AbortRequested(spec: Spec, s: Status) {
    spec.abort && s.phase == RolloutInProgress
  }

  function Started(spec: Spec, s: Status): Status {
    s.(phase := RolloutInProgress, canaryVersion := spec.image, stepIndex := 0, canaryWeight := 0,
    pauseStartedAt := None, promUnreachableSince := None)
  }

  function StartPlan(w: World): Plan {
    Plan([DeleteHPA, WriteStatus(Started(w.spec, w.status))], Requeue(5 * SECOND))
  }

  /** The status updateStatus derives from the stable Deployment running the given image. */
  function Observed(spec: Spec, s: Status, image: string, env: Env): Status {
    if env.pullFailed then s.(phase := Degraded)
    else if !env.complete then s.(phase := Pending)
    else if s.phase == RolloutFailed && spec.image != s.stableVersion then s.(stableVersion := image)
    else s.(phase := Running, canaryVersion := "", failure := None, stableVersion := image)
  }

  /**
   The reconcile outside a rollout. The stable Deployment is given spec.image, since
   desiredDeployment freezes the image only in RolloutInProgress, a phase that never
   reaches this branch.
   */
  function ChildrenPlan(w: World, env: Env): Plan {
    var observed := Observed(w.spec, w.status, w.spec.image, env);
    Plan([ApplyStable(w.spec.image)] + (if env.quotaFound then [EnsureHPA] else []) + [WriteStatus(observed)],
         if observed.phase == Pending then Requeue(5 * SECOND)
         else if env.quotaFound then Settled else Requeue(10 * SECOND))
  }

  /** One reconcile of an AgentDeployment whose canary controller is configured. */
  function ReconcilePlan(w: World, env: Env): Plan {
    if AbortRequested(w.spec, w.status) then Plan(RollbackWrites(w.spec, w.status, ManualAbort), Settled)
    else if w.status.phase == RolloutInProgress then StepPlan(w, env)
    else if CanaryTriggered(w.spec, w.status) then StartPlan(w)
    else ChildrenPlan(w, env)
  }

  /** The world after a reconcile whose API accepts only the first `cut` calls. */
  function Reconcile(w: World, env: Env, cut: nat): World {
    ApplyAll(w, Cut(ReconcilePlan(w, env).writes, cut))
  }

  // ---------------------------------------------------------------------------
  // Applying lists of writes
  // ---------------------------------------------------------------------------

  lemma {:induction false} ApplyAppend(w: World, a: seq<Write>, b: seq<Write>)
    ensures ApplyAll(w, a + b) == ApplyAll(ApplyAll(w, a), b)
    decreases |a|
  {
    if a == [] {
      assert a + b == b;
    } else {
      assert (a + b)[0] == a[0] && (a + b)[1..] == a[1..] + b;
      ApplyAppend(Apply(w, a[0]), a[1..], b);
    }
  }

  lemma ApplySnoc(w: World, a: seq<Write>, op: Write)
    ensures ApplyAll(w, a + [op]) == Apply(ApplyAll(w, a), op)
  {
    ApplyAppend(w, a, [op]);
    var mid := ApplyAll(w, a);
    assert ApplyAll(mid, [op]) == ApplyAll(Apply(mid, op), [op][1..]);
  }

  lemma ApplyOne(w: World, op: Write)
    ensures ApplyAll(w, [op]) == Apply(w, op)
  {
    ApplySnoc(w, [], op);
    assert [] + [op] == [op];
  }

  /** The world after the first n deletions of the teardown. */
  function TornDown(w: World, n: nat): World {
    w.(cluster := Cluster(
      w.cluster.stableImage,
      if n >= 1 then None else w.cluster.canaryImage,
      if n >= 2 then false else w.cluster.canaryService,
      if n >= 3 then None else w.cluster.route,
      if n >= 4 then true else w.cluster.hpa))
  }

  lemma TeardownCut(w: World, n: nat)
    requires n <= 4
    ensures ApplyAll(w, Cut(Teardown(), n)) == TornDown(w, n)
  {
    ApplySnoc(w, [], DeleteCanary);
    ApplySnoc(w, [DeleteCanary], DeleteService);
    ApplySnoc(w, [DeleteCanary, DeleteService], DeleteRoute);
    ApplySnoc(w, [DeleteCanary, DeleteService, DeleteRoute], EnsureHPA);
    assert [] + [DeleteCanary] == [DeleteCanary];
    assert [DeleteCanary] + [DeleteService] == [DeleteCanary, DeleteService];
    assert [DeleteCanary, DeleteService] + [DeleteRoute] == [DeleteCanary, DeleteService, DeleteRoute];
    assert [DeleteCanary, DeleteService, DeleteRoute] + [EnsureHPA] == Teardown();
    if n == 3 {
      assert Cut(Teardown(), n) == [DeleteCanary, DeleteService, DeleteRoute];
    } else if n == 2 {
      assert Cut(Teardown(), n) == [DeleteCanary, DeleteService];
    } else if n == 1 {
      assert Cut(Teardown(), n) == [DeleteCanary];
    } else if n == 0 {
      assert Cut(Teardown(), n) == [];
    }
  }

  /** Cutting a concatenation: inside the first list, or the whole of it and part of the second. */
  lemma CutAppend(a: seq<Write>, b: seq<Write>, n: nat)
    ensures n < |a| ==> Cut(a + b, n) == Cut(a, n)
    ensures n >= |a| ==> Cut(a + b, n) == a + Cut(b, n - |a|)
  {
  }

  lemma {:induction false} ApplyKeeps(w: World, ops: seq<Write>)
    requires forall i :: 0 <= i < |ops| ==> !ops[i].WriteStatus?
    ensures ApplyAll(w, ops).status == w.status
    ensures ApplyAll(w, ops).spec == w.spec && ApplyAll(w, ops).failSafe == w.failSafe
    decreases |ops|
  {
    if ops == [] {
    } else {
      assert !ops[0].WriteStatus?;
      ApplyKeeps(Apply(w, ops[0]), ops[1..]);
    }
  }

  lemma {:induction false} ApplyKeepsSpec(w: World, ops: seq<Write>)
    ensures ApplyAll(w, ops).spec == w.spec && ApplyAll(w, ops).failSafe == w.failSafe
    decreases |ops|
  {
    if ops == [] {
    } else {
      ApplyKeepsSpec(Apply(w, ops[0]), ops[1..]);
    }
  }

  lemma {:induction false} StableUntouched(w: World, ops: seq<Write>)
    requires forall i :: 0 <= i < |ops| ==> !ops[i].RestoreStable? && !ops[i].ApplyStable?
    ensures ApplyAll(w, ops).cluster.stableImage == w.cluster.stableImage
    decreases |ops|
  {
    if ops == [] {
    } else {
      assert !ops[0].RestoreStable? && !ops[0].ApplyStable?;
      StableUntouched(Apply(w, ops[0]), ops[1..]);
    }
  }

  /** The body of a step does not depend on the canary objects that healing touches. */
  lemma BodyAfterHeal(w: World, env: Env)
    ensures var w1 := ApplyAll(w, HealWrites(w.status));
            && BodyPlan(w1, env) == BodyPlan(w, env)
            && w1.status == w.status && w1.spec == w.spec && w1.failSafe == w.failSafe
            && w1.cluster.stableImage == w.cluster.stableImage
  {
    ApplyKeeps(w, HealWrites(w.status));
    StableUntouched(w, HealWrites(w.status));
  }

  /** The cluster when a teardown that started with a stable image update has finished. */
  lemma TeardownResult(w: World, image: string)
    ensures ApplyAll(w, Retire(image)) ==
            w.(cluster := Cluster(if w.cluster.stableImage.Some? then Some(image) else None, None, false, None, true))
  {
    ApplyAppend(w, [RestoreStable(image)], Teardown());
    ApplyOne(w, RestoreStable(image));
    TeardownCut(Apply(w, RestoreStable(image)), 4);
  }

  lemma PairResult(w: World, image: string)
    ensures ApplyAll(w, [EnsureCanary(image), EnsureService]) ==
            w.(cluster := w.cluster.(canaryImage := Some(image), canaryService := true))
  {
    ApplyOne(w, EnsureCanary(image));
    ApplySnoc(w, [EnsureCanary(image)], EnsureService);
    assert [EnsureCanary(image), EnsureService] == [EnsureCanary(image)] + [EnsureService];
  }

  lemma SplitResult(w: World, image: string, weight: int)
    ensures ApplyAll(w, SplitWrites(image, weight)) ==
            w.(cluster := w.cluster.(canaryImage := Some(image), canaryService := true,
            route := Some(Route(100 - weight, weight))))
  {
    PairResult(w, image);
    ApplySnoc(w, [EnsureCanary(image), EnsureService], EnsureRoute(100 - weight, weight));
  }
}
