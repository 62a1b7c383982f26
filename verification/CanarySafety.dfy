/**
 Safety of the rollout over whole runs: reconciles cut short at any API call and
 retried any number of times, spec edits, and out-of-band deletions of the canary
 objects, in any order.
 */
module CanarySafety {
  import opened Options
  import opened PromQL
  import opened CanaryModel

  datatype Action =
    | Reconciles(env: Env, cut: nat)
    | Edit(spec: Spec)
    | Drift(canary: bool, service: bool, route: bool, hpa: bool)   // which objects are deleted

  function Next(w: World, a: Action): World {
    match a
    case Reconciles(env, cut) => Reconcile(w, env, cut)
    case Edit(spec) => w.(spec := spec)
    case Drift(canary, service, route, hpa) =>
      w.(cluster := w.cluster.(
           canaryImage := if canary then None else w.cluster.canaryImage,
           canaryService := if service then false else w.cluster.canaryService,
           route := if route then None else w.cluster.route,
           hpa := if hpa then false else w.cluster.hpa))
  }

  /** The CRD schema bounds every setWeight and forbids an empty image. */
  ghost predicate WellFormed(spec: Spec) {
    && spec.image != ""
    && forall i :: 0 <= i < |spec.steps| && spec.steps[i].setWeight.Some? ==> 0 <= spec.steps[i].setWeight.value <= 100
  }

  /**
   What the environment may do. The webhook rejects an image change during a rollout;
   that the step list stays fixed during a rollout is a hypothesis, since the webhook
   does not check it.
   */
  ghost predicate Legal(w: World, a: Action) {
    a.Edit? ==>
      && WellFormed(a.spec)
      && (w.status.phase == RolloutInProgress ==> a.spec.steps == w.spec.steps && a.spec.image == w.spec.image)
  }

  function After(w: World, acts: seq<Action>): World
    decreases |acts|
  {
    if acts == [] then w else Next(After(w, acts[..|acts| - 1]), acts[|acts| - 1])
  }

  ghost predicate LegalRun(w: World, acts: seq<Action>) {
    forall n :: 0 <= n < |acts| ==> Legal(After(w, acts[..n]), acts[n])
  }

  /** A legal run is a legal shorter run and one more legal action. */
  lemma LegalFront(w: World, acts: seq<Action>)
    requires acts != [] && LegalRun(w, acts)
    ensures LegalRun(w, acts[..|acts| - 1])
    ensures Legal(After(w, acts[..|acts| - 1]), acts[|acts| - 1])
  {
    var front := acts[..|acts| - 1];
    assert forall n :: 0 <= n <= |front| ==> front[..n] == acts[..n];
  }

  // ---------------------------------------------------------------------------
  // The invariant
  // ---------------------------------------------------------------------------

  /** The weight of the last setWeight among the first n steps, 0 if there is none. */
  function LastWeight(steps: seq<Step>, n: nat): int
    requires n <= |steps|
  {
    if n == 0 then 0
    else if steps[n - 1].setWeight.Some? then steps[n - 1].setWeight.value
    else LastWeight(steps, n - 1)
  }

  ghost predicate OnPauseStep(spec: Spec, s: Status) {
    s.stepIndex < |spec.steps| && spec.steps[s.stepIndex].setWeight.None? && spec.steps[s.stepIndex].pause.Some?
  }

  /** Weights the route may show: the recorded one, or that of the step being applied. */
  ghost predicate WeightInPlay(spec: Spec, s: Status, c: int) {
    || c == s.canaryWeight
    || (s.stepIndex < |spec.steps| && spec.steps[s.stepIndex].setWeight == Some(c))
  }

  /** The persisted status alone describes where the rollout stands. */
  ghost predicate Resumable(spec: Spec, s: Status) {
    s.phase == RolloutInProgress ==>
      && s.canaryVersion != "" && s.canaryVersion == spec.image
      && s.stableVersion != ""
      && s.stepIndex <= |spec.steps|
      && s.canaryWeight == LastWeight(spec.steps, s.stepIndex)
      && (s.pauseStartedAt.Some? ==> OnPauseStep(spec, s))
      && (s.promUnreachableSince.Some? ==> s.pauseStartedAt.Some?)
  }

  /** Canary objects exist only during a rollout, with the canary image and a full split. */
  ghost predicate Contained(spec: Spec, s: Status, c: Cluster) {
    && (s.phase != RolloutInProgress ==> c.canaryImage.None? && !c.canaryService && c.route.None?)
    && (c.canaryImage.Some? ==> c.canaryImage.value == s.canaryVersion)
    && (c.route.Some? ==>
          && c.route.value.stableWeight + c.route.value.canaryWeight == 100
          && 0 <= c.route.value.canaryWeight <= 100
          && WeightInPlay(spec, s, c.route.value.canaryWeight))
  }

  ghost predicate Inv(w: World) {
    && WellFormed(w.spec)
    && Resumable(w.spec, w.status)
    && Contained(w.spec, w.status, w.cluster)
  }

  /** The stable Deployment runs the new image only once every step has been executed. */
  ghost predicate StableGuarded(w: World) {
    w.status.phase == RolloutInProgress ==>
      || w.cluster.stableImage == Some(w.status.stableVersion)
      || (w.cluster.stableImage == Some(w.status.canaryVersion) && w.status.stepIndex == |w.spec.steps|)
  }

  lemma {:induction false} LastWeightRange(spec: Spec, n: nat)
    requires WellFormed(spec) && n <= |spec.steps|
    ensures 0 <= LastWeight(spec.steps, n) <= 100
  {
    if n == 0 || spec.steps[n - 1].setWeight.Some? {
    } else {
      LastWeightRange(spec, n - 1);
    }
  }

  // ---------------------------------------------------------------------------
  // Writes that are safe at any moment of a rollout
  // ---------------------------------------------------------------------------

  /** Object writes a rollout may issue, judged from spec and status only. */
  ghost predicate SafeWrite(spec: Spec, s: Status, op: Write) {
    match op
    case RestoreStable(image) =>
      image == s.stableVersion || (image == s.canaryVersion && s.stepIndex == |spec.steps|)
    case EnsureCanary(image) => image == s.canaryVersion
    case EnsureRoute(a, b) => a + b == 100 && 0 <= b <= 100 && WeightInPlay(spec, s, b)
    case EnsureService => true
    case DeleteCanary => true
    case DeleteService => true
    case DeleteRoute => true
    case EnsureHPA => true
    case DeleteHPA => true
    case ApplyStable(_) => false
    case WriteStatus(_) => false
  }

  ghost predicate AllSafe(spec: Spec, s: Status, ops: seq<Write>) {
    forall i :: 0 <= i < |ops| ==> SafeWrite(spec, s, ops[i])
  }

  /** Both invariants as one predicate, so that prefixes are argued once. */
  ghost predicate Sound(w: World, guarded: bool) {
    Inv(w) && (guarded ==> StableGuarded(w))
  }

  lemma {:induction false} SafeWritesKeep(w: World, ops: seq<Write>, guarded: bool)
    requires Sound(w, guarded) && w.status.phase == RolloutInProgress
    requires AllSafe(w.spec, w.status, ops)
    ensures Sound(ApplyAll(w, ops), guarded)
    ensures ApplyAll(w, ops).status == w.status && ApplyAll(w, ops).spec == w.spec
    decreases |ops|
  {
    if ops == [] {
    } else {
      assert SafeWrite(w.spec, w.status, ops[0]);
      var w' := Apply(w, ops[0]);
      assert w'.status == w.status && w'.spec == w.spec;
      assert Sound(w', guarded);
      assert AllSafe(w.spec, w.status, ops[1..]);
      SafeWritesKeep(w', ops[1..], guarded);
    }
  }

  /** Safe writes followed by one status write: every prefix keeps the invariant. */
  lemma SafeThenStatus(w: World, ops: seq<Write>, s: Status, n: nat, guarded: bool)
    requires Sound(w, guarded) && w.status.phase == RolloutInProgress
    requires AllSafe(w.spec, w.status, ops)
    requires Sound(Apply(ApplyAll(w, ops), WriteStatus(s)), guarded)
    ensures Sound(ApplyAll(w, Cut(ops + [WriteStatus(s)], n)), guarded)
  {
    CutAppend(ops, [WriteStatus(s)], n);
    if n <= |ops| {
      assert Cut(ops + [WriteStatus(s)], n) == ops[..n];
      SafeWritesKeep(w, ops[..n], guarded);
    } else {
      assert Cut(ops + [WriteStatus(s)], n) == ops + [WriteStatus(s)];
      ApplySnoc(w, ops, WriteStatus(s));
    }
  }

  // ---------------------------------------------------------------------------
  // Each plan
  // ---------------------------------------------------------------------------

  lemma HealSafe(w: World)
    requires Inv(w) && w.status.phase == RolloutInProgress
    ensures AllSafe(w.spec, w.status, HealWrites(w.status))
  {
    LastWeightRange(w.spec, w.status.stepIndex);
  }

  lemma RetireSafe(spec: Spec, s: Status, image: string)
    requires SafeWrite(spec, s, RestoreStable(image))
    ensures AllSafe(spec, s, Retire(image))
  {
    var ops := Retire(image);
    assert ops[0] == RestoreStable(image) && ops[1..] == Teardown();
    assert forall i :: 1 <= i < |ops| ==> ops[i] == ops[1..][i - 1];
  }

  lemma {:induction false} RollbackSafe(w: World, reason: Reason, n: nat, guarded: bool)
    requires Sound(w, guarded) && w.status.phase == RolloutInProgress
    ensures Sound(ApplyAll(w, Cut(RollbackWrites(w.spec, w.status, reason), n)), guarded)
  {
    RetireSafe(w.spec, w.status, w.status.stableVersion);
    TeardownResult(w, w.status.stableVersion);
    SafeThenStatus(w, Retire(w.status.stableVersion), RolledBack(w.spec, w.status, reason), n, guarded);
  }

  lemma {:induction false} PromoteSafe(w: World, n: nat, guarded: bool)
    requires Sound(w, guarded) && w.status.phase == RolloutInProgress && w.status.stepIndex == |w.spec.steps|
    ensures Sound(ApplyAll(w, Cut(PromotePlan(w.status, w.cluster).writes, n)), guarded)
  {
    if w.cluster.stableImage.Some? {
      RetireSafe(w.spec, w.status, w.status.canaryVersion);
      TeardownResult(w, w.status.canaryVersion);
      SafeThenStatus(w, Retire(w.status.canaryVersion), Promoted(w.status), n, guarded);
    } else {
      assert Cut([], n) == [];
    }
  }

  lemma SetWeightSafe(w: World, weight: int, n: nat, guarded: bool)
    requires Sound(w, guarded) && w.status.phase == RolloutInProgress && w.status.stepIndex < |w.spec.steps|
    requires w.spec.steps[w.status.stepIndex].setWeight == Some(weight)
    ensures Sound(ApplyAll(w, Cut(SetWeightPlan(w.status, weight).writes, n)), guarded)
  {
    assert !OnPauseStep(w.spec, w.status);
    assert AllSafe(w.spec, w.status, SplitWrites(w.status.canaryVersion, weight));
    SplitResult(w, w.status.canaryVersion, weight);
    SafeThenStatus(w, SplitWrites(w.status.canaryVersion, weight), WeightSet(w.status, weight), n, guarded);
  }

  /** A status write that keeps a pausing rollout in the same place. */
  ghost predicate SamePlace(s: Status, s': Status) {
    && s'.phase == s.phase && s'.stableVersion == s.stableVersion && s'.canaryVersion == s.canaryVersion
    && s'.canaryWeight == s.canaryWeight && s'.stepIndex == s.stepIndex
    && (s'.pauseStartedAt.Some? || s'.promUnreachableSince.None?)
  }

  lemma SamePlaceKeeps(w: World, s': Status, guarded: bool)
    requires Sound(w, guarded) && w.status.phase == RolloutInProgress
    requires SamePlace(w.status, s') && (s'.pauseStartedAt.Some? ==> OnPauseStep(w.spec, w.status))
    ensures Sound(Apply(w, WriteStatus(s')), guarded)
  {
  }

  lemma AdvanceKeeps(w: World, guarded: bool)
    requires Sound(w, guarded) && w.status.phase == RolloutInProgress
    requires OnPauseStep(w.spec, w.status) && w.status.promUnreachableSince.None?
    ensures Sound(Apply(w, WriteStatus(Advanced(w.status))), guarded)
  {
  }

  lemma ElapseSafe(w: World, d: int, elapsed: int, n: nat, guarded: bool)
    requires Sound(w, guarded) && w.status.phase == RolloutInProgress
    requires OnPauseStep(w.spec, w.status) && w.status.promUnreachableSince.None?
    ensures Sound(ApplyAll(w, Cut(ElapsePlan(w.status, d, elapsed).writes, n)), guarded)
  {
    AdvanceKeeps(w, guarded);
    ApplyOne(w, WriteStatus(Advanced(w.status)));
  }

  /** A possible first status write, then a rest that is safe from the state it leaves. */
  lemma StatusThen(w: World, s: Status, rest: seq<Write>, n: nat, guarded: bool)
    requires Sound(w, guarded)
    requires forall k: nat :: Sound(ApplyAll(Apply(w, WriteStatus(s)), Cut(rest, k)), guarded)
    ensures Sound(ApplyAll(w, Cut([WriteStatus(s)] + rest, n)), guarded)
  {
    CutAppend([WriteStatus(s)], rest, n);
    if n == 0 {
      assert Cut([WriteStatus(s)] + rest, n) == [];
    } else {
      ApplyAppend(w, [WriteStatus(s)], Cut(rest, n - 1));
      ApplyOne(w, WriteStatus(s));
    }
  }

  lemma {:induction false} UnreachableSafe(w: World, now: int, n: nat, guarded: bool)
    requires Sound(w, guarded) && w.status.phase == RolloutInProgress
    requires OnPauseStep(w.spec, w.status) && w.status.pauseStartedAt.Some?
    ensures Sound(ApplyAll(w, Cut(UnreachablePlan(w.failSafe, w.spec, w.status, now).writes, n)), guarded)
  {
    var s := w.status;
    var marked := Marked(s, now);
    var w1 := Apply(w, WriteStatus(marked));
    SamePlaceKeeps(w, marked, guarded);
    var rest :=
      if now - marked.promUnreachableSince.value >= w.failSafe then RollbackWrites(w.spec, marked, PrometheusUnavailable)
      else [];
    forall k: nat ensures Sound(ApplyAll(w1, Cut(rest, k)), guarded) {
      RollbackSafe(w1, PrometheusUnavailable, k, guarded);
    }
    if s.promUnreachableSince.None? {
      StatusThen(w, marked, rest, n, guarded);
      assert [WriteStatus(marked)] + [] == [WriteStatus(marked)];
    } else {
      assert w1 == w && [] + rest == rest;
    }
  }

  lemma SmallSampleSafe(w: World, d: int, elapsed: int, n: nat, guarded: bool)
    requires Sound(w, guarded) && w.status.phase == RolloutInProgress
    requires OnPauseStep(w.spec, w.status) && w.status.promUnreachableSince.None?
    ensures Sound(ApplyAll(w, Cut(SmallSamplePlan(w.status, d, elapsed).writes, n)), guarded)
  {
    var flagged := Flagged(w.status);
    var w1 := Apply(w, WriteStatus(flagged));
    SamePlaceKeeps(w, flagged, guarded);
    var rest := if elapsed < MaxWait(d) then [] else ElapsePlan(flagged, d, elapsed).writes;
    forall k: nat ensures Sound(ApplyAll(w1, Cut(rest, k)), guarded) {
      ElapseSafe(w1, d, elapsed, k, guarded);
    }
    StatusThen(w, flagged, rest, n, guarded);
    assert [WriteStatus(flagged)] + [] == [WriteStatus(flagged)];
  }

  lemma ReachableSafe(w: World, d: int, elapsed: int, v: Verdict, n: nat, guarded: bool)
    requires Sound(w, guarded) && w.status.phase == RolloutInProgress
    requires OnPauseStep(w.spec, w.status) && !v.Unreachable?
    ensures Sound(ApplyAll(w, Cut(ReachablePlan(w.spec, w.status, d, elapsed, v).writes, n)), guarded)
  {
    var cleared := Cleared(w.status);
    var w1 := Apply(w, WriteStatus(cleared));
    SamePlaceKeeps(w, cleared, guarded);
    var rest :=
      match v
      case Breached => RollbackWrites(w.spec, cleared, ThresholdBreached)
      case SampleTooSmall => SmallSamplePlan(cleared, d, elapsed).writes
      case Healthy => ElapsePlan(cleared, d, elapsed).writes;
    forall k: nat ensures Sound(ApplyAll(w1, Cut(rest, k)), guarded) {
      match v
      case Breached => RollbackSafe(w1, ThresholdBreached, k, guarded);
      case SampleTooSmall => SmallSampleSafe(w1, d, elapsed, k, guarded);
      case Healthy => ElapseSafe(w1, d, elapsed, k, guarded);
    }
    if w.status.promUnreachableSince.Some? {
      StatusThen(w, cleared, rest, n, guarded);
    } else {
      assert w1 == w && [] + rest == rest;
    }
  }

  lemma PauseSafe(w: World, d: int, env: Env, n: nat, guarded: bool)
    requires Sound(w, guarded) && w.status.phase == RolloutInProgress && OnPauseStep(w.spec, w.status)
    ensures Sound(ApplyAll(w, Cut(PausePlan(w.failSafe, w.spec, w.status, d, env).writes, n)), guarded)
  {
    if w.status.pauseStartedAt.None? {
      var s := w.status.(pauseStartedAt := Some(Stamp(env.now)));
      SamePlaceKeeps(w, s, guarded);
      ApplyOne(w, WriteStatus(s));
    } else {
      var v := Evaluate(w.spec.policy, d, env.answers);
      if v.Unreachable? {
        UnreachableSafe(w, env.now, n, guarded);
      } else {
        ReachableSafe(w, d, env.now - w.status.pauseStartedAt.value, v, n, guarded);
      }
    }
  }

  lemma BodySafe(w: World, env: Env, n: nat, guarded: bool)
    requires Sound(w, guarded) && w.status.phase == RolloutInProgress
    ensures Sound(ApplyAll(w, Cut(BodyPlan(w, env).writes, n)), guarded)
  {
    if w.status.stepIndex == |w.spec.steps| {
      PromoteSafe(w, n, guarded);
    } else {
      var step := w.spec.steps[w.status.stepIndex];
      if step.setWeight.Some? {
        SetWeightSafe(w, step.setWeight.value, n, guarded);
      } else if step.pause.Some? {
        PauseSafe(w, step.pause.value, env, n, guarded);
      } else {
        RollbackSafe(w, InvalidStep, n, guarded);
      }
    }
  }

  lemma StepSafe(w: World, env: Env, n: nat, guarded: bool)
    requires Sound(w, guarded) && w.status.phase == RolloutInProgress
    ensures Sound(ApplyAll(w, Cut(StepPlan(w, env).writes, n)), guarded)
  {
    var heal, body := HealWrites(w.status), BodyPlan(w, env).writes;
    HealSafe(w);
    CutAppend(heal, body, n);
    if n < |heal| {
      SafeWritesKeep(w, heal[..n], guarded);
    } else {
      SafeWritesKeep(w, heal, guarded);
      BodyAfterHeal(w, env);
      BodySafe(ApplyAll(w, heal), env, n - |heal|, guarded);
      ApplyAppend(w, heal, Cut(body, n - |heal|));
    }
  }

  /** A start is clean when the stable Deployment runs the recorded stable version. */
  ghost predicate CleanStart(w: World) {
    CanaryTriggered(w.spec, w.status) ==> w.cluster.stableImage == Some(w.status.stableVersion)
  }

  lemma StartSafe(w: World, n: nat, guarded: bool)
    requires Sound(w, guarded) && CanaryTriggered(w.spec, w.status) && (guarded ==> CleanStart(w))
    ensures Sound(ApplyAll(w, Cut(StartPlan(w).writes, n)), guarded)
  {
    var s := Started(w.spec, w.status);
    ApplyOne(w, DeleteHPA);
    ApplySnoc(w, [DeleteHPA], WriteStatus(s));
    assert [DeleteHPA] + [WriteStatus(s)] == StartPlan(w).writes;
    if n == 0 {
      assert Cut(StartPlan(w).writes, n) == [];
    } else if n == 1 {
      assert Cut(StartPlan(w).writes, n) == [DeleteHPA];
    }
  }

  lemma {:induction false} OutsideRollout(w: World, ops: seq<Write>)
    requires Inv(w) && w.status.phase != RolloutInProgress
    requires forall i :: 0 <= i < |ops| ==>
               ops[i].ApplyStable? || ops[i].EnsureHPA? || (ops[i].WriteStatus? && ops[i].status.phase != RolloutInProgress)
    ensures Inv(ApplyAll(w, ops)) && ApplyAll(w, ops).status.phase != RolloutInProgress
    decreases |ops|
  {
    if ops == [] {
    } else {
      assert ops[0].ApplyStable? || ops[0].EnsureHPA? || (ops[0].WriteStatus? && ops[0].status.phase != RolloutInProgress);
      OutsideRollout(Apply(w, ops[0]), ops[1..]);
    }
  }

  // ---------------------------------------------------------------------------
  // Theorems over runs
  // ---------------------------------------------------------------------------

  lemma NextKeeps(w: World, a: Action, guarded: bool)
    requires Sound(w, guarded) && Legal(w, a)
    requires guarded && a.Reconciles? ==> CleanStart(w)
    ensures Sound(Next(w, a), guarded)
  {
    match a
    case Edit(_) =>
    case Drift(_, _, _, _) =>
    case Reconciles(env, cut) =>
      if AbortRequested(w.spec, w.status) {
        RollbackSafe(w, ManualAbort, cut, guarded);
      } else if w.status.phase == RolloutInProgress {
        StepSafe(w, env, cut, guarded);
      } else if CanaryTriggered(w.spec, w.status) {
        StartSafe(w, cut, guarded);
      } else {
        OutsideRollout(w, Cut(ChildrenPlan(w, env).writes, cut));
      }
  }

  /**
   Crash consistency and resumability: whatever is cut, retried, edited or deleted,
   canary objects exist only during a rollout, and the persisted status says exactly
   where the rollout stands.
   */
  lemma {:induction false} AlwaysConsistent(w: World, acts: seq<Action>)
    requires Inv(w) && LegalRun(w, acts)
    ensures Inv(After(w, acts))
    decreases |acts|
  {
    if acts == [] {
    } else {
      var front := acts[..|acts| - 1];
      LegalFront(w, acts);
      AlwaysConsistent(w, front);
      NextKeeps(After(w, front), acts[|front|], false);
    }
  }

  // ---------------------------------------------------------------------------
  // Exactly when the stable Deployment is guarded
  // ---------------------------------------------------------------------------

  /** The reconcile records a new rollout. */
  ghost predicate BeginsRollout(w: World, a: Action) {
    a.Reconciles? && w.status.phase != RolloutInProgress && Next(w, a).status.phase == RolloutInProgress
  }

  /** The stable Deployment runs the stable version, or there are no steps and it runs the new image already. */
  ghost predicate StartsGuarded(w: World) {
    || w.cluster.stableImage == Some(w.status.stableVersion)
    || (w.cluster.stableImage == Some(w.spec.image) && w.spec.steps == [])
  }

  /** A start cut after any call: the status is written last and the stable Deployment is left alone. */
  lemma StartOutcome(w: World, env: Env, cut: nat)
    requires CanaryTriggered(w.spec, w.status)
    ensures var w' := Reconcile(w, env, cut);
            && w'.status == (if cut >= 2 then Started(w.spec, w.status) else w.status)
            && w'.spec == w.spec && w'.cluster.stableImage == w.cluster.stableImage
  {
    var s, ops := Started(w.spec, w.status), StartPlan(w).writes;
    ApplyOne(w, DeleteHPA);
    ApplySnoc(w, [DeleteHPA], WriteStatus(s));
    assert [DeleteHPA] + [WriteStatus(s)] == ops && ReconcilePlan(w, env).writes == ops;
    if cut == 0 {
      assert Cut(ops, cut) == [];
    } else if cut == 1 {
      assert Cut(ops, cut) == [DeleteHPA];
    } else {
      assert Cut(ops, cut) == ops;
    }
  }

  /** A rollout begins guarded exactly when its start finds the stable version deployed. */
  lemma BeginsGuardedIff(w: World, a: Action)
    requires Inv(w) && BeginsRollout(w, a)
    ensures StableGuarded(Next(w, a)) <==> StartsGuarded(w)
  {
    if CanaryTriggered(w.spec, w.status) {
      StartOutcome(w, a.env, a.cut);
    } else {
      OutsideRollout(w, Cut(ChildrenPlan(w, a.env).writes, a.cut));
    }
  }

  lemma GuardStep(w: World, a: Action)
    requires Inv(w) && StableGuarded(w) && Legal(w, a) && (BeginsRollout(w, a) ==> StartsGuarded(w))
    ensures StableGuarded(Next(w, a))
  {
    if BeginsRollout(w, a) {
      BeginsGuardedIff(w, a);
    } else if a.Reconciles? && CanaryTriggered(w.spec, w.status) {
      StartOutcome(w, a.env, a.cut);
    } else {
      NextKeeps(w, a, true);
    }
  }

  lemma ConsistentPrefix(w: World, acts: seq<Action>, k: nat)
    requires k <= |acts| && Inv(w) && LegalRun(w, acts)
    ensures Inv(After(w, acts[..k]))
  {
    var front := acts[..k];
    forall j | 0 <= j < |front| ensures Legal(After(w, front[..j]), front[j]) {
      assert front[..j] == acts[..j];
    }
    AlwaysConsistent(w, front);
  }

  lemma AfterPrefix(w: World, acts: seq<Action>, k: nat)
    requires k < |acts|
    ensures After(w, acts[..k + 1]) == Next(After(w, acts[..k]), acts[k])
  {
    assert acts[..k + 1][..k] == acts[..k];
  }

  ghost predicate StartsGuardedAt(w: World, acts: seq<Action>, n: nat)
    requires n < |acts|
  {
    BeginsRollout(After(w, acts[..n]), acts[n]) ==> StartsGuarded(After(w, acts[..n]))
  }

  lemma {:induction false} GuardedUpTo(w: World, acts: seq<Action>, n: nat)
    requires Inv(w) && StableGuarded(w) && LegalRun(w, acts) && n <= |acts|
    requires forall k :: 0 <= k < n ==> StartsGuardedAt(w, acts, k)
    ensures StableGuarded(After(w, acts[..n]))
    decreases n
  {
    if n == 0 {
      assert acts[..0] == [];
    } else {
      GuardedUpTo(w, acts, n - 1);
      ConsistentPrefix(w, acts, n - 1);
      assert StartsGuardedAt(w, acts, n - 1);
      GuardStep(After(w, acts[..n - 1]), acts[n - 1]);
      AfterPrefix(w, acts, n - 1);
    }
  }

  /**
   Stable traffic: in every run, the stable Deployment runs the stable version until every
   step of a rollout has been executed if and only if every rollout begins with the
   stable version deployed.
   */
  lemma StableGuardedIff(w: World, acts: seq<Action>)
    requires Inv(w) && StableGuarded(w) && LegalRun(w, acts)
    ensures (forall n :: 0 <= n <= |acts| ==> StableGuarded(After(w, acts[..n]))) <==>
            (forall n :: 0 <= n < |acts| ==> StartsGuardedAt(w, acts, n))
  {
    if forall n :: 0 <= n <= |acts| ==> StableGuarded(After(w, acts[..n])) {
      forall n | 0 <= n < |acts| ensures StartsGuardedAt(w, acts, n) {
        GuardedStart(w, acts, n);
      }
    }
    if forall n :: 0 <= n < |acts| ==> StartsGuardedAt(w, acts, n) {
      forall n | 0 <= n <= |acts| ensures StableGuarded(After(w, acts[..n])) {
        GuardedUpTo(w, acts, n);
      }
    }
  }

  lemma GuardedStart(w: World, acts: seq<Action>, n: nat)
    requires Inv(w) && LegalRun(w, acts) && n < |acts| && StableGuarded(After(w, acts[..n + 1]))
    ensures StartsGuardedAt(w, acts, n)
  {
    if BeginsRollout(After(w, acts[..n]), acts[n]) {
      ConsistentPrefix(w, acts, n);
      AfterPrefix(w, acts, n);
      BeginsGuardedIff(After(w, acts[..n]), acts[n]);
    }
  }
}
