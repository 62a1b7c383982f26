/**
 What a promotion proves about the run that led to it.

 A run of a rollout leaves a log: weights applied, pauses begun, evaluations made
 (with the policy and the query answers). Promotion is reached only with a log that
 certifies every step, in order.
 */
module CanaryEvidence {
  import opened Options
  import opened Durations
  import opened PromQL
  import opened CanaryModel
  import opened CanarySafety
  import opened CanaryMoves

  datatype Event =
    | WeightApplied(step: nat, weight: int)
    | PauseBegun(step: nat, at: int)
    | Evaluated(step: nat, at: int, policy: Policy, answers: Answers)

  /** What an action contributes to the log. */
  function Events(w: World, a: Action): seq<Event> {
    if !a.Reconciles? || w.status.phase != RolloutInProgress || w.spec.abort || w.status.stepIndex >= |w.spec.steps|
    then []
    else
      var i, step := w.status.stepIndex, w.spec.steps[w.status.stepIndex];
      var heal := |HealWrites(w.status)|;
      if step.setWeight.Some? then
        if a.cut >= heal + 4 then [WeightApplied(i, step.setWeight.value)] else []
      else if step.pause.None? then []
      else if w.status.pauseStartedAt.None? then
        if a.cut >= heal + 1 then [PauseBegun(i, a.env.now)] else []
      else if a.cut >= heal then [Evaluated(i, a.env.now, w.spec.policy, a.env.answers)] else []
  }

  function Log(w: World, acts: seq<Action>): seq<Event>
    decreases |acts|
  {
    if acts == [] then []
    else var n := |acts| - 1; Log(w, acts[..n]) + Events(After(w, acts[..n]), acts[n])
  }

  /**
   An evaluation that lets a pause of length d end: asked for in a window PromQL can
   express, at least d after the recorded start, and either with every reading within
   its threshold, or with too few requests after three times d or fifteen minutes.
   */
  ghost predicate Justifies(d: int, at: int, e: Event) {
    && e.Evaluated? && Representable(d) && e.at - Stamp(at) >= d
    && ( || WithinThresholds(e.policy, e.answers)
         || (TooFew(e.policy, e.answers) && (e.at - Stamp(at) >= 3 * d || e.at - Stamp(at) >= 15 * MINUTE)))
  }

  /** Steps 0..n-1 were executed in order, each with its own evidence, within the log. */
  ghost predicate Certified(steps: seq<Step>, n: nat, log: seq<Event>)
    requires n <= |steps|
    decreases n
  {
    n == 0 ||
    (if steps[n - 1].setWeight.Some? then
       exists k :: 0 <= k < |log| && log[k] == WeightApplied(n - 1, steps[n - 1].setWeight.value)
                   && Certified(steps, n - 1, log[..k])
     else
       steps[n - 1].pause.Some? &&
       exists j, k :: 0 <= j < k < |log| && log[j].PauseBegun? && log[j].step == log[k].step == n - 1
                      && Justifies(steps[n - 1].pause.value, log[j].at, log[k])
                      && Certified(steps, n - 1, log[..j]))
  }

  /** The pause the status is in began in the log, after all earlier steps were certified. */
  ghost predicate PauseLogged(steps: seq<Step>, s: Status, log: seq<Event>)
    requires s.stepIndex <= |steps|
  {
    s.pauseStartedAt.Some? ==>
      exists j :: 0 <= j < |log| && log[j].PauseBegun? && log[j].step == s.stepIndex
                  && Stamp(log[j].at) == s.pauseStartedAt.value && Certified(steps, s.stepIndex, log[..j])
  }

  ghost predicate EvidenceInv(w: World, log: seq<Event>) {
    && Inv(w) && w.status.phase == RolloutInProgress
    && Certified(w.spec.steps, w.status.stepIndex, log)
    && PauseLogged(w.spec.steps, w.status, log)
  }

  lemma CertifiedGrows(steps: seq<Step>, n: nat, log: seq<Event>, log': seq<Event>)
    requires n <= |steps| && log <= log' && Certified(steps, n, log)
    ensures Certified(steps, n, log')
  {
    if n == 0 {
    } else if steps[n - 1].setWeight.Some? {
      var k :| 0 <= k < |log| && log[k] == WeightApplied(n - 1, steps[n - 1].setWeight.value)
               && Certified(steps, n - 1, log[..k]);
      assert log'[k] == log[k] && log'[..k] == log[..k];
    } else {
      var j, k :| 0 <= j < k < |log| && log[j].PauseBegun? && log[j].step == log[k].step == n - 1
                  && Justifies(steps[n - 1].pause.value, log[j].at, log[k])
                  && Certified(steps, n - 1, log[..j]);
      assert log'[j] == log[j] && log'[k] == log[k] && log'[..j] == log[..j];
    }
  }

  lemma PauseLoggedGrows(steps: seq<Step>, s: Status, log: seq<Event>, log': seq<Event>)
    requires s.stepIndex <= |steps| && log <= log' && PauseLogged(steps, s, log)
    ensures PauseLogged(steps, s, log')
  {
    if s.pauseStartedAt.Some? {
      var j :| 0 <= j < |log| && log[j].PauseBegun? && log[j].step == s.stepIndex
               && Stamp(log[j].at) == s.pauseStartedAt.value && Certified(steps, s.stepIndex, log[..j]);
      assert log'[j] == log[j] && log'[..j] == log[..j];
    }
  }

  /** A status in the same place of the rollout needs no new evidence. */
  lemma EvidenceStays(steps: seq<Step>, s: Status, s': Status, log: seq<Event>, log': seq<Event>)
    requires s.stepIndex <= |steps| && log <= log'
    requires Certified(steps, s.stepIndex, log) && PauseLogged(steps, s, log)
    requires s'.stepIndex == s.stepIndex && (s'.pauseStartedAt == s.pauseStartedAt || s'.pauseStartedAt.None?)
    ensures Certified(steps, s'.stepIndex, log') && PauseLogged(steps, s', log')
  {
    CertifiedGrows(steps, s.stepIndex, log, log');
    PauseLoggedGrows(steps, s, log, log');
  }

  /** A pause that advances has just been justified. */
  lemma EvidenceAdvances(w: World, env: Env, cut: nat, log: seq<Event>, d: int, v: Verdict, elapsed: int)
    requires EvidenceInv(w, log) && !w.spec.abort && cut >= |HealWrites(w.status)|
    requires Evaluating(w, d, env, v, elapsed) && elapsed >= d
    requires v == Healthy || (v == SampleTooSmall && elapsed >= MaxWait(d))
    ensures Certified(w.spec.steps, w.status.stepIndex + 1, log + Events(w, Reconciles(env, cut)))
  {
    var i := w.status.stepIndex;
    var e := Evaluated(i, env.now, w.spec.policy, env.answers);
    var log' := log + Events(w, Reconciles(env, cut));
    assert log' == log + [e];
    var j :| 0 <= j < |log| && log[j].PauseBegun? && log[j].step == i
             && Stamp(log[j].at) == w.status.pauseStartedAt.value && Certified(w.spec.steps, i, log[..j]);
    assert log'[j] == log[j] && log'[..j] == log[..j] && log'[|log|] == e;
    VerdictIff(w.spec.policy, d, env.answers);
    assert Justifies(d, log'[j].at, log'[|log|]);
  }

  /** Where the status may stand after a reconcile, given the evidence in the log. */
  ghost predicate Supported(steps: seq<Step>, s': Status, log': seq<Event>) {
    && (s'.phase == RolloutInProgress ==>
          s'.stepIndex <= |steps| && Certified(steps, s'.stepIndex, log') && PauseLogged(steps, s', log'))
    && (s'.phase == Running ==> Certified(steps, |steps|, log'))
  }

  lemma SupportedWeight(w: World, env: Env, cut: nat, log: seq<Event>)
    requires EvidenceInv(w, log) && !w.spec.abort && cut >= |HealWrites(w.status)| + 4
    requires w.status.stepIndex < |w.spec.steps| && w.spec.steps[w.status.stepIndex].setWeight.Some?
    ensures Supported(w.spec.steps, WeightSet(w.status, w.spec.steps[w.status.stepIndex].setWeight.value),
                      log + Events(w, Reconciles(env, cut)))
  {
    var log' := log + Events(w, Reconciles(env, cut));
    var e := WeightApplied(w.status.stepIndex, w.spec.steps[w.status.stepIndex].setWeight.value);
    assert log' == log + [e] && log'[|log|] == e && log'[..|log|] == log;
  }

  lemma SupportedPause(w: World, env: Env, cut: nat, log: seq<Event>)
    requires EvidenceInv(w, log) && !w.spec.abort && cut >= |HealWrites(w.status)| + 1
    requires OnPauseStep(w.spec, w.status) && w.status.pauseStartedAt.None?
    ensures Supported(w.spec.steps, w.status.(pauseStartedAt := Some(Stamp(env.now))),
                      log + Events(w, Reconciles(env, cut)))
  {
    var log' := log + Events(w, Reconciles(env, cut));
    var e := PauseBegun(w.status.stepIndex, env.now);
    CertifiedGrows(w.spec.steps, w.status.stepIndex, log, log');
    assert log' == log + [e] && log'[|log|] == e && log'[..|log|] == log;
  }

  /** An evaluation ends the rollout, leaves the pause where it is, or advances past it with reason. */
  lemma EvaluationOutcome(w: World, env: Env, d: int, v: Verdict, elapsed: int, s': Status)
    requires w.status.phase == RolloutInProgress && EvaluationMove(w, env, d, v, elapsed, s')
    ensures || s'.phase == RolloutFailed
            || (s'.phase == RolloutInProgress && s'.stepIndex == w.status.stepIndex
                && s'.pauseStartedAt == w.status.pauseStartedAt)
            || (s'.phase == RolloutInProgress && s'.stepIndex == w.status.stepIndex + 1 && s'.pauseStartedAt.None?
                && elapsed >= d && (v == Healthy || (v == SampleTooSmall && elapsed >= MaxWait(d))))
  {
  }

  lemma SupportedEvaluation(w: World, env: Env, cut: nat, log: seq<Event>, d: int, v: Verdict, elapsed: int, s': Status)
    requires EvidenceInv(w, log) && !w.spec.abort && cut >= |HealWrites(w.status)|
    requires EvaluationMove(w, env, d, v, elapsed, s')
    ensures Supported(w.spec.steps, s', log + Events(w, Reconciles(env, cut)))
  {
    var log' := log + Events(w, Reconciles(env, cut));
    EvaluationOutcome(w, env, d, v, elapsed, s');
    if s'.phase == RolloutInProgress {
      if s'.stepIndex == w.status.stepIndex {
        EvidenceStays(w.spec.steps, w.status, s', log, log');
      } else {
        EvidenceAdvances(w, env, cut, log, d, v, elapsed);
      }
    }
  }

  lemma SupportedReconcile(w: World, env: Env, cut: nat, log: seq<Event>, s': Status)
    requires EvidenceInv(w, log) && ReconcileMove(w, env, cut, s')
    ensures Supported(w.spec.steps, s', log + Events(w, Reconciles(env, cut)))
  {
    var steps, s := w.spec.steps, w.status;
    var log' := log + Events(w, Reconciles(env, cut));
    CertifiedGrows(steps, s.stepIndex, log, log');
    if s' == s {
      EvidenceStays(steps, s, s', log, log');
    } else if s'.phase == RolloutInProgress {
      if d, v, elapsed :| EvaluationMove(w, env, d, v, elapsed, s') {
        SupportedEvaluation(w, env, cut, log, d, v, elapsed, s');
      } else if OnPauseStep(w.spec, s) {
        SupportedPause(w, env, cut, log);
      } else {
        SupportedWeight(w, env, cut, log);
      }
    }
  }

  lemma EvidenceNext(w: World, a: Action, log: seq<Event>)
    requires EvidenceInv(w, log) && Legal(w, a)
    ensures Supported(w.spec.steps, Next(w, a).status, log + Events(w, a))
    ensures Inv(Next(w, a)) && Next(w, a).spec.steps == w.spec.steps
  {
    NextKeeps(w, a, false);
    if a.Reconciles? {
      ReconcileMoves(w, a.env, a.cut);
      ApplyKeepsSpec(w, Cut(ReconcilePlan(w, a.env).writes, a.cut));
      SupportedReconcile(w, a.env, a.cut, log, Next(w, a).status);
    } else {
      EvidenceStays(w.spec.steps, w.status, Next(w, a).status, log, log + Events(w, a));
    }
  }

  /** A rollout that has just been started and has executed nothing yet. */
  ghost predicate AtStart(w: World) {
    && Inv(w) && w.status.phase == RolloutInProgress
    && w.status.stepIndex == 0 && w.status.pauseStartedAt.None? && w.status.promUnreachableSince.None?
  }

  /** The run stays within one rollout up to its last action. */
  ghost predicate OneRollout(w: World, acts: seq<Action>) {
    forall n :: 0 <= n < |acts| ==> After(w, acts[..n]).status.phase == RolloutInProgress
  }

  lemma OneRolloutFront(w: World, acts: seq<Action>)
    requires acts != [] && OneRollout(w, acts)
    ensures OneRollout(w, acts[..|acts| - 1])
    ensures After(w, acts[..|acts| - 1]).status.phase == RolloutInProgress
  {
    var front := acts[..|acts| - 1];
    assert forall n :: 0 <= n <= |front| ==> front[..n] == acts[..n];
  }

  lemma {:induction false} EvidenceAlways(w: World, acts: seq<Action>)
    requires AtStart(w) && LegalRun(w, acts) && OneRollout(w, acts)
    ensures var w' := After(w, acts);
            && w'.spec.steps == w.spec.steps
            && (w'.status.phase == RolloutInProgress ==> EvidenceInv(w', Log(w, acts)))
            && (w'.status.phase == Running ==> Certified(w.spec.steps, |w.spec.steps|, Log(w, acts)))
    decreases |acts|
  {
    if acts == [] {
    } else {
      var n := |acts| - 1;
      var front := acts[..n];
      LegalFront(w, acts);
      OneRolloutFront(w, acts);
      EvidenceAlways(w, front);
      EvidenceNext(After(w, front), acts[n], Log(w, front));
    }
  }

  /**
   Promotion evidence: every run of a rollout that ends in a promotion contains, in
   order, every weight applied and, for every pause, its start and an evaluation that
   justifies leaving it.
   */
  lemma PromotionEvidence(w: World, acts: seq<Action>)
    requires AtStart(w) && LegalRun(w, acts) && OneRollout(w, acts)
    requires After(w, acts).status.phase == Running
    ensures Certified(w.spec.steps, |w.spec.steps|, Log(w, acts))
  {
    EvidenceAlways(w, acts);
  }

  /** The evidence of the last step, and the part of the log that certifies the steps before it. */
  lemma CertifiedLast(steps: seq<Step>, n: nat, log: seq<Event>) returns (k: nat)
    requires 0 < n <= |steps| && Certified(steps, n, log)
    ensures k < |log| && Certified(steps, n - 1, log[..k])
    ensures steps[n - 1].setWeight.Some? ==> log[k] == WeightApplied(n - 1, steps[n - 1].setWeight.value)
  {
    if steps[n - 1].setWeight.Some? {
      k :| 0 <= k < |log| && log[k] == WeightApplied(n - 1, steps[n - 1].setWeight.value)
           && Certified(steps, n - 1, log[..k]);
    } else {
      var j;
      k, j :| 0 <= k < j < |log| && log[k].PauseBegun? && log[k].step == log[j].step == n - 1
              && Justifies(steps[n - 1].pause.value, log[k].at, log[j])
              && Certified(steps, n - 1, log[..k]);
    }
  }

  lemma CertifiedPauseLast(steps: seq<Step>, n: nat, log: seq<Event>) returns (j: nat, k: nat)
    requires 0 < n <= |steps| && Certified(steps, n, log) && steps[n - 1].setWeight.None?
    ensures steps[n - 1].pause.Some? && j < k < |log| && log[j].PauseBegun? && log[j].step == log[k].step == n - 1
    ensures Justifies(steps[n - 1].pause.value, log[j].at, log[k])
  {
    j, k :| 0 <= j < k < |log| && log[j].PauseBegun? && log[j].step == log[k].step == n - 1
            && Justifies(steps[n - 1].pause.value, log[j].at, log[k]) && Certified(steps, n - 1, log[..j]);
  }

  /** A certified list of steps has, for each of its pauses, a start and a later evaluation that justifies its end. */
  lemma {:induction false} CertifiedPause(steps: seq<Step>, n: nat, log: seq<Event>, i: nat) returns (j: nat, k: nat)
    requires n <= |steps| && Certified(steps, n, log) && i < n && steps[i].setWeight.None?
    ensures steps[i].pause.Some? && j < k < |log| && log[j].PauseBegun? && log[j].step == log[k].step == i
    ensures Justifies(steps[i].pause.value, log[j].at, log[k])
    decreases n
  {
    if i == n - 1 {
      j, k := CertifiedPauseLast(steps, n, log);
    } else {
      var front := CertifiedLast(steps, n, log);
      j, k := CertifiedPause(steps, n - 1, log[..front], i);
    }
  }

  /** A certified list of steps has a log entry for each of its weights. */
  lemma {:induction false} CertifiedWeight(steps: seq<Step>, n: nat, log: seq<Event>, i: nat)
    requires n <= |steps| && Certified(steps, n, log) && i < n && steps[i].setWeight.Some?
    ensures WeightApplied(i, steps[i].setWeight.value) in log
    decreases n
  {
    var k := CertifiedLast(steps, n, log);
    if i == n - 1 {
    } else {
      var front := log[..k];
      CertifiedWeight(steps, n - 1, front, i);
      assert forall e :: e in front ==> e in log;
    }
  }

  /** The action that logs a weight records it. */
  lemma LoggedWeight(u: World, a: Action, i: nat, weight: int)
    requires Inv(u) && WeightApplied(i, weight) in Events(u, a)
    ensures Next(u, a).status.canaryWeight == weight
  {
    FullSetWeight(u, a.env, a.cut);
  }

  /** A logged event comes from one of the actions. */
  lemma {:induction false} LoggedBy(w: World, acts: seq<Action>, e: Event) returns (n: nat)
    requires e in Log(w, acts)
    ensures n < |acts| && e in Events(After(w, acts[..n]), acts[n])
    decreases |acts|
  {
    n := |acts| - 1;
    var front := acts[..n];
    if e !in Log(w, front) {
    } else {
      n := LoggedBy(w, front, e);
      assert front[..n] == acts[..n];
    }
  }

  /** A logged weight was the recorded canary weight at some point of the run. */
  lemma {:induction false} WeightWasRecorded(w: World, acts: seq<Action>, i: nat, weight: int) returns (n: nat)
    requires WeightApplied(i, weight) in Log(w, acts)
    requires Inv(w) && LegalRun(w, acts)
    ensures n <= |acts| && After(w, acts[..n]).status.canaryWeight == weight
  {
    var k := LoggedBy(w, acts, WeightApplied(i, weight));
    ConsistentPrefix(w, acts, k);
    LoggedWeight(After(w, acts[..k]), acts[k], i, weight);
    AfterPrefix(w, acts, k);
    n := k + 1;
  }

  /** A setWeight step that gets through all its writes records its weight. */
  lemma FullSetWeight(w: World, env: Env, cut: nat)
    requires Inv(w) && w.status.phase == RolloutInProgress && !w.spec.abort && w.status.stepIndex < |w.spec.steps|
    requires w.spec.steps[w.status.stepIndex].setWeight.Some? && cut >= |HealWrites(w.status)| + 4
    ensures Reconcile(w, env, cut).status == WeightSet(w.status, w.spec.steps[w.status.stepIndex].setWeight.value)
  {
    var weight := w.spec.steps[w.status.stepIndex].setWeight.value;
    var heal := HealWrites(w.status);
    var ops := heal + SplitWrites(w.status.canaryVersion, weight);
    assert ReconcilePlan(w, env).writes == ops + [WriteStatus(WeightSet(w.status, weight))];
    TailStatus(w, ops, WeightSet(w.status, weight), cut);
  }
}
