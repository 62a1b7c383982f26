/**
 reconcileMCPRegistration (internal/controller/agentdeployment_controller.go) and the
 registration at the end of a promotion (internal/rollout/canary.go): the status of one
 AgentDeployment beside the registry it speaks about.
 */
module McpReconcile {
  import opened DiscoveryRegistry
  import R = Registrar

  /** What one reconcile finds: the exposure wish, the phase, and the answers of agent and ConfigMap. */
  datatype Found = Found(expose: bool, running: bool, probe: R.Probe, again: R.Probe, persisted: bool, now: int)

  /** What the end of a promotion finds; `written` tells whether its own status write succeeds. */
  datatype Promotion = Promotion(expose: bool, probe: R.Probe, persisted: bool, written: bool, now: int)

  datatype Requeue = Never | AfterFailure | Periodic

  /** status.registered and the MCPHandshakeFailed condition. */
  datatype Status = Status(registered: bool, failed: bool)

  datatype State = State(reg: R.State, status: Status)

  /** The registrar's state and the status as the reconcile leaves it in memory. */
  function Reconciled(s: State, ad: R.Agent, f: Found, ttl: int): (State, Requeue) {
    if !f.expose then
      if !s.status.registered then (s.(status := Status(false, false)), Never)
      else
        var (reg, r) := R.Step(s.reg, ttl, R.Timed(R.Deregister(ad, f.persisted), f.now));
        if r.Done? then (State(reg, Status(false, false)), Never) else (State(reg, Status(true, true)), AfterFailure)
    else if !f.running then (s, Never)
    else if s.status.registered then
      var (reg, r) := R.Step(s.reg, ttl, R.Timed(R.Heartbeat(ad, f.probe, f.again, f.persisted), f.now));
      (State(reg, Status(!r.Deregistered?, !r.Done?)), Periodic)
    else
      var (reg, r) := R.Step(s.reg, ttl, R.Timed(R.Register(ad, f.probe, f.persisted), f.now));
      (State(reg, Status(r.Done?, !r.Done?)), Periodic)
  }

  /** The registrar's state and the stored status after a promotion. */
  function Promoted(s: State, ad: R.Agent, p: Promotion, ttl: int): State {
    if !p.expose then s
    else
      var (reg, r) := R.Step(s.reg, ttl, R.Timed(R.Register(ad, p.probe, p.persisted), p.now));
      State(reg, s.status.(registered := s.status.registered || (r.Done? && p.written)))
  }

  class Reconciler {
    const registrar: R.Registrar
    var registered: bool
    var failed: bool

    constructor (registrar: R.Registrar)
      ensures this.registrar == registrar && !registered && !failed
    {
      this.registrar := registrar;
      registered, failed := false, false;
    }

    ghost function Abs(): State
      reads this, registrar, registrar.registry
    {
      State(registrar.Abs(), Status(registered, failed))
    }

    method ReconcileMCPRegistration(ad: R.Agent, f: Found) returns (q: Requeue)
      modifies this, registrar`failures, registrar.registry`entries
      ensures (Abs(), q) == Reconciled(old(Abs()), ad, f, registrar.registry.defaultTTL)
    {
      if !f.expose {
        if registered {
          var r := registrar.Deregister(ad, f.persisted, f.now);
          if !r.Done? {
            failed := true;
            return AfterFailure;
          }
          registered := false;
        }
        failed := false;
        return Never;
      }
      if !f.running {
        return Never;
      }
      if registered {
        var r := registrar.Heartbeat(ad, f.probe, f.again, f.persisted, f.now);
        if !r.Done? {
          if r.Deregistered? {
            registered := false;
          }
          failed := true;
          return Periodic;
        }
        failed := false;
        return Periodic;
      }
      var r := registrar.Register(ad, f.probe, f.persisted, f.now);
      if !r.Done? {
        registered, failed := false, true;
        return Periodic;
      }
      registered, failed := true, false;
      return Periodic;
    }

    /** The last lines of a promotion; a failing registration or status write is only logged. */
    method RegisterPromoted(ad: R.Agent, p: Promotion)
      modifies this`registered, registrar`failures, registrar.registry`entries
      ensures Abs() == Promoted(old(Abs()), ad, p, registrar.registry.defaultTTL)
    {
      if p.expose {
        var r := registrar.Register(ad, p.probe, p.persisted, p.now);
        if r.Done? && !registered && p.written {
          registered := true;
        }
      }
    }
  }

  /** The probe of a registered agent succeeds: the agent answers, and a lost entry is registered again. */
  predicate Healthy(s: State, ad: R.Agent, f: Found) {
    f.probe.Answered? && (R.KeyOf(ad) in s.reg.entries || (R.Registrable(ad, f.again) && f.persisted))
  }

  /** The removal of the agent reaches memory but not the ConfigMap. */
  predicate RemovalLost(s: State, ad: R.Agent, f: Found) {
    R.KeyOf(ad) in s.reg.entries && !f.persisted
  }

  /**
   What a reconcile reports, in every case. Exposure off: still registered, with the
   condition and a retry, exactly if the removal was lost. Exposure on while not running:
   nothing changes. A registered agent: the condition says whether its probe failed, and the
   flag goes only with the third miss in a row. Any other: flag and condition say whether
   the registration succeeded. Both are looked at again periodically.
   */
  lemma ReconcileReports(s: State, ad: R.Agent, f: Found, ttl: int)
    ensures var (s', q) := Reconciled(s, ad, f, ttl);
            if !f.expose then
              var lost := s.status.registered && RemovalLost(s, ad, f);
              s'.status == Status(lost, lost) && q == if lost then AfterFailure else Never
            else if !f.running then s' == s && q == Never
            else
              && q == Periodic
              && (s.status.registered ==>
                    && (s'.status.failed <==> !Healthy(s, ad, f))
                    && (!s'.status.registered <==>
                        f.probe.Unanswered? && R.Failures(s.reg, R.KeyOf(ad)) >= 2 && !RemovalLost(s, ad, f)))
              && (!s.status.registered ==>
                    && (s'.status.registered <==> R.Registrable(ad, f.probe) && f.persisted)
                    && s'.status.failed == !s'.status.registered)
  {
  }

  /** What a promotion reports: the flag is set by a registration that is persisted and recorded; the condition stays. */
  lemma PromotionReports(s: State, ad: R.Agent, p: Promotion, ttl: int)
    ensures var s' := Promoted(s, ad, p, ttl);
            && (s'.status.registered <==>
                s.status.registered || (p.expose && R.Registrable(ad, p.probe) && p.persisted && p.written))
            && s'.status.failed == s.status.failed
  {
  }

  // ---------------------------------------------------------------------------
  // The flag and the registry
  // ---------------------------------------------------------------------------

  /**
   What happens around one agent: its reconciles, whose status write may fail, its
   promotions, and calls about others or sweeps.
   */
  datatype Event = Reconciles(found: Found, written: bool) | Promotes(promotion: Promotion) | Others(call: R.Timed)

  function Next(s: State, ad: R.Agent, ttl: int, e: Event): State {
    match e
    case Reconciles(f, written) =>
      var s' := Reconciled(s, ad, f, ttl).0;
      if written then s' else s'.(status := s.status)
    case Promotes(p) => Promoted(s, ad, p, ttl)
    case Others(c) => if R.About(c.call, R.KeyOf(ad)) then s else s.(reg := R.Step(s.reg, ttl, c).0)
  }

  function After(s: State, ad: R.Agent, ttl: int, run: seq<Event>): State
    decreases |run|
  {
    if run == [] then s else Next(After(s, ad, ttl, run[..|run| - 1]), ad, ttl, run[|run| - 1])
  }

  /** An agent in the registry is one whose status says so. */
  ghost predicate Honest(s: State, k: string) {
    k in s.reg.entries ==> s.status.registered
  }

  /** The first registration of an agent reaches memory, but not both the ConfigMap and the stored status. */
  predicate Unrecorded(s: State, ad: R.Agent, e: Event) {
    && !s.status.registered
    && match e
       case Reconciles(f, written) =>
         f.expose && f.running && f.probe.Answered? && Complete(R.EntryFor(ad, f.probe.tools)) && !(f.persisted && written)
       case Promotes(p) =>
         p.expose && p.probe.Answered? && Complete(R.EntryFor(ad, p.probe.tools)) && !(p.persisted && p.written)
       case Others(_) => false
  }

  /** A call about another agent, or a sweep, does not bring this agent in. */
  lemma OthersKeep(s: R.State, ttl: int, c: R.Timed, k: string)
    requires !R.About(c.call, k)
    ensures k in R.Step(s, ttl, c).0.entries ==> k in s.entries
  {
  }

  /** An event keeps the flag honest exactly when it is no unrecorded registration. */
  lemma HonestIff(s: State, ad: R.Agent, e: Event, ttl: int)
    requires Honest(s, R.KeyOf(ad))
    ensures Honest(Next(s, ad, ttl, e), R.KeyOf(ad)) <==> !Unrecorded(s, ad, e)
  {
    match e
    case Reconciles(f, written) =>
    case Promotes(p) =>
    case Others(c) =>
      if !R.About(c.call, R.KeyOf(ad)) {
        OthersKeep(s.reg, ttl, c, R.KeyOf(ad));
      }
  }

  /** No event of the run is an unrecorded registration. */
  ghost predicate AllRecorded(s: State, ad: R.Agent, ttl: int, run: seq<Event>) {
    forall i :: 0 <= i < |run| ==> !Unrecorded(After(s, ad, ttl, run[..i]), ad, run[i])
  }

  lemma AfterOneMore(s: State, ad: R.Agent, ttl: int, run: seq<Event>, i: nat)
    requires i < |run|
    ensures After(s, ad, ttl, run[..i + 1]) == Next(After(s, ad, ttl, run[..i]), ad, ttl, run[i])
  {
    assert run[..i + 1][..i] == run[..i];
  }

  lemma {:induction false} HonestUpTo(s: State, ad: R.Agent, ttl: int, run: seq<Event>, i: nat)
    requires Honest(s, R.KeyOf(ad)) && AllRecorded(s, ad, ttl, run) && i <= |run|
    ensures Honest(After(s, ad, ttl, run[..i]), R.KeyOf(ad))
    decreases i
  {
    if i == 0 {
    } else {
      HonestUpTo(s, ad, ttl, run, i - 1);
      AfterOneMore(s, ad, ttl, run, i - 1);
      HonestIff(After(s, ad, ttl, run[..i - 1]), ad, run[i - 1], ttl);
    }
  }

  /**
   In every run, whatever other agents and sweeps do, the agent is in the registry only
   while its status says so at every moment if and only if no registration of the run
   goes unrecorded.
   */
  lemma HonestRunIff(s: State, ad: R.Agent, ttl: int, run: seq<Event>)
    requires Honest(s, R.KeyOf(ad))
    ensures (forall i :: 0 <= i <= |run| ==> Honest(After(s, ad, ttl, run[..i]), R.KeyOf(ad)))
            <==> AllRecorded(s, ad, ttl, run)
  {
    var k := R.KeyOf(ad);
    if AllRecorded(s, ad, ttl, run) {
      forall i | 0 <= i <= |run| ensures Honest(After(s, ad, ttl, run[..i]), k) {
        HonestUpTo(s, ad, ttl, run, i);
      }
    }
    if forall i :: 0 <= i <= |run| ==> Honest(After(s, ad, ttl, run[..i]), k) {
      forall i | 0 <= i < |run| ensures !Unrecorded(After(s, ad, ttl, run[..i]), ad, run[i]) {
        AfterOneMore(s, ad, ttl, run, i);
        assert Honest(After(s, ad, ttl, run[..i + 1]), k);
        HonestIff(After(s, ad, ttl, run[..i]), ad, run[i], ttl);
      }
    }
  }

  /**
   With no registration unrecorded, an agent whose exposure was switched off is out of the
   registry as soon as that is reconciled, even when the persist or the status write of
   that reconcile fails.
   */
  lemma SwitchedOffIsOut(s: State, ad: R.Agent, ttl: int, run: seq<Event>)
    requires Honest(s, R.KeyOf(ad)) && AllRecorded(s, ad, ttl, run)
    requires run != [] && run[|run| - 1].Reconciles? && !run[|run| - 1].found.expose
    ensures R.KeyOf(ad) !in After(s, ad, ttl, run).reg.entries
  {
    HonestUpTo(s, ad, ttl, run, |run| - 1);
  }

  /**
   One healthy reconcile heals whatever happened before: from any state, with the
   handshakes answered and both writes successful, the agent is visible, its status says
   so without a failure and its misses are forgotten.
   */
  lemma HealthyReconcileHeals(s: State, ad: R.Agent, f: Found, ttl: int)
    requires ttl > 0 && f.expose && f.running && f.probe.Answered? && f.again.Answered? && f.persisted
    requires Complete(R.EntryFor(ad, f.probe.tools))
    ensures var s', k := Next(s, ad, ttl, Reconciles(f, true)), R.KeyOf(ad);
            s'.status == Status(true, false) && k in Visible(s'.reg.entries, ttl, f.now) && R.Failures(s'.reg, k) == 0
  {
  }
}
