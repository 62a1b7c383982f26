/**
 The ceiling of a single agent over every run of the stored-object protocol. Unlike the
 totals it needs no hypothesis: it compares a request with its own old object only.
 */
module QuotaPerAgent {
  import opened Options
  import opened Usages
  import opened QuotaMath
  import opened QuotaEnforcer
  import opened QuotaStored
  import opened QuotaStoredBarrier

  type Quotas = map<string, Quota>

  /** The agent respects its tenant's ceiling for a single agent. */
  ghost predicate Within(quotas: Quotas, a: AgentSpec) {
    a.tenant in quotas ==> a.maxReplicas <= quotas[a.tenant].maxReplicasPerAgent
  }

  /** A request under way carries its tenant's quota and an old object that was within it. */
  ghost predicate RequestWithin(quotas: Quotas, r: Request) {
    && r.requested.tenant in quotas && r.quota == quotas[r.requested.tenant]
    && (r.oldSpec.Some? ==> Within(quotas, r.oldSpec.value))
  }

  ghost predicate StoredWithin(quotas: Quotas, stored: map<string, AgentSpec>) {
    forall k :: k in stored ==> Within(quotas, stored[k])
  }

  ghost predicate PendingWithin(quotas: Quotas, pending: map<string, Pending>) {
    forall k :: k in pending ==> Within(quotas, pending[k].requested)
  }

  ghost predicate ReadingWithin(quotas: Quotas, reading: map<nat, Request>) {
    forall id :: id in reading ==> RequestWithin(quotas, reading[id])
  }

  ghost predicate AllWithin(s: State) {
    StoredWithin(s.quotas, s.stored) && PendingWithin(s.quotas, s.pending) && ReadingWithin(s.quotas, s.reading)
  }

  /** No admission raises an agent above the ceiling. */
  lemma PerAgentRule(q: Quota, committed: Usage, inFlight: Usage, requested: AgentSpec, oldSpec: Option<AgentSpec>)
    requires Rules(q, committed, inFlight, requested, oldSpec).Admitted?
    ensures || requested.maxReplicas <= q.maxReplicasPerAgent
            || (oldSpec.Some? && oldSpec.value.tenant == requested.tenant && requested.maxReplicas <= oldSpec.value.maxReplicas)
  {
  }

  lemma AdmittedWithin(quotas: Quotas, m: Reservations, now: int, r: Request)
    requires RequestWithin(quotas, r) && Decide(m, now, r).Admitted?
    ensures Within(quotas, r.requested)
  {
    PerAgentRule(r.quota, r.committed, Wrapped(InFlight(m, r.key, now)), r.requested, r.oldSpec);
  }

  lemma StepPending(s: State, a: Action)
    requires PendingWithin(s.quotas, s.pending) && ReadingWithin(s.quotas, s.reading) && Enabled(s, a)
    ensures PendingWithin(s.quotas, Next(s, a).pending)
  {
    if a.Admits? && Decide(s.reservations, s.now, s.reading[a.id]).Admitted? {
      AdmittedWithin(s.quotas, s.reservations, s.now, s.reading[a.id]);
    }
  }

  lemma AdmissionStoresNothing(s: State, a: Action)
    requires Enabled(s, a) && a.Admits?
    ensures Next(s, a).stored == s.stored
  {
    if Decide(s.reservations, s.now, s.reading[a.id]).Admitted? {
      assert Next(s, a) == Holding(Decided(s, a.id), s.reading[a.id]);
    } else {
      assert Next(s, a) == Decided(s, a.id);
    }
  }

  lemma StepStored(s: State, a: Action)
    requires StoredWithin(s.quotas, s.stored) && PendingWithin(s.quotas, s.pending) && Enabled(s, a)
    ensures StoredWithin(s.quotas, Next(s, a).stored)
  {
    if a.Admits? {
      AdmissionStoresNothing(s, a);
    }
  }

  lemma ReadAdds(s: State, a: Action)
    requires StoredWithin(s.quotas, s.stored) && ReadingWithin(s.quotas, s.reading) && Enabled(s, a) && a.Reads?
    ensures ReadingWithin(s.quotas, Next(s, a).reading)
  {
    var t := a.requested.tenant;
    var r := Request(a.key, s.quotas[t], StatusOf(s, t), a.requested, a.oldSpec);
    assert RequestWithin(s.quotas, r) && Next(s, a).reading == s.reading[a.id := r];
  }

  lemma AdmissionRemoves(s: State, a: Action)
    requires Enabled(s, a) && a.Admits?
    ensures Next(s, a).reading == s.reading - {a.id}
  {
    if Decide(s.reservations, s.now, s.reading[a.id]).Admitted? {
      assert Next(s, a) == Holding(Decided(s, a.id), s.reading[a.id]);
    } else {
      assert Next(s, a) == Decided(s, a.id);
    }
  }

  lemma OthersLeave(s: State, a: Action)
    requires Enabled(s, a) && !a.Reads? && !a.Admits?
    ensures Next(s, a).reading == if a.Restarts? then map[] else s.reading
  {
    match a
    case Stores(_) =>
    case Drops(_) =>
    case Deletes(_) =>
    case Lists(_) =>
    case Releases(_, _) =>
    case WritesStatus(_) =>
    case Fails(_) =>
    case Tick(_) =>
    case Sweeps =>
    case Restarts =>
  }

  lemma StepReading(s: State, a: Action)
    requires StoredWithin(s.quotas, s.stored) && ReadingWithin(s.quotas, s.reading) && Enabled(s, a)
    ensures ReadingWithin(s.quotas, Next(s, a).reading)
  {
    if a.Reads? {
      ReadAdds(s, a);
    } else if a.Admits? {
      AdmissionRemoves(s, a);
    } else {
      OthersLeave(s, a);
    }
  }

  lemma StepQuotas(s: State, a: Action)
    requires Enabled(s, a)
    ensures Next(s, a).quotas == s.quotas
  {
    match a
    case Reads(_, _, _, _) =>
    case Admits(_) =>
    case Stores(_) =>
    case Drops(_) =>
    case Deletes(_) =>
    case Lists(_) =>
    case Releases(_, _) =>
    case WritesStatus(_) =>
    case Fails(_) =>
    case Tick(_) =>
    case Sweeps =>
    case Restarts =>
  }

  /**
   In every run, however stale its reads, lost its writes and late its releases, agents that
   respect the ceiling for a single agent at the start always do.
   */
  lemma {:induction false} PerAgentAlways(states: seq<State>, acts: seq<Action>, i: nat)
    requires Run(states, acts) && AllWithin(states[0]) && i < |states|
    ensures AllWithin(states[i])
    decreases i
  {
    if i == 0 {
    } else {
      PerAgentAlways(states, acts, i - 1);
      StepQuotas(states[i - 1], acts[i - 1]);
      StepStored(states[i - 1], acts[i - 1]);
      StepPending(states[i - 1], acts[i - 1]);
      StepReading(states[i - 1], acts[i - 1]);
    }
  }
}
