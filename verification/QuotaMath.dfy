/**
 Quota arithmetic (internal/quota/enforcer.go): GPU counts, deltas, the admission
 rules and recomputed usage, with the source's int32 and int64 widths.
 */
module QuotaMath {
  import opened Options
  import opened Usages

  /** The parts of an AgentDeploymentSpec that quota looks at. */
  datatype AgentDeployment = AgentDeployment(tenant: string, maxReplicas: i32, gpusPerReplica: i64)

  /** An agent as quota charges it; gpus is the count gpusForAD derives from its spec. */
  datatype AgentSpec = AgentSpec(tenant: string, maxReplicas: i32, gpus: i32)

  datatype Quota = Quota(maxAgents: i32, maxGPUs: i32, maxTotalReplicas: i32, maxReplicasPerAgent: i32)

  /** The three summed ceilings as a vector. */
  function Ceiling(q: Quota): Usage {
    Usage(q.maxAgents, q.maxGPUs, q.maxTotalReplicas)
  }

  // ---------------------------------------------------------------------------
  // GPU counts
  // ---------------------------------------------------------------------------

  /** gpusForAD: multiply in int64, clamp to int32, fail closed on negative input. */
  function GpusForAD(ad: AgentDeployment): i32 {
    if ad.gpusPerReplica < 0 || ad.maxReplicas < 0 then MAX32
    else if ad.gpusPerReplica > 0 && ad.maxReplicas > MAX64 / ad.gpusPerReplica then MAX32
    else
      var total := Wrap64(ad.gpusPerReplica * ad.maxReplicas);
      if total > MAX32 then MAX32 else Wrap32(total)
  }

  function Charged(ad: AgentDeployment): AgentSpec {
    AgentSpec(ad.tenant, ad.maxReplicas, GpusForAD(ad))
  }

  function AllCharged(ads: seq<AgentDeployment>): seq<AgentSpec> {
    seq(|ads|, i requires 0 <= i < |ads| => Charged(ads[i]))
  }

  lemma DivisionGuard(a: nat, b: nat, m: nat)
    requires b > 0
    ensures a > m / b ==> a * b > m
    ensures a <= m / b ==> a * b <= m
  {
    var q := m / b;
    assert m == q * b + m % b;
    if a > q {
      assert a * b >= (q + 1) * b;
    } else {
      assert a * b <= q * b;
    }
  }

  /**
   gpusForAD is the saturating product: the overflow test is exact, so the int64
   multiplication never wraps and neither does the final conversion.
   */
  lemma GpusSaturate(ad: AgentDeployment)
    ensures GpusForAD(ad) ==
            if ad.gpusPerReplica < 0 || ad.maxReplicas < 0 || ad.gpusPerReplica * ad.maxReplicas > MAX32 then MAX32
            else ad.gpusPerReplica * ad.maxReplicas
    ensures Charged(ad) == AgentSpec(ad.tenant, ad.maxReplicas, GpusForAD(ad))
    ensures ad.maxReplicas >= 1 ==> ValidSpec(Charged(ad))
  {
    if ad.gpusPerReplica >= 0 && ad.maxReplicas >= 0 {
      var product := ad.gpusPerReplica * ad.maxReplicas;
      if ad.gpusPerReplica > 0 {
        DivisionGuard(ad.maxReplicas, ad.gpusPerReplica, MAX64);
      } else {
        assert product == 0;
      }
      assert product >= 0;
    }
  }

  // ---------------------------------------------------------------------------
  // Usage and deltas
  // ---------------------------------------------------------------------------

  /** What one agent contributes to its tenant's usage. */
  function UsageOf(s: AgentSpec): Usage {
    Usage(1, s.gpus, s.maxReplicas)
  }

  /** The exact usage of a list of agents. */
  function SumUsage(ads: seq<AgentSpec>): Usage {
    if ads == [] then ZERO else Add(SumUsage(ads[..|ads| - 1]), UsageOf(ads[|ads| - 1]))
  }

  /** ComputeUsage: int32 counters in a loop. */
  method ComputeUsage(ads: seq<AgentDeployment>) returns (u: Usage)
    ensures u == Wrapped(SumUsage(AllCharged(ads)))
    ensures Fits(SumUsage(AllCharged(ads))) ==> u == SumUsage(AllCharged(ads))
  {
    u := ZERO;
    ghost var specs := AllCharged(ads);
    for i := 0 to |ads|
      invariant u == Wrapped(SumUsage(specs[..i]))
    {
      ghost var before := SumUsage(specs[..i]);
      assert specs[..i + 1][..i] == specs[..i];
      var spec := Charged(ads[i]);
      WrappedAdd(before, UsageOf(spec));
      u := Usage(Wrap32(u.agents + 1), Wrap32(u.gpus + spec.gpus), Wrap32(u.replicas + spec.maxReplicas));
    }
    assert specs[..|ads|] == specs;
  }

  predicate SameTenantUpdate(requested: AgentSpec, oldSpec: Option<AgentSpec>) {
    oldSpec.Some? && requested.tenant == oldSpec.value.tenant
  }

  function OldMax(oldSpec: Option<AgentSpec>): i32 {
    if oldSpec.None? then 0 else oldSpec.value.maxReplicas
  }

  /** computeDelta: the full agent for a create or a move, the difference for an update. */
  function ComputeDelta(requested: AgentSpec, oldSpec: Option<AgentSpec>): (d: Usage)
    ensures Fits(d)
  {
    if oldSpec.None? || requested.tenant != oldSpec.value.tenant then UsageOf(requested)
    else
      var was := oldSpec.value;
      Usage(0, Wrap32(requested.gpus - was.gpus), Wrap32(requested.maxReplicas - was.maxReplicas))
  }

  /** The CRD schema demands at least one replica; a GPU count is never negative. */
  ghost predicate ValidSpec(s: AgentSpec) {
    s.maxReplicas >= 1 && s.gpus >= 0
  }

  function Subtract(u: Usage, v: Usage): Usage {
    Usage(u.agents - v.agents, u.gpus - v.gpus, u.replicas - v.replicas)
  }

  /** On valid specs no delta wraps: an update's delta is the exact difference of usages. */
  lemma DeltaExact(requested: AgentSpec, oldSpec: Option<AgentSpec>)
    requires ValidSpec(requested) && (oldSpec.Some? ==> ValidSpec(oldSpec.value))
    ensures ComputeDelta(requested, oldSpec) ==
            if SameTenantUpdate(requested, oldSpec) then Subtract(UsageOf(requested), UsageOf(oldSpec.value))
            else UsageOf(requested)
  {
  }

  lemma {:induction false} SumAppend(a: seq<AgentSpec>, b: seq<AgentSpec>)
    ensures SumUsage(a + b) == Add(SumUsage(a), SumUsage(b))
    decreases |b|
  {
    if b == [] {
      assert a + b == a;
    } else {
      var b', last := b[..|b| - 1], UsageOf(b[|b| - 1]);
      SumAppend(a, b');
      assert (a + b)[..|a + b| - 1] == a + b' && (a + b)[|a + b| - 1] == b[|b| - 1];
      assert SumUsage(a + b) == Add(SumUsage(a + b'), last);
      AddAssociative(SumUsage(a), SumUsage(b'), last);
    }
  }

  lemma SumOne(s: AgentSpec)
    ensures SumUsage([s]) == UsageOf(s)
  {
    assert [s][..0] == [];
  }

  lemma SumReplace(before: seq<AgentSpec>, s: AgentSpec, after: seq<AgentSpec>)
    ensures SumUsage(before + [s]) == Add(SumUsage(before), UsageOf(s))
    ensures SumUsage(before + [s] + after) == Add(SumUsage(before + after), UsageOf(s))
  {
    SumOne(s);
    SumAppend(before, [s]);
    SumAppend(before + [s], after);
    SumAppend(before, after);
  }

  /**
   The delta refines recomputation: admitting a create or a move adds exactly the
   delta to the tenant's recomputed usage, and so does an update in place; a move
   takes exactly the old agent's usage off the tenant it leaves.
   */
  lemma DeltaRefinesRecomputation(before: seq<AgentSpec>, oldSpec: AgentSpec, after: seq<AgentSpec>, requested: AgentSpec)
    requires ValidSpec(requested) && ValidSpec(oldSpec)
    ensures SumUsage(before + [requested]) == Add(SumUsage(before), ComputeDelta(requested, None))
    ensures requested.tenant == oldSpec.tenant ==>
              SumUsage(before + [requested] + after) ==
              Add(SumUsage(before + [oldSpec] + after), ComputeDelta(requested, Some(oldSpec)))
    ensures requested.tenant != oldSpec.tenant ==>
              && SumUsage(before + [requested]) == Add(SumUsage(before), ComputeDelta(requested, Some(oldSpec)))
              && SumUsage(before + after) == Subtract(SumUsage(before + [oldSpec] + after), UsageOf(oldSpec))
  {
    DeltaExact(requested, None);
    DeltaExact(requested, Some(oldSpec));
    SumReplace(before, requested, after);
    SumReplace(before, oldSpec, after);
  }

  // ---------------------------------------------------------------------------
  // The admission rules
  // ---------------------------------------------------------------------------

  datatype Decision = Admitted | GPUOverflow | OverAgents | OverGPUs | OverReplicas | OverPerAgent

  /** evalQuotaRules: the first violated limit, with int64 projections that cannot overflow. */
  function EvalQuotaRules(q: Quota, committed: Usage, inFlight: Usage, delta: Usage,
                          requestedMax: i32, isUpdate: bool, prevMax: i32): Decision {
    if delta.gpus == MAX32 then GPUOverflow
    else if committed.agents + inFlight.agents + delta.agents > q.maxAgents && (!isUpdate || delta.agents > 0)
    then OverAgents
    else if committed.gpus + inFlight.gpus + delta.gpus > q.maxGPUs && (!isUpdate || delta.gpus > 0)
    then OverGPUs
    else if committed.replicas + inFlight.replicas + delta.replicas > q.maxTotalReplicas && (!isUpdate || delta.replicas > 0)
    then OverReplicas
    else if requestedMax > q.maxReplicasPerAgent && (!isUpdate || requestedMax > prevMax)
    then OverPerAgent
    else Admitted
  }

  /** The rules applied to one request against given in-flight totals. */
  function Rules(q: Quota, committed: Usage, inFlight: Usage, requested: AgentSpec, oldSpec: Option<AgentSpec>): Decision {
    EvalQuotaRules(q, committed, inFlight, ComputeDelta(requested, oldSpec), requested.maxReplicas,
                   SameTenantUpdate(requested, oldSpec), OldMax(oldSpec))
  }

  /** IsOverQuota. */
  predicate OverQuota(q: Quota, usage: Usage) {
    !Leq(usage, Ceiling(q))
  }

  /** A dimension is either within its ceiling or no larger than it was. */
  predicate NotWorse(was: int, now: int, ceiling: int) {
    now <= ceiling || now <= was
  }

  /** Componentwise NotWorse. */
  predicate Improves(was: Usage, now: Usage, ceiling: Usage) {
    && NotWorse(was.agents, now.agents, ceiling.agents)
    && NotWorse(was.gpus, now.gpus, ceiling.gpus)
    && NotWorse(was.replicas, now.replicas, ceiling.replicas)
  }

  /** The rules on plain vectors: a create or a move is within the ceilings once admitted. */
  lemma RulesCreate(q: Quota, committed: Usage, inFlight: Usage, requested: AgentSpec, oldSpec: Option<AgentSpec>)
    requires NonNegative(inFlight) && !SameTenantUpdate(requested, oldSpec)
    requires Rules(q, committed, inFlight, requested, oldSpec).Admitted?
    ensures Leq(Add(committed, UsageOf(requested)), Ceiling(q))
  {
  }

  /** An update worsens no dimension over its ceiling once admitted, and is admitted if it raises nothing. */
  lemma RulesUpdate(q: Quota, was: Usage, inFlight: Usage, requested: AgentSpec, oldSpec: AgentSpec, delta: Usage)
    requires NonNegative(inFlight) && requested.tenant == oldSpec.tenant && delta == ComputeDelta(requested, Some(oldSpec))
    requires delta == Subtract(UsageOf(requested), UsageOf(oldSpec))
    ensures Rules(q, was, inFlight, requested, Some(oldSpec)).Admitted? ==> Improves(was, Add(was, delta), Ceiling(q))
    ensures Leq(UsageOf(requested), UsageOf(oldSpec)) ==> Rules(q, was, inFlight, requested, Some(oldSpec)).Admitted?
  {
  }

  /** One dimension of the rules: within its ceiling beside everything else, or not raised at all. */
  predicate FitsOrStays(was: int, now: int, others: int, ceiling: int) {
    others + now - was <= ceiling || now <= was
  }

  /**
   Exactly when a create or a move is admitted: its GPU count is a number, and every
   dimension fits beside what is committed and in flight, and so does the agent by itself.
   */
  lemma CreateAdmittedIff(q: Quota, committed: Usage, inFlight: Usage, requested: AgentSpec, oldSpec: Option<AgentSpec>)
    requires oldSpec.None? || oldSpec.value.tenant != requested.tenant
    ensures Rules(q, committed, inFlight, requested, oldSpec).Admitted? <==>
            && requested.gpus != MAX32
            && committed.agents + inFlight.agents + 1 <= q.maxAgents
            && committed.gpus + inFlight.gpus + requested.gpus <= q.maxGPUs
            && committed.replicas + inFlight.replicas + requested.maxReplicas <= q.maxTotalReplicas
            && requested.maxReplicas <= q.maxReplicasPerAgent
  {
  }

  /**
   Exactly when an update is admitted: what it raises fits, the GPUs and replicas beside
   what is committed and in flight, and the replicas the agent's own ceiling. The number of
   agents plays no part.
   */
  lemma UpdateAdmittedIff(q: Quota, committed: Usage, inFlight: Usage, requested: AgentSpec, oldSpec: AgentSpec)
    requires ValidSpec(requested) && ValidSpec(oldSpec) && requested.tenant == oldSpec.tenant
    ensures Rules(q, committed, inFlight, requested, Some(oldSpec)).Admitted? <==>
            && requested.gpus - oldSpec.gpus != MAX32
            && FitsOrStays(oldSpec.gpus, requested.gpus, committed.gpus + inFlight.gpus, q.maxGPUs)
            && FitsOrStays(oldSpec.maxReplicas, requested.maxReplicas, committed.replicas + inFlight.replicas,
                           q.maxTotalReplicas)
            && (requested.maxReplicas <= q.maxReplicasPerAgent || requested.maxReplicas <= oldSpec.maxReplicas)
  {
    DeltaExact(requested, Some(oldSpec));
  }

  /** A refusal names the first limit the request would break. */
  lemma RefusalNames(q: Quota, committed: Usage, inFlight: Usage, requested: AgentSpec, oldSpec: Option<AgentSpec>)
    ensures var d, sum := Rules(q, committed, inFlight, requested, oldSpec),
                          Add(Add(committed, inFlight), ComputeDelta(requested, oldSpec));
            && (d == OverAgents ==> sum.agents > q.maxAgents)
            && (d == OverGPUs ==> sum.gpus > q.maxGPUs)
            && (d == OverReplicas ==> sum.replicas > q.maxTotalReplicas)
            && (d == OverPerAgent ==> requested.maxReplicas > q.maxReplicasPerAgent)
            && (!SameTenantUpdate(requested, oldSpec) ==>
                  && (d in {OverGPUs, OverReplicas, OverPerAgent} ==> sum.agents <= q.maxAgents)
                  && (d in {OverReplicas, OverPerAgent} ==> sum.gpus <= q.maxGPUs)
                  && (d == OverPerAgent ==> sum.replicas <= q.maxTotalReplicas))
  {
  }

  /** With a fresh status an admitted create or move leaves the tenant within quota. */
  lemma CreateSound(q: Quota, before: seq<AgentSpec>, requested: AgentSpec, oldSpec: Option<AgentSpec>, inFlight: Usage)
    requires NonNegative(inFlight) && !SameTenantUpdate(requested, oldSpec)
    requires Rules(q, SumUsage(before), inFlight, requested, oldSpec).Admitted?
    ensures !OverQuota(q, SumUsage(before + [requested]))
  {
    RulesCreate(q, SumUsage(before), inFlight, requested, oldSpec);
    SumReplace(before, requested, []);
  }

  /** With a fresh status an admitted update worsens nothing, and one that raises nothing is admitted. */
  lemma UpdateSound(q: Quota, before: seq<AgentSpec>, oldSpec: AgentSpec, after: seq<AgentSpec>, requested: AgentSpec,
                    inFlight: Usage)
    requires ValidSpec(requested) && ValidSpec(oldSpec) && NonNegative(inFlight) && requested.tenant == oldSpec.tenant
    ensures var was, now := SumUsage(before + [oldSpec] + after), SumUsage(before + [requested] + after);
            && (Rules(q, was, inFlight, requested, Some(oldSpec)).Admitted? ==> Improves(was, now, Ceiling(q)))
            && (Leq(UsageOf(requested), UsageOf(oldSpec)) ==> Rules(q, was, inFlight, requested, Some(oldSpec)).Admitted?)
  {
    DeltaExact(requested, Some(oldSpec));
    DeltaRefinesRecomputation(before, oldSpec, after, requested);
    RulesUpdate(q, SumUsage(before + [oldSpec] + after), inFlight, requested, oldSpec, ComputeDelta(requested, Some(oldSpec)));
  }
}
