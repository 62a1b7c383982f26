/**
 None of the hypotheses of the stored-object barrier can be dropped: for each of them
 there is a run that respects all the others and ends over quota.
 */
module QuotaStoredWitness {
  import opened Options
  import opened Usages
  import opened QuotaMath
  import opened QuotaEnforcer
  import opened QuotaStored
  import opened QuotaStoredBarrier

  datatype Hypothesis =
    | StaleStatus | UnbackedAdmission | UncountedExpiry | Readmission
    | UncountedRelease | Credit | LostWrite | UncountedRestart

  ghost predicate Holds(h: Hypothesis, s: State, a: Action) {
    match h
    case StaleStatus => NoStaleStatus(s, a)
    case UnbackedAdmission => NoUnbackedAdmission(s, a)
    case UncountedExpiry => NoUncountedExpiry(s, a)
    case Readmission => NoReadmission(s, a)
    case UncountedRelease => NoUncountedRelease(s, a)
    case Credit => NoCredit(s, a)
    case LostWrite => NoLostWrite(s, a)
    case UncountedRestart => NoUncountedRestart(s, a)
  }

  /** The hypotheses together are what the barrier assumes. */
  lemma HypothesesAreCareful(s: State, a: Action)
    ensures Careful(s, a) <==> forall h :: Holds(h, s, a)
  {
    assert Holds(StaleStatus, s, a) <==> NoStaleStatus(s, a);
    assert Holds(UnbackedAdmission, s, a) <==> NoUnbackedAdmission(s, a);
    assert Holds(UncountedExpiry, s, a) <==> NoUncountedExpiry(s, a);
    assert Holds(Readmission, s, a) <==> NoReadmission(s, a);
    assert Holds(UncountedRelease, s, a) <==> NoUncountedRelease(s, a);
    assert Holds(Credit, s, a) <==> NoCredit(s, a);
    assert Holds(LostWrite, s, a) <==> NoLostWrite(s, a);
    assert Holds(UncountedRestart, s, a) <==> NoUncountedRestart(s, a);
  }

  ghost predicate RespectsOthers(dropped: Hypothesis, s: State, a: Action) {
    forall h :: h != dropped ==> Holds(h, s, a)
  }

  /** The actions lead from s to s', every step respecting every hypothesis but one. */
  ghost predicate ReachesWithout(dropped: Hypothesis, s: State, acts: seq<Action>, s': State)
    decreases |acts|
  {
    if acts == [] then s == s'
    else
      && Enabled(s, acts[0])
      && RespectsOthers(dropped, s, acts[0])
      && ReachesWithout(dropped, Next(s, acts[0]), acts[1..], s')
  }

  lemma {:induction false} Join(dropped: Hypothesis, s: State, first: seq<Action>, mid: State, rest: seq<Action>, s': State)
    requires ReachesWithout(dropped, s, first, mid) && ReachesWithout(dropped, mid, rest, s')
    ensures ReachesWithout(dropped, s, first + rest, s')
    decreases |first|
  {
    if first == [] {
      assert first + rest == rest;
    } else {
      Join(dropped, Next(s, first[0]), first[1..], mid, rest, s');
      assert (first + rest)[1..] == first[1..] + rest;
    }
  }

  lemma OneStep(dropped: Hypothesis, s: State, a: Action, s': State)
    requires Enabled(s, a) && RespectsOthers(dropped, s, a) && Next(s, a) == s'
    ensures ReachesWithout(dropped, s, [a], s')
  {
    assert [a][1..] == [];
  }

  /** A run that starts well and has come to s. */
  ghost predicate Came(dropped: Hypothesis, start: State, acts: seq<Action>, s: State) {
    Initial(start) && ReachesWithout(dropped, start, acts, s)
  }

  /** One more step. */
  lemma Then(dropped: Hypothesis, start: State, first: seq<Action>, s: State, a: Action) returns (acts: seq<Action>)
    requires Came(dropped, start, first, s) && Enabled(s, a) && RespectsOthers(dropped, s, a)
    ensures Came(dropped, start, acts, Next(s, a))
  {
    OneStep(dropped, s, a, Next(s, a));
    Join(dropped, start, first, s, [a], Next(s, a));
    acts := first + [a];
  }

  /** Over quota at the end of a run that respects all hypotheses but one. */
  ghost predicate BreaksBarrier(dropped: Hypothesis, t: string, start: State, acts: seq<Action>, s: State) {
    Came(dropped, start, acts, s) && t in s.quotas && OverQuota(s.quotas[t], Total(StoredUsage(s, t)))
  }

  /** An agent of tenant t without GPUs. */
  ghost predicate Plain(spec: AgentSpec, t: string, replicas: i32) {
    spec.tenant == t && spec.maxReplicas == replicas && spec.gpus == 0 && replicas >= 1
  }

  lemma TotalOne(k: string, u: Usage)
    ensures Total(map[k := u]) == u
  {
    var none: map<string, Usage> := map[];
    TotalUpdate(none, k, u);
    assert none - {k} == none && none[k := u] == map[k := u];
    assert Add(u, ZERO) == u;
  }

  lemma TotalTwo(a: string, u: Usage, b: string, v: Usage)
    requires a != b
    ensures Total(map[a := u, b := v]) == Add(v, u)
  {
    TotalUpdate(map[a := u], b, v);
    assert map[a := u][b := v] == map[a := u, b := v] && map[a := u] - {b} == map[a := u];
    TotalOne(a, u);
  }

  lemma NothingElse(m: Reservations, key: string, now: int)
    requires forall k :: k in m && k != key ==> Expired(m[k], now)
    ensures InFlight(m, key, now) == ZERO
  {
    assert LiveCharges(m, key, now) == map[];
  }

  lemma OnlyOther(m: Reservations, key: string, other: string, now: int)
    requires key != other && m.Keys == {other} && !Expired(m[other], now)
    ensures InFlight(m, key, now) == m[other].charge
  {
    assert LiveCharges(m, key, now) == map[other := m[other].charge];
    TotalOne(other, m[other].charge);
  }

  /** With two agents stored for the tenant, its usage is the sum of the two. */
  lemma TwoStored(s: State, t: string, ka: string, a: AgentSpec, kb: string, b: AgentSpec)
    requires s.stored == map[ka := a][kb := b] && ka != kb && a.tenant == t && b.tenant == t
    ensures Total(StoredUsage(s, t)) == Add(UsageOf(b), UsageOf(a))
  {
    var u, v, m := UsageOf(a), UsageOf(b), StoredUsage(s, t);
    assert m.Keys == {ka, kb};
    assert m == map[ka := u, kb := v];
    TotalTwo(ka, u, kb, v);
  }

  // ---------------------------------------------------------------------------
  // Requests
  // ---------------------------------------------------------------------------

  /** The hypotheses that speak of admissions, but for one. */
  ghost predicate AdmitsRespecting(dropped: Hypothesis, s: State, r: Request) {
    var t := r.requested.tenant;
    && (dropped.StaleStatus? || (t in s.counted ==> Leq(StatusOf(s, t), r.committed)))
    && (dropped.UnbackedAdmission? || t !in s.listings)
    && (dropped.Readmission? || Settled(s, r.key))
    && (dropped.Credit? || NonNegative(Delta(r)))
  }

  lemma AdmitRespects(dropped: Hypothesis, s: State, id: nat)
    requires id in s.reading && AdmitsRespecting(dropped, s, s.reading[id])
    ensures RespectsOthers(dropped, s, Admits(id))
  {
  }

  /** A request whose delta fits beside what it read and what is in flight. */
  ghost predicate FitsNow(s: State, r: Request, delta: Usage, inFlight: Usage) {
    && delta == Delta(r) && delta.gpus == 0 && r.requested.maxReplicas <= r.quota.maxReplicasPerAgent
    && InFlight(s.reservations, r.key, s.now) == inFlight && Fits(inFlight)
    && Leq(Add(Add(r.committed, inFlight), delta), Ceiling(r.quota))
  }

  lemma FittingAdmitted(s: State, r: Request, delta: Usage, inFlight: Usage)
    requires FitsNow(s, r, delta, inFlight)
    ensures Decide(s.reservations, s.now, r).Admitted?
  {
  }

  /** A request that fits is admitted. */
  lemma AdmitStep(dropped: Hypothesis, s: State, id: nat, r: Request, delta: Usage, inFlight: Usage)
    requires id in s.reading && s.reading[id] == r && FitsNow(s, r, delta, inFlight) && AdmitsRespecting(dropped, s, r)
    ensures Enabled(s, Admits(id)) && RespectsOthers(dropped, s, Admits(id))
    ensures Next(s, Admits(id)) == Holding(Decided(s, id), r)
  {
    FittingAdmitted(s, r, delta, inFlight);
    AdmitRespects(dropped, s, id);
  }

  ghost function Storing(s: State, key: string): State
    requires key in s.pending
  {
    s.(stored := s.stored[key := s.pending[key].requested], pending := s.pending - {key})
  }

  /** A request for a new agent that has read its quota is admitted and stored. */
  lemma CreateSteps(dropped: Hypothesis, start: State, first: seq<Action>, s: State, id: nat, r: Request, replicas: i32,
                    inFlight: Usage) returns (acts: seq<Action>, s': State)
    requires Came(dropped, start, first, s) && id in s.reading && s.reading[id] == r && r.oldSpec.None?
    requires Plain(r.requested, r.requested.tenant, replicas) && r.key !in s.stored
    requires FitsNow(s, r, Usage(1, 0, replicas), inFlight) && AdmitsRespecting(dropped, s, r)
    ensures Came(dropped, start, acts, s') && s' == Storing(Holding(Decided(s, id), r), r.key)
  {
    AdmitStep(dropped, s, id, r, Usage(1, 0, replicas), inFlight);
    acts := Then(dropped, start, first, s, Admits(id));
    var held := Holding(Decided(s, id), r);
    s' := Storing(held, r.key);
    acts := Then(dropped, start, acts, held, Stores(r.key));
  }

  /** One agent stored, and a second one's request as the run has left it. */
  ghost predicate Ready(dropped: Hypothesis, s: State, t: string, ka: string, a: AgentSpec, id: nat, r: Request) {
    && s.stored == map[ka := a] && a.tenant == t && r.requested.tenant == t && r.key != ka && r.oldSpec.None?
    && id in s.reading && s.reading[id] == r && t in s.quotas && s.quotas[t] == r.quota && r.key !in s.pending
    && t in s.counted && (dropped.StaleStatus? || Leq(StatusOf(s, t), r.committed))
    && (dropped.UnbackedAdmission? || t !in s.listings)
  }

  /** With one agent stored but no longer charged in full, a second one gets in. */
  lemma SecondAgent(dropped: Hypothesis, start: State, first: seq<Action>, s: State, t: string, ka: string, a: AgentSpec,
                    na: i32, id: nat, r: Request, nb: i32, inFlight: Usage) returns (acts: seq<Action>, s': State)
    requires Came(dropped, start, first, s) && Ready(dropped, s, t, ka, a, id, r)
    requires Plain(a, t, na) && Plain(r.requested, t, nb) && FitsNow(s, r, Usage(1, 0, nb), inFlight)
    requires !Leq(Usage(2, 0, na + nb), Ceiling(r.quota))
    ensures BreaksBarrier(dropped, t, start, acts, s')
  {
    acts, s' := CreateSteps(dropped, start, first, s, id, r, nb, inFlight);
    TwoStored(s', t, ka, a, r.key, r.requested);
  }

  /** The tenant's quota and the total its status shows. */
  ghost predicate Shows(s: State, t: string, q: Quota, status: Usage) {
    t in s.quotas && s.quotas[t] == q && t in s.counted && Total(s.counted[t]) == status && Fits(status)
  }

  /** A create that reads the status now. */
  lemma ReadStep(dropped: Hypothesis, start: State, first: seq<Action>, s: State, id: nat, key: string, spec: AgentSpec,
                 oldSpec: Option<AgentSpec>, q: Quota, status: Usage) returns (acts: seq<Action>, s': State)
    requires Came(dropped, start, first, s) && id !in s.reading && ValidSpec(spec) && Shows(s, spec.tenant, q, status)
    requires oldSpec.None? || oldSpec == Lookup(s.stored, key)
    ensures Came(dropped, start, acts, s')
    ensures s' == s.(reading := s.reading[id := Request(key, q, status, spec, oldSpec)])
  {
    var a := Reads(id, key, spec, oldSpec);
    acts := Then(dropped, start, first, s, a);
    s' := Next(s, a);
  }

  /** One agent stored, and what a new request of the same tenant will find. */
  ghost predicate Lenient(dropped: Hypothesis, s: State, t: string, ka: string, a: AgentSpec, kb: string, q: Quota,
                          status: Usage, inFlight: Usage) {
    && s.stored == map[ka := a] && a.tenant == t && kb != ka && kb !in s.pending && 1 !in s.reading
    && Shows(s, t, q, status) && InFlight(s.reservations, kb, s.now) == inFlight && Fits(inFlight)
    && (dropped.UnbackedAdmission? || t !in s.listings)
  }

  lemma Finish(dropped: Hypothesis, start: State, first: seq<Action>, s: State, t: string, ka: string, a: AgentSpec, na: i32,
               kb: string, b: AgentSpec, nb: i32, q: Quota, status: Usage, inFlight: Usage)
    returns (acts: seq<Action>, s': State)
    requires Came(dropped, start, first, s) && Lenient(dropped, s, t, ka, a, kb, q, status, inFlight)
    requires Plain(a, t, na) && Plain(b, t, nb) && nb <= q.maxReplicasPerAgent
    requires Leq(Add(Add(status, inFlight), Usage(1, 0, nb)), Ceiling(q)) && !Leq(Usage(2, 0, na + nb), Ceiling(q))
    ensures BreaksBarrier(dropped, t, start, acts, s')
  {
    var r := Request(kb, q, status, b, None);
    acts, s' := ReadStep(dropped, start, first, s, 1, kb, b, None, q, status);
    acts, s' := SecondAgent(dropped, start, acts, s', t, ka, a, na, 1, r, nb, inFlight);
  }

  /** Replica counts that fit the quota one agent at a time, but not together. */
  ghost predicate OneAtATime(q: Quota, na: i32, nb: i32) {
    && 1 <= na <= q.maxReplicasPerAgent && 1 <= nb <= q.maxReplicasPerAgent
    && Leq(Usage(1, 0, na), Ceiling(q)) && Leq(Usage(1, 0, nb), Ceiling(q)) && !Leq(Usage(2, 0, na + nb), Ceiling(q))
  }

  // ---------------------------------------------------------------------------
  // Runs that start with nothing stored
  // ---------------------------------------------------------------------------

  ghost predicate Quiet(s: State) {
    s.pending == map[] && s.listings == map[] && s.now == 0 && s.reservations == map[]
  }

  /** Nothing stored, nothing counted. */
  ghost predicate Empty(s: State, t: string, q: Quota) {
    Quiet(s) && s.stored == map[] && t in s.quotas && s.quotas[t] == q && t in s.counted && s.counted[t] == map[]
  }

  lemma EmptyTenant(dropped: Hypothesis, t: string, q: Quota) returns (s: State)
    requires NonNegative(Ceiling(q))
    ensures Came(dropped, s, [], s) && Empty(s, t, q) && s.reading == map[]
  {
    s := State(map[], map[], map[], map[], map[], map[t := map[]], map[], map[t := q], 0);
    assert StoredUsage(s, t) == map[];
  }

  /** The only agent is stored under ka, holds this charge and is not counted. */
  ghost predicate HasOne(s: State, t: string, ka: string, a: AgentSpec, charge: Usage, q: Quota) {
    && s.stored == map[ka := a] && s.pending == map[] && s.listings == map[] && s.now == 0
    && s.reservations == map[ka := Entry(charge, RESERVATION_TTL)]
    && t in s.quotas && s.quotas[t] == q && t in s.counted && s.counted[t] == map[]
  }

  lemma StoringOne(s: State, t: string, ka: string, a: AgentSpec, q: Quota, r: Request)
    requires Empty(s, t, q) && r.key == ka && r.requested == a
    ensures HasOne(Storing(Holding(Decided(s, 0), r), ka), t, ka, a, Delta(r), q)
  {
  }

  /** A first agent is admitted and stored where there is room for it. */
  lemma FirstAgent(dropped: Hypothesis, start: State, first: seq<Action>, s: State, q: Quota, t: string, ka: string,
                   a: AgentSpec, n: i32) returns (acts: seq<Action>, s': State)
    requires Came(dropped, start, first, s) && Empty(s, t, q) && 0 !in s.reading
    requires Plain(a, t, n) && n <= q.maxReplicasPerAgent && Leq(Usage(1, 0, n), Ceiling(q))
    ensures Came(dropped, start, acts, s') && HasOne(s', t, ka, a, Usage(1, 0, n), q) && s'.reading == s.reading
  {
    var r := Request(ka, q, ZERO, a, None);
    acts, s' := ReadStep(dropped, start, first, s, 0, ka, a, None, q, ZERO);
    CreateFits(s', r, n);
    StoringOne(s', t, ka, a, q, r);
    var read := s';
    acts, s' := CreateSteps(dropped, start, acts, read, 0, r, n, ZERO);
    assert read.reading - {0} == s.reading;
  }

  /** The reservation of a stored agent expires before a status counts it. */
  lemma ExpireOne(s: State, t: string, ka: string, a: AgentSpec, charge: Usage, q: Quota, kb: string)
    requires HasOne(s, t, ka, a, charge, q) && a.tenant == t && ka != kb && s.reading == map[]
    ensures Enabled(s, Tick(RESERVATION_TTL + 1)) && RespectsOthers(UncountedExpiry, s, Tick(RESERVATION_TTL + 1))
    ensures Lenient(UncountedExpiry, Next(s, Tick(RESERVATION_TTL + 1)), t, ka, a, kb, q, ZERO, ZERO)
  {
    NothingElse(s.reservations, kb, RESERVATION_TTL + 1);
  }

  lemma ExpiredRun(q: Quota, t: string, ka: string, a: AgentSpec, na: i32, kb: string, b: AgentSpec, nb: i32)
    returns (start: State, acts: seq<Action>, s: State)
    requires ka != kb && Plain(a, t, na) && Plain(b, t, nb) && OneAtATime(q, na, nb)
    ensures BreaksBarrier(UncountedExpiry, t, start, acts, s)
  {
    var h, tick := UncountedExpiry, Tick(RESERVATION_TTL + 1);
    start := EmptyTenant(h, t, q);
    acts, s := FirstAgent(h, start, [], start, q, t, ka, a, na);
    ExpireOne(s, t, ka, a, Usage(1, 0, na), q, kb);
    acts := Then(h, start, acts, s, tick);
    acts, s := Finish(h, start, acts, Next(s, tick), t, ka, a, na, kb, b, nb, q, ZERO, ZERO);
  }

  lemma RestartOne(s: State, t: string, ka: string, a: AgentSpec, charge: Usage, q: Quota, kb: string)
    requires HasOne(s, t, ka, a, charge, q) && a.tenant == t && ka != kb
    ensures RespectsOthers(UncountedRestart, s, Restarts)
    ensures Lenient(UncountedRestart, Next(s, Restarts), t, ka, a, kb, q, ZERO, ZERO)
  {
    NothingElse(map[], kb, s.now);
  }

  /** The operator restarts, and its reservations with it, before a status counts the agent. */
  lemma RestartedRun(q: Quota, t: string, ka: string, a: AgentSpec, na: i32, kb: string, b: AgentSpec, nb: i32)
    returns (start: State, acts: seq<Action>, s: State)
    requires ka != kb && Plain(a, t, na) && Plain(b, t, nb) && OneAtATime(q, na, nb)
    ensures BreaksBarrier(UncountedRestart, t, start, acts, s)
  {
    var h := UncountedRestart;
    start := EmptyTenant(h, t, q);
    acts, s := FirstAgent(h, start, [], start, q, t, ka, a, na);
    RestartOne(s, t, ka, a, Usage(1, 0, na), q, kb);
    acts := Then(h, start, acts, s, Restarts);
    acts, s := Finish(h, start, acts, Next(s, Restarts), t, ka, a, na, kb, b, nb, q, ZERO, ZERO);
  }

  /** Re-admitting the agent unchanged: its delta of zero replaces its charge. */
  lemma ReadmitOne(s: State, t: string, ka: string, a: AgentSpec, n: i32, charge: Usage, q: Quota, kb: string, r: Request)
    requires HasOne(s, t, ka, a, charge, q) && Plain(a, t, n) && ka != kb && n <= q.maxReplicasPerAgent
    requires NonNegative(Ceiling(q)) && r == Request(ka, q, ZERO, a, Some(a))
    requires s.reading == map[0 := r]
    ensures Enabled(s, Admits(0)) && RespectsOthers(Readmission, s, Admits(0))
    ensures Lenient(Readmission, Next(s, Admits(0)), t, ka, a, kb, q, ZERO, ZERO)
  {
    NothingElse(s.reservations, ka, 0);
    assert Delta(r) == ZERO;
    AdmitStep(Readmission, s, 0, r, ZERO, ZERO);
    OnlyOther(Holding(Decided(s, 0), r).reservations, kb, ka, 0);
  }

  /** The only agent is stored, and an update that leaves it as it is has read the status. */
  lemma ReadUnchanged(start: State, q: Quota, t: string, ka: string, a: AgentSpec, n: i32)
    returns (acts: seq<Action>, s: State)
    requires Came(Readmission, start, [], start) && Empty(start, t, q) && start.reading == map[]
    requires Plain(a, t, n) && n <= q.maxReplicasPerAgent && Leq(Usage(1, 0, n), Ceiling(q))
    ensures Came(Readmission, start, acts, s) && HasOne(s, t, ka, a, Usage(1, 0, n), q)
    ensures s.reading == map[0 := Request(ka, q, ZERO, a, Some(a))]
  {
    acts, s := FirstAgent(Readmission, start, [], start, q, t, ka, a, n);
    acts, s := ReadStep(Readmission, start, acts, s, 0, ka, a, Some(a), q, ZERO);
  }

  lemma ReadmitStep(start: State, first: seq<Action>, s: State, q: Quota, t: string, ka: string, a: AgentSpec, n: i32,
                    kb: string) returns (acts: seq<Action>, s': State)
    requires Came(Readmission, start, first, s) && HasOne(s, t, ka, a, Usage(1, 0, n), q) && ka != kb
    requires Plain(a, t, n) && n <= q.maxReplicasPerAgent && NonNegative(Ceiling(q))
    requires s.reading == map[0 := Request(ka, q, ZERO, a, Some(a))]
    ensures Came(Readmission, start, acts, s') && Lenient(Readmission, s', t, ka, a, kb, q, ZERO, ZERO)
  {
    ReadmitOne(s, t, ka, a, n, Usage(1, 0, n), q, kb, Request(ka, q, ZERO, a, Some(a)));
    acts := Then(Readmission, start, first, s, Admits(0));
    s' := Next(s, Admits(0));
  }

  lemma ReadmittedRun(q: Quota, t: string, ka: string, a: AgentSpec, na: i32, kb: string, b: AgentSpec, nb: i32)
    returns (start: State, acts: seq<Action>, s: State)
    requires ka != kb && Plain(a, t, na) && Plain(b, t, nb) && OneAtATime(q, na, nb)
    ensures BreaksBarrier(Readmission, t, start, acts, s)
  {
    var h := Readmission;
    start := EmptyTenant(h, t, q);
    acts, s := ReadUnchanged(start, q, t, ka, a, na);
    acts, s := ReadmitStep(start, acts, s, q, t, ka, a, na, kb);
    acts, s := Finish(h, start, acts, s, t, ka, a, na, kb, b, nb, q, ZERO, ZERO);
  }

  /** The only agent is listed and its reservation released; the status write is still to come. */
  ghost predicate ReleasedOne(s: State, t: string, ka: string, a: AgentSpec, n: i32, q: Quota) {
    && s.stored == map[ka := a] && s.pending == map[] && s.now == 0 && s.reservations == map[]
    && t in s.quotas && s.quotas[t] == q && t in s.counted && s.counted[t] == map[]
    && s.listings == map[t := Listing(map[ka := Usage(1, 0, n)], {})]
  }

  lemma ListOne(dropped: Hypothesis, s: State, t: string, ka: string, a: AgentSpec, n: i32, q: Quota)
    requires HasOne(s, t, ka, a, Usage(1, 0, n), q) && Plain(a, t, n)
    ensures Enabled(s, Lists(t)) && RespectsOthers(dropped, s, Lists(t))
    ensures Next(s, Lists(t)) == s.(listings := map[t := Listing(map[ka := Usage(1, 0, n)], {ka})])
  {
    assert StoredUsage(s, t) == map[ka := Usage(1, 0, n)];
    assert StoredUsage(s, t).Keys == {ka};
  }

  lemma ReleaseOne(dropped: Hypothesis, s: State, t: string, ka: string, a: AgentSpec, n: i32, q: Quota)
    requires HasOne(s, t, ka, a, Usage(1, 0, n), q) && Plain(a, t, n)
    ensures var listed := s.(listings := map[t := Listing(map[ka := Usage(1, 0, n)], {ka})]);
            && Enabled(listed, Releases(t, ka)) && RespectsOthers(dropped, listed, Releases(t, ka))
            && ReleasedOne(Next(listed, Releases(t, ka)), t, ka, a, n, q)
            && Next(listed, Releases(t, ka)).reading == s.reading
  {
    var listed := s.(listings := map[t := Listing(map[ka := Usage(1, 0, n)], {ka})]);
    assert Settled(listed, ka);
    var s' := Next(listed, Releases(t, ka));
    assert s'.reservations == map[] && s'.listings[t].unreleased == {};
  }

  lemma ListAndRelease(dropped: Hypothesis, start: State, first: seq<Action>, s: State, t: string, ka: string, a: AgentSpec,
                       n: i32, q: Quota) returns (acts: seq<Action>, s': State)
    requires Came(dropped, start, first, s) && HasOne(s, t, ka, a, Usage(1, 0, n), q) && Plain(a, t, n)
    ensures Came(dropped, start, acts, s') && ReleasedOne(s', t, ka, a, n, q) && s'.reading == s.reading
  {
    ListOne(dropped, s, t, ka, a, n, q);
    ReleaseOne(dropped, s, t, ka, a, n, q);
    acts := Then(dropped, start, first, s, Lists(t));
    var listed := Next(s, Lists(t));
    acts := Then(dropped, start, acts, listed, Releases(t, ka));
    s' := Next(listed, Releases(t, ka));
  }

  lemma ReleasedLenient(s: State, t: string, ka: string, a: AgentSpec, n: i32, q: Quota, kb: string)
    requires ReleasedOne(s, t, ka, a, n, q) && a.tenant == t && ka != kb && s.reading == map[]
    ensures Lenient(UnbackedAdmission, s, t, ka, a, kb, q, ZERO, ZERO)
  {
    NothingElse(s.reservations, kb, s.now);
  }

  /** A second agent is admitted between the release and the status write. */
  lemma ListedRun(q: Quota, t: string, ka: string, a: AgentSpec, na: i32, kb: string, b: AgentSpec, nb: i32)
    returns (start: State, acts: seq<Action>, s: State)
    requires ka != kb && Plain(a, t, na) && Plain(b, t, nb) && OneAtATime(q, na, nb)
    ensures BreaksBarrier(UnbackedAdmission, t, start, acts, s)
  {
    var h := UnbackedAdmission;
    start := EmptyTenant(h, t, q);
    acts, s := FirstAgent(h, start, [], start, q, t, ka, a, na);
    acts, s := ListAndRelease(h, start, acts, s, t, ka, a, na, q);
    ReleasedLenient(s, t, ka, a, na, q, kb);
    acts, s := Finish(h, start, acts, s, t, ka, a, na, kb, b, nb, q, ZERO, ZERO);
  }

  lemma FailOne(s: State, t: string, ka: string, a: AgentSpec, n: i32, q: Quota, kb: string)
    requires ReleasedOne(s, t, ka, a, n, q) && a.tenant == t && ka != kb && s.reading == map[]
    ensures Enabled(s, Fails(t)) && RespectsOthers(LostWrite, s, Fails(t))
    ensures Lenient(LostWrite, Next(s, Fails(t)), t, ka, a, kb, q, ZERO, ZERO)
  {
    NothingElse(s.reservations, kb, s.now);
  }

  /** The status write fails after the release, and the next request comes before the next listing. */
  lemma LostWriteRun(q: Quota, t: string, ka: string, a: AgentSpec, na: i32, kb: string, b: AgentSpec, nb: i32)
    returns (start: State, acts: seq<Action>, s: State)
    requires ka != kb && Plain(a, t, na) && Plain(b, t, nb) && OneAtATime(q, na, nb)
    ensures BreaksBarrier(LostWrite, t, start, acts, s)
  {
    var h := LostWrite;
    start := EmptyTenant(h, t, q);
    acts, s := FirstAgent(h, start, [], start, q, t, ka, a, na);
    acts, s := ListAndRelease(h, start, acts, s, t, ka, a, na, q);
    FailOne(s, t, ka, a, na, q, kb);
    acts := Then(h, start, acts, s, Fails(t));
    acts, s := Finish(h, start, acts, Next(s, Fails(t)), t, ka, a, na, kb, b, nb, q, ZERO, ZERO);
  }

  lemma WriteOne(s: State, t: string, ka: string, a: AgentSpec, n: i32, q: Quota)
    requires ReleasedOne(s, t, ka, a, n, q)
    ensures Enabled(s, WritesStatus(t)) && RespectsOthers(StaleStatus, s, WritesStatus(t))
    ensures Next(s, WritesStatus(t)) == s.(counted := s.counted[t := map[ka := Usage(1, 0, n)]], listings := map[])
  {
  }

  lemma CreateFits(s: State, r: Request, nb: i32)
    requires s.reservations == map[] && r.committed == ZERO && r.oldSpec.None? && Plain(r.requested, r.requested.tenant, nb)
    requires nb <= r.quota.maxReplicasPerAgent && Leq(Usage(1, 0, nb), Ceiling(r.quota))
    ensures FitsNow(s, r, Usage(1, 0, nb), ZERO)
  {
    NothingElse(s.reservations, r.key, s.now);
    assert Delta(r) == Usage(1, 0, nb);
  }

  /** After the status write the first agent is counted, but the second request read before that. */
  lemma StaleReady(s: State, t: string, ka: string, a: AgentSpec, n: i32, q: Quota, r: Request)
    requires ReleasedOne(s, t, ka, a, n, q) && a.tenant == t && s.reading == map[1 := r] && r.key != ka
    requires r.quota == q && r.oldSpec.None? && r.requested.tenant == t
    ensures Ready(StaleStatus, s.(counted := s.counted[t := map[ka := Usage(1, 0, n)]], listings := map[]), t, ka, a, 1, r)
  {
  }

  /** A request reads the status before the first agent is admitted, and is decided after that one is counted. */
  lemma StaleRun(q: Quota, t: string, ka: string, a: AgentSpec, na: i32, kb: string, b: AgentSpec, nb: i32)
    returns (start: State, acts: seq<Action>, s: State)
    requires ka != kb && Plain(a, t, na) && Plain(b, t, nb) && OneAtATime(q, na, nb)
    ensures BreaksBarrier(StaleStatus, t, start, acts, s)
  {
    var h, r := StaleStatus, Request(kb, q, ZERO, b, None);
    start := EmptyTenant(h, t, q);
    acts, s := ReadStep(h, start, [], start, 1, kb, b, None, q, ZERO);
    acts, s := FirstAgent(h, start, acts, s, q, t, ka, a, na);
    acts, s := ListAndRelease(h, start, acts, s, t, ka, a, na, q);
    WriteOne(s, t, ka, a, na, q);
    StaleReady(s, t, ka, a, na, q, r);
    acts := Then(h, start, acts, s, WritesStatus(t));
    s := Next(s, WritesStatus(t));
    CreateFits(s, r, nb);
    acts, s := SecondAgent(h, start, acts, s, t, ka, a, na, 1, r, nb, ZERO);
  }

  // ---------------------------------------------------------------------------
  // Runs that start with one stored and counted agent
  // ---------------------------------------------------------------------------

  /** Quiet, with one agent stored and counted. */
  ghost predicate CountedOne(s: State, t: string, ka: string, a: AgentSpec, n: i32, q: Quota) {
    && Quiet(s) && s.reading == map[] && s.stored == map[ka := a] && t in s.quotas && s.quotas[t] == q
    && t in s.counted && s.counted[t] == map[ka := Usage(1, 0, n)]
  }

  lemma CountedTenant(dropped: Hypothesis, t: string, ka: string, a: AgentSpec, n: i32, q: Quota) returns (s: State)
    requires Plain(a, t, n) && Leq(Usage(1, 0, n), Ceiling(q))
    ensures Came(dropped, s, [], s) && CountedOne(s, t, ka, a, n, q)
  {
    var counted := map[ka := Usage(1, 0, n)];
    TotalOne(ka, Usage(1, 0, n));
    s := State(map[ka := a], map[], map[], map[], map[], map[t := counted], map[], map[t := q], 0);
    assert StoredUsage(s, t) == counted;
  }

  /** The delta of an update that only changes the replica count. */
  lemma UpdateDelta(t: string, a: AgentSpec, n: i32, c: AgentSpec, m: i32)
    requires Plain(a, t, n) && Plain(c, t, m)
    ensures ComputeDelta(c, Some(a)) == Usage(0, 0, m - n)
  {
  }

  lemma UpdateOne(dropped: Hypothesis, s: State, t: string, ka: string, a: AgentSpec, n: i32, c: AgentSpec, m: i32, q: Quota,
                  r: Request)
    requires CountedOne(s, t, ka, a, n, q) && Plain(a, t, n) && Plain(c, t, m)
    requires m <= q.maxReplicasPerAgent && Leq(Usage(1, 0, m), Ceiling(q)) && (dropped.Credit? || n <= m)
    requires r == Request(ka, q, Usage(1, 0, n), c, Some(a))
    ensures var read := s.(reading := map[0 := r]);
            && Enabled(read, Admits(0)) && RespectsOthers(dropped, read, Admits(0))
            && Next(read, Admits(0)) == Holding(Decided(read, 0), r)
  {
    var read := s.(reading := map[0 := r]);
    UpdateDelta(t, a, n, c, m);
    NothingElse(s.reservations, ka, 0);
    TotalOne(ka, Usage(1, 0, n));
    AdmitStep(dropped, read, 0, r, Usage(0, 0, m - n), ZERO);
  }

  /** An update of the one counted agent is admitted. */
  lemma UpdateSteps(dropped: Hypothesis, start: State, t: string, ka: string, a: AgentSpec, n: i32, c: AgentSpec, m: i32,
                    q: Quota, r: Request) returns (acts: seq<Action>, s: State)
    requires Came(dropped, start, [], start) && CountedOne(start, t, ka, a, n, q) && Plain(a, t, n) && Plain(c, t, m)
    requires m <= q.maxReplicasPerAgent && Leq(Usage(1, 0, m), Ceiling(q)) && (dropped.Credit? || n <= m)
    requires r == Request(ka, q, Usage(1, 0, n), c, Some(a))
    ensures Came(dropped, start, acts, s) && s.reading == map[] && Delta(r) == Usage(0, 0, m - n)
    ensures s == Holding(start, r)
  {
    UpdateDelta(t, a, n, c, m);
    TotalOne(ka, Usage(1, 0, n));
    UpdateOne(dropped, start, t, ka, a, n, c, m, q, r);
    acts, s := ReadStep(dropped, start, [], start, 0, ka, c, Some(a), q, Usage(1, 0, n));
    acts := Then(dropped, start, acts, s, Admits(0));
    s := Next(s, Admits(0));
  }

  /** Replica counts of which hi does not fit beside nb, and lo does. */
  ghost predicate RoomAt(q: Quota, lo: i32, hi: i32, nb: i32) {
    && 1 <= lo <= hi <= q.maxReplicasPerAgent && 1 <= nb <= q.maxReplicasPerAgent
    && Leq(Usage(1, 0, hi), Ceiling(q)) && Leq(Usage(2, 0, lo + nb), Ceiling(q)) && !Leq(Usage(2, 0, hi + nb), Ceiling(q))
  }

  lemma CreditLenient(s: State, t: string, ka: string, a: AgentSpec, n: i32, m: i32, q: Quota, kb: string, r: Request)
    requires CountedOne(s, t, ka, a, n, q) && a.tenant == t && ka != kb && 1 <= m && 1 <= n
    requires r.key == ka && Delta(r) == Usage(0, 0, m - n)
    ensures Lenient(Credit, Holding(s, r), t, ka, a, kb, q, Usage(1, 0, n), Usage(0, 0, m - n))
  {
    TotalOne(ka, Usage(1, 0, n));
    OnlyOther(Holding(s, r).reservations, kb, ka, 0);
  }

  /** A scale-down that is never stored makes room for a second agent. */
  lemma CreditRun(q: Quota, t: string, ka: string, a: AgentSpec, hi: i32, c: AgentSpec, lo: i32, kb: string,
                  b: AgentSpec, nb: i32) returns (start: State, acts: seq<Action>, s: State)
    requires ka != kb && Plain(a, t, hi) && Plain(c, t, lo) && Plain(b, t, nb) && RoomAt(q, lo, hi, nb)
    ensures BreaksBarrier(Credit, t, start, acts, s)
  {
    var r := Request(ka, q, Usage(1, 0, hi), c, Some(a));
    start := CountedTenant(Credit, t, ka, a, hi, q);
    acts, s := UpdateSteps(Credit, start, t, ka, a, hi, c, lo, q, r);
    CreditLenient(start, t, ka, a, hi, lo, q, kb, r);
    acts, s := Finish(Credit, start, acts, s, t, ka, a, hi, kb, b, nb, q, Usage(1, 0, hi), Usage(0, 0, lo - hi));
  }

  /** An update is admitted but not stored, and its charge has been released. */
  ghost predicate Undercut(s: State, t: string, ka: string, a: AgentSpec, n: i32, c: AgentSpec, q: Quota) {
    && s.stored == map[ka := a] && s.pending == map[ka := Pending(c, Some(a))] && s.reservations == map[]
    && t in s.quotas && s.quotas[t] == q && s.now == 0 && s.reading == map[] && t in s.counted
    && s.listings == map[t := Listing(map[ka := Usage(1, 0, n)], {})]
  }

  lemma ListPending(s: State, t: string, ka: string, a: AgentSpec, n: i32, q: Quota, r: Request)
    requires CountedOne(s, t, ka, a, n, q) && Plain(a, t, n) && r.key == ka
    ensures var held := Holding(s, r);
            && Enabled(held, Lists(t)) && RespectsOthers(UncountedRelease, held, Lists(t))
            && Next(held, Lists(t)) == held.(listings := map[t := Listing(map[ka := Usage(1, 0, n)], {ka})])
  {
    assert StoredUsage(Holding(s, r), t) == map[ka := Usage(1, 0, n)];
    assert StoredUsage(Holding(s, r), t).Keys == {ka};
  }

  lemma ReleasePending(s: State, t: string, ka: string, a: AgentSpec, n: i32, c: AgentSpec, q: Quota, r: Request)
    requires CountedOne(s, t, ka, a, n, q) && Plain(a, t, n) && r.key == ka && r.requested == c && r.oldSpec == Some(a)
    ensures var listed := Holding(s, r).(listings := map[t := Listing(map[ka := Usage(1, 0, n)], {ka})]);
            && Enabled(listed, Releases(t, ka)) && RespectsOthers(UncountedRelease, listed, Releases(t, ka))
            && Undercut(Next(listed, Releases(t, ka)), t, ka, a, n, c, q)
  {
    var listed := Holding(s, r).(listings := map[t := Listing(map[ka := Usage(1, 0, n)], {ka})]);
    var s' := Next(listed, Releases(t, ka));
    assert s'.reservations == map[] && s'.listings[t].unreleased == {};
  }

  lemma WritePending(s: State, t: string, ka: string, a: AgentSpec, n: i32, c: AgentSpec, q: Quota)
    requires Undercut(s, t, ka, a, n, c, q)
    ensures var s' := s.(counted := s.counted[t := map[ka := Usage(1, 0, n)]], listings := map[]);
            && Enabled(s, WritesStatus(t)) && RespectsOthers(UncountedRelease, s, WritesStatus(t))
            && Next(s, WritesStatus(t)) == s'
  {
  }

  lemma StorePending(s: State, t: string, ka: string, a: AgentSpec, n: i32, c: AgentSpec, q: Quota, kb: string)
    requires Undercut(s, t, ka, a, n, c, q) && c.tenant == t && ka != kb && n >= 1
    ensures var w := s.(counted := s.counted[t := map[ka := Usage(1, 0, n)]], listings := map[]);
            && Enabled(w, Stores(ka)) && RespectsOthers(UncountedRelease, w, Stores(ka))
            && Lenient(UncountedRelease, Next(w, Stores(ka)), t, ka, c, kb, q, Usage(1, 0, n), ZERO)
  {
    TotalOne(ka, Usage(1, 0, n));
    NothingElse(s.reservations, kb, 0);
  }

  /** A scale-up is admitted; a listing of the old object releases its charge before it is stored. */
  lemma ReleasedRun(q: Quota, t: string, ka: string, a: AgentSpec, lo: i32, c: AgentSpec, hi: i32, kb: string,
                    b: AgentSpec, nb: i32) returns (start: State, acts: seq<Action>, s: State)
    requires ka != kb && Plain(a, t, lo) && Plain(c, t, hi) && Plain(b, t, nb) && RoomAt(q, lo, hi, nb)
    ensures BreaksBarrier(UncountedRelease, t, start, acts, s)
  {
    var h, r := UncountedRelease, Request(ka, q, Usage(1, 0, lo), c, Some(a));
    start := CountedTenant(h, t, ka, a, lo, q);
    acts, s := UpdateSteps(h, start, t, ka, a, lo, c, hi, q, r);
    ListPending(start, t, ka, a, lo, q, r);
    ReleasePending(start, t, ka, a, lo, c, q, r);
    acts := Then(h, start, acts, s, Lists(t));
    s := Next(s, Lists(t));
    acts := Then(h, start, acts, s, Releases(t, ka));
    s := Next(s, Releases(t, ka));
    WritePending(s, t, ka, a, lo, c, q);
    StorePending(s, t, ka, a, lo, c, q, kb);
    acts := Then(h, start, acts, s, WritesStatus(t));
    s := Next(s, WritesStatus(t));
    acts := Then(h, start, acts, s, Stores(ka));
    acts, s := Finish(h, start, acts, Next(s, Stores(ka)), t, ka, c, hi, kb, b, nb, q, Usage(1, 0, lo), ZERO);
  }

  /**
   The barrier assumes these hypotheses and nothing else, and without any one of them a
   tenant can end over quota.
   */
  lemma EveryHypothesisNeeded(h: Hypothesis, t: string, ka: string, kb: string)
    returns (start: State, acts: seq<Action>, s: State)
    requires ka != kb
    ensures forall u, a :: Careful(u, a) <==> forall g :: Holds(g, u, a)
    ensures BreaksBarrier(h, t, start, acts, s)
  {
    forall u, a ensures Careful(u, a) <==> forall g :: Holds(g, u, a) {
      HypothesesAreCareful(u, a);
    }
    var q, one, two := Quota(10, 0, 2, 10), AgentSpec(t, 1, 0), AgentSpec(t, 2, 0);
    match h
    case StaleStatus => start, acts, s := StaleRun(q, t, ka, two, 2, kb, one, 1);
    case UnbackedAdmission => start, acts, s := ListedRun(q, t, ka, two, 2, kb, one, 1);
    case UncountedExpiry => start, acts, s := ExpiredRun(q, t, ka, two, 2, kb, one, 1);
    case Readmission => start, acts, s := ReadmittedRun(q, t, ka, two, 2, kb, one, 1);
    case UncountedRelease => start, acts, s := ReleasedRun(q, t, ka, one, 1, two, 2, kb, one, 1);
    case Credit => start, acts, s := CreditRun(q, t, ka, two, 2, one, 1, kb, one, 1);
    case LostWrite => start, acts, s := LostWriteRun(q, t, ka, two, 2, kb, one, 1);
    case UncountedRestart => start, acts, s := RestartedRun(q, t, ka, two, 2, kb, one, 1);
  }
}
