/**
 The quota barrier under every interleaving of requests, commits, expiry and sweeps. A
 request reads its tenant's status first and is decided on that snapshot later, under the
 enforcer's lock.
 */
module QuotaBarrier {
  import opened Options
  import opened Usages
  import opened QuotaMath
  import opened QuotaEnforcer

  /**
   The protocol state. reading holds the requests that have read their tenant's status
   but are not decided. The map of reservations is shared by all tenants; owner, which
   the source does not keep, says whose request wrote each entry.
   */
  datatype State = State(reading: map<nat, Request>, reservations: Reservations, owner: map<string, string>,
                         status: map<string, Usage>, quotas: map<string, Quota>, now: int)

  datatype Action =
    | Reads(id: nat, key: string, requested: AgentSpec, oldSpec: Option<AgentSpec>)
    | Admits(id: nat, ttl: int)
    | Tick(now: int)
    | Sweeps
    | Releases(key: string)
    | Commit(key: string)                    // a live reservation moves into its tenant's status
    | Shrink(tenant: string, usage: Usage)   // agents are deleted and status recomputed

  /** Quotas are fixed and the clock does not go back. */
  ghost predicate Enabled(s: State, a: Action) {
    match a
    case Reads(id, key, requested, oldSpec) => requested.tenant in s.status && requested.tenant in s.quotas
    case Admits(id, ttl) => id in s.reading
    case Tick(now) => now >= s.now
    case Sweeps => true
    case Releases(_) => true
    case Commit(key) => key in s.reservations && !Expired(s.reservations[key], s.now)
                        && key in s.owner && s.owner[key] in s.status
    case Shrink(t, u) => t in s.status && NonNegative(u) && Leq(u, s.status[t])
  }

  /** No admission is decided on a status that has grown since it was read. */
  ghost predicate Fresh(s: State, a: Action) {
    a.Admits? && a.id in s.reading && s.reading[a.id].requested.tenant in s.status ==>
      Leq(s.status[s.reading[a.id].requested.tenant], s.reading[a.id].committed)
  }

  /** No admission lowers a dimension. */
  ghost predicate NoCredit(s: State, a: Action) {
    a.Admits? && a.id in s.reading ==> NonNegative(Delta(s.reading[a.id]))
  }

  /** The state with one reservation written. */
  ghost function Written(s: State, key: string, e: Entry, t: string): State {
    s.(reservations := s.reservations[key := e], owner := s.owner[key := t])
  }

  ghost function Next(s: State, a: Action): State
    requires Enabled(s, a)
  {
    match a
    case Reads(id, key, requested, oldSpec) =>
      var t := requested.tenant;
      s.(reading := s.reading[id := Request(key, s.quotas[t], s.status[t], requested, oldSpec)])
    case Admits(id, ttl) =>
      var r := s.reading[id];
      if Decide(s.reservations, s.now, r).Admitted? then
        Written(Decided(s, id), r.key, Entry(Delta(r), s.now + ttl), r.requested.tenant)
      else Decided(s, id)
    case Tick(now) => s.(now := now)
    case Sweeps => s.(reservations := Swept(s.reservations, s.now))
    case Releases(key) => s.(reservations := s.reservations - {key})
    case Commit(key) =>
      var t := s.owner[key];
      s.(reservations := s.reservations - {key},
      status := s.status[t := Add(s.status[t], s.reservations[key].charge)])
    case Shrink(t, u) => s.(status := s.status[t := u])
  }

  /** The live charges one tenant's requests wrote. */
  ghost function OwnCharges(s: State, t: string): map<string, Usage> {
    map k | k in s.reservations && !Expired(s.reservations[k], s.now) && k in s.owner && s.owner[k] == t
      :: s.reservations[k].charge
  }

  ghost function AllCharges(s: State): map<string, Usage> {
    map k | k in s.reservations && !Expired(s.reservations[k], s.now) :: s.reservations[k].charge
  }

  /** The tenant's recorded usage and its own reservations stay within all three ceilings. */
  ghost predicate TenantWithin(s: State, t: string) {
    t in s.status && NonNegative(s.status[t]) &&
    (t in s.quotas ==> Leq(Add(s.status[t], Total(OwnCharges(s, t))), Ceiling(s.quotas[t])))
  }

  /** A request has read the quota of a known tenant. */
  ghost predicate ReadingHeld(s: State, r: Request) {
    var t := r.requested.tenant;
    t in s.quotas && t in s.status && r.quota == s.quotas[t]
  }

  ghost predicate Inv(s: State) {
    && (forall id :: id in s.reading ==> ReadingHeld(s, s.reading[id]))
    && s.reservations.Keys <= s.owner.Keys
    && AllNonNegative(s.reservations)
    && Within32(Total(AllCharges(s)))
    && (forall t :: t in s.quotas ==> TenantWithin(s, t))
  }

  // ---------------------------------------------------------------------------
  // Steps that only take charges away
  // ---------------------------------------------------------------------------

  /** Fewer live reservations with the same owners cannot raise any sum. */
  lemma FewerCharges(s: State, s': State)
    requires Inv(s) && s'.quotas == s.quotas && s'.status == s.status && s'.owner == s.owner
    requires forall id :: id in s'.reading ==> ReadingHeld(s', s'.reading[id])
    requires forall k :: k in s'.reservations ==> k in s.reservations && s'.reservations[k] == s.reservations[k]
    requires s'.now >= s.now
    ensures Inv(s')
  {
    var all, all' := AllCharges(s), AllCharges(s');
    assert forall k :: k in all' ==> k in all && all'[k] == all[k];
    TotalMonotone(all', all);
    TotalNonNegative(all');
    forall t | t in s'.quotas ensures TenantWithin(s', t) {
      assert TenantWithin(s, t);
      var own, own' := OwnCharges(s, t), OwnCharges(s', t);
      assert forall k :: k in own' ==> k in own && own'[k] == own[k];
      TotalMonotone(own', own);
    }
  }

  lemma OwnRemoved(s: State, key: string, x: string)
    ensures OwnCharges(s.(reservations := s.reservations - {key}), x) == OwnCharges(s, x) - {key}
  {
  }

  /** Moving a charge from the reservations into the status keeps its tenant's sum. */
  lemma CommitTenant(s: State, key: string, x: string)
    requires Inv(s) && Enabled(s, Commit(key)) && x in s.quotas
    ensures TenantWithin(Next(s, Commit(key)), x)
  {
    var s' := Next(s, Commit(key));
    assert TenantWithin(s, x);
    OwnRemoved(s, key, x);
    assert OwnCharges(s', x) == OwnCharges(s, x) - {key};
    if x == s.owner[key] {
      TotalSplit(OwnCharges(s, x), key);
      AddAssociative(s.status[x], s.reservations[key].charge, Total(OwnCharges(s, x) - {key}));
    } else {
      TotalMonotone(OwnCharges(s, x) - {key}, OwnCharges(s, x));
    }
  }

  lemma CommitKeeps(s: State, key: string)
    requires Inv(s) && Enabled(s, Commit(key))
    ensures Inv(Next(s, Commit(key)))
  {
    var s' := Next(s, Commit(key));
    var mid := s.(reservations := s.reservations - {key});
    FewerCharges(s, mid);
    assert AllCharges(s') == AllCharges(mid);
    forall t | t in s'.quotas ensures TenantWithin(s', t) {
      CommitTenant(s, key, t);
    }
  }

  lemma ShrinkKeeps(s: State, t: string, u: Usage)
    requires Inv(s) && Enabled(s, Shrink(t, u))
    ensures Inv(Next(s, Shrink(t, u)))
  {
    var s' := Next(s, Shrink(t, u));
    assert AllCharges(s') == AllCharges(s);
    forall x | x in s'.quotas ensures TenantWithin(s', x) {
      assert TenantWithin(s, x);
      assert OwnCharges(s', x) == OwnCharges(s, x);
    }
  }

  // ---------------------------------------------------------------------------
  // Admission
  // ---------------------------------------------------------------------------

  /** Writing a reservation replaces the charge of its key; one already expired only removes it. */
  lemma OwnWritten(s: State, key: string, e: Entry, t: string, x: string)
    ensures OwnCharges(Written(s, key, e, t), x) ==
            if Expired(e, s.now) || x != t then OwnCharges(s, x) - {key} else OwnCharges(s, x)[key := e.charge]
  {
  }

  lemma WithoutKey(s: State, key: string)
    requires Inv(s)
    ensures LiveCharges(s.reservations, key, s.now) == AllCharges(s) - {key}
    ensures var f := InFlight(s.reservations, key, s.now);
            Wrapped(f) == f && f == Total(AllCharges(s) - {key}) && Leq(f, Total(AllCharges(s))) && NonNegative(f)
  {
    assert LiveCharges(s.reservations, key, s.now) == AllCharges(s) - {key};
    assert AllInFlight(s.reservations, s.now) == Total(AllCharges(s));
    InFlightExact(s.reservations, key, s.now);
  }

  /** The tenant's own charges are part of all charges. */
  lemma OwnPart(s: State, t: string, key: string)
    requires Inv(s)
    ensures Leq(Total(OwnCharges(s, t) - {key}), Total(AllCharges(s) - {key}))
    ensures Leq(Total(OwnCharges(s, t) - {key}), Total(OwnCharges(s, t)))
  {
    TotalMonotone(OwnCharges(s, t) - {key}, AllCharges(s) - {key});
    TotalMonotone(OwnCharges(s, t) - {key}, OwnCharges(s, t));
  }

  /** The requesting tenant stays within its ceilings. */
  lemma AdmittedTenant(s: State, r: Request, t: string)
    requires Inv(s) && NonNegative(Delta(r)) && t in s.quotas && r.quota == s.quotas[t]
    requires t in s.status && Leq(s.status[t], r.committed)
    requires Decide(s.reservations, s.now, r).Admitted?
    ensures Leq(Add(s.status[t], Add(Delta(r), Total(OwnCharges(s, t) - {r.key}))), Ceiling(s.quotas[t]))
  {
    assert TenantWithin(s, t);
    WithoutKey(s, r.key);
    AdmittedMeans(r, Total(AllCharges(s) - {r.key}));
    OwnPart(s, t, r.key);
  }

  lemma WrittenTenant(s: State, r: Request, t: string, e: Entry, x: string)
    requires Inv(s) && NonNegative(Delta(r)) && t in s.quotas && r.quota == s.quotas[t]
    requires t in s.status && Leq(s.status[t], r.committed) && x in s.quotas
    requires Decide(s.reservations, s.now, r).Admitted? && e.charge == Delta(r)
    ensures TenantWithin(Written(s, r.key, e, t), x)
  {
    assert TenantWithin(s, x);
    OwnWritten(s, r.key, e, t, x);
    OwnPart(s, x, r.key);
    if !Expired(e, s.now) && x == t {
      TotalUpdate(OwnCharges(s, x), r.key, e.charge);
      AdmittedTenant(s, r, t);
    }
  }

  lemma WrittenKeeps(s: State, r: Request, t: string, e: Entry)
    requires Inv(s) && NonNegative(Delta(r)) && t in s.quotas && r.quota == s.quotas[t]
    requires t in s.status && Leq(s.status[t], r.committed)
    requires Decide(s.reservations, s.now, r).Admitted? && e.charge == Delta(r)
    ensures Inv(Written(s, r.key, e, t))
  {
    assert TenantWithin(s, t);
    AdmissionFits(s.reservations, s.now, r, e);
    assert AllInFlight(s.reservations[r.key := e], s.now) == Total(AllCharges(Written(s, r.key, e, t)));
    forall x | x in s.quotas ensures TenantWithin(Written(s, r.key, e, t), x) {
      WrittenTenant(s, r, t, e, x);
    }
  }

  /** The state without one of the requests being read. */
  ghost function Decided(s: State, id: nat): State {
    s.(reading := s.reading - {id})
  }

  lemma DecidedKeeps(s: State, id: nat)
    requires Inv(s)
    ensures Inv(Decided(s, id))
  {
    forall i | i in Decided(s, id).reading ensures ReadingHeld(Decided(s, id), Decided(s, id).reading[i]) {
      assert ReadingHeld(s, s.reading[i]);
    }
    FewerCharges(s, Decided(s, id));
  }

  /** A request decided on a status that has not grown. */
  lemma AdmittedKeeps(s: State, r: Request, ttl: int)
    requires Inv(s) && Admissible(s, r)
    requires Decide(s.reservations, s.now, r).Admitted?
    ensures Inv(Written(s, r.key, Entry(Delta(r), s.now + ttl), r.requested.tenant))
  {
    WrittenKeeps(s, r, r.requested.tenant, Entry(Delta(r), s.now + ttl));
  }

  /** What a careful admission finds once its request is taken out of reading. */
  ghost predicate Admissible(s: State, r: Request) {
    ReadingHeld(s, r) && NonNegative(Delta(r)) && Leq(s.status[r.requested.tenant], r.committed)
  }

  lemma DecidedAdmissible(s: State, id: nat, ttl: int)
    requires id in s.reading && ReadingHeld(s, s.reading[id]) && Fresh(s, Admits(id, ttl)) && NoCredit(s, Admits(id, ttl))
    ensures Admissible(Decided(s, id), s.reading[id])
  {
  }

  lemma AdmissionKeeps(s: State, id: nat, ttl: int, r: Request, s1: State, s': State)
    requires Inv(s1) && Admissible(s1, r) && id in s.reading && r == s.reading[id]
    requires s1 == Decided(s, id) && s' == Next(s, Admits(id, ttl))
    ensures Inv(s')
  {
    if Decide(s.reservations, s.now, r).Admitted? {
      AdmittedKeeps(s1, r, ttl);
      assert s' == Written(s1, r.key, Entry(Delta(r), s.now + ttl), r.requested.tenant);
    } else {
      assert s' == s1;
    }
  }

  // ---------------------------------------------------------------------------
  // Runs
  // ---------------------------------------------------------------------------

  ghost function After(s: State, acts: seq<Action>): (r: Option<State>)
    decreases |acts|
  {
    if acts == [] then Some(s)
    else
      var mid := After(s, acts[..|acts| - 1]);
      if mid.None? || !Enabled(mid.value, acts[|acts| - 1]) then None
      else Some(Next(mid.value, acts[|acts| - 1]))
  }

  /** Nothing reserved and every tenant within its quota. */
  ghost predicate Initial(s: State) {
    s.reading == map[] && s.reservations == map[] &&
    forall t :: t in s.quotas ==> t in s.status && NonNegative(s.status[t]) && Leq(s.status[t], Ceiling(s.quotas[t]))
  }

  lemma InitialInv(s: State)
    requires Initial(s)
    ensures Inv(s)
  {
    assert AllCharges(s) == map[];
    forall t | t in s.quotas ensures TenantWithin(s, t) {
      assert OwnCharges(s, t) == map[];
    }
  }

  lemma NextKeeps(s: State, a: Action)
    requires Inv(s) && Enabled(s, a) && Fresh(s, a) && NoCredit(s, a)
    ensures Inv(Next(s, a))
  {
    match a
    case Reads(_, _, _, _) => FewerCharges(s, Next(s, a));
    case Admits(id, ttl) =>
      DecidedKeeps(s, id);
      DecidedAdmissible(s, id, ttl);
      AdmissionKeeps(s, id, ttl, s.reading[id], Decided(s, id), Next(s, a));
    case Tick(now) => FewerCharges(s, Next(s, a));
    case Sweeps => FewerCharges(s, Next(s, a));
    case Releases(key) => FewerCharges(s, Next(s, a));
    case Commit(key) => CommitKeeps(s, key);
    case Shrink(t, u) => ShrinkKeeps(s, t, u);
  }

  /** Every admission of the run is decided on a fresh status and lowers nothing. */
  ghost predicate CarefulRun(s: State, acts: seq<Action>)
    requires After(s, acts).Some?
  {
    forall n :: 0 <= n < |acts| && After(s, acts[..n]).Some? ==>
      Fresh(After(s, acts[..n]).value, acts[n]) && NoCredit(After(s, acts[..n]).value, acts[n])
  }

  lemma CarefulFront(s: State, acts: seq<Action>)
    requires acts != [] && After(s, acts).Some? && CarefulRun(s, acts)
    ensures var front := acts[..|acts| - 1];
            && After(s, front).Some? && CarefulRun(s, front)
            && Fresh(After(s, front).value, acts[|acts| - 1]) && NoCredit(After(s, front).value, acts[|acts| - 1])
  {
    var front := acts[..|acts| - 1];
    assert forall n :: 0 <= n <= |front| ==> front[..n] == acts[..n];
  }

  /**
   Quota barrier: over every interleaving of reads, admissions, clock ticks, sweeps,
   releases, commits and deletions in which admissions are decided on a status that has not
   grown since it was read, every tenant's recorded usage together with its own live
   reservations stays within its ceilings, although each admission is checked against
   the in-flight sum of all tenants; and that int32 sum never wraps.
   */
  lemma {:induction false} BarrierHolds(s: State, acts: seq<Action>)
    requires Initial(s) && After(s, acts).Some? && CarefulRun(s, acts)
    ensures Inv(After(s, acts).value)
    ensures After(s, acts).value.quotas == s.quotas
    ensures forall t :: t in s.quotas ==> TenantWithin(After(s, acts).value, t)
    decreases |acts|
  {
    if acts == [] {
      InitialInv(s);
    } else {
      var front := acts[..|acts| - 1];
      CarefulFront(s, acts);
      BarrierHolds(s, front);
      NextKeeps(After(s, front).value, acts[|acts| - 1]);
    }
  }

  // ---------------------------------------------------------------------------
  // Freshness cannot be dropped
  // ---------------------------------------------------------------------------

  /** Two new agents of one tenant, either of which fits its quota, but not both. */
  ghost predicate OneOfTwo(q: Quota, a: AgentSpec, b: AgentSpec) {
    && ValidSpec(a) && ValidSpec(b) && a.tenant == b.tenant && a.gpus < MAX32 && b.gpus < MAX32
    && a.maxReplicas <= q.maxReplicasPerAgent && b.maxReplicas <= q.maxReplicasPerAgent
    && Leq(UsageOf(a), Ceiling(q)) && Leq(UsageOf(b), Ceiling(q)) && !Leq(Add(UsageOf(a), UsageOf(b)), Ceiling(q))
  }

  lemma CreateAdmitted(m: Reservations, now: int, r: Request)
    requires m == map[] && r.oldSpec.None? && r.requested.gpus < MAX32 && r.committed == ZERO
    requires r.requested.maxReplicas <= r.quota.maxReplicasPerAgent && Leq(UsageOf(r.requested), Ceiling(r.quota))
    ensures Decide(m, now, r).Admitted? && Delta(r) == UsageOf(r.requested)
  {
    assert LiveCharges(m, r.key, now) == map[];
  }

  /** With nothing reserved, a request that read an empty status and fits is admitted. */
  lemma AdmitAlone(s: State, id: nat, r: Request, ttl: int)
    requires id in s.reading && s.reading[id] == r && s.reservations == map[] && s.now == 0
    requires r.oldSpec.None? && r.requested.gpus < MAX32 && r.committed == ZERO
    requires r.requested.maxReplicas <= r.quota.maxReplicasPerAgent && Leq(UsageOf(r.requested), Ceiling(r.quota))
    ensures Next(s, Admits(id, ttl)) == Written(Decided(s, id), r.key, Entry(UsageOf(r.requested), ttl), r.requested.tenant)
  {
    CreateAdmitted(s.reservations, s.now, r);
  }

  lemma CommitAlone(s: State, key: string, u: Usage, ttl: nat, t: string)
    requires s.reservations == map[key := Entry(u, ttl)] && s.now == 0 && key in s.owner && s.owner[key] == t
    requires t in s.status && s.status[t] == ZERO
    ensures Enabled(s, Commit(key))
    ensures Next(s, Commit(key)) == s.(reservations := map[], status := s.status[t := u])
  {
    assert s.reservations - {key} == map[] && Add(ZERO, u) == u;
  }

  /** One more step of a run. */
  lemma Then(s: State, first: seq<Action>, u: State, a: Action) returns (acts: seq<Action>)
    requires After(s, first) == Some(u) && Enabled(u, a)
    ensures After(s, acts) == Some(Next(u, a))
  {
    acts := first + [a];
    assert acts[..|acts| - 1] == first;
  }

  /**
   A request that reads the status before another one is admitted and committed, and is
   decided after that, is admitted as well, and the tenant ends over its quota.
   */
  lemma StaleReadBreaks(q: Quota, a: AgentSpec, ka: string, b: AgentSpec, kb: string, ttl: nat)
    returns (s: State, acts: seq<Action>)
    requires OneOfTwo(q, a, b) && ka != kb
    ensures Initial(s) && After(s, acts).Some? && a.tenant in s.quotas && !TenantWithin(After(s, acts).value, a.tenant)
  {
    var t := a.tenant;
    var ra, rb := Request(ka, q, ZERO, a, None), Request(kb, q, ZERO, b, None);
    s := State(map[], map[], map[], map[t := ZERO], map[t := q], 0);
    acts := Then(s, [], s, Reads(1, kb, b, None));
    var s1 := Next(s, Reads(1, kb, b, None));
    acts := Then(s, acts, s1, Reads(0, ka, a, None));
    var s2 := Next(s1, Reads(0, ka, a, None));
    AdmitAlone(s2, 0, ra, ttl);
    acts := Then(s, acts, s2, Admits(0, ttl));
    var s3 := Next(s2, Admits(0, ttl));
    CommitAlone(s3, ka, UsageOf(a), ttl, t);
    acts := Then(s, acts, s3, Commit(ka));
    var s4 := Next(s3, Commit(ka));
    AdmitAlone(s4, 1, rb, ttl);
    acts := Then(s, acts, s4, Admits(1, ttl));
    OverAtLast(Next(s4, Admits(1, ttl)), t, kb, UsageOf(b), UsageOf(a), ttl);
  }

  lemma OverAtLast(s: State, t: string, kb: string, charge: Usage, status: Usage, ttl: nat)
    requires t in s.status && s.status[t] == status && s.reservations == map[kb := Entry(charge, ttl)] && s.now == 0
    requires kb in s.owner && s.owner[kb] == t && t in s.quotas && !Leq(Add(status, charge), Ceiling(s.quotas[t]))
    ensures !TenantWithin(s, t)
  {
    var none: map<string, Usage> := map[];
    TotalUpdate(none, kb, charge);
    assert OwnCharges(s, t) == none[kb := charge] && none - {kb} == none;
  }
}
