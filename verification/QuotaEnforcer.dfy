/**
 The enforcer's reservation map (internal/quota/enforcer.go): admissions check and
 reserve in one critical section; reservations expire, are swept and are released.
 Each method below is one critical section of the source; the clock reading it takes
 under the lock is a parameter.
 */
module QuotaEnforcer {
  import opened Options
  import opened Usages
  import opened QuotaMath

  datatype Entry = Entry(charge: Usage, expiry: int)

  type Reservations = map<string, Entry>

  predicate Expired(e: Entry, now: int) {
    now > e.expiry
  }

  /** The charges that count at a given time, leaving out one key. */
  function LiveCharges(m: Reservations, exclude: string, now: int): map<string, Usage> {
    map k | k in m && k != exclude && !Expired(m[k], now) :: m[k].charge
  }

  /** The exact in-flight sum; the source accumulates it in int32. */
  ghost function InFlight(m: Reservations, exclude: string, now: int): Usage {
    Total(LiveCharges(m, exclude, now))
  }

  /** One admission request. */
  datatype Request = Request(key: string, quota: Quota, committed: Usage, requested: AgentSpec, oldSpec: Option<AgentSpec>)

  function Delta(r: Request): Usage {
    ComputeDelta(r.requested, r.oldSpec)
  }

  /** The decision on a request against a reservation map. */
  ghost function Decide(m: Reservations, now: int, r: Request): Decision {
    Rules(r.quota, r.committed, Wrapped(InFlight(m, r.key, now)), r.requested, r.oldSpec)
  }

  /** The reservation map after a request: written only when it was admitted. */
  ghost function Reserved(m: Reservations, now: int, r: Request, ttl: int): Reservations {
    if Decide(m, now, r).Admitted? then m[r.key := Entry(Delta(r), now + ttl)] else m
  }

  function Swept(m: Reservations, now: int): Reservations {
    map k | k in m && !Expired(m[k], now) :: m[k]
  }

  class Enforcer {
    var reservations: Reservations

    constructor ()
      ensures reservations == map[]
    {
      reservations := map[];
    }

    /** sumInflightLocked: int32 accumulation over the map in whatever order it iterates. */
    method SumInflightLocked(exclude: string, now: int) returns (total: Usage)
      ensures total == Wrapped(InFlight(reservations, exclude, now))
    {
      total := ZERO;
      var todo := reservations.Keys;
      ghost var done: map<string, Usage> := map[];
      ghost var live := LiveCharges(reservations, exclude, now);
      while todo != {}
        invariant todo <= reservations.Keys
        invariant done == map k | k in live && k !in todo :: live[k]
        invariant total == Wrapped(Total(done))
        decreases todo
      {
        var k :| k in todo;
        todo := todo - {k};
        var v := reservations[k];
        if k == exclude || now > v.expiry {
          continue;
        }
        TotalUpdate(done, k, v.charge);
        assert done - {k} == done;
        AddCommutes(v.charge, Total(done));
        WrappedAdd(Total(done), v.charge);
        done := done[k := v.charge];
        total := Usage(Wrap32(total.agents + v.charge.agents), Wrap32(total.gpus + v.charge.gpus),
                       Wrap32(total.replicas + v.charge.replicas));
      }
      assert done == live;
    }

    /** CanAdmit: the decision without a reservation, for dry runs. */
    method CanAdmit(r: Request, now: int) returns (d: Decision)
      ensures d == Decide(reservations, now, r)
    {
      var delta := ComputeDelta(r.requested, r.oldSpec);
      var inFlight := SumInflightLocked(r.key, now);
      d := EvalQuotaRules(r.quota, r.committed, inFlight, delta, r.requested.maxReplicas,
                          SameTenantUpdate(r.requested, r.oldSpec), OldMax(r.oldSpec));
    }

    /** AdmitAndReserve: decide and reserve in one step. */
    method AdmitAndReserve(r: Request, ttl: int, now: int) returns (d: Decision)
      modifies this
      ensures d == Decide(old(reservations), now, r)
      ensures reservations == Reserved(old(reservations), now, r, ttl)
    {
      var delta := ComputeDelta(r.requested, r.oldSpec);
      var inFlight := SumInflightLocked(r.key, now);
      d := EvalQuotaRules(r.quota, r.committed, inFlight, delta, r.requested.maxReplicas,
                          SameTenantUpdate(r.requested, r.oldSpec), OldMax(r.oldSpec));
      if d != Admitted {
        return;
      }
      reservations := reservations[r.key := Entry(delta, now + ttl)];
    }

    method Release(key: string)
      modifies this
      ensures reservations == old(reservations) - {key}
    {
      reservations := reservations - {key};
    }

    /** sweepExpired: delete every expired entry while iterating. */
    method SweepExpired(now: int)
      modifies this
      ensures reservations == Swept(old(reservations), now)
    {
      var todo := reservations.Keys;
      while todo != {}
        invariant todo <= old(reservations).Keys
        invariant reservations ==
                  map k | k in old(reservations) && (k in todo || !Expired(old(reservations)[k], now)) :: old(reservations)[k]
        decreases todo
      {
        var k :| k in todo;
        if now > reservations[k].expiry {
          reservations := reservations - {k};
        }
        todo := todo - {k};
      }
    }
  }

  lemma AddCommutes(u: Usage, v: Usage)
    ensures Add(u, v) == Add(v, u)
  {
  }

  // ---------------------------------------------------------------------------
  // Accumulation never wraps while the charges are small
  // ---------------------------------------------------------------------------

  ghost predicate AllNonNegative(m: Reservations) {
    forall k :: k in m ==> NonNegative(m[k].charge)
  }

  /** Every live charge together, of all tenants. */
  ghost function AllInFlight(m: Reservations, now: int): Usage {
    Total(map k | k in m && !Expired(m[k], now) :: m[k].charge)
  }

  ghost predicate Within32(u: Usage) {
    NonNegative(u) && Fits(u)
  }

  /**
   With non-negative charges whose total is an int32, the partial sum over any set of
   keys, in whatever order the map is iterated, is an int32 as well.
   */
  lemma PartialSumsFit(m: Reservations, now: int, part: set<string>)
    requires AllNonNegative(m) && Within32(AllInFlight(m, now))
    ensures Within32(Total(map k | k in m && k in part && !Expired(m[k], now) :: m[k].charge))
  {
    var all := map k | k in m && !Expired(m[k], now) :: m[k].charge;
    var some := map k | k in m && k in part && !Expired(m[k], now) :: m[k].charge;
    TotalMonotone(some, all);
    TotalNonNegative(some);
  }

  /** In particular the sum an admission reads is exact. */
  lemma InFlightExact(m: Reservations, exclude: string, now: int)
    requires AllNonNegative(m) && Within32(AllInFlight(m, now))
    ensures Wrapped(InFlight(m, exclude, now)) == InFlight(m, exclude, now)
    ensures NonNegative(InFlight(m, exclude, now)) && Leq(InFlight(m, exclude, now), AllInFlight(m, now))
  {
    PartialSumsFit(m, now, m.Keys - {exclude});
    assert LiveCharges(m, exclude, now) == map k | k in m && k in m.Keys - {exclude} && !Expired(m[k], now) :: m[k].charge;
    TotalMonotone(LiveCharges(m, exclude, now), map k | k in m && !Expired(m[k], now) :: m[k].charge);
  }

  /**
   What an admission with a non-negative delta has checked: every dimension of a create
   or a move, and every dimension an update raises.
   */
  lemma AdmittedMeans(r: Request, inFlight: Usage)
    requires NonNegative(Delta(r)) && Rules(r.quota, r.committed, inFlight, r.requested, r.oldSpec).Admitted?
    ensures var sum, c := Add(r.committed, Add(inFlight, Delta(r))), Ceiling(r.quota);
            && (Delta(r).agents == 0 || sum.agents <= c.agents)
            && (Delta(r).gpus == 0 || sum.gpus <= c.gpus)
            && (Delta(r).replicas == 0 || sum.replicas <= c.replicas)
            && (!SameTenantUpdate(r.requested, r.oldSpec) ==> Leq(sum, c))
  {
  }

  /** Every live charge but one key's. */
  lemma AllButKey(m: Reservations, key: string, now: int)
    ensures LiveCharges(m, key, now) == (map k | k in m && !Expired(m[k], now) :: m[k].charge) - {key}
  {
  }

  lemma AllWithKey(m: Reservations, key: string, now: int, e: Entry)
    ensures AllInFlight(m[key := e], now) ==
            if Expired(e, now) then InFlight(m, key, now) else Add(e.charge, InFlight(m, key, now))
  {
    var live := map k | k in m && !Expired(m[k], now) :: m[k].charge;
    var m' := m[key := e];
    var live' := map k | k in m' && !Expired(m'[k], now) :: m'[k].charge;
    AllButKey(m, key, now);
    if Expired(e, now) {
      assert live' == live - {key};
    } else {
      assert live' == live[key := e.charge];
      TotalUpdate(live, key, e.charge);
    }
  }

  /** An admission keeps the total of all tenants' charges an int32. */
  lemma AdmissionFits(m: Reservations, now: int, r: Request, e: Entry)
    requires AllNonNegative(m) && Within32(AllInFlight(m, now))
    requires NonNegative(Delta(r)) && NonNegative(r.committed) && Decide(m, now, r).Admitted? && e.charge == Delta(r)
    ensures Within32(AllInFlight(m[r.key := e], now))
  {
    InFlightExact(m, r.key, now);
    AdmittedMeans(r, InFlight(m, r.key, now));
    AllWithKey(m, r.key, now, e);
  }

  // ---------------------------------------------------------------------------
  // Sweeps are invisible
  // ---------------------------------------------------------------------------

  datatype Op = Admit(request: Request, ttl: int) | Release(key: string) | Sweep

  /** An operation and the clock reading it takes. */
  datatype Timed = Timed(op: Op, now: int)

  ghost function Effect(m: Reservations, t: Timed): Reservations {
    match t.op
    case Admit(r, ttl) => Reserved(m, t.now, r, ttl)
    case Release(key) => m - {key}
    case Sweep => Swept(m, t.now)
  }

  /** The decisions a run of operations gives, in order. */
  ghost function Decisions(m: Reservations, run: seq<Timed>): seq<Decision>
    decreases |run|
  {
    if run == [] then []
    else (if run[0].op.Admit? then [Decide(m, run[0].now, run[0].op.request)] else [])
         + Decisions(Effect(m, run[0]), run[1..])
  }

  function WithoutSweeps(run: seq<Timed>): seq<Timed>
    decreases |run|
  {
    if run == [] then [] else (if run[0].op.Sweep? then [] else [run[0]]) + WithoutSweeps(run[1..])
  }

  /** Clock readings from `now` on, never decreasing. */
  ghost predicate Ordered(now: int, run: seq<Timed>)
    decreases |run|
  {
    run == [] || (now <= run[0].now && Ordered(run[0].now, run[1..]))
  }

  /** The same entries are live in both maps, now and later. */
  ghost predicate SameLive(m: Reservations, m': Reservations, now: int) {
    Swept(m, now) == Swept(m', now)
  }

  lemma SameLiveDecides(m: Reservations, m': Reservations, now: int, t: Timed)
    requires SameLive(m, m', now) && now <= t.now
    ensures SameLive(m, m', t.now)
    ensures t.op.Admit? ==> Decide(m, t.now, t.op.request) == Decide(m', t.now, t.op.request)
    ensures SameLive(Effect(m, t), Effect(m', t), t.now)
  {
    SameLiveLater(m, m', now, t.now);
    if t.op.Admit? {
      var key := t.op.request.key;
      var s := Swept(m, t.now);
      assert LiveCharges(m, key, t.now) == LiveCharges(s, key, t.now);
      assert LiveCharges(m', key, t.now) == LiveCharges(s, key, t.now);
      if Decide(m, t.now, t.op.request).Admitted? {
        SameLiveWrite(m, m', t.now, key, Entry(Delta(t.op.request), t.now + t.op.ttl));
      }
    } else if t.op.Release? {
      assert Swept(m - {t.op.key}, t.now) == Swept(m, t.now) - {t.op.key};
      assert Swept(m' - {t.op.key}, t.now) == Swept(m', t.now) - {t.op.key};
    }
  }

  lemma SameLiveLater(m: Reservations, m': Reservations, now: int, later: int)
    requires SameLive(m, m', now) && now <= later
    ensures SameLive(m, m', later)
  {
    assert Swept(m, later) == Swept(Swept(m, now), later);
    assert Swept(m', later) == Swept(Swept(m', now), later);
  }

  lemma SameLiveWrite(m: Reservations, m': Reservations, now: int, key: string, e: Entry)
    requires SameLive(m, m', now)
    ensures SameLive(m[key := e], m'[key := e], now)
  {
    var s := Swept(m, now);
    var live := if Expired(e, now) then s - {key} else s[key := e];
    assert Swept(m[key := e], now) == live;
    assert Swept(m'[key := e], now) == live;
  }

  /** A sweep leaves the live entries as they are. */
  lemma SweepKeepsLive(m: Reservations, now: int)
    ensures SameLive(Swept(m, now), m, now)
  {
    assert Swept(Swept(m, now), now) == Swept(m, now);
  }

  lemma SameLiveTrans(a: Reservations, b: Reservations, c: Reservations, now: int)
    requires SameLive(a, b, now) && SameLive(b, c, now)
    ensures SameLive(a, c, now)
  {
  }

  /**
   Sweeps are invisible: in every run with a clock that does not go back, removing all
   sweeps changes no admission decision.
   */
  lemma {:induction false} SweepsInvisible(m: Reservations, m': Reservations, now: int, run: seq<Timed>)
    requires SameLive(m, m', now) && Ordered(now, run)
    ensures Decisions(m, run) == Decisions(m', WithoutSweeps(run))
    decreases |run|
  {
    if run == [] {
    } else {
      var t, rest := run[0], WithoutSweeps(run[1..]);
      SameLiveDecides(m, m', now, t);
      if t.op.Sweep? {
        SweepKeepsLive(m, t.now);
        SameLiveTrans(Swept(m, t.now), m, m', t.now);
        SweepsInvisible(Effect(m, t), m', t.now, run[1..]);
        assert WithoutSweeps(run) == rest;
      } else {
        SweepsInvisible(Effect(m, t), Effect(m', t), t.now, run[1..]);
        assert WithoutSweeps(run) == [t] + rest;
        assert ([t] + rest)[1..] == rest;
      }
    }
  }
}
