/**
 The stored-object barrier: under the hypotheses about the interleaving, the usage
 recomputed from the stored agents never exceeds the quota.
 */
module QuotaStoredBarrier {
  import opened Options
  import opened Durations
  import opened Usages
  import opened QuotaMath
  import opened QuotaEnforcer
  import opened QuotaStored

  // ---------------------------------------------------------------------------
  // The worst case is covered by the status and the tenant's own reservations
  // ---------------------------------------------------------------------------

  lemma BasePositive(s: State, t: string)
    requires CountsSmall(s)
    ensures Positive(Base(s, t))
  {
  }

  lemma OwnPositive(s: State, t: string)
    requires AllNonNegative(s.reservations)
    ensures Positive(Own(s, t))
  {
  }

  lemma ClaimPositive(s: State, t: string, k: string)
    requires KeyHeld(s, k)
    ensures NonNegative(Claim(s, t, k)) && Leq(Current(s, t, k), Claim(s, t, k))
  {
  }

  lemma WorstAt(s: State, t: string, k: string)
    ensures At(Worst(s, t), k) == Claim(s, t, k)
  {
  }

  /** What a request will use is its old, counted usage plus the reserved delta. */
  lemma ProspectCovered(s: State, t: string, k: string)
    requires KeyHeld(s, k) && CountsSmall(s) && AllNonNegative(s.reservations)
    ensures Leq(Prospect(s, t, k), Add(At(Base(s, t), k), OwnAt(s, t, k)))
  {
    BasePositive(s, t);
    OwnPositive(s, t);
    if MayStore(s, k) && s.pending[k].requested.tenant == t {
      DeltaReaches(s.pending[k].requested, s.pending[k].oldSpec);
    }
  }

  lemma ClaimCovered(s: State, t: string, k: string)
    requires KeyHeld(s, k) && CountsSmall(s) && AllNonNegative(s.reservations)
    ensures Leq(Claim(s, t, k), Add(At(Base(s, t), k), OwnAt(s, t, k)))
  {
    ProspectCovered(s, t, k);
    BasePositive(s, t);
    OwnPositive(s, t);
  }

  /** Stored usage is at most the worst case. */
  lemma StoredBelowWorst(s: State, t: string)
    requires KeysHeld(s)
    ensures Leq(Total(StoredUsage(s, t)), Total(Worst(s, t))) && Positive(StoredUsage(s, t))
  {
    var a, b := StoredUsage(s, t), Worst(s, t);
    forall k ensures KeyHeld(s, k) && NonNegative(Claim(s, t, k)) && Leq(Current(s, t, k), At(b, k)) {
      assert KeyHeld(s, k);
      ClaimPositive(s, t, k);
      WorstAt(s, t, k);
    }
    forall k | k in a ensures NonNegative(a[k]) && Leq(a[k], At(b, k)) {
      assert KeyHeld(s, k) && StoredFor(s, t, k) && a[k] == Current(s, t, k);
    }
    TotalMonotone(a, b);
  }

  // ---------------------------------------------------------------------------
  // Admission
  // ---------------------------------------------------------------------------

  /** A valid request that raises no doubt about its own key. */
  ghost predicate Sound(s: State, r: Request) {
    ValidRequest(r.requested, r.oldSpec) && Settled(s, r.key) && NonNegative(Delta(r))
  }

  /** What an admission that respects the hypotheses may rely on. */
  ghost predicate Admissible(s: State, r: Request) {
    var t := r.requested.tenant;
    && ReadingHeld(s, r) && Sound(s, r)
    && t !in s.listings && Leq(StatusOf(s, t), r.committed) && Decide(s.reservations, s.now, r).Admitted?
  }

  /** The status an admission relies on is exact and not negative. */
  lemma CommittedExact(s: State, t: string)
    requires CountsSmall(s) && t in s.counted
    ensures StatusOf(s, t) == Total(s.counted[t]) && NonNegative(Total(s.counted[t]))
  {
    TotalNonNegative(s.counted[t]);
  }

  lemma OtherClaims(s: State, r: Request, x: string, k: string)
    requires r.key !in s.pending && (k != r.key || x != r.requested.tenant)
    ensures Claim(Holding(s, r), x, k) == Claim(s, x, k)
  {
    var s' := Holding(s, r);
    assert Current(s', x, k) == Current(s, x, k) && Prospect(s', x, k) == Prospect(s, x, k);
  }

  /** A valid request's new usage is within the old usage it saw and its delta. */
  lemma DeltaReaches(requested: AgentSpec, oldSpec: Option<AgentSpec>)
    requires ValidRequest(requested, oldSpec)
    ensures var base := if SameTenantUpdate(requested, oldSpec) then UsageOf(oldSpec.value) else ZERO;
            UsageOf(requested) == Add(base, ComputeDelta(requested, oldSpec))
  {
    DeltaExact(requested, oldSpec);
  }

  /** An admission raises one claim, of the requesting tenant, by its delta at most. */
  lemma OwnClaim(s: State, r: Request, t: string)
    requires Sound(s, r) && t == r.requested.tenant && KeyHeld(s, r.key)
    ensures Leq(Claim(Holding(s, r), t, r.key), Add(Current(s, t, r.key), Delta(r)))
  {
    DeltaReaches(r.requested, r.oldSpec);
    var s', delta := Holding(s, r), Delta(r);
    assert Current(s', t, r.key) == Current(s, t, r.key) && NonNegative(Current(s, t, r.key));
    if MayStore(s', r.key) {
      assert Prospect(s', t, r.key) == UsageOf(r.requested);
    }
  }

  /** Everything admitted so far, stored or not, is within the status, the reservations and the delta. */
  lemma AdmitSum(s: State, r: Request, t: string)
    requires KeysHeld(s) && CountsSmall(s) && AllNonNegative(s.reservations) && Sound(s, r)
    requires t == r.requested.tenant && t in s.counted && t !in s.listings
    ensures Leq(Total(Worst(Holding(s, r), t)),
                Add(Total(s.counted[t]), Add(InFlight(s.reservations, r.key, s.now), Delta(r))))
  {
    var m, a := Worst(Holding(s, r), t), s.counted[t];
    var live := LiveCharges(s.reservations, r.key, s.now);
    var b := live[r.key := Delta(r)];
    forall k | k in m ensures Leq(m[k], Add(At(a, k), At(b, k))) {
      assert KeyHeld(s, k) && m[k] == Claim(Holding(s, r), t, k);
      if k == r.key {
        AdmitOwnKey(s, r, t);
      } else {
        AdmitOtherKey(s, r, t, k);
        assert At(b, k) == At(live, k);
      }
    }
    TotalBound(m, a, b);
    TotalUpdate(live, r.key, Delta(r));
    assert live - {r.key} == live;
  }

  /** The request's own key: counted in full, and raised by the delta at most. */
  lemma AdmitOwnKey(s: State, r: Request, t: string)
    requires KeyHeld(s, r.key) && CountsSmall(s) && Sound(s, r)
    requires t == r.requested.tenant && t in s.counted && t !in s.listings
    ensures Leq(Claim(Holding(s, r), t, r.key), Add(At(s.counted[t], r.key), Delta(r)))
  {
    OwnClaim(s, r, t);
    BasePositive(s, t);
    assert Base(s, t) == s.counted[t];
    assert Leq(Current(s, t, r.key), At(s.counted[t], r.key));
  }

  /** Every other key is covered by the status and a reservation that the sum includes. */
  lemma AdmitOtherKey(s: State, r: Request, t: string, k: string)
    requires KeyHeld(s, k) && CountsSmall(s) && AllNonNegative(s.reservations)
    requires r.key !in s.pending && k != r.key && t in s.counted && t !in s.listings
    ensures Leq(Claim(Holding(s, r), t, k), Add(At(s.counted[t], k), At(LiveCharges(s.reservations, r.key, s.now), k)))
  {
    OtherClaims(s, r, t, k);
    ClaimCovered(s, t, k);
    assert Base(s, t) == s.counted[t];
    assert Leq(OwnAt(s, t, k), At(LiveCharges(s.reservations, r.key, s.now), k));
  }

  /** An update adds its delta at most, so it leaves alone every dimension it does not raise. */
  lemma AdmitUpdate(s: State, r: Request, t: string)
    requires KeysHeld(s) && Sound(s, r) && t == r.requested.tenant
    ensures Leq(Total(Worst(Holding(s, r), t)), Add(Total(Worst(s, t)), Delta(r)))
  {
    var m, a, b := Worst(Holding(s, r), t), Worst(s, t), map[r.key := Delta(r)];
    forall k | k in m ensures Leq(m[k], Add(At(a, k), At(b, k))) {
      assert KeyHeld(s, k);
      ClaimPositive(s, t, k);
      WorstAt(s, t, k);
      if k == r.key {
        OwnClaim(s, r, t);
      } else {
        OtherClaims(s, r, t, k);
      }
    }
    WorstPositive(s, t);
    TotalBound(m, a, b);
    var none: Recount := map[];
    TotalUpdate(none, r.key, Delta(r));
    assert none[r.key := Delta(r)] == b && none - {r.key} == none;
  }

  lemma WorstPositive(s: State, t: string)
    requires KeysHeld(s)
    ensures Positive(Worst(s, t))
  {
    forall k | k in Worst(s, t) ensures NonNegative(Worst(s, t)[k]) {
      assert KeyHeld(s, k);
      ClaimPositive(s, t, k);
    }
  }

  /** From what the rules checked to the ceiling, on plain vectors. */
  lemma WithinCeiling(total: Usage, worst: Usage, status: Usage, committed: Usage, inFlight: Usage, delta: Usage, c: Usage)
    requires Leq(total, Add(status, Add(inFlight, delta))) && Leq(total, Add(worst, delta)) && Leq(worst, c)
    requires Leq(status, committed)
    requires var sum := Add(committed, Add(inFlight, delta));
             && (delta.agents == 0 || sum.agents <= c.agents)
             && (delta.gpus == 0 || sum.gpus <= c.gpus)
             && (delta.replicas == 0 || sum.replicas <= c.replicas)
    ensures Leq(total, c)
  {
  }

  lemma AdmitWithin(s: State, r: Request, t: string)
    requires Inv(s) && Admissible(s, r) && t == r.requested.tenant
    ensures Leq(Total(Worst(Holding(s, r), t)), Ceiling(s.quotas[t]))
  {
    var f := InFlight(s.reservations, r.key, s.now);
    InFlightExact(s.reservations, r.key, s.now);
    AdmittedMeans(r, f);
    CommittedExact(s, t);
    AdmitSum(s, r, t);
    AdmitUpdate(s, r, t);
    WithinCeiling(Total(Worst(Holding(s, r), t)), Total(Worst(s, t)), Total(s.counted[t]), r.committed, f,
                  Delta(r), Ceiling(s.quotas[t]));
  }

  /** Nothing about other keys changes, and the new key is held. */
  lemma AdmitFrame(s: State, r: Request, k: string)
    requires KeyHeld(s, k) && AllNonNegative(s.reservations) && Sound(s, r)
    ensures KeyHeld(Holding(s, r), k)
  {
    var s' := Holding(s, r);
    if k != r.key {
      UntouchedHeld(s, s', k);
    } else {
      assert Live(s', k) && (k in s.stored ==> Counted(s', k));
    }
  }

  lemma AdmitWorst(s: State, r: Request)
    requires Inv(s) && Admissible(s, r)
    ensures WorstWithin(Holding(s, r))
  {
    var s' := Holding(s, r);
    forall x | x in s'.quotas ensures Leq(Total(Worst(s', x)), Ceiling(s'.quotas[x])) {
      if x == r.requested.tenant {
        AdmitWithin(s, r, x);
      } else {
        forall k | k in Worst(s', x) ensures Leq(Worst(s', x)[k], At(Worst(s, x), k)) {
          OtherClaims(s, r, x, k);
          WorstAt(s, x, k);
        }
        WorstPositive(s, x);
        TotalMonotone(Worst(s', x), Worst(s, x));
      }
    }
  }

  lemma AdmitInFlight(s: State, r: Request)
    requires InFlightSmall(s) && CountsSmall(s) && Admissible(s, r)
    ensures InFlightSmall(Holding(s, r))
  {
    CommittedExact(s, r.requested.tenant);
    AdmissionFits(s.reservations, s.now, r, Entry(Delta(r), s.now + RESERVATION_TTL));
  }

  lemma HoldingKeeps(s: State, r: Request)
    requires Inv(s) && Admissible(s, r)
    ensures Inv(Holding(s, r))
  {
    AdmitInFlight(s, r);
    AdmitWorst(s, r);
    forall k ensures KeyHeld(Holding(s, r), k) {
      assert KeyHeld(s, k);
      AdmitFrame(s, r, k);
    }
  }

  // ---------------------------------------------------------------------------
  // Steps that do not admit
  // ---------------------------------------------------------------------------

  /** The step touches neither the objects under this key nor what covers them. */
  ghost predicate Untouched(s: State, s': State, k: string) {
    && (k in s'.pending <==> k in s.pending) && (k in s.pending ==> s'.pending[k] == s.pending[k])
    && (k in s'.stored ==> k in s.stored && s'.stored[k] == s.stored[k])
    && (Live(s, k) ==> Live(s', k) && s'.reservations[k] == s.reservations[k])
    && (k in s.owner ==> k in s'.owner && s'.owner[k] == s.owner[k])
    && (k in s.stored ==> At(Base(s', s.stored[k].tenant), k) == At(Base(s, s.stored[k].tenant), k))
  }

  lemma UntouchedHeld(s: State, s': State, k: string)
    requires KeyHeld(s, k) && Untouched(s, s', k)
    requires Live(s', k) ==> NonNegative(s'.reservations[k].charge)
    ensures KeyHeld(s', k)
  {
    if k in s'.stored && k !in s'.pending {
      var t := s.stored[k].tenant;
      assert Covered(s, k) && Leq(OwnAt(s, t, k), OwnAt(s', t, k));
    }
  }

  /** The worst case of every tenant is no larger, key by key. */
  ghost predicate ClaimsShrink(s: State, s': State) {
    forall t, k :: Leq(Claim(s', t, k), Claim(s, t, k))
  }

  lemma WithinStays(s: State, s': State)
    requires KeysHeld(s) && WorstWithin(s) && s'.quotas == s.quotas && ClaimsShrink(s, s')
    ensures WorstWithin(s')
  {
    forall t | t in s'.quotas ensures Leq(Total(Worst(s', t)), Ceiling(s'.quotas[t])) {
      WorstPositive(s, t);
      forall k | k in Worst(s', t) ensures Leq(Worst(s', t)[k], At(Worst(s, t), k)) {
        WorstAt(s, t, k);
      }
      TotalMonotone(Worst(s', t), Worst(s, t));
    }
  }

  /** Same stored and pending objects: the same claims. */
  lemma SameClaims(s: State, s': State)
    requires s'.stored == s.stored && s'.pending == s.pending
    ensures ClaimsShrink(s, s')
  {
    forall t, k ensures Leq(Claim(s', t, k), Claim(s, t, k)) {
      assert Current(s', t, k) == Current(s, t, k) && Prospect(s', t, k) == Prospect(s, t, k);
    }
  }

  /** Fewer reservations, or a later clock, cannot raise the in-flight total. */
  lemma FewerInFlight(m: Reservations, m': Reservations, now: int, now': int)
    requires AllNonNegative(m) && Within32(AllInFlight(m, now)) && now <= now'
    requires forall k :: k in m' ==> k in m && m'[k] == m[k]
    ensures AllNonNegative(m') && Within32(AllInFlight(m', now'))
  {
    var live := map k | k in m && !Expired(m[k], now) :: m[k].charge;
    var live' := map k | k in m' && !Expired(m'[k], now') :: m'[k].charge;
    assert forall k :: k in live' ==> k in live && live'[k] == live[k];
    TotalMonotone(live', live);
    TotalNonNegative(live');
  }

  /** A step that changes no object, loses reservations at most and leaves every key held. */
  lemma QuietKeeps(s: State, s': State)
    requires Inv(s) && s'.stored == s.stored && s'.pending == s.pending && s'.quotas == s.quotas && s.now <= s'.now
    requires forall k :: k in s'.reservations ==> k in s.reservations && s'.reservations[k] == s.reservations[k]
    requires CountsSmall(s') && ReadingsHeld(s') && KeysHeld(s')
    ensures Inv(s')
  {
    SameClaims(s, s');
    WithinStays(s, s');
    FewerInFlight(s.reservations, s'.reservations, s.now, s'.now);
  }

  /** Which requests are being read plays no part in what covers a key. */
  lemma ReadingFrame(s: State, reading: map<nat, Request>, k: string)
    requires KeyHeld(s, k) && AllNonNegative(s.reservations)
    ensures KeyHeld(s.(reading := reading), k)
  {
    UntouchedHeld(s, s.(reading := reading), k);
  }

  lemma ReadingKeeps(s: State, reading: map<nat, Request>)
    requires Inv(s) && ReadingsHeld(s.(reading := reading))
    ensures Inv(s.(reading := reading))
  {
    var s' := s.(reading := reading);
    forall k ensures KeyHeld(s', k) {
      assert KeyHeld(s, k);
      ReadingFrame(s, reading, k);
    }
    assert CountsSmall(s');
    QuietKeeps(s, s');
  }

  /** A request that arrives has read valid objects and its tenant's quota. */
  lemma ReadHolds(s: State, a: Action, id: nat)
    requires Inv(s) && a.Reads? && Enabled(s, a) && id in Next(s, a).reading
    ensures ReadingHeld(Next(s, a), Next(s, a).reading[id])
  {
    if id == a.id {
      assert a.oldSpec.Some? ==> KeyHeld(s, a.key);
    } else {
      assert ReadingHeld(s, s.reading[id]);
    }
  }

  lemma ReadKeeps(s: State, a: Action)
    requires Inv(s) && a.Reads? && Enabled(s, a)
    ensures Inv(Next(s, a))
  {
    forall id | id in Next(s, a).reading ensures ReadingHeld(Next(s, a), Next(s, a).reading[id]) {
      ReadHolds(s, a, id);
    }
    ReadingKeeps(s, Next(s, a).reading);
  }

  lemma DecidedKeeps(s: State, id: nat)
    requires Inv(s)
    ensures Inv(Decided(s, id))
  {
    forall i | i in Decided(s, id).reading ensures ReadingHeld(Decided(s, id), Decided(s, id).reading[i]) {
      assert ReadingHeld(s, s.reading[i]);
    }
    ReadingKeeps(s, s.reading - {id});
  }

  lemma StoreClaim(s: State, key: string, t: string, k: string)
    requires Enabled(s, Stores(key)) && KeyHeld(s, k)
    ensures Leq(Claim(Next(s, Stores(key)), t, k), Claim(s, t, k))
  {
  }

  lemma StoredCovered(s: State, key: string)
    requires KeyHeld(s, key) && AllNonNegative(s.reservations) && CountsSmall(s) && Enabled(s, Stores(key))
    ensures KeyHeld(Next(s, Stores(key)), key)
  {
    var s', t := Next(s, Stores(key)), s.pending[key].requested.tenant;
    ProspectCovered(s, t, key);
    assert Prospect(s, t, key) == UsageOf(s'.stored[key]);
    assert OwnAt(s', t, key) == OwnAt(s, t, key) && Base(s', t) == Base(s, t);
  }

  lemma StoreFrame(s: State, key: string, k: string)
    requires KeyHeld(s, k) && AllNonNegative(s.reservations) && CountsSmall(s) && Enabled(s, Stores(key))
    ensures KeyHeld(Next(s, Stores(key)), k)
  {
    var s' := Next(s, Stores(key));
    if k == key {
      StoredCovered(s, key);
    } else {
      UntouchedHeld(s, s', k);
    }
  }

  lemma StoreKeeps(s: State, key: string)
    requires Inv(s) && Enabled(s, Stores(key))
    ensures Inv(Next(s, Stores(key)))
  {
    var s' := Next(s, Stores(key));
    forall k ensures KeyHeld(s', k) {
      assert KeyHeld(s, k);
      StoreFrame(s, key, k);
    }
    forall t, k ensures Leq(Claim(s', t, k), Claim(s, t, k)) {
      assert KeyHeld(s, k);
      StoreClaim(s, key, t, k);
    }
    WithinStays(s, s');
  }

  lemma DropClaim(s: State, key: string, t: string, k: string)
    requires KeyHeld(s, k)
    ensures Leq(Claim(Next(s, Drops(key)), t, k), Claim(s, t, k))
  {
  }

  lemma DropFrame(s: State, key: string, k: string)
    requires KeyHeld(s, k) && AllNonNegative(s.reservations)
    ensures KeyHeld(Next(s, Drops(key)), k)
  {
    var s' := Next(s, Drops(key));
    if k == key && k in s.pending {
      if k in s.stored {
        OwnPositive(s, s.stored[k].tenant);
        assert OwnAt(s', s.stored[k].tenant, k) == OwnAt(s, s.stored[k].tenant, k);
      }
    } else {
      UntouchedHeld(s, s', k);
    }
  }

  lemma DropKeeps(s: State, key: string)
    requires Inv(s)
    ensures Inv(Next(s, Drops(key)))
  {
    var s' := Next(s, Drops(key));
    forall k ensures KeyHeld(s', k) {
      assert KeyHeld(s, k);
      DropFrame(s, key, k);
    }
    forall t, k ensures Leq(Claim(s', t, k), Claim(s, t, k)) {
      assert KeyHeld(s, k);
      DropClaim(s, key, t, k);
    }
    WithinStays(s, s');
  }

  lemma DeleteClaim(s: State, key: string, t: string, k: string)
    requires KeyHeld(s, k)
    ensures Leq(Claim(Next(s, Deletes(key)), t, k), Claim(s, t, k))
  {
  }

  lemma DeleteFrame(s: State, key: string, k: string)
    requires KeyHeld(s, k) && AllNonNegative(s.reservations)
    ensures KeyHeld(Next(s, Deletes(key)), k)
  {
    UntouchedHeld(s, Next(s, Deletes(key)), k);
  }

  lemma DeleteClaims(s: State, key: string)
    requires KeysHeld(s)
    ensures ClaimsShrink(s, Next(s, Deletes(key)))
  {
    forall t, k ensures Leq(Claim(Next(s, Deletes(key)), t, k), Claim(s, t, k)) {
      assert KeyHeld(s, k);
      DeleteClaim(s, key, t, k);
    }
  }

  lemma DeleteKeeps(s: State, key: string)
    requires Inv(s)
    ensures Inv(Next(s, Deletes(key)))
  {
    var s' := Next(s, Deletes(key));
    forall k ensures KeyHeld(s', k) {
      assert KeyHeld(s, k);
      DeleteFrame(s, key, k);
    }
    DeleteClaims(s, key);
    WithinStays(s, s');
  }

  // ---------------------------------------------------------------------------
  // The reconciler, the clock and restarts
  // ---------------------------------------------------------------------------

  lemma ListFrame(s: State, t: string, k: string)
    requires KeyHeld(s, k) && AllNonNegative(s.reservations) && Enabled(s, Lists(t))
    ensures KeyHeld(Next(s, Lists(t)), k)
  {
    var s' := Next(s, Lists(t));
    if StoredFor(s, t, k) {
      OwnPositive(s', t);
      assert At(Base(s', t), k) == UsageOf(s.stored[k]) && OwnAt(s', t, k) == At(Own(s', t), k);
    } else {
      UntouchedHeld(s, s', k);
    }
  }

  lemma ListKeeps(s: State, t: string)
    requires Inv(s) && Enabled(s, Lists(t))
    ensures Inv(Next(s, Lists(t)))
  {
    var s' := Next(s, Lists(t));
    forall k ensures KeyHeld(s', k) {
      assert KeyHeld(s, k);
      ListFrame(s, t, k);
    }
    StoredBelowWorst(s, t);
    TotalNonNegative(StoredUsage(s, t));
    assert Fits(Total(StoredUsage(s, t)));
    QuietKeeps(s, s');
  }

  /** A key that is settled stays held when it loses its reservation. */
  lemma SettledHeld(s: State, s': State, k: string)
    requires KeyHeld(s, k) && Settled(s', k) && s'.stored == s.stored && s'.pending == s.pending
    requires AllNonNegative(s'.reservations)
    ensures KeyHeld(s', k)
  {
    if k in s.stored {
      OwnPositive(s', s.stored[k].tenant);
      assert OwnAt(s', s.stored[k].tenant, k) == At(Own(s', s.stored[k].tenant), k);
    }
  }

  lemma ReleaseFrame(s: State, t: string, key: string, k: string)
    requires KeyHeld(s, k) && AllNonNegative(s.reservations) && Enabled(s, Releases(t, key)) && Careful(s, Releases(t, key))
    ensures KeyHeld(Next(s, Releases(t, key)), k)
  {
    var s' := Next(s, Releases(t, key));
    if k == key {
      SettledHeld(s, s', k);
    } else {
      UntouchedHeld(s, s', k);
    }
  }

  lemma ReleaseKeeps(s: State, t: string, key: string)
    requires Inv(s) && Enabled(s, Releases(t, key)) && Careful(s, Releases(t, key))
    ensures Inv(Next(s, Releases(t, key)))
  {
    var s' := Next(s, Releases(t, key));
    forall k ensures KeyHeld(s', k) {
      assert KeyHeld(s, k);
      ReleaseFrame(s, t, key, k);
    }
    QuietKeeps(s, s');
  }

  lemma WriteFrame(s: State, t: string, k: string)
    requires KeyHeld(s, k) && AllNonNegative(s.reservations) && Enabled(s, WritesStatus(t))
    ensures KeyHeld(Next(s, WritesStatus(t)), k)
  {
    var s' := Next(s, WritesStatus(t));
    UntouchedHeld(s, s', k);
  }

  lemma WriteKeeps(s: State, t: string)
    requires Inv(s) && Enabled(s, WritesStatus(t))
    ensures Inv(Next(s, WritesStatus(t)))
  {
    var s' := Next(s, WritesStatus(t));
    forall k ensures KeyHeld(s', k) {
      assert KeyHeld(s, k);
      WriteFrame(s, t, k);
    }
    QuietKeeps(s, s');
  }

  lemma FailFrame(s: State, t: string, k: string)
    requires KeyHeld(s, k) && AllNonNegative(s.reservations) && Enabled(s, Fails(t)) && Careful(s, Fails(t))
    ensures KeyHeld(Next(s, Fails(t)), k)
  {
    var s' := Next(s, Fails(t));
    if StoredFor(s, t, k) {
      assert Backed(s', k);
    } else {
      UntouchedHeld(s, s', k);
    }
  }

  lemma FailKeeps(s: State, t: string)
    requires Inv(s) && Enabled(s, Fails(t)) && Careful(s, Fails(t))
    ensures Inv(Next(s, Fails(t)))
  {
    var s' := Next(s, Fails(t));
    forall k ensures KeyHeld(s', k) {
      assert KeyHeld(s, k);
      FailFrame(s, t, k);
    }
    QuietKeeps(s, s');
  }

  lemma DecidedAdmissible(s: State, id: nat)
    requires CountsSmall(s) && ReadingsHeld(s) && Enabled(s, Admits(id)) && Careful(s, Admits(id))
    requires s.reading[id].requested.tenant !in s.listings && Decide(s.reservations, s.now, s.reading[id]).Admitted?
    ensures Admissible(Decided(s, id), s.reading[id])
  {
    assert ReadingHeld(s, s.reading[id]);
  }

  lemma AdmitUnlisted(s: State, id: nat)
    requires Inv(s) && Enabled(s, Admits(id)) && Careful(s, Admits(id))
    requires s.reading[id].requested.tenant !in s.listings && Decide(s.reservations, s.now, s.reading[id]).Admitted?
    ensures Inv(Holding(Decided(s, id), s.reading[id]))
  {
    DecidedKeeps(s, id);
    DecidedAdmissible(s, id);
    HoldingKeeps(Decided(s, id), s.reading[id]);
  }

  lemma UnlistedCareful(s: State, id: nat, t: string)
    requires Enabled(s, Admits(id)) && Careful(s, Admits(id)) && t == s.reading[id].requested.tenant && t in s.listings
    ensures Careful(Unlisted(s, t), Admits(id)) && Careful(s, Fails(t)) && Next(s, Fails(t)) == Unlisted(s, t)
  {
  }

  lemma HeldByListing(s: State, r: Request)
    requires KeysHeld(s) && AllNonNegative(s.reservations) && Sound(s, r)
    ensures KeysHeld(Holding(s, r))
  {
    forall k ensures KeyHeld(Holding(s, r), k) {
      assert KeyHeld(s, k);
      AdmitFrame(s, r, k);
    }
  }

  lemma ListingsKeep(s: State, s': State)
    requires Inv(s) && s' == s.(listings := s'.listings) && CountsSmall(s') && KeysHeld(s')
    ensures Inv(s')
  {
    assert forall id :: id in s'.reading ==> ReadingHeld(s, s.reading[id]);
    QuietKeeps(s, s');
  }

  lemma DecidedSound(s: State, id: nat)
    requires ReadingsHeld(s) && Enabled(s, Admits(id)) && Careful(s, Admits(id))
    ensures Sound(Decided(s, id), s.reading[id])
  {
    assert ReadingHeld(s, s.reading[id]);
  }

  /** With a listing in progress the status as written decides. */
  lemma StatusDecides(s: State, id: nat, t: string)
    requires Inv(s) && Enabled(s, Admits(id)) && Careful(s, Admits(id)) && Decide(s.reservations, s.now, s.reading[id]).Admitted?
    requires t == s.reading[id].requested.tenant && t in s.listings
    ensures Inv(Holding(Decided(Unlisted(s, t), id), s.reading[id]))
  {
    UnlistedCareful(s, id, t);
    FailKeeps(s, t);
    AdmitUnlisted(Unlisted(s, t), id);
  }

  /** And the listing counts what it counted. */
  lemma ListingHolds(s: State, id: nat)
    requires Inv(s) && Enabled(s, Admits(id)) && Careful(s, Admits(id))
    ensures KeysHeld(Holding(Decided(s, id), s.reading[id]))
  {
    DecidedKeeps(s, id);
    DecidedSound(s, id);
    HeldByListing(Decided(s, id), s.reading[id]);
  }

  lemma RelistHolding(s: State, id: nat, r: Request, t: string)
    requires CountsSmall(s)
    ensures var held, unlisted := Holding(Decided(s, id), r), Holding(Decided(Unlisted(s, t), id), r);
            held == unlisted.(listings := held.listings) && CountsSmall(held)
  {
  }

  lemma AdmitListed(s: State, id: nat, t: string)
    requires Inv(s) && Enabled(s, Admits(id)) && Careful(s, Admits(id)) && Decide(s.reservations, s.now, s.reading[id]).Admitted?
    requires t == s.reading[id].requested.tenant && t in s.listings
    ensures Inv(Holding(Decided(s, id), s.reading[id]))
  {
    var r := s.reading[id];
    StatusDecides(s, id, t);
    ListingHolds(s, id);
    RelistHolding(s, id, r, t);
    ListingsKeep(Holding(Decided(Unlisted(s, t), id), r), Holding(Decided(s, id), r));
  }

  lemma AdmitKeeps(s: State, id: nat)
    requires Inv(s) && Enabled(s, Admits(id)) && Careful(s, Admits(id))
    ensures Inv(Next(s, Admits(id)))
  {
    if !Decide(s.reservations, s.now, s.reading[id]).Admitted? {
      DecidedKeeps(s, id);
    } else if s.reading[id].requested.tenant !in s.listings {
      AdmitUnlisted(s, id);
    } else {
      AdmitListed(s, id, s.reading[id].requested.tenant);
    }
  }

  lemma TickFrame(s: State, now: int, k: string)
    requires KeyHeld(s, k) && AllNonNegative(s.reservations) && Enabled(s, Tick(now)) && Careful(s, Tick(now))
    ensures KeyHeld(Next(s, Tick(now)), k)
  {
    var s' := Next(s, Tick(now));
    if Live(s, k) && !Live(s', k) {
      SettledHeld(s, s', k);
    } else {
      UntouchedHeld(s, s', k);
    }
  }

  lemma TickKeeps(s: State, now: int)
    requires Inv(s) && Enabled(s, Tick(now)) && Careful(s, Tick(now))
    ensures Inv(Next(s, Tick(now)))
  {
    var s' := Next(s, Tick(now));
    forall k ensures KeyHeld(s', k) {
      assert KeyHeld(s, k);
      TickFrame(s, now, k);
    }
    QuietKeeps(s, s');
  }

  lemma SweepFrame(s: State, k: string)
    requires KeyHeld(s, k) && AllNonNegative(s.reservations)
    ensures KeyHeld(Next(s, Sweeps), k)
  {
    var s' := Next(s, Sweeps);
    UntouchedHeld(s, s', k);
  }

  lemma SweepKeeps(s: State)
    requires Inv(s)
    ensures Inv(Next(s, Sweeps))
  {
    var s' := Next(s, Sweeps);
    forall k ensures KeyHeld(s', k) {
      assert KeyHeld(s, k);
      SweepFrame(s, k);
    }
    QuietKeeps(s, s');
  }

  lemma RestartFrame(s: State, k: string)
    requires KeyHeld(s, k) && Careful(s, Restarts)
    ensures KeyHeld(Next(s, Restarts), k)
  {
    var s', unlisted := Next(s, Restarts), s.(listings := map[]);
    assert Settled(unlisted, k);
    SettledHeld(s, s', k);
  }

  lemma RestartKeeps(s: State)
    requires Inv(s) && Careful(s, Restarts)
    ensures Inv(Next(s, Restarts))
  {
    var s' := Next(s, Restarts);
    forall k ensures KeyHeld(s', k) {
      assert KeyHeld(s, k);
      RestartFrame(s, k);
    }
    assert CountsSmall(s') && ReadingsHeld(s');
    QuietKeeps(s, s');
  }

  lemma NextKeeps(s: State, a: Action)
    requires Inv(s) && Enabled(s, a) && Careful(s, a)
    ensures Inv(Next(s, a))
  {
    match a
    case Reads(_, _, _, _) => ReadKeeps(s, a);
    case Admits(id) => AdmitKeeps(s, id);
    case Stores(key) => StoreKeeps(s, key);
    case Drops(key) => DropKeeps(s, key);
    case Deletes(key) => DeleteKeeps(s, key);
    case Lists(t) => ListKeeps(s, t);
    case Releases(t, key) => ReleaseKeeps(s, t, key);
    case WritesStatus(t) => WriteKeeps(s, t);
    case Fails(t) => FailKeeps(s, t);
    case Tick(now) => TickKeeps(s, now);
    case Sweeps => SweepKeeps(s);
    case Restarts => RestartKeeps(s);
  }

  // ---------------------------------------------------------------------------
  // Runs
  // ---------------------------------------------------------------------------

  /** A run as the sequence of its states. */
  ghost predicate Run(states: seq<State>, acts: seq<Action>) {
    && |states| == |acts| + 1
    && forall i :: 0 <= i < |acts| ==> Enabled(states[i], acts[i]) && states[i + 1] == Next(states[i], acts[i])
  }

  /** Nothing in flight, every status fresh and every tenant within its quota. */
  ghost predicate Initial(s: State) {
    && s.reading == map[] && s.pending == map[] && s.reservations == map[] && s.listings == map[]
    && s.quotas.Keys == s.counted.Keys
    && (forall k :: k in s.stored ==> ValidSpec(s.stored[k]) && s.stored[k].tenant in s.counted)
    && (forall t :: t in s.counted ==> s.counted[t] == StoredUsage(s, t))
    && (forall t :: t in s.quotas ==> Leq(Total(StoredUsage(s, t)), Ceiling(s.quotas[t])))
  }

  lemma InitialCounts(s: State)
    requires Initial(s)
    ensures CountsSmall(s)
  {
    forall t | t in s.counted ensures Countable(s.counted[t]) {
      assert forall k :: k in s.counted[t] ==> NonNegative(s.counted[t][k]);
      TotalNonNegative(s.counted[t]);
      assert t in s.quotas;
    }
  }

  lemma InitialKeys(s: State, k: string)
    requires Initial(s)
    ensures KeyHeld(s, k)
  {
    if k in s.stored {
      var t := s.stored[k].tenant;
      assert At(Base(s, t), k) == UsageOf(s.stored[k]);
    }
  }

  lemma InitialWorst(s: State, t: string)
    requires Initial(s) && t in s.quotas
    ensures Leq(Total(Worst(s, t)), Ceiling(s.quotas[t]))
  {
    var m, a := Worst(s, t), StoredUsage(s, t);
    forall k | k in m ensures Leq(m[k], At(a, k)) {
      assert m[k] == Max(Current(s, t, k), ZERO);
    }
    TotalMonotone(m, a);
  }

  lemma InitialInv(s: State)
    requires Initial(s)
    ensures Inv(s)
  {
    assert (map k | k in s.reservations && !Expired(s.reservations[k], s.now) :: s.reservations[k].charge) == map[];
    InitialCounts(s);
    forall t | t in s.quotas ensures Leq(Total(Worst(s, t)), Ceiling(s.quotas[t])) {
      InitialWorst(s, t);
    }
    forall k ensures KeyHeld(s, k) {
      InitialKeys(s, k);
    }
  }

  lemma {:induction false} InvAlways(states: seq<State>, acts: seq<Action>, i: nat)
    requires Run(states, acts) && Initial(states[0]) && i < |states|
    requires forall n :: 0 <= n < |acts| ==> Careful(states[n], acts[n])
    ensures Inv(states[i])
  {
    if i == 0 {
      InitialInv(states[0]);
    } else {
      InvAlways(states, acts, i - 1);
      NextKeeps(states[i - 1], acts[i - 1]);
    }
  }

  /** An admitted request holds its delta for five seconds: live at every clock reading up to then, and at none after. */
  lemma ReservationLasts(s: State, id: nat, now: int)
    requires Enabled(s, Admits(id)) && Decide(s.reservations, s.now, s.reading[id]).Admitted? && s.now <= now
    ensures var r, s' := s.reading[id], Next(Next(s, Admits(id)), Tick(now));
            && r.key in s'.reservations && s'.reservations[r.key].charge == Delta(r)
            && (Live(s', r.key) <==> now <= s.now + 5 * SECOND)
  {
  }

  lemma ListedSettled(s: State, t: string, key: string)
    requires Enabled(s, Lists(t)) && Settled(s, key)
    ensures Settled(Next(s, Lists(t)), key)
  {
    if StoredFor(s, t, key) {
      assert At(Base(Next(s, Lists(t)), t), key) == UsageOf(s.stored[key]);
    }
  }

  lemma ListedBacks(s: State, t: string)
    requires KeysHeld(s) && Enabled(s, Lists(t))
    ensures Unlisted(Next(s, Lists(t)), t) == s && StatusBacks(Next(s, Lists(t)), t)
  {
    assert Unlisted(Next(s, Lists(t)), t) == s;
    forall k | StoredFor(s, t, k) ensures Backed(s, k) {
      assert KeyHeld(s, k);
    }
  }

  /** Other tenants' listings are as before. */
  lemma ListedElsewhere(s: State, t: string, x: string, key: string)
    requires Enabled(s, Lists(t)) && x != t && x in s.listings && StatusBacks(s, x) && Settled(Unlisted(s, x), key)
    ensures StatusBacks(Next(s, Lists(t)), x) && Settled(Unlisted(Next(s, Lists(t)), x), key)
  {
    var s' := Next(s, Lists(t));
    assert Unlisted(s', x) == Next(Unlisted(s, x), Lists(t));
    ListedSettled(Unlisted(s, x), t, key);
    forall k | StoredFor(s', x, k) ensures Backed(Unlisted(s', x), k) {
      assert Backed(Unlisted(s, x), k);
    }
  }

  /** A listing by itself shuts nobody out: a request that could be admitted before it can be right after it. */
  lemma ListingShutsNothing(s: State, t: string, id: nat)
    requires Inv(s) && Enabled(s, Lists(t)) && Enabled(s, Admits(id)) && Careful(s, Admits(id))
    ensures Careful(Next(s, Lists(t)), Admits(id))
  {
    var r := s.reading[id];
    ListedSettled(s, t, r.key);
    if r.requested.tenant == t {
      ListedBacks(s, t);
    } else if r.requested.tenant in s.listings {
      ListedElsewhere(s, t, r.requested.tenant, r.key);
    }
  }

  /**
   Stored-object barrier: in every run whose steps respect the hypotheses, the usage
   recomputed from the stored agents of any tenant is within its quota, in every state.
   */
  lemma StoredWithinQuota(states: seq<State>, acts: seq<Action>, i: nat, t: string)
    requires Run(states, acts) && Initial(states[0]) && i < |states| && t in states[i].quotas
    requires forall n :: 0 <= n < |acts| ==> Careful(states[n], acts[n])
    ensures !OverQuota(states[i].quotas[t], Total(StoredUsage(states[i], t)))
  {
    InvAlways(states, acts, i);
    StoredBelowWorst(states[i], t);
  }
}
