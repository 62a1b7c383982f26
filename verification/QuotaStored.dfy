/**
 From admissions to stored objects: webhook, API server, TenantQuota reconciler and
 enforcer interleaved. A request reads the quota's status first and is decided against
 that snapshot later, under the enforcer's lock
 (internal/webhook/agentdeployment_webhook.go); it is stored later still. The reconciler
 lists the stored agents, releases their reservations one by one and then writes the
 recomputed usage to the status, which may fail
 (internal/controller/tenantquota_controller.go). Between any two of these steps anything
 may happen.
 */
module QuotaStored {
  import opened Options
  import opened Durations
  import opened Usages
  import opened QuotaMath
  import opened QuotaEnforcer

  /** reservationTTL of the webhook, in nanoseconds. */
  const RESERVATION_TTL: int := 5 * SECOND

  /** An admitted request the API server has not yet stored. */
  datatype Pending = Pending(requested: AgentSpec, oldSpec: Option<AgentSpec>)

  /** Usage per agent, as one status write or one listing of a tenant counted it. */
  type Recount = map<string, Usage>

  /** A reconcile between its listing and its status write. */
  datatype Listing = Listing(usage: Recount, unreleased: set<string>)

  /**
   stored: the AgentDeployments; reading: requests that have read their tenant's status
   but are not decided; pending: admitted requests, by key; owner: whose request wrote
   each reservation; counted: what each tenant's status was last computed from.
   */
  datatype State = State(
    stored: map<string, AgentSpec>, reading: map<nat, Request>, pending: map<string, Pending>,
    reservations: Reservations, owner: map<string, string>,
    counted: map<string, Recount>, listings: map<string, Listing>,
    quotas: map<string, Quota>, now: int)

  datatype Action =
    | Reads(id: nat, key: string, requested: AgentSpec, oldSpec: Option<AgentSpec>)
    | Admits(id: nat)
    | Stores(key: string)
    | Drops(key: string)        // an admitted request fails later in the API server
    | Deletes(key: string)
    | Lists(tenant: string)
    | Releases(tenant: string, key: string)
    | WritesStatus(tenant: string)
    | Fails(tenant: string)     // the reconcile ends without its status write
    | Tick(now: int)
    | Sweeps
    | Restarts                  // the operator process is replaced

  function Lookup(m: map<string, AgentSpec>, key: string): Option<AgentSpec> {
    if key in m then Some(m[key]) else None
  }

  /** The stored usage of one tenant, agent by agent. */
  function StoredUsage(s: State, t: string): Recount {
    map k | k in s.stored && s.stored[k].tenant == t :: UsageOf(s.stored[k])
  }

  /** What a tenant's status shows: int32 counters. */
  ghost function StatusOf(s: State, t: string): Usage
    requires t in s.counted
  {
    Wrapped(Total(s.counted[t]))
  }

  ghost predicate ValidRequest(requested: AgentSpec, oldSpec: Option<AgentSpec>) {
    ValidSpec(requested) && (oldSpec.Some? ==> ValidSpec(oldSpec.value))
  }

  /** A create carries no old object, an update the one that is stored when it arrives. */
  ghost predicate Enabled(s: State, a: Action) {
    match a
    case Reads(id, key, requested, oldSpec) =>
      && id !in s.reading && requested.tenant in s.quotas && requested.tenant in s.counted
      && ValidSpec(requested) && (oldSpec.None? || oldSpec == Lookup(s.stored, key))
    case Admits(id) => id in s.reading
    case Stores(key) => key in s.pending && Lookup(s.stored, key) == s.pending[key].oldSpec
    case Drops(key) => true
    case Deletes(key) => true
    case Lists(t) => t in s.quotas && t in s.counted && t !in s.listings
    case Releases(t, key) => t in s.listings && key in s.listings[t].unreleased
    case WritesStatus(t) => t in s.listings && s.listings[t].unreleased == {}
    case Fails(t) => t in s.listings
    case Tick(now) => now >= s.now
    case Sweeps => true
    case Restarts => true
  }

  /** The state after a request has been admitted. */
  ghost function Holding(s: State, r: Request): State {
    s.(reservations := s.reservations[r.key := Entry(Delta(r), s.now + RESERVATION_TTL)],
    owner := s.owner[r.key := r.requested.tenant],
    pending := s.pending[r.key := Pending(r.requested, r.oldSpec)])
  }

  ghost function Decided(s: State, id: nat): State {
    s.(reading := s.reading - {id})
  }

  ghost function Next(s: State, a: Action): State
    requires Enabled(s, a)
  {
    match a
    case Reads(id, key, requested, oldSpec) =>
      var t := requested.tenant;
      s.(reading := s.reading[id := Request(key, s.quotas[t], StatusOf(s, t), requested, oldSpec)])
    case Admits(id) =>
      var r := s.reading[id];
      if Decide(s.reservations, s.now, r).Admitted? then Holding(Decided(s, id), r) else Decided(s, id)
    case Stores(key) => s.(stored := s.stored[key := s.pending[key].requested], pending := s.pending - {key})
    case Drops(key) => s.(pending := s.pending - {key})
    case Deletes(key) => s.(stored := s.stored - {key})
    case Lists(t) => s.(listings := s.listings[t := Listing(StoredUsage(s, t), StoredUsage(s, t).Keys)])
    case Releases(t, key) =>
      var listing := s.listings[t];
      s.(reservations := s.reservations - {key},
      listings := s.listings[t := listing.(unreleased := listing.unreleased - {key})])
    case WritesStatus(t) => s.(counted := s.counted[t := s.listings[t].usage], listings := s.listings - {t})
    case Fails(t) => s.(listings := s.listings - {t})
    case Tick(now) => s.(now := now)
    case Sweeps => s.(reservations := Swept(s.reservations, s.now))
    case Restarts => s.(reservations := map[], listings := map[], reading := map[])
  }

  // ---------------------------------------------------------------------------
  // The hypotheses
  // ---------------------------------------------------------------------------

  /** What the tenant's status counts, or will count once the listing in progress is written. */
  function Base(s: State, t: string): Recount {
    if t in s.listings then s.listings[t].usage else if t in s.counted then s.counted[t] else map[]
  }

  /** The stored agent under this key, if any, is counted in full by its tenant's status. */
  ghost predicate Counted(s: State, key: string) {
    key in s.stored ==> Leq(UsageOf(s.stored[key]), At(Base(s, s.stored[key].tenant), key))
  }

  /** The charge under this key is no longer needed. */
  ghost predicate Settled(s: State, key: string) {
    key !in s.pending && Counted(s, key)
  }

  /** No admission is decided on a status that has grown since it was read. */
  ghost predicate NoStaleStatus(s: State, a: Action) {
    a.Admits? && a.id in s.reading && s.reading[a.id].requested.tenant in s.counted ==>
      Leq(StatusOf(s, s.reading[a.id].requested.tenant), s.reading[a.id].committed)
  }

  /** The state as if the tenant's listing in progress were given up. */
  ghost function Unlisted(s: State, t: string): State {
    s.(listings := s.listings - {t})
  }

  /** The status as written still backs every stored agent of the tenant. */
  ghost predicate StatusBacks(s: State, t: string) {
    forall k :: StoredFor(s, t, k) ==> Backed(Unlisted(s, t), k)
  }

  /**
   No admission falls where only a listing still to be written counts an agent: from the
   release, or the expiry, of a charge to the end of that reconcile.
   */
  ghost predicate NoUnbackedAdmission(s: State, a: Action) {
    a.Admits? && a.id in s.reading ==>
      var t := s.reading[a.id].requested.tenant;
      t in s.listings ==> StatusBacks(s, t) && Settled(Unlisted(s, t), s.reading[a.id].key)
  }

  /** No reservation expires before its agent is stored and counted. */
  ghost predicate NoUncountedExpiry(s: State, a: Action) {
    a.Tick? ==> forall k :: Live(s, k) && Expired(s.reservations[k], a.now) ==> Settled(s, k)
  }

  /** No key is admitted again on top of a charge that is not yet counted. */
  ghost predicate NoReadmission(s: State, a: Action) {
    a.Admits? && a.id in s.reading ==> Settled(s, s.reading[a.id].key)
  }

  /** No reconcile releases a charge its listing does not count: of a pending update, or of a move. */
  ghost predicate NoUncountedRelease(s: State, a: Action) {
    a.Releases? ==> Settled(s, a.key)
  }

  /** No admission lowers a dimension. */
  ghost predicate NoCredit(s: State, a: Action) {
    a.Admits? && a.id in s.reading ==> NonNegative(Delta(s.reading[a.id]))
  }

  /** No reconcile fails after it released a charge that the old status does not count. */
  ghost predicate NoLostWrite(s: State, a: Action) {
    a.Fails? ==> StatusBacks(s, a.tenant)
  }

  /** The operator restarts only when every charge is settled by what the statuses count. */
  ghost predicate NoUncountedRestart(s: State, a: Action) {
    a.Restarts? ==> forall k :: Settled(s.(listings := map[]), k)
  }

  ghost predicate Careful(s: State, a: Action) {
    && NoStaleStatus(s, a) && NoUnbackedAdmission(s, a) && NoUncountedExpiry(s, a) && NoReadmission(s, a)
    && NoUncountedRelease(s, a) && NoCredit(s, a) && NoLostWrite(s, a) && NoUncountedRestart(s, a)
  }

  // ---------------------------------------------------------------------------
  // The invariant
  // ---------------------------------------------------------------------------

  ghost predicate Live(s: State, key: string) {
    key in s.reservations && !Expired(s.reservations[key], s.now)
  }

  /** The live charges one tenant's requests wrote. */
  ghost function Own(s: State, t: string): Recount {
    map k | k in s.reservations && !Expired(s.reservations[k], s.now) && k in s.owner && s.owner[k] == t
      :: s.reservations[k].charge
  }

  /** The tenant's own live charge under one key. */
  ghost function OwnAt(s: State, t: string, k: string): (u: Usage)
    ensures u == At(Own(s, t), k)
  {
    if Live(s, k) && k in s.owner && s.owner[k] == t then s.reservations[k].charge else ZERO
  }

  ghost predicate StoredFor(s: State, t: string, k: string) {
    k in s.stored && s.stored[k].tenant == t
  }

  /** The API server may still store the request: at once, or, for a create, once the name is free. */
  ghost predicate MayStore(s: State, k: string) {
    k in s.pending && (s.pending[k].oldSpec.None? || Lookup(s.stored, k) == s.pending[k].oldSpec)
  }

  ghost function Current(s: State, t: string, k: string): Usage {
    if StoredFor(s, t, k) then UsageOf(s.stored[k]) else ZERO
  }

  ghost function Prospect(s: State, t: string, k: string): Usage {
    if MayStore(s, k) && s.pending[k].requested.tenant == t then UsageOf(s.pending[k].requested) else ZERO
  }

  /** What a key uses or may come to use in tenant t. */
  ghost function Claim(s: State, t: string, k: string): Usage {
    Max(Current(s, t, k), Prospect(s, t, k))
  }

  /** The usage a tenant may come to have if every admitted request is stored. */
  ghost function Worst(s: State, t: string): Recount {
    map k | k in s.stored.Keys + s.pending.Keys :: Claim(s, t, k)
  }

  /** An admitted request holds a live reservation for exactly its delta. */
  ghost predicate PendingHeld(s: State, k: string)
    requires k in s.pending
  {
    var p := s.pending[k];
    && ValidRequest(p.requested, p.oldSpec)
    && Live(s, k) && k in s.owner && s.owner[k] == p.requested.tenant
    && s.reservations[k].charge == ComputeDelta(p.requested, p.oldSpec)
  }

  /** A stored agent is covered by its tenant's status together with its own reservation. */
  ghost predicate Covered(s: State, k: string)
    requires k in s.stored
  {
    var t := s.stored[k].tenant;
    Leq(UsageOf(s.stored[k]), Add(At(Base(s, t), k), OwnAt(s, t, k)))
  }

  /** A stored agent is counted, or at least covered while no other request relies on its reservation. */
  ghost predicate Backed(s: State, k: string)
    requires k in s.stored
  {
    if k in s.pending then Counted(s, k) else Covered(s, k)
  }

  ghost predicate KeyHeld(s: State, k: string) {
    && (k in s.pending ==> PendingHeld(s, k))
    && (k in s.stored ==> ValidSpec(s.stored[k]) && Backed(s, k))
  }

  ghost predicate KeysHeld(s: State) {
    forall k :: KeyHeld(s, k)
  }

  ghost predicate Positive(m: Recount) {
    forall k :: k in m ==> NonNegative(m[k])
  }

  ghost predicate InFlightSmall(s: State) {
    AllNonNegative(s.reservations) && Within32(AllInFlight(s.reservations, s.now))
  }

  ghost predicate Countable(m: Recount) {
    Positive(m) && Fits(Total(m))
  }

  ghost predicate CountsSmall(s: State) {
    && (forall t :: t in s.counted ==> Countable(s.counted[t]))
    && (forall t :: t in s.listings ==> Countable(s.listings[t].usage))
  }

  /** A request read its quota, which does not change, and only valid objects. */
  ghost predicate ReadingHeld(s: State, r: Request) {
    && ValidRequest(r.requested, r.oldSpec)
    && r.requested.tenant in s.quotas && r.requested.tenant in s.counted && r.quota == s.quotas[r.requested.tenant]
  }

  ghost predicate ReadingsHeld(s: State) {
    forall id :: id in s.reading ==> ReadingHeld(s, s.reading[id])
  }

  ghost predicate WorstWithin(s: State) {
    forall t :: t in s.quotas ==> Leq(Total(Worst(s, t)), Ceiling(s.quotas[t]))
  }

  ghost predicate Inv(s: State) {
    InFlightSmall(s) && CountsSmall(s) && ReadingsHeld(s) && KeysHeld(s) && WorstWithin(s)
  }
}
