/**
 The replica budget of a tenant's HorizontalPodAutoscalers
 (internal/scaling/autoscaler.go and reconcileHPA in
 internal/controller/agentdeployment_controller.go). Every agent computes its own
 headroom from what the others may use; no step looks at all of them together.
 */
module HpaBudget {
  import opened Usages
  import opened QuotaMath

  datatype Agent = Agent(name: string, tenant: string, min: i32, max: i32, terminating: bool)

  /** Whether one listed agent counts against another's budget. */
  predicate Counts(other: Agent, ad: Agent) {
    other.tenant == ad.tenant && other.name != ad.name && !other.terminating
  }

  /** The exact sum of spec.replicas.max over the other live agents of the tenant. */
  function UsedByOthers(list: seq<Agent>, ad: Agent): int {
    if list == [] then 0
    else
      var last := list[|list| - 1];
      UsedByOthers(list[..|list| - 1], ad) + if Counts(last, ad) then last.max else 0
  }

  /** replicasUsedByOtherAgents: an int32 accumulator. */
  method ReplicasUsedByOtherAgents(list: seq<Agent>, ad: Agent) returns (total: i32)
    ensures total == Wrap32(UsedByOthers(list, ad))
    ensures -0x8000_0000 <= UsedByOthers(list, ad) <= MAX32 ==> total == UsedByOthers(list, ad)
  {
    total := 0;
    for i := 0 to |list|
      invariant total == Wrap32(UsedByOthers(list[..i], ad))
    {
      var other := list[i];
      assert list[..i + 1][..i] == list[..i];
      if other.tenant != ad.tenant {
        continue;
      }
      if other.name == ad.name {
        continue;
      }
      if other.terminating {
        continue;
      }
      WrapAdd(UsedByOthers(list[..i], ad), other.max);
      total := Wrap32(total + other.max);
    }
    assert list[..|list|] == list;
  }

  function Min(a: int, b: int): int {
    if a < b then a else b
  }

  function Max(a: int, b: int): int {
    if a < b then b else a
  }

  /** QuotaHeadroom, with the int32 subtraction. */
  function QuotaHeadroom(q: Quota, usedByOthers: i32): i32 {
    var remaining := Wrap32(q.maxTotalReplicas - usedByOthers);
    var budget: i32 := if remaining < 0 then 0 else remaining;
    if budget < q.maxReplicasPerAgent then budget else q.maxReplicasPerAgent
  }

  /** The replica clamp of BuildHPA. */
  function HpaMaxReplicas(ad: Agent, headroom: i32): i32 {
    var capped := if headroom < ad.max then headroom else ad.max;
    if capped < ad.min then ad.min else capped
  }

  /**
   The clamp: never below minReplicas; above spec.replicas.max or the headroom only where
   that bound is below minReplicas, and then exactly minReplicas; as large as that allows.
   */
  lemma ClampedBetween(ad: Agent, headroom: i32, x: int)
    ensures var r := HpaMaxReplicas(ad, headroom);
            && r >= ad.min
            && (r > ad.max || r > headroom ==> r == ad.min)
            && (x <= ad.max && x <= headroom ==> x <= r)
  {
  }

  predicate IsQuotaCapped(ad: Agent, headroom: i32) {
    headroom < ad.max
  }

  /** The headroom reconcileHPA works with: what the loop above returns, subtracted. */
  function Headroom(list: seq<Agent>, q: Quota, ad: Agent): i32 {
    QuotaHeadroom(q, Wrap32(UsedByOthers(list, ad)))
  }

  // ---------------------------------------------------------------------------
  // When the int32 arithmetic is exact
  // ---------------------------------------------------------------------------

  /** Both wrap-arounds amount to one. */
  lemma {:induction false} WrapTwice(t: i32, used: nat)
    ensures Wrap32(t - Wrap32(used)) == Wrap32(t - used)
  {
    if used <= MAX32 {
    } else {
      if used >= 0x1_0000_0000 {
        WrapTwice(t, used - 0x1_0000_0000);
      }
      WrapPeriod(t - used);
    }
  }

  /** The uses by others, beyond the budget, that two's complement shows as room: none below 2^31. */
  predicate WrapsToRoom(excess: int) {
    excess > 0 && 0x8000_0000 <= (excess - 1) % 0x1_0000_0000 < 0xffff_ffff
  }

  lemma {:induction false} WrapSign(excess: int)
    requires excess > 0
    ensures Wrap32(-excess) > 0 <==> WrapsToRoom(excess)
  {
    if excess <= 0x1_0000_0000 {
    } else {
      WrapSign(excess - 0x1_0000_0000);
      WrapPeriod(-excess);
    }
  }

  /** The headroom for a given use by others, in unbounded arithmetic. */
  function ExactHeadroom(q: Quota, used: int): int {
    Min(q.maxReplicasPerAgent, Max(0, q.maxTotalReplicas - used))
  }

  /**
   The int32 headroom is the exact one if and only if the others' use does not exceed the
   total budget by an amount that wraps around to a positive number.
   */
  lemma HeadroomExactIff(q: Quota, used: nat)
    requires q.maxTotalReplicas >= 0
    ensures QuotaHeadroom(q, Wrap32(used)) == ExactHeadroom(q, used) <==>
            q.maxReplicasPerAgent <= 0 || !WrapsToRoom(used - q.maxTotalReplicas)
  {
    WrapTwice(q.maxTotalReplicas, used);
    if used > q.maxTotalReplicas {
      WrapSign(used - q.maxTotalReplicas);
    }
  }

  lemma HeadroomExact(q: Quota, used: nat)
    requires q.maxTotalReplicas >= 0 && !WrapsToRoom(used - q.maxTotalReplicas)
    ensures QuotaHeadroom(q, Wrap32(used)) == ExactHeadroom(q, used)
  {
    HeadroomExactIff(q, used);
  }

  // ---------------------------------------------------------------------------
  // The budget
  // ---------------------------------------------------------------------------

  predicate Live(a: Agent, t: string) {
    a.tenant == t && !a.terminating
  }

  /** The specs of one tenant's live agents: distinct names, counts as the schema demands. */
  ghost predicate Tenant(list: seq<Agent>) {
    && (forall i, j :: 0 <= i < j < |list| ==> list[i].name != list[j].name)
    && (forall i :: 0 <= i < |list| ==> list[i].max >= 1 && list[i].min >= 0)
  }

  function Wanted(a: Agent, t: string): int {
    if Live(a, t) then a.max else 0
  }

  /** The sum of spec.replicas.max over the tenant's live agents. */
  function Demand(list: seq<Agent>, t: string): int {
    if list == [] then 0 else Demand(list[..|list| - 1], t) + Wanted(list[|list| - 1], t)
  }

  function Floors(list: seq<Agent>, t: string): int {
    if list == [] then 0
    else
      var last := list[|list| - 1];
      Floors(list[..|list| - 1], t) + if Live(last, t) then last.min else 0
  }

  /** The others' use is the whole demand less one's own. */
  lemma {:induction false} OthersAreTheRest(list: seq<Agent>, i: nat)
    requires Tenant(list) && i < |list| && !list[i].terminating
    ensures UsedByOthers(list, list[i]) == Demand(list, list[i].tenant) - list[i].max
  {
    var n := |list| - 1;
    if i < n {
      assert list[..n][i] == list[i];
      OthersAreTheRest(list[..n], i);
    } else {
      NobodyElse(list[..n], list[i]);
    }
  }

  lemma {:induction false} NobodyElse(list: seq<Agent>, ad: Agent)
    requires forall j :: 0 <= j < |list| ==> list[j].name != ad.name
    ensures UsedByOthers(list, ad) == Demand(list, ad.tenant)
  {
    if list == [] {
    } else {
      NobodyElse(list[..|list| - 1], ad);
    }
  }

  lemma {:induction false} UsedNonNegative(list: seq<Agent>, ad: Agent)
    requires forall j :: 0 <= j < |list| ==> list[j].max >= 1
    ensures UsedByOthers(list, ad) >= 0
  {
    if list == [] {
    } else {
      UsedNonNegative(list[..|list| - 1], ad);
    }
  }

  /** What one agent's HPA gets from quota alone: min(max, headroom). */
  function Share(list: seq<Agent>, q: Quota, t: string, i: nat): int
    requires i < |list|
  {
    if Live(list[i], t) then Min(list[i].max, Headroom(list, q, list[i])) else 0
  }

  /** What the HPAs of the first n listed agents get from quota alone. */
  function Granted(list: seq<Agent>, q: Quota, t: string, n: nat): int
    requires n <= |list|
  {
    if n == 0 then 0 else Granted(list, q, t, n - 1) + Share(list, q, t, n - 1)
  }

  /** What they may scale to, with the floor of minReplicas. */
  function Scalable(list: seq<Agent>, q: Quota, t: string, n: nat): int
    requires n <= |list|
  {
    if n == 0 then 0
    else
      var last := list[n - 1];
      Scalable(list, q, t, n - 1) + if Live(last, t) then HpaMaxReplicas(last, Headroom(list, q, last)) else 0
  }

  /** What the floor adds to the shares of the first n agents: where a share is below minReplicas, the difference. */
  function Raised(list: seq<Agent>, q: Quota, t: string, n: nat): int
    requires n <= |list|
  {
    if n == 0 then 0
    else
      var last, share := list[n - 1], Share(list, q, t, n - 1);
      Raised(list, q, t, n - 1) + if Live(last, t) && share < last.min then last.min - share else 0
  }

  lemma {:induction false} ScalableExact(list: seq<Agent>, q: Quota, t: string, n: nat)
    requires n <= |list|
    ensures Scalable(list, q, t, n) == Granted(list, q, t, n) + Raised(list, q, t, n)
  {
    if n == 0 {
    } else {
      ScalableExact(list, q, t, n - 1);
      var last := list[n - 1];
      var h := Headroom(list, q, last);
      ClampedBetween(last, h, Min(last.max, h));
    }
  }

  /** Every live agent's headroom is exact. */
  ghost predicate NoWrap(list: seq<Agent>, q: Quota, t: string) {
    forall i :: 0 <= i < |list| && Live(list[i], t) ==> !WrapsToRoom(UsedByOthers(list, list[i]) - q.maxTotalReplicas)
  }

  /** Every live agent's headroom is its own max less the tenant's excess. */
  ghost predicate AllExact(list: seq<Agent>, q: Quota, t: string) {
    forall i :: 0 <= i < |list| && Live(list[i], t) ==>
      Headroom(list, q, list[i]) == ExactHeadroom(q, Demand(list, t) - list[i].max)
  }

  /** In unbounded terms an agent's headroom is its own max less the tenant's excess. */
  lemma HeadroomFromDemand(list: seq<Agent>, q: Quota, i: nat) returns (h: i32)
    requires Tenant(list) && q.maxTotalReplicas >= 0 && i < |list| && !list[i].terminating
    requires !WrapsToRoom(UsedByOthers(list, list[i]) - q.maxTotalReplicas)
    ensures h == Headroom(list, q, list[i])
    ensures h == ExactHeadroom(q, Demand(list, list[i].tenant) - list[i].max)
  {
    h := Headroom(list, q, list[i]);
    OthersAreTheRest(list, i);
    UsedNonNegative(list, list[i]);
    HeadroomExact(q, UsedByOthers(list, list[i]));
  }

  /** Adding one agent to the shares already granted. */
  lemma ShareFits(granted: int, demand: int, want: int, excess: int, share: int)
    requires granted <= Max(0, demand - Max(0, excess)) && demand >= 0 && want >= 0
    requires share <= want && share <= Max(0, want - excess)
    ensures granted + share <= Max(0, demand + want - Max(0, excess))
  {
  }

  lemma ExactShare(q: Quota, max: int, demand: int)
    requires q.maxTotalReplicas >= 0
    ensures Min(max, ExactHeadroom(q, demand - max)) <= Max(0, max - (demand - q.maxTotalReplicas))
  {
  }

  /** An agent's share is what the tenant's excess leaves of its demand. */
  lemma ShareWithin(list: seq<Agent>, q: Quota, t: string, i: nat)
    requires Tenant(list) && AllExact(list, q, t) && q.maxTotalReplicas >= 0 && i < |list|
    ensures Share(list, q, t, i) <= Wanted(list[i], t)
    ensures Share(list, q, t, i) <= Max(0, Wanted(list[i], t) - (Demand(list, t) - q.maxTotalReplicas))
  {
    ExactShare(q, list[i].max, Demand(list, t));
  }

  lemma DemandOneMore(list: seq<Agent>, t: string, n: nat)
    requires n < |list|
    ensures Demand(list[..n + 1], t) == Demand(list[..n], t) + Wanted(list[n], t)
  {
    assert list[..n + 1][..n] == list[..n];
  }

  /** The shares of the first n agents fit in their demand less the tenant's excess. */
  lemma {:induction false} GrantedBound(list: seq<Agent>, q: Quota, t: string, n: nat)
    requires Tenant(list) && AllExact(list, q, t) && q.maxTotalReplicas >= 0 && n <= |list|
    ensures Granted(list, q, t, n) <= Max(0, Demand(list[..n], t) - Max(0, Demand(list, t) - q.maxTotalReplicas))
  {
    if n == 0 {
    } else {
      var i := n - 1;
      GrantedBound(list, q, t, i);
      DemandNonNegative(list[..i], t);
      DemandOneMore(list, t, i);
      ShareWithin(list, q, t, i);
      ShareFits(Granted(list, q, t, i), Demand(list[..i], t), Wanted(list[i], t),
                Demand(list, t) - q.maxTotalReplicas, Share(list, q, t, i));
    }
  }

  lemma {:induction false} DemandNonNegative(list: seq<Agent>, t: string)
    requires forall i :: 0 <= i < |list| ==> list[i].max >= 1
    ensures Demand(list, t) >= 0
  {
    if list == [] {
    } else {
      DemandNonNegative(list[..|list| - 1], t);
    }
  }

  lemma {:induction false} FloorsAdd(list: seq<Agent>, q: Quota, t: string, n: nat)
    requires Tenant(list) && n <= |list| && q.maxReplicasPerAgent >= 0
    ensures Granted(list, q, t, n) <= Scalable(list, q, t, n) <= Granted(list, q, t, n) + Floors(list[..n], t)
  {
    if n == 0 {
    } else {
      assert list[..n][..n - 1] == list[..n - 1];
      FloorsAdd(list, q, t, n - 1);
    }
  }

  /**
   Budget: for every list of a namespace's agents, within or over quota, what the HPAs of a
   tenant get from quota never exceeds its total replica budget, and what they may
   scale to never exceeds that budget by more than the sum of their floors.
   */
  lemma BudgetKept(list: seq<Agent>, q: Quota, t: string)
    requires Tenant(list) && q.maxTotalReplicas >= 0 && q.maxReplicasPerAgent >= 0 && NoWrap(list, q, t)
    ensures Granted(list, q, t, |list|) <= q.maxTotalReplicas
    ensures Scalable(list, q, t, |list|) <= q.maxTotalReplicas + Floors(list, t)
  {
    assert list[..|list|] == list;
    forall i | 0 <= i < |list| && Live(list[i], t)
      ensures Headroom(list, q, list[i]) == ExactHeadroom(q, Demand(list, t) - list[i].max)
    {
      var h := HeadroomFromDemand(list, q, i);
    }
    GrantedBound(list, q, t, |list|);
    DemandNonNegative(list, t);
    FloorsAdd(list, q, t, |list|);
  }

  /** Whole turns of the wrap-around make no difference. */
  lemma {:induction false} WrapTurns(m: int, n: nat)
    ensures Wrap32(m + n * 0x1_0000_0000) == Wrap32(m) && Wrap32(m - n * 0x1_0000_0000) == Wrap32(m)
  {
    if n == 0 {
    } else {
      WrapTurns(m, n - 1);
      WrapPeriod(m + (n - 1) * 0x1_0000_0000);
      WrapPeriod(m - n * 0x1_0000_0000);
    }
  }

  lemma WrapShift(m: int, x: int)
    ensures Wrap32(m + x) == Wrap32(m + x % 0x1_0000_0000)
  {
    var n, r := x / 0x1_0000_0000, x % 0x1_0000_0000;
    assert x == n * 0x1_0000_0000 + r;
    if n >= 0 {
      WrapTurns(m + r, n);
    } else {
      WrapTurns(m + r, -n);
    }
  }

  /** For every list, wrapped or not: what an agent's headroom is. */
  lemma HeadroomAlways(list: seq<Agent>, q: Quota, i: nat) returns (h: i32)
    requires Tenant(list) && i < |list| && !list[i].terminating
    ensures h == Headroom(list, q, list[i])
    ensures var excess := Demand(list, list[i].tenant) - q.maxTotalReplicas;
            h == Min(q.maxReplicasPerAgent, Max(0, Wrap32(list[i].max - excess)))
  {
    h := Headroom(list, q, list[i]);
    OthersAreTheRest(list, i);
    UsedNonNegative(list, list[i]);
    WrapTwice(q.maxTotalReplicas, UsedByOthers(list, list[i]));
  }

  /** The room that is left, counted in turns of 2^32, is no wider than int32 beside the agent's own max. */
  predicate RoomFor(max: int, excess: int) {
    (-excess) % 0x1_0000_0000 + max <= MAX32
  }

  lemma RoomForIff(max: i32, excess: int)
    requires max >= 1
    ensures max <= Wrap32(max - excess) <==> RoomFor(max, excess)
  {
    WrapShift(max, -excess);
  }

  lemma NoExcess(max: i32, excess: int)
    requires max >= 1 && -MAX32 + max <= excess <= 0x8000_0001
    ensures RoomFor(max, excess) <==> excess <= 0
  {
  }

  /**
   For every list: a live agent is uncapped exactly when it respects its own ceiling and
   the tenant's excess leaves room for it; while the excess is at most 2^31 + 1, exactly when
   the tenant is within its total.
   */
  lemma UncappedIff(list: seq<Agent>, q: Quota, i: nat) returns (h: i32)
    requires Tenant(list) && q.maxTotalReplicas >= 0 && i < |list| && !list[i].terminating
    ensures h == Headroom(list, q, list[i])
    ensures var excess := Demand(list, list[i].tenant) - q.maxTotalReplicas;
            && (!IsQuotaCapped(list[i], h) <==> list[i].max <= q.maxReplicasPerAgent && RoomFor(list[i].max, excess))
            && (excess <= 0x8000_0001 ==>
                  (!IsQuotaCapped(list[i], h) <==>
                   list[i].max <= q.maxReplicasPerAgent && Demand(list, list[i].tenant) <= q.maxTotalReplicas))
  {
    var excess := Demand(list, list[i].tenant) - q.maxTotalReplicas;
    h := HeadroomAlways(list, q, i);
    RoomForIff(list[i].max, excess);
    OthersAreTheRest(list, i);
    UsedNonNegative(list, list[i]);
    if excess <= 0x8000_0001 {
      NoExcess(list[i].max, excess);
    }
  }

  /** Up to 2^31 + 1 over the budget nothing wraps. */
  lemma SmallDemandNoWrap(list: seq<Agent>, q: Quota, t: string)
    requires Tenant(list) && q.maxTotalReplicas >= 0 && Demand(list, t) <= q.maxTotalReplicas + 0x8000_0001
    ensures NoWrap(list, q, t)
  {
    forall i | 0 <= i < |list| && Live(list[i], t) ensures !WrapsToRoom(UsedByOthers(list, list[i]) - q.maxTotalReplicas) {
      OthersAreTheRest(list, i);
    }
  }

  /** The room int32 shows to an agent of a tenant with this excess: a residue, or nothing. */
  function Room(max: int, excess: int): int {
    var r := (max - excess) % 0x1_0000_0000;
    if r <= MAX32 then r else 0
  }

  lemma RoomShown(max: int, excess: int)
    ensures Max(0, Wrap32(max - excess)) == Room(max, excess)
  {
    WrapShift(0, max - excess);
  }

  /** What int32 grants an agent of a tenant with this excess. */
  function Gets(q: Quota, max: int, excess: int): int {
    Min(max, Min(q.maxReplicasPerAgent, Room(max, excess)))
  }

  /** The sum of that over the first n agents. */
  function Rooms(list: seq<Agent>, q: Quota, t: string, n: nat): int
    requires n <= |list|
  {
    if n == 0 then 0
    else
      var last := list[n - 1];
      Rooms(list, q, t, n - 1) + if Live(last, t) then Gets(q, last.max, Demand(list, t) - q.maxTotalReplicas) else 0
  }

  /** For every list, wrapped or not: what the agents are granted together. */
  lemma {:induction false} GrantedAlways(list: seq<Agent>, q: Quota, t: string, n: nat)
    requires Tenant(list) && n <= |list|
    ensures Granted(list, q, t, n) == Rooms(list, q, t, n)
  {
    if n == 0 {
    } else {
      GrantedAlways(list, q, t, n - 1);
      var last := list[n - 1];
      if Live(last, t) {
        var h := HeadroomAlways(list, q, n - 1);
        RoomShown(last.max, Demand(list, t) - q.maxTotalReplicas);
      }
    }
  }

  // ---------------------------------------------------------------------------
  // Which demands can break the budget
  // ---------------------------------------------------------------------------

  /** The excess in the last turn of 2^32. */
  function Rest(excess: int): nat {
    excess % 0x1_0000_0000
  }

  lemma RestOf(max: int, excess: int)
    ensures (max - excess) % 0x1_0000_0000 == (max - Rest(excess)) % 0x1_0000_0000
  {
    var k := excess / 0x1_0000_0000;
    assert excess == k * 0x1_0000_0000 + Rest(excess);
    assert max - Rest(excess) == (max - excess) + k * 0x1_0000_0000;
  }

  /** The room by the rest: what is left of the max, or nothing, or something for the smallest agent. */
  lemma RoomByRest(max: i32, excess: int)
    requires max >= 1
    ensures Rest(excess) <= 0x7fff_fffe ==> Room(max, excess) == Max(0, max - Rest(excess))
    ensures 0x7fff_ffff <= Rest(excess) <= 0x8000_0001 ==> Room(max, excess) == 0
    ensures Rest(excess) >= 0x8000_0002 ==> Room(1, excess) >= 1
  {
    RestOf(max, excess);
    RestOf(1, excess);
  }

  /** The most one agent gets when the rest is below 2^31 - 1. */
  function Cap(q: Quota, rest: nat): int {
    Min(q.maxReplicasPerAgent, MAX32 - rest)
  }

  /** How many agents at the cap it takes to get more than the budget. */
  function Needed(budget: nat, cap: int): (n: nat)
    requires cap >= 1
    ensures n >= 1
  {
    if budget < cap then 1 else Needed(budget - cap, cap) + 1
  }

  /** That many get more than the budget, the last of them by the part it has to get. */
  lemma {:induction false} NeededMeans(budget: nat, cap: nat) returns (n: nat, last: nat)
    requires cap >= 1
    ensures n + 1 == Needed(budget, cap) && budget + 1 == n * cap + last && 1 <= last <= cap
    decreases budget
  {
    if budget < cap {
      n, last := 0, budget + 1;
    } else {
      n, last := NeededMeans(budget - cap, cap);
      n := n + 1;
      OneMoreTime(n, cap);
    }
  }

  lemma OneMoreTime(n: int, x: int)
    ensures n * x == (n - 1) * x + x
  {
  }

  /**
   The demands that int32 can turn into more grants than the budget. With a rest of at
   least 2^31 + 2 one replica each is enough. With one below 2^31 - 1 it takes more agents
   than fit the budget at the most one can get, each asking for the rest on top.
   */
  predicate Breakable(q: Quota, demand: int) {
    var excess := demand - q.maxTotalReplicas;
    var rest := Rest(excess);
    && q.maxTotalReplicas >= 0 && q.maxReplicasPerAgent >= 1 && excess > 0
    && (rest >= 0x8000_0002
        || (rest <= 0x7fff_fffe && Needed(q.maxTotalReplicas, Cap(q, rest)) * rest < excess))
  }

  lemma {:induction false} NoRooms(list: seq<Agent>, q: Quota, t: string, n: nat)
    requires Tenant(list) && n <= |list|
    requires var rest := Rest(Demand(list, t) - q.maxTotalReplicas);
             q.maxReplicasPerAgent <= 0 || 0x7fff_ffff <= rest <= 0x8000_0001
    ensures Rooms(list, q, t, n) <= 0
  {
    if n == 0 {
    } else {
      NoRooms(list, q, t, n - 1);
      RoomByRest(list[n - 1].max, Demand(list, t) - q.maxTotalReplicas);
    }
  }

  /** An agent gets at most the cap, and at most what it asks for beyond the rest. */
  lemma GetsAtMost(q: Quota, max: i32, excess: int, rest: nat)
    requires max >= 1 && q.maxReplicasPerAgent >= 1 && rest == Rest(excess) && rest <= 0x7fff_fffe
    ensures max > rest ==> Gets(q, max, excess) <= Cap(q, rest) && Gets(q, max, excess) <= max - rest
    ensures max <= rest ==> Gets(q, max, excess) <= 0
  {
    RoomByRest(max, excess);
  }

  /** Counting the agents that get something: each at most the cap, and each asks for the rest on top. */
  lemma {:induction false} Getting(list: seq<Agent>, q: Quota, t: string, n: nat, rest: nat, cap: nat) returns (k: nat)
    requires Tenant(list) && n <= |list| && q.maxReplicasPerAgent >= 1
    requires rest == Rest(Demand(list, t) - q.maxTotalReplicas) && rest <= 0x7fff_fffe && cap == Cap(q, rest)
    ensures Rooms(list, q, t, n) <= k * cap && Rooms(list, q, t, n) <= Demand(list[..n], t) - k * rest
  {
    if n == 0 {
      k := 0;
    } else {
      k := Getting(list, q, t, n - 1, rest, cap);
      DemandOneMore(list, t, n - 1);
      GetsAtMost(q, list[n - 1].max, Demand(list, t) - q.maxTotalReplicas, rest);
      if Live(list[n - 1], t) && list[n - 1].max > rest {
        k := k + 1;
        OneMoreTime(k, cap);
        OneMoreTime(k, rest);
      }
    }
  }

  lemma MoreTimes(a: int, b: int, x: nat)
    requires a <= b
    ensures a * x <= b * x
  {
  }

  /** Too few agents can get something to use up the budget. */
  lemma TooFew(got: int, k: nat, cap: nat, rest: nat, budget: nat, demand: int)
    requires cap >= 1 && got <= k * cap && got <= demand - k * rest && Needed(budget, cap) * rest >= demand - budget
    ensures got <= budget
  {
    var n, last := NeededMeans(budget, cap);
    if k <= n {
      MoreTimes(k, n, cap);
    } else {
      MoreTimes(n + 1, k, rest);
    }
  }

  lemma Unbreakable(list: seq<Agent>, q: Quota, t: string)
    requires Tenant(list) && q.maxTotalReplicas >= 0 && q.maxReplicasPerAgent >= 0 && !Breakable(q, Demand(list, t))
    ensures Granted(list, q, t, |list|) <= q.maxTotalReplicas
  {
    var d := Demand(list, t);
    var rest := Rest(d - q.maxTotalReplicas);
    GrantedAlways(list, q, t, |list|);
    if d <= q.maxTotalReplicas {
      SmallDemandNoWrap(list, q, t);
      BudgetKept(list, q, t);
    } else if q.maxReplicasPerAgent == 0 || rest > 0x7fff_fffe {
      NoRooms(list, q, t, |list|);
    } else {
      var k := Getting(list, q, t, |list|, rest, Cap(q, rest));
      assert list[..|list|] == list;
      TooFew(Rooms(list, q, t, |list|), k, Cap(q, rest), rest, q.maxTotalReplicas, d);
    }
  }

  /** Live agents of tenant t with these maximum replica counts. */
  function Fleet(t: string, maxes: seq<i32>): (list: seq<Agent>)
    ensures |list| == |maxes|
  {
    seq(|maxes|, i requires 0 <= i < |maxes| => Agent(seq(i, _ => 'a'), t, 1, maxes[i], false))
  }

  function Sum(maxes: seq<i32>): int {
    if maxes == [] then 0 else Sum(maxes[..|maxes| - 1]) + maxes[|maxes| - 1]
  }

  function Gotten(q: Quota, excess: int, maxes: seq<i32>): int {
    if maxes == [] then 0 else Gotten(q, excess, maxes[..|maxes| - 1]) + Gets(q, maxes[|maxes| - 1], excess)
  }

  ghost predicate Positive(maxes: seq<i32>) {
    forall i :: 0 <= i < |maxes| ==> maxes[i] >= 1
  }

  lemma Push(q: Quota, excess: int, maxes: seq<i32>, max: i32)
    ensures Sum(maxes + [max]) == Sum(maxes) + max
    ensures Gotten(q, excess, maxes + [max]) == Gotten(q, excess, maxes) + Gets(q, max, excess)
  {
    assert (maxes + [max])[..|maxes|] == maxes;
  }

  /** The list shows live agents of tenant t with these maximum replica counts. */
  ghost predicate Describes(list: seq<Agent>, t: string, maxes: seq<i32>) {
    |list| == |maxes| && forall i :: 0 <= i < |list| ==> Live(list[i], t) && list[i].max == maxes[i]
  }

  lemma FleetTenant(t: string, maxes: seq<i32>)
    requires Positive(maxes)
    ensures Tenant(Fleet(t, maxes)) && Describes(Fleet(t, maxes), t, maxes)
  {
    var list := Fleet(t, maxes);
    assert forall i :: 0 <= i < |list| ==> |list[i].name| == i && list[i].max == maxes[i];
  }

  lemma SumOneMore(q: Quota, excess: int, maxes: seq<i32>, n: nat)
    requires n < |maxes|
    ensures Sum(maxes[..n + 1]) == Sum(maxes[..n]) + maxes[n]
    ensures Gotten(q, excess, maxes[..n + 1]) == Gotten(q, excess, maxes[..n]) + Gets(q, maxes[n], excess)
  {
    assert maxes[..n + 1][..n] == maxes[..n];
  }

  lemma {:induction false} Described(list: seq<Agent>, t: string, q: Quota, maxes: seq<i32>, n: nat, excess: int)
    requires Describes(list, t, maxes) && n <= |list| && excess == Demand(list, t) - q.maxTotalReplicas
    ensures Demand(list[..n], t) == Sum(maxes[..n]) && Rooms(list, q, t, n) == Gotten(q, excess, maxes[..n])
  {
    if n == 0 {
    } else {
      Described(list, t, q, maxes, n - 1, excess);
      DemandOneMore(list, t, n - 1);
      SumOneMore(q, excess, maxes, n - 1);
    }
  }

  lemma DescribedAll(list: seq<Agent>, t: string, q: Quota, maxes: seq<i32>, excess: int)
    requires Describes(list, t, maxes) && excess == Demand(list, t) - q.maxTotalReplicas
    ensures Demand(list, t) == Sum(maxes) && Rooms(list, q, t, |list|) == Gotten(q, excess, maxes)
  {
    var n := |list|;
    assert maxes[..n] == maxes && list[..n] == list;
    Described(list, t, q, maxes, n, excess);
  }

  lemma DescribedGranted(list: seq<Agent>, t: string, q: Quota, maxes: seq<i32>)
    requires Tenant(list) && Describes(list, t, maxes)
    ensures Demand(list, t) == Sum(maxes)
    ensures Granted(list, q, t, |list|) == Gotten(q, Sum(maxes) - q.maxTotalReplicas, maxes)
  {
    DescribedAll(list, t, q, maxes, Demand(list, t) - q.maxTotalReplicas);
    GrantedAlways(list, q, t, |list|);
  }

  /** Small agents to make up a demand; they take nothing away. */
  lemma {:induction false} FillUp(q: Quota, excess: int, maxes: seq<i32>, n: nat) returns (all: seq<i32>)
    requires Positive(maxes) && q.maxReplicasPerAgent >= 1
    ensures Positive(all) && Sum(all) == Sum(maxes) + n && Gotten(q, excess, all) >= Gotten(q, excess, maxes)
    ensures Room(1, excess) >= 1 ==> Gotten(q, excess, all) >= Gotten(q, excess, maxes) + n
  {
    if n == 0 {
      all := maxes;
    } else {
      var fewer := FillUp(q, excess, maxes, n - 1);
      Push(q, excess, fewer, 1);
      all := fewer + [1];
    }
  }

  /** Asking for the rest on top of x is getting x. */
  lemma GetsJust(q: Quota, excess: int, rest: nat, x: nat)
    requires rest == Rest(excess) && rest <= 0x7fff_fffe && 1 <= x <= Cap(q, rest)
    ensures Gets(q, rest + x, excess) == x
  {
    RoomByRest(rest + x, excess);
  }

  /** Agents that each get the most one can get. */
  lemma {:induction false} AtCap(q: Quota, excess: int, rest: nat, n: nat) returns (maxes: seq<i32>)
    requires q.maxReplicasPerAgent >= 1 && rest == Rest(excess) && rest <= 0x7fff_fffe
    ensures |maxes| == n && Positive(maxes)
    ensures Sum(maxes) == n * rest + n * Cap(q, rest) && Gotten(q, excess, maxes) == n * Cap(q, rest)
  {
    if n == 0 {
      maxes := [];
    } else {
      var max := rest + Cap(q, rest);
      var fewer := AtCap(q, excess, rest, n - 1);
      GetsJust(q, excess, rest, Cap(q, rest));
      Push(q, excess, fewer, max);
      OneMoreTime(n, rest);
      OneMoreTime(n, Cap(q, rest));
      maxes := fewer + [max];
    }
  }

  /** Just enough agents to get one replica more than the budget. */
  lemma JustTooMany(q: Quota, excess: int, rest: nat) returns (maxes: seq<i32>)
    requires q.maxTotalReplicas >= 0 && q.maxReplicasPerAgent >= 1 && rest == Rest(excess) && rest <= 0x7fff_fffe
    ensures Positive(maxes) && Gotten(q, excess, maxes) == q.maxTotalReplicas + 1
    ensures Sum(maxes) == Needed(q.maxTotalReplicas, Cap(q, rest)) * rest + q.maxTotalReplicas + 1
  {
    var n, last := NeededMeans(q.maxTotalReplicas, Cap(q, rest));
    var most := AtCap(q, excess, rest, n);
    GetsJust(q, excess, rest, last);
    Push(q, excess, most, rest + last);
    OneMoreTime(n + 1, rest);
    maxes := most + [rest + last];
  }

  /** Maximum replica counts that add up to a breakable demand and get more than the budget. */
  lemma GetTooMuch(q: Quota, demand: nat, excess: int) returns (maxes: seq<i32>)
    requires Breakable(q, demand) && excess == demand - q.maxTotalReplicas
    ensures Positive(maxes) && Sum(maxes) == demand && Gotten(q, excess, maxes) > q.maxTotalReplicas
  {
    var rest := Rest(excess);
    if rest >= 0x8000_0002 {
      RoomByRest(1, excess);
      maxes := FillUp(q, excess, [], demand);
    } else {
      var few := JustTooMany(q, excess, rest);
      maxes := FillUp(q, excess, few, demand - Sum(few));
    }
  }

  lemma FleetGetsTooMuch(q: Quota, t: string, maxes: seq<i32>) returns (list: seq<Agent>)
    requires Positive(maxes) && Gotten(q, Sum(maxes) - q.maxTotalReplicas, maxes) > q.maxTotalReplicas
    ensures Tenant(list) && Demand(list, t) == Sum(maxes) && Granted(list, q, t, |list|) > q.maxTotalReplicas
  {
    list := Fleet(t, maxes);
    FleetTenant(t, maxes);
    DescribedGranted(list, t, q, maxes);
  }

  lemma BreaksBudget(q: Quota, t: string, demand: nat) returns (list: seq<Agent>)
    requires Breakable(q, demand)
    ensures Tenant(list) && Demand(list, t) == demand && Granted(list, q, t, |list|) > q.maxTotalReplicas
  {
    var maxes := GetTooMuch(q, demand, demand - q.maxTotalReplicas);
    list := FleetGetsTooMuch(q, t, maxes);
  }

  /** Up to 2^32 over the budget: exactly from 2^31 + 2 on. */
  lemma SharpBound(q: Quota, demand: nat)
    requires q.maxTotalReplicas >= 0 && q.maxReplicasPerAgent >= 1 && demand <= q.maxTotalReplicas + 0x1_0000_0000
    ensures Breakable(q, demand) <==> demand > q.maxTotalReplicas + 0x8000_0001
  {
    var excess := demand - q.maxTotalReplicas;
    if 0 < excess <= 0x7fff_fffe {
      MoreTimes(1, Needed(q.maxTotalReplicas, Cap(q, excess)), excess);
    }
  }

  /** However the demand is spread over agents, the grants stay within the budget. */
  ghost predicate AlwaysKept(q: Quota, t: string, demand: nat) {
    forall list :: Tenant(list) && Demand(list, t) == demand ==> Granted(list, q, t, |list|) <= q.maxTotalReplicas
  }

  /**
   Budget: a demand, however it is spread over agents, is never granted more than the total
   budget if and only if it is not breakable; up to 2^32 over the budget that is, if and
   only if it exceeds the budget by at most 2^31 + 1. What the HPAs
   may scale to is exactly that, raised to minReplicas where the share is smaller.
   */
  lemma BudgetKeptIff(q: Quota, t: string, demand: nat)
    requires q.maxTotalReplicas >= 0 && q.maxReplicasPerAgent >= 0
    ensures AlwaysKept(q, t, demand) <==> !Breakable(q, demand)
    ensures q.maxReplicasPerAgent >= 1 && demand <= q.maxTotalReplicas + 0x1_0000_0000 ==>
              (AlwaysKept(q, t, demand) <==> demand <= q.maxTotalReplicas + 0x8000_0001)
    ensures forall list :: Tenant(list) && Demand(list, t) == demand ==>
                             && Scalable(list, q, t, |list|) == Granted(list, q, t, |list|) + Raised(list, q, t, |list|)
                             && Raised(list, q, t, |list|) <= Floors(list, t)
  {
    if Breakable(q, demand) {
      var list := BreaksBudget(q, t, demand);
    } else {
      forall list | Tenant(list) && Demand(list, t) == demand ensures Granted(list, q, t, |list|) <= q.maxTotalReplicas {
        Unbreakable(list, q, t);
      }
    }
    if q.maxReplicasPerAgent >= 1 && demand <= q.maxTotalReplicas + 0x1_0000_0000 {
      SharpBound(q, demand);
    }
    forall list | Tenant(list) && Demand(list, t) == demand
      ensures Scalable(list, q, t, |list|) == Granted(list, q, t, |list|) + Raised(list, q, t, |list|)
      ensures Raised(list, q, t, |list|) <= Floors(list, t)
    {
      assert list[..|list|] == list;
      FloorsAdd(list, q, t, |list|);
      ScalableExact(list, q, t, |list|);
    }
  }

  /** Five agents whose maximum replica counts sum to five quarters of 2^32 get the whole budget each. */
  lemma OverflowBreaksBudget(t: string) returns (list: seq<Agent>, q: Quota)
    ensures |list| == 5 && Tenant(list) && Demand(list, t) == 5 * 0x4000_0000
    ensures q.maxTotalReplicas > 0 && q.maxReplicasPerAgent >= 0
    ensures Granted(list, q, t, |list|) == 5 * q.maxTotalReplicas
  {
    q := Quota(10, 0, 7, 7);
    var maxes := AtCap(q, 0x1_3fff_fff9, 0x3fff_fff9, 5);
    list := Fleet(t, maxes);
    FleetTenant(t, maxes);
    DescribedGranted(list, t, q, maxes);
  }
}
