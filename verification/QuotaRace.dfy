/**
 A race of identical creates against one status snapshot: exactly the first k of them,
 in the order they take the lock, are admitted.
 */
module QuotaRace {
  import opened Options
  import opened Usages
  import opened QuotaMath
  import opened QuotaEnforcer

  /** The creates, in lock order, with the clock reading each takes. */
  datatype Race = Race(quota: Quota, committed: Usage, spec: AgentSpec, keys: seq<string>, times: seq<int>, ttl: int)

  /** The usage of n equal charges. */
  function Scale(n: nat, u: Usage): Usage {
    if n == 0 then ZERO else Add(u, Scale(n - 1, u))
  }

  ghost function RequestAt(race: Race, i: nat): Request
    requires i < |race.keys|
  {
    Request(race.keys[i], race.quota, race.committed, race.spec, None)
  }

  /** The reservations once the first n creates have been decided. */
  ghost function Reservations(race: Race, n: nat): QuotaEnforcer.Reservations
    requires n <= |race.keys| == |race.times|
    decreases n
  {
    if n == 0 then map[]
    else Reserved(Reservations(race, n - 1), race.times[n - 1], RequestAt(race, n - 1), race.ttl)
  }

  ghost predicate Wins(race: Race, i: nat)
    requires i < |race.keys| == |race.times|
  {
    Decide(Reservations(race, i), race.times[i], RequestAt(race, i)).Admitted?
  }

  /** Distinct keys, all decided in order within one reservation lifetime of the first. */
  ghost predicate Valid(race: Race) {
    && |race.keys| == |race.times|
    && ValidSpec(race.spec) && NonNegative(race.committed)
    && Distinct(race.keys) && InWindow(race.times, race.ttl)
  }

  ghost predicate Distinct(keys: seq<string>) {
    forall i, j :: 0 <= i < j < |keys| ==> keys[i] != keys[j]
  }

  /** Every clock reading falls within the lifetime of every earlier reservation. */
  ghost predicate InWindow(times: seq<int>, ttl: int) {
    forall i, j :: 0 <= i <= j < |times| ==> times[i] <= times[j] <= times[i] + ttl
  }

  /** How many of n charges of the given size fit into the room left in one dimension. */
  function Count(room: int, size: nat, n: nat): (c: nat)
    ensures c <= n
  {
    if room < 0 then 0 else if size == 0 then n else if room / size < n then room / size else n
  }

  lemma CountMeans(room: int, size: nat, n: nat, i: nat)
    requires i < n
    ensures i < Count(room, size, n) <==> (i + 1) * size <= room
  {
    if room >= 0 && size > 0 {
      DivisionGuard(i + 1, size, room);
    } else if room < 0 {
      assert (i + 1) * size >= 0;
    } else {
      assert (i + 1) * size == 0;
    }
  }

  function Min(a: nat, b: nat): nat {
    if a < b then a else b
  }

  /** The number of creates the quota has room for, out of n. */
  function Capacity(race: Race, n: nat): nat
    requires ValidSpec(race.spec)
  {
    var u := UsageOf(race.spec);
    var room := Subtract(Ceiling(race.quota), race.committed);
    if u.gpus == MAX32 || race.spec.maxReplicas > race.quota.maxReplicasPerAgent then 0
    else Min(Count(room.agents, 1, n), Min(Count(room.gpus, u.gpus, n), Count(room.replicas, u.replicas, n)))
  }

  /** The (i+1)-st create fits beside i admitted ones. */
  ghost predicate Room(race: Race, i: nat) {
    && UsageOf(race.spec).gpus != MAX32 && race.spec.maxReplicas <= race.quota.maxReplicasPerAgent
    && Leq(Add(race.committed, Scale(i + 1, UsageOf(race.spec))), Ceiling(race.quota))
  }

  lemma CapacityMeans(race: Race, n: nat, i: nat)
    requires ValidSpec(race.spec) && i < n
    ensures i < Capacity(race, n) <==> Room(race, i)
  {
    var u := UsageOf(race.spec);
    var room := Subtract(Ceiling(race.quota), race.committed);
    ScaleTimes(i + 1, u);
    CountMeans(room.agents, 1, n, i);
    CountMeans(room.gpus, u.gpus, n, i);
    CountMeans(room.replicas, u.replicas, n, i);
  }

  lemma {:induction false} TotalConstant(m: map<string, Usage>, u: Usage)
    requires forall k :: k in m ==> m[k] == u
    ensures Total(m) == Scale(|m|, u)
    decreases |m|
  {
    if m == map[] {
    } else {
      var k :| k in m;
      TotalSplit(m, k);
      assert |m - {k}| == |m| - 1;
      TotalConstant(m - {k}, u);
    }
  }

  lemma {:induction false} ScaleMonotone(i: nat, j: nat, u: Usage)
    requires NonNegative(u) && i <= j
    ensures Leq(Scale(i, u), Scale(j, u)) && NonNegative(Scale(i, u))
    decreases j
  {
    if j == 0 {
    } else if i == 0 {
      ScaleMonotone(i, j - 1, u);
    } else {
      ScaleMonotone(i - 1, j - 1, u);
    }
  }

  /** Repeated addition is multiplication. */
  lemma {:induction false} ScaleTimes(n: nat, u: Usage)
    ensures Scale(n, u) == Usage(n * u.agents, n * u.gpus, n * u.replicas)
  {
    if n == 0 {
    } else {
      ScaleTimes(n - 1, u);
    }
  }

  /** The rules for a create when i identical ones are in flight. */
  lemma CreateRule(race: Race, i: nat)
    requires ValidSpec(race.spec)
    ensures Rules(race.quota, race.committed, Scale(i, UsageOf(race.spec)), race.spec, None).Admitted? <==> Room(race, i)
  {
  }

  /** One reservation of u for each of the first w keys. */
  ghost function Winners(keys: seq<string>, times: seq<int>, ttl: int, u: Usage, w: nat): QuotaEnforcer.Reservations
    requires w <= |keys| == |times|
    decreases w
  {
    if w == 0 then map[] else Winners(keys, times, ttl, u, w - 1)[keys[w - 1] := Entry(u, times[w - 1] + ttl)]
  }

  /** w reservations of u, none under a later key, all still live. */
  ghost predicate Full(m: QuotaEnforcer.Reservations, keys: seq<string>, u: Usage, w: nat, now: int) {
    && |m| == w
    && (forall j :: w <= j < |keys| ==> keys[j] !in m)
    && (forall k :: k in m ==> m[k].charge == u && !Expired(m[k], now))
  }

  lemma {:induction false} WinnersFull(keys: seq<string>, times: seq<int>, ttl: int, u: Usage, w: nat, n: nat)
    requires |keys| == |times| && Distinct(keys) && InWindow(times, ttl) && w <= n < |keys|
    ensures Full(Winners(keys, times, ttl, u, w), keys, u, w, times[n])
    decreases w
  {
    if w == 0 {
    } else {
      WinnersFull(keys, times, ttl, u, w - 1, n);
      var m, key, e := Winners(keys, times, ttl, u, w - 1), keys[w - 1], Entry(u, times[w - 1] + ttl);
      FullWrite(m, keys, u, w - 1, times[n], e);
    }
  }

  lemma FullWrite(m: QuotaEnforcer.Reservations, keys: seq<string>, u: Usage, w: nat, now: int, e: Entry)
    requires Distinct(keys) && w < |keys| && Full(m, keys, u, w, now) && e.charge == u && !Expired(e, now)
    ensures Full(m[keys[w] := e], keys, u, w + 1, now)
  {
    var m' := m[keys[w] := e];
    assert keys[w] !in m;
    assert |m'| == |m'.Keys| == |m.Keys + {keys[w]}| == w + 1;
    assert forall j :: w < j < |keys| ==> keys[j] != keys[w];
  }

  lemma InFlightAt(keys: seq<string>, times: seq<int>, ttl: int, u: Usage, n: nat, w: nat)
    requires |keys| == |times| && Distinct(keys) && InWindow(times, ttl) && w <= n < |keys|
    ensures InFlight(Winners(keys, times, ttl, u, w), keys[n], times[n]) == Scale(w, u)
  {
    WinnersFull(keys, times, ttl, u, w, n);
    var m := Winners(keys, times, ttl, u, w);
    var live := LiveCharges(m, keys[n], times[n]);
    assert live.Keys == m.Keys;
    TotalConstant(live, u);
    assert |live| == |live.Keys| == |m.Keys| == w;
  }

  /** Room shrinks as more are admitted. */
  lemma RoomShrinks(race: Race, i: nat, j: nat)
    requires ValidSpec(race.spec) && i <= j && Room(race, j)
    ensures Room(race, i)
  {
    ScaleMonotone(i + 1, j + 1, UsageOf(race.spec));
  }

  lemma NoRoomLater(race: Race, i: nat, j: nat)
    requires ValidSpec(race.spec) && i <= j && !Room(race, i)
    ensures !Room(race, j)
  {
    if Room(race, j) {
      RoomShrinks(race, i, j);
    }
  }

  /** Charges that fit in the quota are int32, so the accumulated sum is exact. */
  lemma ScaleFits(race: Race, w: nat)
    requires ValidSpec(race.spec) && NonNegative(race.committed) && (w == 0 || Room(race, w - 1))
    ensures Fits(Scale(w, UsageOf(race.spec)))
  {
    ScaleMonotone(w, w, UsageOf(race.spec));
  }

  ghost function WinnersOf(race: Race, w: nat): QuotaEnforcer.Reservations
    requires w <= |race.keys| == |race.times|
  {
    Winners(race.keys, race.times, race.ttl, UsageOf(race.spec), w)
  }

  /** With the first w creates in flight, the next one wins exactly when there is room for it. */
  lemma WinsIff(race: Race, i: nat, w: nat)
    requires Valid(race) && w <= i < |race.keys| && Reservations(race, i) == WinnersOf(race, w)
    requires w == 0 || Room(race, w - 1)
    ensures Wins(race, i) <==> Room(race, w)
  {
    InFlightAt(race.keys, race.times, race.ttl, UsageOf(race.spec), i, w);
    ScaleFits(race, w);
    CreateRule(race, w);
  }

  /** Deciding one more create writes its reservation exactly when it wins. */
  lemma WriteNext(race: Race, i: nat)
    requires Valid(race) && i < |race.keys|
    ensures Reservations(race, i + 1) ==
            if Wins(race, i)
            then Reservations(race, i)[race.keys[i] := Entry(UsageOf(race.spec), race.times[i] + race.ttl)]
            else Reservations(race, i)
  {
  }

  /** One more create wins, and writes its reservation, exactly when there is room. */
  lemma RaceNext(race: Race, i: nat, w: nat) returns (wins: bool)
    requires Valid(race) && w <= i < |race.keys| && Reservations(race, i) == WinnersOf(race, w)
    requires w == 0 || Room(race, w - 1)
    ensures wins <==> Room(race, w)
    ensures Reservations(race, i + 1) ==
            if wins then WinnersOf(race, w)[race.keys[i] := Entry(UsageOf(race.spec), race.times[i] + race.ttl)]
            else WinnersOf(race, w)
  {
    wins := Wins(race, i);
    WinsIff(race, i, w);
    WriteNext(race, i);
  }

  lemma OneMoreWinner(race: Race, w: nat)
    requires Valid(race) && w < |race.keys|
    ensures WinnersOf(race, w + 1) ==
            WinnersOf(race, w)[race.keys[w] := Entry(UsageOf(race.spec), race.times[w] + race.ttl)]
  {
  }

  /** After n creates the reservations are those of the first w, all of which had room. */
  ghost predicate Stage(race: Race, n: nat, w: nat)
    requires Valid(race) && n <= |race.keys|
  {
    && w <= n && Reservations(race, n) == WinnersOf(race, w)
    && (w == 0 || Room(race, w - 1)) && (w < n ==> !Room(race, w))
  }

  lemma StageNext(race: Race, n: nat, w: nat, next: nat) returns (w': nat)
    requires Valid(race) && n < |race.keys| && Stage(race, n, w) && next == n + 1
    ensures Stage(race, next, w')
  {
    var wins := RaceNext(race, n, w);
    if wins {
      OneMoreWinner(race, w);
      w' := w + 1;
    } else {
      w' := w;
    }
  }

  lemma {:induction false} RaceState(race: Race, n: nat) returns (w: nat)
    requires Valid(race) && n <= |race.keys|
    ensures Stage(race, n, w)
  {
    if n == 0 {
      w := 0;
    } else {
      w := RaceState(race, n - 1);
      w := StageNext(race, n - 1, w, n);
    }
  }

  /** Create i wins exactly when i + 1 of them fit. */
  lemma WinsWithRoom(race: Race, i: nat)
    requires Valid(race) && i < |race.keys|
    ensures Wins(race, i) <==> Room(race, i)
  {
    var w := RaceState(race, i);
    WinsIff(race, i, w);
    if w < i {
      NoRoomLater(race, w, i);
    }
  }

  /**
   Concurrent creates: of n creates of one spec under distinct keys, racing against one
   status snapshot with nothing else in flight, exactly the first Capacity are admitted:
   as many as fit under all three ceilings, or none if the spec breaks the per-agent
   ceiling or overflows the GPU count.
   */
  lemma RaceOutcome(race: Race, i: nat)
    requires Valid(race) && i < |race.keys|
    ensures Wins(race, i) <==> i < Capacity(race, |race.keys|)
  {
    WinsWithRoom(race, i);
    CapacityMeans(race, |race.keys|, i);
  }
}
