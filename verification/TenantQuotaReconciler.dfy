/**
 The TenantQuota reconciler (internal/controller/tenantquota_controller.go): filter the
 listed agents, release their reservations, recompute usage and set the OverQuota
 condition, tied to the listing and status steps of the stored-object protocol.
 */
module TenantQuotaReconciler {
  import opened Options
  import opened Usages
  import opened QuotaMath
  import opened QuotaEnforcer
  import opened QuotaStored
  import opened QuotaStoredBarrier

  /** One listed AgentDeployment. */
  datatype Item = Item(key: string, spec: AgentDeployment)

  /** What the reconciler writes: the counters and the OverQuota condition. */
  datatype QuotaStatus = QuotaStatus(used: Usage, overQuota: bool)

  /** The listed agents that reference the tenant, in list order. */
  function Referencing(items: seq<Item>, t: string): seq<Item> {
    if items == [] then []
    else
      var last := items[|items| - 1];
      Referencing(items[..|items| - 1], t) + if last.spec.tenant == t then [last] else []
  }

  function Keys(items: seq<Item>): set<string> {
    set i | i in items :: i.key
  }

  function Specs(items: seq<Item>): seq<AgentDeployment> {
    seq(|items|, i requires 0 <= i < |items| => items[i].spec)
  }

  /** The exact usage of a list of agents. */
  function ListedUsage(items: seq<Item>): Usage {
    SumUsage(AllCharged(Specs(items)))
  }

  /** What a status computed from the listing says under a quota. */
  function StatusFor(items: seq<Item>, t: string, q: Quota): QuotaStatus {
    var used := Wrapped(ListedUsage(Referencing(items, t)));
    QuotaStatus(used, OverQuota(q, used))
  }

  class Reconciler {
    const enforcer: Enforcer
    /** The stored status of the quota. */
    var status: QuotaStatus

    constructor (enforcer: Enforcer, status: QuotaStatus)
      ensures this.enforcer == enforcer && this.status == status
    {
      this.enforcer := enforcer;
      this.status := status;
    }

    /** The filter loop: collect the tenant's specs and release each one's reservation. */
    method ListAndRelease(items: seq<Item>, t: string) returns (specs: seq<AgentDeployment>)
      modifies enforcer
      ensures specs == Specs(Referencing(items, t))
      ensures enforcer.reservations == old(enforcer.reservations) - Keys(Referencing(items, t))
    {
      specs := [];
      for i := 0 to |items|
        invariant specs == Specs(Referencing(items[..i], t))
        invariant enforcer.reservations == old(enforcer.reservations) - Keys(Referencing(items[..i], t))
      {
        assert items[..i + 1][..i] == items[..i];
        if items[i].spec.tenant == t {
          ghost var before := Referencing(items[..i], t);
          assert Keys(before + [items[i]]) == Keys(before) + {items[i].key};
          specs := specs + [items[i].spec];
          enforcer.Release(items[i].key);
        }
      }
      assert items[..|items|] == items;
    }

    /**
     One reconcile. The List call may fail, and so may the second fetch of the quota or the
     status update; the reservations are released before either. An unchanged status is not
     written.
     */
    method Reconcile(listed: Option<seq<Item>>, t: string, latest: Option<Quota>, accepted: bool) returns (ok: bool)
      modifies this`status, enforcer
      ensures ok == (listed.Some? && latest.Some? && (accepted || StatusFor(listed.value, t, latest.value) == old(status)))
      ensures status == if ok then StatusFor(listed.value, t, latest.value) else old(status)
      ensures enforcer.reservations ==
              old(enforcer.reservations) - if listed.Some? then Keys(Referencing(listed.value, t)) else {}
    {
      if listed.None? {
        return false;
      }
      var specs := ListAndRelease(listed.value, t);
      var used := ComputeUsage(specs);
      if latest.None? {
        return false;
      }
      var q := latest.value;
      var over := used.agents > q.maxAgents || used.gpus > q.maxGPUs || used.replicas > q.maxTotalReplicas;
      var next := QuotaStatus(used, over);
      if next != status {
        if !accepted {
          return false;
        }
        status := next;
      }
      ok := true;
    }
  }

  // ---------------------------------------------------------------------------
  // The listing and the protocol
  // ---------------------------------------------------------------------------

  ghost predicate Distinct(items: seq<Item>) {
    forall i, j :: 0 <= i < j < |items| ==> items[i].key != items[j].key
  }

  /** The list shows every stored agent once, in any order. */
  ghost predicate Shows(items: seq<Item>, stored: map<string, AgentSpec>) {
    && Distinct(items)
    && (forall i :: 0 <= i < |items| ==> items[i].key in stored && stored[items[i].key] == Charged(items[i].spec))
    && (forall k :: k in stored ==> exists i :: 0 <= i < |items| && items[i].key == k)
  }

  /** The tenant's usage in a list, by key. */
  ghost function ByKey(items: seq<Item>, t: string): Recount {
    if items == [] then map[]
    else
      var last, rest := items[|items| - 1], ByKey(items[..|items| - 1], t);
      if last.spec.tenant == t then rest[last.key := UsageOf(Charged(last.spec))] else rest
  }

  lemma {:induction false} ByKeyShows(items: seq<Item>, t: string, k: string)
    requires Distinct(items)
    ensures k in ByKey(items, t) <==> exists i :: 0 <= i < |items| && items[i].key == k && items[i].spec.tenant == t
    ensures forall i :: 0 <= i < |items| && items[i].key == k && items[i].spec.tenant == t ==>
                          ByKey(items, t)[k] == UsageOf(Charged(items[i].spec))
  {
    if items == [] {
    } else {
      ByKeyShows(items[..|items| - 1], t, k);
    }
  }

  lemma {:induction false} ByKeyKeys(items: seq<Item>, t: string)
    ensures ByKey(items, t).Keys == Keys(Referencing(items, t))
  {
    if items == [] {
    } else {
      var last, rest := items[|items| - 1], items[..|items| - 1];
      ByKeyKeys(rest, t);
      if last.spec.tenant == t {
        assert Keys(Referencing(rest, t) + [last]) == Keys(Referencing(rest, t)) + {last.key};
      }
    }
  }

  lemma SpecsAppend(refs: seq<Item>, last: Item)
    ensures ListedUsage(refs + [last]) == Add(ListedUsage(refs), UsageOf(Charged(last.spec)))
  {
    var specs := AllCharged(Specs(refs));
    assert AllCharged(Specs(refs + [last])) == specs + [Charged(last.spec)];
    SumReplace(specs, Charged(last.spec), []);
  }

  lemma TotalExtend(m: Recount, k: string, u: Usage)
    requires k !in m
    ensures Total(m[k := u]) == Add(Total(m), u)
  {
    TotalUpdate(m, k, u);
    assert m - {k} == m;
    AddCommutes(u, Total(m));
  }

  lemma {:induction false} ByKeyTotals(items: seq<Item>, t: string)
    requires Distinct(items)
    ensures Total(ByKey(items, t)) == ListedUsage(Referencing(items, t))
  {
    if items == [] {
    } else {
      var last, rest := items[|items| - 1], items[..|items| - 1];
      ByKeyTotals(rest, t);
      if last.spec.tenant == t {
        ByKeyShows(rest, t, last.key);
        TotalExtend(ByKey(rest, t), last.key, UsageOf(Charged(last.spec)));
        SpecsAppend(Referencing(rest, t), last);
      } else {
        assert Referencing(rest, t) + [] == Referencing(rest, t);
      }
    }
  }

  /**
   A listing of the stored agents recounts exactly the tenant's stored usage, and the
   reservations the loop releases are those the protocol's listing is to release.
   */
  lemma ListingRefines(s: State, items: seq<Item>, t: string)
    requires Shows(items, s.stored)
    ensures ListedUsage(Referencing(items, t)) == Total(StoredUsage(s, t))
    ensures Keys(Referencing(items, t)) == StoredUsage(s, t).Keys
    ensures Enabled(s, Lists(t)) ==> Next(s, Lists(t)).listings[t].unreleased == Keys(Referencing(items, t))
  {
    forall k
      ensures k in ByKey(items, t) <==> k in StoredUsage(s, t)
      ensures k in ByKey(items, t) ==> ByKey(items, t)[k] == StoredUsage(s, t)[k]
    {
      ByKeyShows(items, t, k);
    }
    assert ByKey(items, t) == StoredUsage(s, t);
    ByKeyTotals(items, t);
    ByKeyKeys(items, t);
  }

  lemma ExactWithinQuota(s: State, items: seq<Item>, t: string)
    requires Inv(s) && Shows(items, s.stored) && t in s.quotas && !OverQuota(s.quotas[t], Total(StoredUsage(s, t)))
    ensures StatusFor(items, t, s.quotas[t]) == QuotaStatus(Total(StoredUsage(s, t)), false)
  {
    ListingRefines(s, items, t);
    StoredNonNegative(s, t);
    assert Fits(Total(StoredUsage(s, t)));
  }

  /**
   Over quota is reported exactly: for a list that shows every stored agent and a total that
   fits the counters, the counters are that total and the condition is set if and only if
   one of them exceeds its limit.
   */
  lemma ReportsOverQuotaIff(s: State, items: seq<Item>, t: string, q: Quota)
    requires Shows(items, s.stored) && Fits(Total(StoredUsage(s, t)))
    ensures var u := Total(StoredUsage(s, t));
            && StatusFor(items, t, q).used == u
            && (StatusFor(items, t, q).overQuota <==>
                u.agents > q.maxAgents || u.gpus > q.maxGPUs || u.replicas > q.maxTotalReplicas)
  {
    ListingRefines(s, items, t);
  }

  /**
   In every run that respects the hypotheses of the barrier, whenever the reconciler
   lists, its counters are exact and the OverQuota condition is not set.
   */
  lemma NeverReportsOverQuota(states: seq<State>, acts: seq<Action>, i: nat, items: seq<Item>, t: string)
    requires Run(states, acts) && Initial(states[0]) && i < |states| && t in states[i].quotas
    requires forall n :: 0 <= n < |acts| ==> Careful(states[n], acts[n])
    requires Shows(items, states[i].stored)
    ensures StatusFor(items, t, states[i].quotas[t]) == QuotaStatus(Total(StoredUsage(states[i], t)), false)
  {
    StoredWithinQuota(states, acts, i, t);
    InvAlways(states, acts, i);
    ExactWithinQuota(states[i], items, t);
  }

  lemma StoredNonNegative(s: State, t: string)
    requires Inv(s)
    ensures NonNegative(Total(StoredUsage(s, t)))
  {
    var m := StoredUsage(s, t);
    forall k | k in m ensures NonNegative(m[k]) {
      assert KeyHeld(s, k);
    }
    TotalNonNegative(m);
  }
}
