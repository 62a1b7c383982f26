/**
 The in-memory MCP registry (internal/registry/registry.go): entries with heartbeats and
 times to live, changed in place under a lock. Each method is one critical section; the
 clock reading it takes is a parameter.
 */
module DiscoveryRegistry {
  import opened Options
  import opened Durations

  datatype Entry = Entry(namespace: string, name: string, endpoint: string, tools: seq<string>,
                         registeredAt: int, heartbeatAt: int, ttl: int)

  type Entries = map<string, Entry>

  /** DefaultTTL: 90 seconds, in nanoseconds. */
  const DEFAULT_TTL: int := 90 * SECOND

  function Key(namespace: string, name: string): string {
    namespace + "/" + name
  }

  /** An entry without a TTL of its own lives for the registry's. */
  function TtlOf(e: Entry, defaultTTL: int): int {
    if e.ttl <= 0 then defaultTTL else e.ttl
  }

  predicate Expired(e: Entry, defaultTTL: int, now: int) {
    now - e.heartbeatAt > TtlOf(e, defaultTTL)
  }

  /** The entries a reader may see at a given time. */
  function Visible(m: Entries, defaultTTL: int, now: int): Entries {
    map k | k in m && !Expired(m[k], defaultTTL, now) :: m[k]
  }

  function Lookup(m: Entries, k: string): Option<Entry> {
    if k in m then Some(m[k]) else None
  }

  predicate Complete(e: Entry) {
    e.namespace != "" && e.name != "" && e.endpoint != ""
  }

  /** The entry as stored: its first registration time survives, its heartbeat is now. */
  function Stamped(m: Entries, e: Entry, defaultTTL: int, now: int): Entry {
    var k := Key(e.namespace, e.name);
    e.(registeredAt := if k in m then m[k].registeredAt else now, heartbeatAt := now, ttl := TtlOf(e, defaultTTL))
  }

  function Registered(m: Entries, e: Entry, defaultTTL: int, now: int): Entries {
    m[Key(e.namespace, e.name) := Stamped(m, e, defaultTTL, now)]
  }

  function Beaten(m: Entries, k: string, now: int): Entries {
    if k in m then m[k := m[k].(heartbeatAt := now)] else m
  }

  /** Kubernetes names contain no slash, so a key stands for one agent. */
  lemma KeyInjective(namespace: string, name: string, namespace': string, name': string)
    requires '/' !in namespace && '/' !in namespace' && Key(namespace, name) == Key(namespace', name')
    ensures namespace == namespace' && name == name'
  {
    var k, n, n' := Key(namespace, name), |namespace|, |namespace'|;
    assert k[..n] == namespace && k[n] == '/' && k[n + 1..] == name;
    assert k[..n'] == namespace' && k[n'] == '/' && k[n' + 1..] == name';
    assert n == n';
  }

  /** A list without repetition that covers a set is as long as the set. */
  lemma {:induction false} CountOnce(order: seq<string>, keys: set<string>)
    requires forall i, j :: 0 <= i < j < |order| ==> order[i] != order[j]
    requires forall k :: k in order <==> k in keys
    ensures |order| == |keys|
    decreases |order|
  {
    if order == [] {
      assert keys == {};
    } else {
      var n := |order| - 1;
      var rest := order[..n];
      assert order == rest + [order[n]];
      CountOnce(rest, keys - {order[n]});
    }
  }

  class Registry {
    var entries: Entries
    const defaultTTL: int

    constructor (ttl: int)
      ensures entries == map[] && defaultTTL > 0 && defaultTTL == if ttl <= 0 then DEFAULT_TTL else ttl
    {
      entries := map[];
      defaultTTL := if ttl <= 0 then DEFAULT_TTL else ttl;
    }

    /** sweepExpired: delete while iterating, and count. */
    method SweepExpired(now: int) returns (removed: nat)
      modifies this`entries
      ensures entries == Visible(old(entries), defaultTTL, now)
      ensures removed == |old(entries)| - |entries|
    {
      removed := 0;
      var todo := entries.Keys;
      while todo != {}
        invariant todo <= old(entries).Keys
        invariant entries ==
                  map k | k in old(entries) && (k in todo || !Expired(old(entries)[k], defaultTTL, now)) :: old(entries)[k]
        invariant removed == |old(entries)| - |entries|
        decreases todo
      {
        var k :| k in todo;
        var entry := entries[k];
        var ttl := if entry.ttl <= 0 then defaultTTL else entry.ttl;
        if now - entry.heartbeatAt > ttl {
          assert entries.Keys == (entries - {k}).Keys + {k};
          entries := entries - {k};
          removed := removed + 1;
        }
        todo := todo - {k};
      }
    }

    method Register(e: Entry, now: int) returns (ok: bool)
      modifies this`entries
      ensures ok == Complete(e)
      ensures entries == if ok then Registered(old(entries), e, defaultTTL, now) else old(entries)
    {
      if e.namespace == "" || e.name == "" || e.endpoint == "" {
        return false;
      }
      var k := Key(e.namespace, e.name);
      var stamped := e;
      if k !in entries {
        stamped := stamped.(registeredAt := now);
      } else {
        stamped := stamped.(registeredAt := entries[k].registeredAt);
      }
      stamped := stamped.(heartbeatAt := now);
      if e.ttl <= 0 {
        stamped := stamped.(ttl := defaultTTL);
      }
      entries := entries[k := stamped];
      ok := true;
    }

    /** Returns whether there was anything to remove, and so to persist. */
    method Deregister(namespace: string, name: string) returns (removed: bool)
      modifies this`entries
      ensures removed == (Key(namespace, name) in old(entries))
      ensures entries == old(entries) - {Key(namespace, name)}
    {
      var k := Key(namespace, name);
      if k !in entries {
        return false;
      }
      entries := entries - {k};
      removed := true;
    }

    method Heartbeat(namespace: string, name: string, now: int) returns (found: bool)
      modifies this`entries
      ensures found == (Key(namespace, name) in old(entries))
      ensures entries == Beaten(old(entries), Key(namespace, name), now)
    {
      var k := Key(namespace, name);
      if k !in entries {
        return false;
      }
      entries := entries[k := entries[k].(heartbeatAt := now)];
      found := true;
    }

    method Get(namespace: string, name: string, now: int) returns (r: Option<Entry>)
      ensures r == Lookup(Visible(entries, defaultTTL, now), Key(namespace, name))
    {
      var k := Key(namespace, name);
      if k !in entries {
        return None;
      }
      var entry := entries[k];
      var ttl := if entry.ttl <= 0 then defaultTTL else entry.ttl;
      if now - entry.heartbeatAt > ttl {
        return None;
      }
      r := Some(entry);
    }

    /** List: as many entries as are visible, each under its own key, in the map's iteration order. */
    method List(now: int) returns (result: seq<Entry>, ghost order: seq<string>)
      ensures |result| == |Visible(entries, defaultTTL, now)|
      ensures |order| == |result| && (forall i, j :: 0 <= i < j < |order| ==> order[i] != order[j])
      ensures forall i :: 0 <= i < |result| ==> Lookup(Visible(entries, defaultTTL, now), order[i]) == Some(result[i])
    {
      result, order := [], [];
      var todo := entries.Keys;
      while todo != {}
        invariant todo <= entries.Keys
        invariant |order| == |result| && (forall i, j :: 0 <= i < j < |order| ==> order[i] != order[j])
        invariant forall i :: 0 <= i < |result| ==>
                                order[i] !in todo && Lookup(Visible(entries, defaultTTL, now), order[i]) == Some(result[i])
        invariant forall k :: k in Visible(entries, defaultTTL, now) && k !in todo ==> k in order
        decreases todo
      {
        var k :| k in todo;
        todo := todo - {k};
        var entry := entries[k];
        var ttl := if entry.ttl <= 0 then defaultTTL else entry.ttl;
        if now - entry.heartbeatAt <= ttl {
          result := result + [entry];
          order := order + [k];
        }
      }
      CountOnce(order, Visible(entries, defaultTTL, now).Keys);
    }

    /** loadFromConfigMap, once the stored state is read: entries are added one by one. */
    method Load(loaded: Option<Entries>)
      modifies this`entries
      ensures entries == if loaded.Some? then old(entries) + loaded.value else old(entries)
    {
      if loaded.None? {
        return;
      }
      var todo := loaded.value.Keys;
      while todo != {}
        invariant todo <= loaded.value.Keys
        invariant entries == old(entries) + (loaded.value - todo)
        decreases todo
      {
        var k :| k in todo;
        entries := entries[k := loaded.value[k]];
        todo := todo - {k};
      }
      assert loaded.value - {} == loaded.value;
    }
  }
}
