/**
 The registrar (internal/registry/mcp_registrar.go): MCP handshakes, heartbeat probes and
 the consecutive-failure counters. The outcome of a handshake and of a persist is part
 of each call.
 */
module Registrar {
  import opened Options
  import opened Durations
  import opened DiscoveryRegistry

  const MAX_FAILURES: nat := 3

  /** An AgentDeployment as the registrar sees it. */
  datatype Agent = Agent(namespace: string, name: string, endpoint: string, tools: seq<string>)

  /** An initialize handshake: the tools advertised, or an error. */
  datatype Probe = Answered(tools: seq<string>) | Unanswered

  function KeyOf(ad: Agent): string {
    Key(ad.namespace, ad.name)
  }

  // ---------------------------------------------------------------------------
  // Merging tools
  // ---------------------------------------------------------------------------

  /** The declared tools that are not yet there, each once, in order. */
  function NewTools(have: seq<string>, declared: seq<string>): seq<string>
    decreases |declared|
  {
    if declared == [] then []
    else if declared[0] in have then NewTools(have, declared[1..])
    else [declared[0]] + NewTools(have + [declared[0]], declared[1..])
  }

  function Merged(discovered: seq<string>, declared: seq<string>): seq<string> {
    discovered + NewTools(discovered, declared)
  }

  /** The merge loop of Register. */
  method MergeTools(discovered: seq<string>, declared: seq<string>) returns (tools: seq<string>)
    ensures tools == Merged(discovered, declared)
  {
    tools := discovered;
    var seen := set t | t in discovered;
    for i := 0 to |declared|
      invariant seen == set t | t in tools
      invariant tools + NewTools(tools, declared[i..]) == Merged(discovered, declared)
    {
      var t := declared[i];
      assert declared[i..][1..] == declared[i + 1..];
      if t !in seen {
        assert tools + NewTools(tools, declared[i..]) == (tools + [t]) + NewTools(tools + [t], declared[i + 1..]);
        tools := tools + [t];
        seen := seen + {t};
      }
    }
    assert declared[|declared|..] == [];
  }

  /** Nothing is lost and nothing is invented; the discovered tools come first, and no other comes twice. */
  lemma {:induction false} MergeIsUnion(discovered: seq<string>, declared: seq<string>, t: string)
    ensures t in Merged(discovered, declared) <==> t in discovered || t in declared
    ensures multiset(NewTools(discovered, declared))[t] == if t in declared && t !in discovered then 1 else 0
    ensures discovered <= Merged(discovered, declared)
    ensures multiset(Merged(discovered, declared))[t] ==
            multiset(discovered)[t] + if t in declared && t !in discovered then 1 else 0
    decreases |declared|
  {
    if declared == [] {
    } else {
      var first, rest := declared[0], declared[1..];
      assert declared == [first] + rest;
      if first in discovered {
        MergeIsUnion(discovered, rest, t);
      } else {
        MergeIsUnion(discovered + [first], rest, t);
        var more := NewTools(discovered + [first], rest);
        assert multiset([first] + more) == multiset{first} + multiset(more);
        assert discovered + ([first] + more) == discovered + [first] + more;
      }
    }
  }

  /** The others come in the order they are declared: one more declared tool goes last, unless it is there. */
  lemma {:induction false} MergeOneMore(discovered: seq<string>, declared: seq<string>, t: string)
    ensures Merged(discovered, declared + [t]) ==
            Merged(discovered, declared) + if t in discovered || t in declared then [] else [t]
    decreases |declared|
  {
    if declared == [] {
      assert NewTools(discovered + [t], []) == [] && [t][1..] == [];
      assert declared + [t] == [t];
    } else {
      var first, rest := declared[0], declared[1..];
      assert (declared + [t])[0] == first && (declared + [t])[1..] == rest + [t];
      if first in discovered {
        MergeOneMore(discovered, rest, t);
      } else {
        MergeOneMore(discovered + [first], rest, t);
        assert discovered + ([first] + NewTools(discovered + [first], rest)) ==
               discovered + [first] + NewTools(discovered + [first], rest);
        assert discovered + ([first] + NewTools(discovered + [first], rest + [t])) ==
               discovered + [first] + NewTools(discovered + [first], rest + [t]);
      }
    }
  }

  // ---------------------------------------------------------------------------
  // Calls
  // ---------------------------------------------------------------------------

  datatype Call =
    | Register(agent: Agent, probe: Probe, persisted: bool)
    | Deregister(agent: Agent, persisted: bool)
    | Heartbeat(agent: Agent, probe: Probe, again: Probe, persisted: bool)
    | Sweep

  datatype Timed = Timed(call: Call, now: int)

  datatype Result =
    | Done
    | HandshakeFailed
    | RegistrationFailed
    | Missed(count: nat)
    | RemovalFailed(count: nat)
    | Deregistered(count: nat)

  datatype State = State(entries: Entries, failures: map<string, nat>)

  function Failures(s: State, k: string): nat {
    if k in s.failures then s.failures[k] else 0
  }

  function EntryFor(ad: Agent, tools: seq<string>): Entry {
    Entry(ad.namespace, ad.name, ad.endpoint, Merged(tools, ad.tools), 0, 0, 0)
  }

  function RegisterStep(s: State, ad: Agent, probe: Probe, persisted: bool, ttl: int, now: int): (State, Result) {
    if probe.Unanswered? then (s, HandshakeFailed)
    else
      var e := EntryFor(ad, probe.tools);
      if !Complete(e) then (s, RegistrationFailed)
      else
        var s' := s.(entries := Registered(s.entries, e, ttl, now));
        if persisted then (s'.(failures := s.failures - {KeyOf(ad)}), Done) else (s', RegistrationFailed)
  }

  function MissStep(s: State, ad: Agent, persisted: bool): (State, Result) {
    var k := KeyOf(ad);
    var n := Failures(s, k) + 1;
    var s' := s.(failures := s.failures[k := n]);
    if n < MAX_FAILURES then (s', Missed(n))
    else (s'.(entries := s.entries - {k}), if k in s.entries && !persisted then RemovalFailed(n) else Deregistered(n))
  }

  function Step(s: State, ttl: int, t: Timed): (State, Result) {
    match t.call
    case Register(ad, probe, persisted) => RegisterStep(s, ad, probe, persisted, ttl, t.now)
    case Deregister(ad, persisted) =>
      var k := KeyOf(ad);
      (State(s.entries - {k}, s.failures - {k}), if k in s.entries && !persisted then RemovalFailed(0) else Done)
    case Heartbeat(ad, probe, again, persisted) =>
      if probe.Unanswered? then MissStep(s, ad, persisted)
      else
        var k := KeyOf(ad);
        var s' := s.(failures := s.failures - {k});
        if k in s.entries then (s'.(entries := Beaten(s.entries, k, t.now)), Done)
        else RegisterStep(s', ad, again, persisted, ttl, t.now)
    case Sweep => (s.(entries := Visible(s.entries, ttl, t.now)), Done)
  }

  class Registrar {
    const registry: Registry
    var failures: map<string, nat>

    constructor (registry: Registry)
      ensures this.registry == registry && failures == map[]
    {
      this.registry := registry;
      failures := map[];
    }

    ghost function Abs(): State
      reads this, registry
    {
      State(registry.entries, failures)
    }

    method IncrementFailures(k: string) returns (n: nat)
      modifies this`failures
      ensures n == Failures(old(Abs()), k) + 1 && failures == old(failures)[k := n]
    {
      if k in failures {
        failures := failures[k := failures[k] + 1];
      } else {
        failures := failures[k := 1];
      }
      n := failures[k];
    }

    method ResetFailures(k: string)
      modifies this`failures
      ensures failures == old(failures) - {k}
    {
      failures := failures - {k};
    }

    method Register(ad: Agent, probe: Probe, persisted: bool, now: int) returns (r: Result)
      modifies this`failures, registry`entries
      ensures (Abs(), r) == Step(old(Abs()), registry.defaultTTL, Timed(Call.Register(ad, probe, persisted), now))
    {
      if probe.Unanswered? {
        return HandshakeFailed;
      }
      var tools := MergeTools(probe.tools, ad.tools);
      var ok := registry.Register(Entry(ad.namespace, ad.name, ad.endpoint, tools, 0, 0, 0), now);
      if !ok || !persisted {
        return RegistrationFailed;
      }
      ResetFailures(KeyOf(ad));
      r := Done;
    }

    method Deregister(ad: Agent, persisted: bool, now: int) returns (r: Result)
      modifies this`failures, registry`entries
      ensures (Abs(), r) == Step(old(Abs()), registry.defaultTTL, Timed(Call.Deregister(ad, persisted), now))
    {
      ResetFailures(KeyOf(ad));
      var removed := registry.Deregister(ad.namespace, ad.name);
      r := if removed && !persisted then RemovalFailed(0) else Done;
    }

    method Heartbeat(ad: Agent, probe: Probe, again: Probe, persisted: bool, now: int) returns (r: Result)
      modifies this`failures, registry`entries
      ensures (Abs(), r) == Step(old(Abs()), registry.defaultTTL, Timed(Call.Heartbeat(ad, probe, again, persisted), now))
    {
      if probe.Unanswered? {
        var n := IncrementFailures(KeyOf(ad));
        if n >= MAX_FAILURES {
          var removed := registry.Deregister(ad.namespace, ad.name);
          return if removed && !persisted then RemovalFailed(n) else Deregistered(n);
        }
        return Missed(n);
      }
      ResetFailures(KeyOf(ad));
      var found := registry.Heartbeat(ad.namespace, ad.name, now);
      if !found {
        r := Register(ad, again, persisted, now);
        return;
      }
      r := Done;
    }
  }

  /** A handshake that leads to an entry. */
  predicate Registrable(ad: Agent, probe: Probe) {
    probe.Answered? && ad.namespace != "" && ad.name != "" && ad.endpoint != ""
  }

  /** The agent is shown as it is: its own endpoint, and a tool exactly if it advertised or declares it. */
  ghost predicate ShownAs(entries: Entries, ad: Agent, probe: Probe, tool: string)
    requires probe.Answered?
  {
    && KeyOf(ad) in entries
    && var x := entries[KeyOf(ad)];
       && x.namespace == ad.namespace && x.name == ad.name && x.endpoint == ad.endpoint
       && (tool in x.tools <==> tool in probe.tools || tool in ad.tools)
  }

  /**
   What a registration attempt reports and shows. Success is reported exactly if it was also
   persisted. An answered handshake of a complete agent shows the agent at once,
   persisted or not, until the TTL has passed; any other attempt shows what was there.
   */
  lemma HandshakeShown(s: State, ad: Agent, probe: Probe, persisted: bool, ttl: int, now: int, at: int, tool: string)
    ensures var (s', r), k := Step(s, ttl, Timed(Register(ad, probe, persisted), now)), KeyOf(ad);
            && (r.Done? <==> Registrable(ad, probe) && persisted)
            && (r.HandshakeFailed? <==> probe.Unanswered?)
            && (!Registrable(ad, probe) ==> s'.entries == s.entries)
            && (Registrable(ad, probe) ==>
                  && (k in Visible(s'.entries, ttl, at) <==> at <= now + ttl)
                  && ShownAs(s'.entries, ad, probe, tool))
  {
    if probe.Answered? {
      MergeIsUnion(probe.tools, ad.tools, tool);
    }
  }

  /**
   What a heartbeat of a registered agent that answers shows: everything as it was, for
   another TTL of its own. One of an agent the registry has lost is a registration, with a
   handshake of its own.
   */
  lemma HeartbeatShown(s: State, ad: Agent, probe: Probe, again: Probe, persisted: bool, ttl: int, now: int, at: int)
    requires probe.Answered?
    ensures var (s', r), k := Step(s, ttl, Timed(Heartbeat(ad, probe, again, persisted), now)), KeyOf(ad);
            && (k in s.entries ==>
                  && r == Done && k in s'.entries && s'.entries[k].(heartbeatAt := s.entries[k].heartbeatAt) == s.entries[k]
                  && (k in Visible(s'.entries, ttl, at) <==> at <= now + TtlOf(s.entries[k], ttl)))
            && (k !in s.entries ==>
                  var (registered, r') := Step(s, ttl, Timed(Register(ad, again, persisted), now));
                  s'.entries == registered.entries && r == r')
  {
  }

  /** A deregistration takes the agent away in any case; it fails exactly if there was something to persist and it was not. */
  lemma DeregistrationShown(s: State, ad: Agent, persisted: bool, ttl: int, now: int)
    ensures var (s', r), k := Step(s, ttl, Timed(Deregister(ad, persisted), now)), KeyOf(ad);
            && s'.entries == s.entries - {k} && Failures(s', k) == 0
            && (r == Done <==> persisted || k !in s.entries)
  {
  }

  /** A sweep removes exactly the expired entries and leaves the counters alone. */
  lemma SweepShown(s: State, ttl: int, now: int, k: string)
    ensures var s' := Step(s, ttl, Timed(Sweep, now)).0;
            && s'.failures == s.failures
            && Lookup(s'.entries, k) == if k in s.entries && Expired(s.entries[k], ttl, now) then None else Lookup(s.entries, k)
  {
  }

  /** No call about one agent changes what readers see of another. */
  lemma OthersUnchanged(s: State, ttl: int, t: Timed, j: string, at: int)
    requires !About(t.call, j) && t.now <= at
    ensures Lookup(Visible(Step(s, ttl, t).0.entries, ttl, at), j) == Lookup(Visible(s.entries, ttl, at), j)
  {
  }

  // ---------------------------------------------------------------------------
  // Three strikes
  // ---------------------------------------------------------------------------

  /** The call clears the key's counter: a successful probe, registration, or a deregistration. */
  predicate Resets(c: Call, k: string) {
    match c
    case Register(ad, probe, persisted) =>
      KeyOf(ad) == k && probe.Answered? && Complete(EntryFor(ad, probe.tools)) && persisted
    case Deregister(ad, _) => KeyOf(ad) == k
    case Heartbeat(ad, probe, _, _) => KeyOf(ad) == k && probe.Answered?
    case Sweep => false
  }

  predicate Misses(c: Call, k: string) {
    c.Heartbeat? && KeyOf(c.agent) == k && c.probe.Unanswered?
  }

  /** The key's failed probes since the call that last cleared its counter. */
  function Trailing(run: seq<Timed>, k: string): nat
    decreases |run|
  {
    if run == [] then 0
    else
      var last := run[|run| - 1].call;
      if Resets(last, k) then 0 else Trailing(run[..|run| - 1], k) + if Misses(last, k) then 1 else 0
  }

  function After(s: State, ttl: int, run: seq<Timed>): State
    decreases |run|
  {
    if run == [] then s else Step(After(s, ttl, run[..|run| - 1]), ttl, run[|run| - 1]).0
  }

  lemma StepCounts(s: State, ttl: int, t: Timed, k: string)
    ensures Failures(Step(s, ttl, t).0, k) ==
            if Resets(t.call, k) then 0 else Failures(s, k) + if Misses(t.call, k) then 1 else 0
  {
  }

  lemma {:induction false} CounterIsTrailing(s: State, ttl: int, run: seq<Timed>, k: string)
    requires s.failures == map[]
    ensures Failures(After(s, ttl, run), k) == Trailing(run, k)
    decreases |run|
  {
    if run == [] {
    } else {
      CounterIsTrailing(s, ttl, run[..|run| - 1], k);
      StepCounts(After(s, ttl, run[..|run| - 1]), ttl, run[|run| - 1], k);
    }
  }

  /**
   Three strikes: after every history of calls, a heartbeat reports deregistration
   exactly when its probe failed, this made at least three failures in a row since the
   last successful probe, registration or deregistration of the agent, and removal succeeded.
   Then, and with a failed persist as well, the agent is gone.
   */
  lemma ThreeStrikes(s: State, ttl: int, run: seq<Timed>, t: Timed)
    requires s.failures == map[] && t.call.Heartbeat?
    ensures var k, before, after := KeyOf(t.call.agent), After(s, ttl, run), Step(After(s, ttl, run), ttl, t);
            && (after.1.Deregistered? <==>
                t.call.probe.Unanswered? && Trailing(run + [t], k) >= 3 && (k !in before.entries || t.call.persisted))
            && (t.call.probe.Unanswered? ==>
                  && after.0.entries == (if Trailing(run + [t], k) >= 3 then before.entries - {k} else before.entries)
                  && (after.1.Missed? <==> Trailing(run + [t], k) < 3)
                  && after.1.count == Trailing(run + [t], k))
  {
    CounterIsTrailing(s, ttl, run, KeyOf(t.call.agent));
    assert (run + [t])[..|run|] == run;
  }

  // ---------------------------------------------------------------------------
  // Missed probes and the TTL
  // ---------------------------------------------------------------------------

  /** The call is about the key. */
  predicate About(c: Call, k: string) {
    !c.Sweep? && KeyOf(c.agent) == k
  }

  /** Only failed probes of the key in the run, and no clock reading after `now`. */
  ghost predicate OnlyMisses(run: seq<Timed>, k: string, now: int) {
    forall i :: 0 <= i < |run| ==> run[i].now <= now && (About(run[i].call, k) ==> Misses(run[i].call, k))
  }

  function CountMisses(run: seq<Timed>, k: string): nat
    decreases |run|
  {
    if run == [] then 0 else CountMisses(run[..|run| - 1], k) + if Misses(run[|run| - 1].call, k) then 1 else 0
  }

  lemma StepKeepsView(s: State, ttl: int, t: Timed, k: string, now: int)
    requires t.now <= now && (About(t.call, k) ==> Misses(t.call, k) && Failures(s, k) < 2)
    ensures Lookup(Visible(Step(s, ttl, t).0.entries, ttl, now), k) == Lookup(Visible(s.entries, ttl, now), k)
  {
  }

  /** Fewer than three misses in a row change nothing that readers see of the agent. */
  lemma {:induction false} MissesKeepView(s: State, ttl: int, run: seq<Timed>, k: string, now: int)
    requires OnlyMisses(run, k, now) && Failures(s, k) + CountMisses(run, k) < 3
    ensures Lookup(Visible(After(s, ttl, run).entries, ttl, now), k) == Lookup(Visible(s.entries, ttl, now), k)
    ensures Failures(After(s, ttl, run), k) == Failures(s, k) + CountMisses(run, k)
    decreases |run|
  {
    if run == [] {
    } else {
      MissesKeepView(s, ttl, run[..|run| - 1], k, now);
      StepKeepsView(After(s, ttl, run[..|run| - 1]), ttl, run[|run| - 1], k, now);
      StepCounts(After(s, ttl, run[..|run| - 1]), ttl, run[|run| - 1], k);
    }
  }

  /** Whether an agent whose probes are `interval` apart stays visible through this many misses. */
  predicate Tolerates(misses: nat, interval: nat, ttl: int) {
    (misses + 1) * interval <= ttl
  }

  /**
   Missed probes: after any run in which an agent last seen at `seen` only misses fewer than three
   probes, under any sweeps and with any other agents, readers see it at every time up to
   the next probe if and only if the interval tolerates that many misses; past its TTL
   nobody sees it.
   */
  lemma MissedProbes(s: State, ttl: int, run: seq<Timed>, k: string, interval: nat, now: int)
    requires ttl > 0 && k in s.entries && s.entries[k].ttl == ttl && Failures(s, k) == 0
    requires OnlyMisses(run, k, now) && CountMisses(run, k) < 3
    ensures var seen, misses := s.entries[k].heartbeatAt, CountMisses(run, k);
            && (now <= seen + (misses + 1) * interval && Tolerates(misses, interval, ttl) ==>
                  k in Visible(After(s, ttl, run).entries, ttl, now))
            && (now == seen + (misses + 1) * interval && !Tolerates(misses, interval, ttl) ==>
                  k !in Visible(After(s, ttl, run).entries, ttl, now))
            && (now > seen + ttl ==> k !in Visible(After(s, ttl, run).entries, ttl, now))
  {
    MissesKeepView(s, ttl, run, k, now);
  }

  // ---------------------------------------------------------------------------
  // The configured intervals
  // ---------------------------------------------------------------------------

  const DEFAULT_INTERVAL: int := 60 * SECOND

  /** The probe interval the operator runs with (cmd/main.go). */
  function ProbeInterval(configured: int, ttl: int): int {
    if configured >= ttl then ttl / 2 else configured
  }

  /**
   With both settings at least a second: a probe that succeeds always comes in time, an
   adjusted interval tolerates exactly one miss, and the defaults tolerate none, so the
   third strike never comes before readers have lost the agent.
   */
  lemma ConfiguredTolerance(configured: int, ttl: int)
    requires configured >= SECOND && ttl >= SECOND
    ensures var d := ProbeInterval(configured, ttl);
            && 0 < d < ttl && Tolerates(0, d, ttl)
            && (configured >= ttl ==> Tolerates(1, d, ttl) && !Tolerates(2, d, ttl))
            && (Tolerates(2, d, ttl) <==> 3 * configured <= ttl)
    ensures ProbeInterval(DEFAULT_INTERVAL, DEFAULT_TTL) == 60 * SECOND && DEFAULT_TTL == 90 * SECOND
    ensures !Tolerates(1, 60 * SECOND, 90 * SECOND)
  {
  }
}
