/**
 Persisting the registry to its ConfigMap (internal/registry/registry.go). The map lock
 is dropped before the persist lock is taken, so other operations may come between a
 change, the snapshot that persists it, and the write; a heartbeat is not persisted at
 all. One replica, every write succeeding in the end.
 */
module RegistryPersistence {
  import opened Options
  import opened DiscoveryRegistry

  /**
   pending: changes whose persist call has not returned; writing: the snapshot the call
   holding the persist lock is about to write.
   */
  datatype State = State(mem: Entries, stored: Entries, pending: nat, writing: Option<Entries>, ttl: int, now: int)

  datatype Action =
    | Register(entry: Entry)
    | Deregister(key: string)
    | Heartbeat(key: string)
    | Sweep
    | Snapshot            // a pending persist takes its lock and marshals the entries
    | Conflict            // the write is refused and the entries are marshalled again
    | Write
    | Tick(now: int)
    | Restart             // the process dies and a new, empty one loads the ConfigMap

  ghost predicate Enabled(s: State, a: Action) {
    match a
    case Snapshot => s.pending > 0 && s.writing.None?
    case Conflict => s.writing.Some?
    case Write => s.writing.Some? && s.pending > 0
    case Tick(now) => s.now <= now
    case _ => true
  }

  ghost function Next(s: State, a: Action): State
    requires Enabled(s, a)
  {
    match a
    case Register(e) =>
      if Complete(e) then s.(mem := Registered(s.mem, e, s.ttl, s.now), pending := s.pending + 1) else s
    case Deregister(k) => if k in s.mem then s.(mem := s.mem - {k}, pending := s.pending + 1) else s
    case Heartbeat(k) => s.(mem := Beaten(s.mem, k, s.now))
    case Sweep =>
      var left := Visible(s.mem, s.ttl, s.now);
      s.(mem := left, pending := s.pending + if |left| < |s.mem| then 1 else 0)
    case Snapshot => s.(writing := Some(s.mem))
    case Conflict => s.(writing := Some(s.mem))
    case Write => s.(stored := s.writing.value, writing := None, pending := s.pending - 1)
    case Tick(now) => s.(now := now)
    case Restart => s.(mem := s.stored, pending := 0, writing := None)
  }

  /** The same entries, but for heartbeats that are older or equal. */
  ghost predicate Lags(a: Entries, b: Entries) {
    && a.Keys == b.Keys
    && forall k :: k in a ==> a[k].(heartbeatAt := b[k].heartbeatAt) == b[k] && a[k].heartbeatAt <= b[k].heartbeatAt
  }

  ghost predicate NotFromTheFuture(m: Entries, now: int) {
    forall k :: k in m ==> m[k].heartbeatAt <= now
  }

  /**
   With nothing pending the ConfigMap lags behind memory; when the persist in progress is
   the only one pending, its snapshot does.
   */
  ghost predicate Inv(s: State) {
    && NotFromTheFuture(s.mem, s.now) && NotFromTheFuture(s.stored, s.now)
    && (s.writing.Some? ==> NotFromTheFuture(s.writing.value, s.now) && s.pending > 0)
    && (s.pending == 0 ==> Lags(s.stored, s.mem))
    && (s.pending == 1 && s.writing.Some? ==> Lags(s.writing.value, s.mem))
  }

  lemma HeartbeatLags(a: Entries, b: Entries, k: string, now: int)
    requires Lags(a, b) && NotFromTheFuture(b, now)
    ensures Lags(a, Beaten(b, k, now))
  {
  }

  /** A sweep that counts no removal leaves the entries as they are. */
  lemma EmptySweep(m: Entries, ttl: int, now: int)
    requires |Visible(m, ttl, now)| >= |m|
    ensures Visible(m, ttl, now) == m
  {
    var left := Visible(m, ttl, now);
    assert m.Keys == left.Keys + (m.Keys - left.Keys);
    assert |m.Keys - left.Keys| == 0;
  }

  lemma NextKeeps(s: State, a: Action)
    requires Inv(s) && Enabled(s, a)
    ensures Inv(Next(s, a))
  {
    match a
    case Heartbeat(k) =>
      if s.pending == 0 {
        HeartbeatLags(s.stored, s.mem, k, s.now);
      } else if s.pending == 1 && s.writing.Some? {
        HeartbeatLags(s.writing.value, s.mem, k, s.now);
      }
    case Sweep =>
      if |Visible(s.mem, s.ttl, s.now)| >= |s.mem| {
        EmptySweep(s.mem, s.ttl, s.now);
      }
    case _ =>
  }

  ghost predicate Run(states: seq<State>, acts: seq<Action>) {
    && |states| == |acts| + 1
    && forall i :: 0 <= i < |acts| ==> Enabled(states[i], acts[i]) && states[i + 1] == Next(states[i], acts[i])
  }

  /** A fresh process that has loaded the ConfigMap. */
  ghost predicate Started(s: State) {
    s.mem == s.stored && s.pending == 0 && s.writing.None? && NotFromTheFuture(s.mem, s.now)
  }

  lemma {:induction false} InvAlways(states: seq<State>, acts: seq<Action>, i: nat)
    requires Run(states, acts) && Started(states[0]) && i < |states|
    ensures Inv(states[i])
  {
    if i == 0 {
    } else {
      InvAlways(states, acts, i - 1);
      NextKeeps(states[i - 1], acts[i - 1]);
    }
  }

  /**
   Persistence: in every run, under every interleaving and with restarts anywhere,
   whenever no persist is pending the ConfigMap holds the entries in memory but for
   heartbeats that are older or equal.
   */
  lemma PersistedWhenIdle(states: seq<State>, acts: seq<Action>, i: nat)
    requires Run(states, acts) && Started(states[0]) && i < |states| && states[i].pending == 0
    ensures Lags(states[i].stored, states[i].mem)
  {
    InvAlways(states, acts, i);
  }

  /**
   So a restart from such a state makes no entry visible, now or later, that was not
   live: what a reader then sees is what memory showed, up to the heartbeat.
   */
  lemma RestartShowsNothingNew(states: seq<State>, acts: seq<Action>, i: nat, k: string, now: int)
    requires Run(states, acts) && Started(states[0]) && i < |states| && states[i].pending == 0
    requires k in Visible(Next(states[i], Restart).mem, states[i].ttl, now)
    ensures k in Visible(states[i].mem, states[i].ttl, now)
    ensures var mem := states[i].mem;
            Next(states[i], Restart).mem[k].(heartbeatAt := mem[k].heartbeatAt) == mem[k]
  {
    PersistedWhenIdle(states, acts, i);
  }

  /** A heartbeat, however often, asks for no persist. */
  lemma HeartbeatWritesNothing(s: State, k: string)
    ensures var s' := Next(s, Heartbeat(k));
            s'.pending == s.pending && s'.stored == s.stored && s'.writing == s.writing
  {
  }

  /** A refused write is retried with the entries as they are by then, every change made meanwhile included. */
  lemma RetryStoresMemory(s: State)
    requires s.pending > 0 && s.writing.Some?
    ensures Next(Next(s, Conflict), Write).stored == s.mem
  {
  }

  /** From an idle state: deregister, perhaps persist, and restart. */
  ghost function DeregisterAndRestart(s: State, k: string, persisted: bool): State
    requires s.pending == 0 && s.writing.None? && k in s.mem
  {
    var gone := Next(s, Deregister(k));
    Next(if persisted then Next(Next(gone, Snapshot), Write) else gone, Restart)
  }

  /**
   The condition matters: after a restart a deregistered agent is visible again if and
   only if its removal had not been persisted and its stored heartbeat has not expired.
   */
  lemma ResurrectedIff(s: State, k: string, persisted: bool)
    requires Inv(s) && s.pending == 0 && k in s.mem
    ensures k in Visible(DeregisterAndRestart(s, k, persisted).mem, s.ttl, s.now) <==>
            !persisted && !Expired(s.stored[k], s.ttl, s.now)
  {
  }
}
