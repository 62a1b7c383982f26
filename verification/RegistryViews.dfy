/**
 What readers of the registry see, run by run: Get and List show exactly the entries
 that have not expired, and the sweeper cannot be told apart from its absence except by
 a write that finds an expired entry still there.
 */
module RegistryViews {
  import opened Options
  import opened DiscoveryRegistry

  datatype Op =
    | Register(entry: Entry)
    | Deregister(key: string)
    | Heartbeat(key: string)
    | Sweep
    | Read

  /** An operation and the clock reading it takes. */
  datatype Timed = Timed(op: Op, now: int)

  /** What one operation tells about one key. */
  datatype Answer = Nothing | Seen(entry: Option<Entry>) | Found(found: bool)

  function Effect(m: Entries, d: int, t: Timed): Entries {
    match t.op
    case Register(e) => if Complete(e) then Registered(m, e, d, t.now) else m
    case Deregister(k) => m - {k}
    case Heartbeat(k) => Beaten(m, k, t.now)
    case Sweep => Visible(m, d, t.now)
    case Read => m
  }

  function AnswerAt(m: Entries, d: int, t: Timed, k: string): Answer {
    match t.op
    case Read => Seen(Lookup(Visible(m, d, t.now), k))
    case Heartbeat(j) => if j == k then Found(k in m) else Nothing
    case _ => Nothing
  }

  function Answers(m: Entries, d: int, run: seq<Timed>, k: string): seq<Answer>
    decreases |run|
  {
    if run == [] then []
    else (if run[0].op.Sweep? then [] else [AnswerAt(m, d, run[0], k)]) + Answers(Effect(m, d, run[0]), d, run[1..], k)
  }

  function WithoutSweeps(run: seq<Timed>): seq<Timed>
    decreases |run|
  {
    if run == [] then [] else (if run[0].op.Sweep? then [] else [run[0]]) + WithoutSweeps(run[1..])
  }

  ghost predicate Ordered(now: int, run: seq<Timed>)
    decreases |run|
  {
    run == [] || (now <= run[0].now && Ordered(run[0].now, run[1..]))
  }

  /** The operation refreshes the key: a complete registration or a heartbeat. */
  predicate Refreshes(op: Op, k: string) {
    match op
    case Register(e) => Complete(e) && Key(e.namespace, e.name) == k
    case Heartbeat(j) => j == k
    case _ => false
  }

  /** The key is there, but no reader sees it. */
  predicate Leftover(m: Entries, d: int, k: string, now: int) {
    k in m && Expired(m[k], d, now)
  }

  /** No refresh of the key in this run without sweeps finds an expired entry. */
  ghost predicate NoRevival(m: Entries, d: int, run: seq<Timed>, k: string)
    decreases |run|
  {
    run == [] ||
    (!(Refreshes(run[0].op, k) && Leftover(m, d, k, run[0].now)) && NoRevival(Effect(m, d, run[0]), d, run[1..], k))
  }

  /** The two maps agree on the key, but for an expired entry that only the second still has. */
  ghost predicate Pruned(m: Entries, m': Entries, d: int, k: string, now: int) {
    Lookup(m, k) == Lookup(m', k) || (k !in m && Leftover(m', d, k, now))
  }

  lemma PrunedStep(m: Entries, m': Entries, d: int, k: string, now: int, t: Timed)
    requires Pruned(m, m', d, k, now) && now <= t.now && !t.op.Sweep?
    requires !(Refreshes(t.op, k) && Leftover(m', d, k, t.now))
    ensures AnswerAt(m, d, t, k) == AnswerAt(m', d, t, k)
    ensures Pruned(Effect(m, d, t), Effect(m', d, t), d, k, t.now)
  {
  }

  lemma PrunedSweep(m: Entries, m': Entries, d: int, k: string, now: int, t: Timed)
    requires Pruned(m, m', d, k, now) && now <= t.now && t.op.Sweep?
    ensures Pruned(Effect(m, d, t), m', d, k, t.now)
  {
  }

  /**
   Sweeps are invisible: in every run with a clock that does not go back, removing all
   sweeps changes nothing that any operation tells about a key, as long as no refresh of
   that key finds it expired.
   */
  lemma {:induction false} SweepsInvisible(m: Entries, m': Entries, d: int, now: int, run: seq<Timed>, k: string)
    requires Pruned(m, m', d, k, now) && Ordered(now, run) && NoRevival(m', d, WithoutSweeps(run), k)
    ensures Answers(m, d, run, k) == Answers(m', d, WithoutSweeps(run), k)
    decreases |run|
  {
    if run == [] {
    } else {
      var t, rest := run[0], WithoutSweeps(run[1..]);
      if t.op.Sweep? {
        PrunedSweep(m, m', d, k, now, t);
        assert WithoutSweeps(run) == rest;
        SweepsInvisible(Effect(m, d, t), m', d, t.now, run[1..], k);
      } else {
        assert WithoutSweeps(run) == [t] + rest && ([t] + rest)[1..] == rest && ([t] + rest)[0] == t;
        PrunedStep(m, m', d, k, now, t);
        SweepsInvisible(Effect(m, d, t), Effect(m', d, t), d, t.now, run[1..], k);
      }
    }
  }

  /**
   The exception is exact: a heartbeat right after a sweep is answered as without the
   sweep, and shows the same entry afterwards, if and only if the key was not expired.
   */
  lemma SweepSeenByHeartbeatIff(m: Entries, d: int, k: string, now: int)
    requires d > 0
    ensures var swept, beat := Visible(m, d, now), Timed(Heartbeat(k), now);
            (AnswerAt(swept, d, beat, k) == AnswerAt(m, d, beat, k)
             && Lookup(Visible(Effect(swept, d, beat), d, now), k) == Lookup(Visible(Effect(m, d, beat), d, now), k))
            <==> !Leftover(m, d, k, now)
  {
  }

  /**
   A registration can tell a sweep too: an expired entry hands its first registration time
   down to the new one, a swept entry does not. What the registry holds afterwards is the
   same as without the sweep if and only if the entry was not expired or was first
   registered at this very moment.
   */
  lemma SweepSeenByRegistrationIff(m: Entries, d: int, e: Entry, now: int)
    requires d > 0
    ensures var k, swept, again := Key(e.namespace, e.name), Visible(m, d, now), Timed(Register(e), now);
            Lookup(Visible(Effect(swept, d, again), d, now), k) == Lookup(Visible(Effect(m, d, again), d, now), k)
            <==> !(Complete(e) && Leftover(m, d, k, now) && m[k].registeredAt != now)
  {
  }

  /**
   What readers see of a registration: for every later time, the agent until its own TTL or
   else the registry's has passed, as it registered, first registered when it was; and of
   every other key what they saw before.
   */
  lemma RegistrationShown(m: Entries, d: int, e: Entry, now: int, at: int)
    requires Complete(e)
    ensures var k, after := Key(e.namespace, e.name), Visible(Effect(m, d, Timed(Register(e), now)), d, at);
            && (k in after <==> at <= now + if e.ttl > 0 then e.ttl else d)
            && (k in after ==>
                  var x := after[k];
                  && x.namespace == e.namespace && x.name == e.name && x.endpoint == e.endpoint && x.tools == e.tools
                  && x.registeredAt == (if k in m then m[k].registeredAt else now) && x.heartbeatAt == now)
            && forall j :: j != k ==> Lookup(after, j) == Lookup(Visible(m, d, at), j)
  {
  }

  /** A deregistered key is seen by nobody, at no time; every other key is seen as before. */
  lemma DeregistrationShown(m: Entries, d: int, k: string, now: int, at: int, j: string)
    ensures var after := Visible(Effect(m, d, Timed(Deregister(k), now)), d, at);
            Lookup(after, j) == if j == k then None else Lookup(Visible(m, d, at), j)
  {
  }

  /** A sweep removes exactly what no reader sees any more. */
  lemma SweepRemoves(m: Entries, d: int, now: int, k: string)
    ensures var after := Effect(m, d, Timed(Sweep, now));
            Lookup(after, k) == if Leftover(m, d, k, now) then None else Lookup(m, k)
  {
  }

  // ---------------------------------------------------------------------------
  // How long an agent stays visible
  // ---------------------------------------------------------------------------

  /** No operation of the run writes the key. */
  ghost predicate Untouched(run: seq<Timed>, k: string) {
    forall i :: 0 <= i < |run| ==> !Refreshes(run[i].op, k) && !(run[i].op.Deregister? && run[i].op.key == k)
  }

  function After(m: Entries, d: int, run: seq<Timed>): Entries
    decreases |run|
  {
    if run == [] then m else After(Effect(m, d, run[0]), d, run[1..])
  }

  ghost predicate Before(run: seq<Timed>, now: int) {
    forall i :: 0 <= i < |run| ==> run[i].now <= now
  }

  /**
   An entry that nobody writes any more is visible exactly until its TTL has passed
   since its heartbeat, whatever else happens and whenever sweeps run.
   */
  lemma {:induction false} VisibleUntilTtl(m: Entries, d: int, run: seq<Timed>, k: string, now: int)
    requires Untouched(run, k) && Before(run, now)
    ensures Lookup(Visible(After(m, d, run), d, now), k) == Lookup(Visible(m, d, now), k)
    decreases |run|
  {
    if run == [] {
    } else {
      var m1, rest := Effect(m, d, run[0]), run[1..];
      assert forall i :: 0 <= i < |rest| ==> rest[i] == run[i + 1];
      VisibleUntilTtl(m1, d, rest, k, now);
      assert !Refreshes(run[0].op, k) && run[0].now <= now;
      StepKeepsView(m, d, run[0], k, now);
    }
  }

  lemma StepKeepsView(m: Entries, d: int, t: Timed, k: string, now: int)
    requires !Refreshes(t.op, k) && !(t.op.Deregister? && t.op.key == k) && t.now <= now
    ensures Lookup(Visible(Effect(m, d, t), d, now), k) == Lookup(Visible(m, d, now), k)
  {
  }
}
