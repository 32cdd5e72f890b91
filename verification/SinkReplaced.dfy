/** A route that failed to receive leaves a clean cache behind it. */
module SinkReplaced {
  import opened SinkCache
  import opened SinkTheorems

  /** A cached client is reused and nothing is dialed; without one a successful dial gives the route a
      client with a number never used before, cached under the node. */
  lemma EnsureExactly(s: Cache, i: nat, dials: bool)
    requires Can(s, Ensure(i, dials))
    ensures var s', node := Next(s, Ensure(i, dials)), s.calls[i].node;
            && (node in s.sinks ==>
                  s'.calls[i].phase == Holding(s.sinks[node]) && s'.sinks == s.sinks && s'.dialed == s.dialed)
            && (node !in s.sinks && !dials ==> s'.calls[i].phase == Failed && s'.sinks == s.sinks && s'.dialed == s.dialed)
            && (node !in s.sinks && dials && !s.cleared ==>
                  s'.calls[i].phase == Holding(s.dialed) && s'.sinks == s.sinks[node := s.dialed] && s'.dialed == s.dialed + 1)
  {
  }

  /** A shutdown closes every cached client and empties the cache. */
  lemma StopExactly(s: Cache)
    requires Can(s, StopClear)
    ensures Next(s, StopClear).sinks == map[] && forall n :: n in s.sinks ==> s.sinks[n] in Next(s, StopClear).closed
  {
  }

  ghost predicate Cached(sinks: map<string, nat>, c: nat)
  {
    exists n :: n in sinks && sinks[n] == c
  }

  /** A call that sent over client `c` still waits, has its envelope, or has given up; it stops giving
      up only once `c` is out of the cache. */
  predicate Standing(p: Phase, c: nat, cached: bool)
  {
    match p
    case Sent(d) => d == c
    case Failing(d) => d == c
    case Returned(d, _) => d == c
    case Closing(d) => d == c && !cached
    case Failed => !cached
    case _ => false
  }

  /** Client `c` is known, and cached if at all under `node`; a server that is down has no cache. */
  ghost predicate Placed(up: bool, cleared: bool, sinks: map<string, nat>, dialed: nat, node: string, c: nat)
  {
    && c < dialed && (!up ==> cleared) && (cleared ==> sinks == map[])
    && forall n :: n in sinks && sinks[n] == c ==> n == node
  }

  ghost predicate Settles(s: Cache, i: nat, c: nat)
  {
    i in s.calls && Placed(s.up, s.cleared, s.sinks, s.dialed, s.calls[i].node, c) &&
    Standing(s.calls[i].phase, c, Cached(s.sinks, c))
  }

  lemma EnsureSettles(s: Cache, j: nat, dials: bool, i: nat, c: nat)
    requires Settles(s, i, c) && Can(s, Ensure(j, dials))
    ensures Settles(Next(s, Ensure(j, dials)), i, c)
  {
    var s' := Next(s, Ensure(j, dials));
    assert Cached(s'.sinks, c) ==> Cached(s.sinks, c) by {
      if n :| n in s'.sinks && s'.sinks[n] == c {
        assert n in s.sinks && s.sinks[n] == c;
      }
    }
  }

  lemma EvictSettles(s: Cache, j: nat, i: nat, c: nat)
    requires Settles(s, i, c) && Can(s, Evict(j))
    ensures Settles(Next(s, Evict(j)), i, c)
  {
    var s' := Next(s, Evict(j));
    assert forall n :: n in s'.sinks ==> n in s.sinks && s'.sinks[n] == s.sinks[n];
    assert Cached(s'.sinks, c) ==> Cached(s.sinks, c);
  }

  /** Only ensuring a sink gives a route a client; any other step moves at most one call along. */
  lemma OneMoves(s: Cache, step: Step)
    requires Can(s, step) && !step.Ensure?
    ensures var calls' := Next(s, step).calls;
            if step.Deliver? || step.Unregister? || step.StopClear? || step.StopDone? then calls' == s.calls
            else step.i in calls' && calls' == s.calls[step.i := calls'[step.i]] && MovesAlong(s, step, calls'[step.i])
  {
    match step
    case Evict(i) => assert s.calls[i := Next(s, step).calls[i]] == Next(s, step).calls;
    case Begin(i, _) => assert s.calls[i := Next(s, step).calls[i]] == Next(s, step).calls;
    case Send(i, _) => assert s.calls[i := Next(s, step).calls[i]] == Next(s, step).calls;
    case Receive(i) => assert s.calls[i := Next(s, step).calls[i]] == Next(s, step).calls;
    case Timeout(i) => assert s.calls[i := Next(s, step).calls[i]] == Next(s, step).calls;
    case CloseSink(i) => assert s.calls[i := Next(s, step).calls[i]] == Next(s, step).calls;
    case _ =>
  }

  /** The call a step moves, as it stands afterwards. */
  predicate MovesAlong(s: Cache, step: Step, call: Call)
  {
    match step
    case Begin(i, _) => i !in s.calls && !HasClient(call.phase)
    case Send(i, ok) =>
      i in s.calls && s.calls[i].phase.Holding? && call.node == s.calls[i].node &&
      call.phase == if ok then Sent(s.calls[i].phase.client) else Failed
    case Receive(i) =>
      i in s.calls && s.calls[i].phase.Sent? && call.node == s.calls[i].node &&
      call.phase.Returned? && call.phase.client == s.calls[i].phase.client
    case Timeout(i) =>
      i in s.calls && s.calls[i].phase.Sent? && call == Call(s.calls[i].node, Failing(s.calls[i].phase.client))
    case Evict(i) =>
      i in s.calls && s.calls[i].phase.Failing? && call.node == s.calls[i].node &&
      call.phase in {Closing(s.calls[i].phase.client), Failed}
    case CloseSink(i) => i in s.calls && s.calls[i].phase.Closing? && call == Call(s.calls[i].node, Failed)
    case _ => true
  }

  lemma OtherMoves(s: Cache, step: Step, i: nat, c: nat, cached: bool)
    requires Can(s, step) && !step.Ensure? && !step.Evict? && i in s.calls && Standing(s.calls[i].phase, c, cached)
    ensures var s' := Next(s, step);
            i in s'.calls && s'.calls[i].node == s.calls[i].node && Standing(s'.calls[i].phase, c, cached)
  {
    hide Next, Can;
    OneMoves(s, step);
  }

  lemma OtherPlaces(s: Cache, step: Step, node: string, c: nat)
    requires Can(s, step) && !step.Ensure? && !step.Evict? && Placed(s.up, s.cleared, s.sinks, s.dialed, node, c)
    ensures var s' := Next(s, step);
            Placed(s'.up, s'.cleared, s'.sinks, s'.dialed, node, c) && (Cached(s'.sinks, c) ==> Cached(s.sinks, c))
  {
    assert Next(s, step).sinks == s.sinks || Next(s, step).sinks == map[];
  }

  lemma OtherSettles(s: Cache, step: Step, i: nat, c: nat)
    requires Settles(s, i, c) && Can(s, step) && !step.Ensure? && !step.Evict?
    ensures Settles(Next(s, step), i, c)
  {
    hide Next, Can, Placed, Cached;
    OtherMoves(s, step, i, c, Cached(s.sinks, c));
    OtherPlaces(s, step, s.calls[i].node, c);
  }

  lemma {:induction false} RunSettles(s: Cache, run: seq<Step>, i: nat, c: nat)
    requires Settles(s, i, c) && CanRun(s, run)
    ensures Settles(After(s, run), i, c)
    decreases |run|
  {
    hide Settles, Next, Can;
    if run != [] {
      if run[0].Ensure? {
        EnsureSettles(s, run[0].i, run[0].dials, i, c);
      } else if run[0].Evict? {
        EvictSettles(s, run[0].i, i, c);
      } else {
        OtherSettles(s, run[0], i, c);
      }
      RunSettles(Next(s, run[0]), run[1..], i, c);
    }
  }

  /** Every route holds a client that was dialed for its own node; a server that is down is cleared. */
  ghost predicate Matched(s: Cache)
  {
    && (!s.up ==> s.cleared)
    && forall i :: i in s.calls && HasClient(s.calls[i].phase) ==>
         s.calls[i].phase.client in s.nodeOf && s.nodeOf[s.calls[i].phase.client] == s.calls[i].node
  }

  lemma EnsureMatches(s: Cache, i: nat, dials: bool)
    requires CacheOk(s) && Matched(s) && Can(s, Ensure(i, dials))
    ensures Matched(Next(s, Ensure(i, dials)))
  {
    hide ClosesOk, ReturnsOk, EnvelopesOk, BuffersOk, CallsOk;
    var node := s.calls[i].node;
    assert node in s.sinks ==> SinkOk(node, s.sinks[node], s.nodeOf, s.registered, s.closed, s.evicted);
    assert s.dialed !in s.nodeOf;
  }

  lemma OthersKeepNodes(s: Cache, step: Step)
    requires Can(s, step) && !step.Ensure?
    ensures Next(s, step).nodeOf == s.nodeOf && (!Next(s, step).up ==> !s.up || s.cleared)
    ensures s.cleared ==> Next(s, step).cleared
  {
    match step
    case Evict(i) =>
    case StopClear =>
    case StopDone =>
    case _ =>
  }

  lemma StepMatches(s: Cache, step: Step)
    requires CacheOk(s) && Matched(s) && Can(s, step)
    ensures Matched(Next(s, step))
  {
    hide CacheOk, EnsureSink, Next, Can;
    if step.Ensure? {
      EnsureMatches(s, step.i, step.dials);
    } else {
      OthersKeepNodes(s, step);
      OneMoves(s, step);
    }
  }

  lemma {:induction false} RunMatches(s: Cache, run: seq<Step>)
    requires CacheOk(s) && Matched(s) && CanRun(s, run)
    ensures Matched(After(s, run))
    decreases |run|
  {
    hide CacheOk, Matched, Next, Can;
    if run != [] {
      StepKeeps(s, run[0]);
      StepMatches(s, run[0]);
      RunMatches(Next(s, run[0]), run[1..]);
    }
  }

  lemma SentSettles(s: Cache, i: nat)
    requires CacheOk(s) && Matched(s) && i in s.calls && s.calls[i].phase.Sent?
    ensures Settles(s, i, s.calls[i].phase.client)
  {
    hide ClosesOk, ReturnsOk, EnvelopesOk, BuffersOk;
    var c := s.calls[i].phase.client;
    forall n | n in s.sinks && s.sinks[n] == c ensures n == s.calls[i].node {
      assert SinkOk(n, c, s.nodeOf, s.registered, s.closed, s.evicted);
    }
  }

  /** On every run, a route that sent its envelope comes back with an error only when the client it
      received on is out of the cache, and that client never gets back in. */
  lemma FailedRouteEvicts(s: Cache, run: seq<Step>, i: nat, node: string)
    requires Reachable(s) && CanRun(s, run) && i in s.calls && s.calls[i].phase.Sent?
    ensures i in After(s, run).calls
    ensures After(s, run).calls[i].phase == Failed && node in After(s, run).sinks ==>
              After(s, run).sinks[node] != s.calls[i].phase.client
  {
    hide CacheOk, Matched, Can, Next;
    ReachableOk(s);
    NewOk();
    assert Matched(NEW) by {
      NewMatches();
    }
    var before :| CanRun(NEW, before) && After(NEW, before) == s;
    RunMatches(NEW, before);
    SentSettles(s, i);
    RunSettles(s, run, i, s.calls[i].phase.client);
  }

  lemma NewMatches()
    ensures Matched(NEW)
  {
  }

  ghost predicate ClosesClose(s: Cache)
  {
    forall c :: c in s.closes ==> c in s.closed
  }

  lemma StepCloses(s: Cache, step: Step)
    requires ClosesClose(s) && Can(s, step)
    ensures ClosesClose(Next(s, step))
  {
  }

  lemma {:induction false} RunCloses(s: Cache, run: seq<Step>)
    requires ClosesClose(s) && CanRun(s, run)
    ensures ClosesClose(After(s, run))
    decreases |run|
  {
    hide ClosesClose, Can, Next;
    if run != [] {
      StepCloses(s, run[0]);
      RunCloses(Next(s, run[0]), run[1..]);
    }
  }

  /** On every run an evicted client is closed once the route that evicted it is through. */
  lemma EvictedIsClosed(s: Cache, c: nat)
    requires Reachable(s) && c in s.evicted && Closers(s.calls, c) == {}
    ensures c in s.closed
  {
    var run :| CanRun(NEW, run) && After(NEW, run) == s;
    RunCloses(NEW, run);
    EvictedClosedOnce(s, c);
  }
}
