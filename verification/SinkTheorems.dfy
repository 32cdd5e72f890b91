/** What eviction guarantees over every interleaving of network routes, and what it does not. */
module SinkTheorems {
  import opened SinkCache
  import Sets

  /** A client is closed by eviction at most once, only if it was evicted, and exactly once when
      its evictor is through. */
  lemma EvictedClosedOnce(s: Cache, c: nat)
    requires Reachable(s)
    ensures s.closes[c] <= 1 && (c !in s.evicted ==> s.closes[c] == 0 && Closers(s.calls, c) == {})
    ensures c in s.evicted && Closers(s.calls, c) == {} ==> s.closes[c] == 1
  {
    ReachableOk(s);
    assert s.closes[c] + |Closers(s.calls, c)| == if c in s.evicted then 1 else 0;
  }

  /** Whatever is cached has not been closed, and no eviction still under way will close it. */
  lemma CachedIsOpen(s: Cache, node: string)
    requires Reachable(s) && node in s.sinks
    ensures s.sinks[node] !in s.closed && s.closes[s.sinks[node]] == 0 && Closers(s.calls, s.sinks[node]) == {}
  {
    ReachableOk(s);
    assert SinkOk(node, s.sinks[node], s.nodeOf, s.registered, s.closed, s.evicted);
    EvictedClosedOnce(s, s.sinks[node]);
  }

  /** Somewhere in the run a route evicts the client `c` that it used itself. */
  ghost predicate EvictedByUser(s: Cache, run: seq<Step>, c: nat)
    requires CanRun(s, run)
    decreases |run|
  {
    run != [] &&
    ((run[0].Evict? && s.calls[run[0].i].phase == Failing(c)) || EvictedByUser(Next(s, run[0]), run[1..], c))
  }

  lemma StepLeavesCached(s: Cache, step: Step, node: string)
    requires Can(s, step) && node in s.sinks
    ensures var s' := Next(s, step);
            || (node in s'.sinks && s'.sinks[node] == s.sinks[node])
            || s'.cleared
            || (step.Evict? && s.calls[step.i].phase == Failing(s.sinks[node]))
    ensures s.cleared ==> Next(s, step).cleared
  {
  }

  lemma {:induction false} ClearedStays(s: Cache, run: seq<Step>)
    requires CanRun(s, run) && s.cleared
    ensures After(s, run).cleared
    decreases |run|
  {
    if run != [] {
      StepStaysCleared(s, run[0]);
      hide Next, Can;
      ClearedStays(Next(s, run[0]), run[1..]);
    }
  }

  lemma StepStaysCleared(s: Cache, step: Step)
    requires Can(s, step) && s.cleared
    ensures Next(s, step).cleared
  {
  }

  /** A cached client leaves the cache only when the server is shut down or when a route that used
      that very client evicts it: a stale eviction never takes a replacement out. */
  lemma {:induction false} OnlyUsersEvict(s: Cache, run: seq<Step>, node: string)
    requires CanRun(s, run) && node in s.sinks
    ensures var s' := After(s, run);
            (node in s'.sinks && s'.sinks[node] == s.sinks[node]) || s'.cleared || EvictedByUser(s, run, s.sinks[node])
    decreases |run|
  {
    if run != [] {
      StepLeavesCached(s, run[0], node);
      var s' := Next(s, run[0]);
      if s'.cleared {
        ClearedStays(s', run[1..]);
      } else if node in s'.sinks && s'.sinks[node] == s.sinks[node] {
        hide Next, Can;
        OnlyUsersEvict(s', run[1..], node);
      }
    }
  }

  // ---------------------------------------------------------------------------
  // An evicted client is never used again
  // ---------------------------------------------------------------------------

  /** Call `i` does not hold client `c`: it has no client, or another one. */
  predicate NotHolding(calls: map<nat, Call>, i: nat, c: nat)
  {
    i in calls && HasClient(calls[i].phase) ==> calls[i].phase.client != c
  }

  ghost predicate Avoids(s: Cache, i: nat, c: nat)
  {
    c in s.evicted && NotHolding(s.calls, i, c)
  }

  /** Only ensuring a sink gives a route a client. */
  lemma MoveNotHolding(calls: map<nat, Call>, j: nat, call: Call, i: nat, c: nat)
    requires NotHolding(calls, i, c)
    requires HasClient(call.phase) ==> j in calls && HasClient(calls[j].phase) && call.phase.client == calls[j].phase.client
    ensures NotHolding(calls[j := call], i, c)
  {
  }

  lemma EnsureAvoids(s: Cache, j: nat, dials: bool, i: nat, c: nat)
    requires CacheOk(s) && Can(s, Ensure(j, dials)) && Avoids(s, i, c)
    ensures Avoids(Next(s, Ensure(j, dials)), i, c)
  {
    hide ClosesOk, ReturnsOk, EnvelopesOk, BuffersOk, CallsOk;
    var node := s.calls[j].node;
    assert node in s.sinks ==> SinkOk(node, s.sinks[node], s.nodeOf, s.registered, s.closed, s.evicted);
    assert c < s.dialed;
  }

  lemma StepAvoids(s: Cache, step: Step, i: nat, c: nat)
    requires CacheOk(s) && Can(s, step) && Avoids(s, i, c)
    ensures Avoids(Next(s, step), i, c)
  {
    if step.Ensure? {
      EnsureAvoids(s, step.i, step.dials, i, c);
    } else {
      hide CacheOk, NotHolding;
      if !step.Deliver? && !step.Unregister? && !step.StopClear? && !step.StopDone? {
        MoveNotHolding(s.calls, step.i, Next(s, step).calls[step.i], i, c);
      }
    }
  }

  lemma {:induction false} RunAvoids(s: Cache, run: seq<Step>, i: nat, c: nat)
    requires CacheOk(s) && CanRun(s, run) && Avoids(s, i, c)
    ensures Avoids(After(s, run), i, c) && CacheOk(After(s, run))
    decreases |run|
  {
    hide CacheOk, Avoids, Next, Can;
    if run != [] {
      StepKeeps(s, run[0]);
      StepAvoids(s, run[0], i, c);
      RunAvoids(Next(s, run[0]), run[1..], i, c);
    }
  }

  /** An evicted client is never handed out again: a route that does not hold it at the eviction, even
      one that has begun, never will, and what it returns was delivered to the client it does hold. */
  lemma NeverHandedOutAgain(s: Cache, run: seq<Step>, i: nat, c: nat)
    requires Reachable(s) && CanRun(s, run) && c in s.evicted && NotHolding(s.calls, i, c)
    ensures var s' := After(s, run);
            i in s'.calls && HasClient(s'.calls[i].phase) ==>
              var p := s'.calls[i].phase;
              p.client != c && (p.Returned? ==> (p.client, p.envelope) in s'.delivered)
  {
    ReachableOk(s);
    RunAvoids(s, run, i, c);
  }

  // ---------------------------------------------------------------------------
  // When a route is sure to return its own envelope
  // ---------------------------------------------------------------------------

  /** Only call `i`, the server and the wire take steps. */
  predicate MoveOf(step: Step, i: nat, node: string)
  {
    match step
    case Begin(j, n) => j == i && n == node
    case Ensure(j, _) => j == i
    case Send(j, _) => j == i
    case Deliver(_, _) => true
    case Receive(j) => j == i
    case Timeout(j) => j == i
    case Evict(j) => j == i
    case CloseSink(j) => j == i
    case Unregister(_) => true
    case StopClear => false
    case StopDone => false
  }

  predicate Alone(run: seq<Step>, i: nat, node: string)
  {
    forall k :: 0 <= k < |run| ==> MoveOf(run[k], i, node)
  }

  predicate ReturnsOwn(s: Cache, i: nat)
  {
    i in s.calls && s.calls[i].phase.Returned? ==> s.calls[i].phase.envelope == i
  }

  /** Nothing for the node is still on the wire or unread in its cached client. */
  ghost predicate Clean(s: Cache, node: string)
  {
    (forall j :: j in s.wire && j in s.calls ==> s.calls[j].node != node) &&
    (node in s.sinks && s.sinks[node] in s.buffers ==> s.buffers[s.sinks[node]] == [])
  }

  ghost predicate Only(buffer: seq<nat>, i: nat)
  {
    forall k :: 0 <= k < |buffer| ==> buffer[k] == i
  }

  /** The client call `i` holds, or would be handed. */
  predicate Serves(calls: map<nat, Call>, sinks: map<string, nat>, i: nat, node: string, c: nat)
  {
    if i !in calls || calls[i].phase.Begun? then node in sinks && sinks[node] == c
    else HasClient(calls[i].phase) && calls[i].phase.client == c
  }

  ghost predicate PureClient(nodeOf: map<nat, string>, buffers: map<nat, seq<nat>>, i: nat, node: string, c: nat)
  {
    c in nodeOf && nodeOf[c] == node && c in buffers && Only(buffers[c], i)
  }

  ghost predicate PureWire(wire: set<nat>, calls: map<nat, Call>, i: nat, node: string)
  {
    forall j :: j in wire && j in calls && calls[j].node == node ==> j == i
  }

  lemma WireMove(wire: set<nat>, calls: map<nat, Call>, i: nat, node: string, call: Call)
    requires PureWire(wire, calls, i, node)
    ensures PureWire(wire, calls[i := call], i, node) && PureWire(wire + {i}, calls[i := call], i, node)
  {
  }

  ghost predicate Pure(s: Cache, i: nat, node: string)
  {
    && PureWire(s.wire, s.calls, i, node)
    && (i in s.calls ==> s.calls[i].node == node)
    && (forall c: nat :: Serves(s.calls, s.sinks, i, node, c) ==> PureClient(s.nodeOf, s.buffers, i, node, c))
    && ReturnsOwn(s, i)
  }

  lemma FreshClient(nodeOf: map<nat, string>, buffers: map<nat, seq<nat>>, i: nat, node: string, c: nat)
    ensures PureClient(nodeOf[c := node], buffers[c := []], i, node, c)
  {
  }

  lemma PureFrame(s: Cache, s': Cache, i: nat, node: string)
    requires Pure(s, i, node) && s'.nodeOf == s.nodeOf && s'.buffers == s.buffers
    requires PureWire(s'.wire, s'.calls, i, node) && ReturnsOwn(s', i) && (i in s'.calls ==> s'.calls[i].node == node)
    requires forall c: nat :: Serves(s'.calls, s'.sinks, i, node, c) ==> Serves(s.calls, s.sinks, i, node, c)
    ensures Pure(s', i, node)
  {
  }

  lemma PureEnsure(s: Cache, dials: bool, i: nat, node: string)
    requires Can(s, Ensure(i, dials)) && Pure(s, i, node)
    ensures Pure(Next(s, Ensure(i, dials)), i, node)
  {
    PureParts(s, i, node);
    hide Pure, PureWire, PureClient;
    var s' := Next(s, Ensure(i, dials));
    if node in s.sinks || !dials {
      WireMove(s.wire, s.calls, i, node, s'.calls[i]);
      PureFrame(s, s', i, node);
    } else {
      FreshClient(s.nodeOf, s.buffers, i, node, s.dialed);
      WireMove(s.wire, s.calls, i, node, s'.calls[i]);
      PureFresh(s', i, node, s.dialed);
    }
  }

  lemma PureFresh(s: Cache, i: nat, node: string, c: nat)
    requires PureWire(s.wire, s.calls, i, node) && ReturnsOwn(s, i) && i in s.calls && s.calls[i].node == node
    requires if s.panicked then s.calls[i].phase.Begun? && node !in s.sinks
             else s.calls[i].phase == Holding(c) && PureClient(s.nodeOf, s.buffers, i, node, c)
    ensures Pure(s, i, node)
  {
  }

  lemma PureDeliver(s: Cache, j: nat, to: set<nat>, i: nat, node: string)
    requires Can(s, Deliver(j, to)) && Pure(s, i, node)
    ensures Pure(Next(s, Deliver(j, to)), i, node)
  {
    var s' := Next(s, Deliver(j, to));
    forall c: nat | Serves(s'.calls, s'.sinks, i, node, c) ensures PureClient(s'.nodeOf, s'.buffers, i, node, c) {
      assert PureClient(s.nodeOf, s.buffers, i, node, c);
    }
  }

  lemma PureReceive(s: Cache, i: nat, node: string)
    requires Can(s, Receive(i)) && Pure(s, i, node)
    ensures Pure(Next(s, Receive(i)), i, node)
  {
    var c := s.calls[i].phase.client;
    assert PureClient(s.nodeOf, s.buffers, i, node, c);
    var s' := Next(s, Receive(i));
    assert forall k :: 0 <= k < |s'.buffers[c]| ==> s'.buffers[c][k] == s.buffers[c][k + 1];
    assert PureWire(s'.wire, s'.calls, i, node);
  }

  lemma PureBegin(s: Cache, i: nat, node: string)
    requires Can(s, Begin(i, node)) && Pure(s, i, node)
    ensures Pure(Next(s, Begin(i, node)), i, node)
  {
    PureParts(s, i, node);
    hide Pure, PureWire;
    var s' := Next(s, Begin(i, node));
    WireMove(s.wire, s.calls, i, node, s'.calls[i]);
    PureFrame(s, s', i, node);
  }

  lemma PureSend(s: Cache, ok: bool, i: nat, node: string)
    requires Can(s, Send(i, ok)) && Pure(s, i, node)
    ensures Pure(Next(s, Send(i, ok)), i, node)
  {
    PureParts(s, i, node);
    hide Pure, PureWire;
    var s' := Next(s, Send(i, ok));
    WireMove(s.wire, s.calls, i, node, s'.calls[i]);
    PureFrame(s, s', i, node);
  }

  lemma PureGiveUp(s: Cache, step: Step, i: nat, node: string)
    requires Can(s, step) && Pure(s, i, node) && (step == Timeout(i) || step == Evict(i) || step == CloseSink(i))
    ensures Pure(Next(s, step), i, node)
  {
    PureParts(s, i, node);
    hide Pure, PureWire;
    var s' := Next(s, step);
    WireMove(s.wire, s.calls, i, node, s'.calls[i]);
    PureFrame(s, s', i, node);
  }

  lemma PureUnregister(s: Cache, c: nat, i: nat, node: string)
    requires Can(s, Unregister(c)) && Pure(s, i, node)
    ensures Pure(Next(s, Unregister(c)), i, node)
  {
  }

  lemma PureParts(s: Cache, i: nat, node: string)
    requires Pure(s, i, node)
    ensures PureWire(s.wire, s.calls, i, node) && ReturnsOwn(s, i) && (i in s.calls ==> s.calls[i].node == node)
  {
  }

  lemma StepPure(s: Cache, step: Step, i: nat, node: string)
    requires CacheOk(s) && Can(s, step) && Pure(s, i, node) && MoveOf(step, i, node)
    ensures Pure(Next(s, step), i, node)
  {
    hide CacheOk, Pure, Next, Can;
    if step.Ensure? {
      PureEnsure(s, step.dials, i, node);
    } else if step.Deliver? {
      PureDeliver(s, step.i, step.to, i, node);
    } else if step.Receive? {
      PureReceive(s, i, node);
    } else if step.Begin? {
      PureBegin(s, i, node);
    } else if step.Send? {
      PureSend(s, step.ok, i, node);
    } else if step.Unregister? {
      PureUnregister(s, step.c, i, node);
    } else {
      PureGiveUp(s, step, i, node);
    }
  }

  lemma {:induction false} RunPure(s: Cache, run: seq<Step>, i: nat, node: string)
    requires CacheOk(s) && CanRun(s, run) && Pure(s, i, node) && Alone(run, i, node)
    ensures ReturnsOwn(After(s, run), i)
    decreases |run|
  {
    hide CacheOk, Next, Can, MoveOf;
    if run != [] {
      StepKeeps(s, run[0]);
      StepPure(s, run[0], i, node);
      RunPure(Next(s, run[0]), run[1..], i, node);
    }
  }

  lemma CleanIsPure(s: Cache, i: nat, node: string)
    requires CacheOk(s) && Clean(s, node) && i !in s.calls
    ensures Pure(s, i, node)
  {
    hide ClosesOk, ReturnsOk, EnvelopesOk, BuffersOk, CallsOk;
    if node in s.sinks {
      assert SinkOk(node, s.sinks[node], s.nodeOf, s.registered, s.closed, s.evicted);
    }
  }

  function Opening(i: nat, node: string): seq<Step>
  {
    [Begin(i, node)] + ([Ensure(i, true)] + [Send(i, true)])
  }

  /** A new route gets as far as waiting on a registered, open client. */
  lemma Opens(s: Cache, i: nat, node: string)
    requires CacheOk(s) && i !in s.calls && s.up && !s.cleared && !s.panicked
    ensures CanRun(s, Opening(i, node))
    ensures var s3 := After(s, Opening(i, node));
            && !s3.panicked && i in s3.calls && s3.calls[i].phase.Sent? &&
            var c := s3.calls[i].phase.client;
            && c in s3.registered && c in s3.nodeOf && s3.nodeOf[c] == node && c !in s3.closed && c in s3.buffers
            && s3.buffers[c] == (if node in s.sinks && s.sinks[node] in s.buffers then s.buffers[s.sinks[node]] else [])
            && s3.wire == s.wire + {i} && forall j :: j in s.calls ==> j in s3.calls && s3.calls[j] == s.calls[j]
  {
    hide CacheOk;
    var s1 := Next(s, Begin(i, node));
    StepKeeps(s, Begin(i, node));
    var s2 := Next(s1, Ensure(i, true));
    CachedSink(s2, node) by {
      StepKeeps(s1, Ensure(i, true));
    }
    if node in s.sinks {
      CachedSink(s, node);
    }
    Prefix(s2, Send(i, true), []);
    Prefix(s1, Ensure(i, true), [Send(i, true)]);
    Prefix(s, Begin(i, node), [Ensure(i, true)] + [Send(i, true)]);
  }

  lemma CachedSink(s: Cache, node: string)
    requires CacheOk(s) && node in s.sinks
    ensures s.sinks[node] in s.buffers && SinkOk(node, s.sinks[node], s.nodeOf, s.registered, s.closed, s.evicted)
  {
    hide ClosesOk, ReturnsOk, EnvelopesOk, BuffersOk, CallsOk;
  }

  lemma Joined(s: Cache, one: seq<Step>, two: seq<Step>)
    requires CanRun(s, one) && CanRun(After(s, one), two)
    ensures CanRun(s, one + two) && After(s, one + two) == After(After(s, one), two)
    decreases |one|
  {
    hide Next, Can;
    if one == [] {
      assert one + two == two;
    } else {
      Joined(Next(s, one[0]), one[1..], two);
      assert (one + two)[1..] == one[1..] + two;
    }
  }

  /** What a waiting route can be made to read: the head of its buffer, or else an envelope for its
      node that is still on the wire. */
  lemma ReadsThis(s: Cache, i: nat, j: nat) returns (run: seq<Step>)
    requires !s.panicked && i in s.calls && s.calls[i].phase.Sent?
    requires var c := s.calls[i].phase.client;
             && c in s.registered && c in s.nodeOf && c !in s.closed && c in s.buffers
             && if s.buffers[c] == [] then j in s.wire && j in s.calls && s.calls[j].node == s.nodeOf[c]
                else s.buffers[c][0] == j
    ensures CanRun(s, run) && |run| <= 2 && forall k :: 0 <= k < |run| ==> run[k].Deliver? || run[k] == Receive(i)
    ensures var s' := After(s, run);
            i in s'.calls && s'.calls[i].phase == Returned(s.calls[i].phase.client, j)
  {
    var c := s.calls[i].phase.client;
    if s.buffers[c] != [] {
      Prefix(s, Receive(i), []);
      run := [Receive(i)] + [];
    } else {
      var s' := Next(s, Deliver(j, {c}));
      assert s'.buffers[c] == [j];
      Prefix(s', Receive(i), []);
      Prefix(s, Deliver(j, {c}), [Receive(i)] + []);
      run := [Deliver(j, {c})] + ([Receive(i)] + []);
    }
  }

  /** From an unclean state some run returns another call's envelope: one left on the wire, or
      one left in the buffer. */
  lemma UncleanReturnsAnother(s: Cache, i: nat, node: string) returns (run: seq<Step>)
    requires CacheOk(s) && !Clean(s, node) && i !in s.calls && s.up && !s.cleared && !s.panicked
    ensures CanRun(s, run) && Alone(run, i, node) && !ReturnsOwn(After(s, run), i)
  {
    hide *;
    Opens(s, i, node);
    var j := Leftover(s, node);
    var opening := Opening(i, node);
    var s3 := After(s, opening);
    var rest := ReadsThis(s3, i, j);
    Joined(s, opening, rest);
    run := opening + rest;
    OpeningAlone(i, node, rest);
    AnotherReturned(After(s, run), i, j);
  }

  lemma OpeningAlone(i: nat, node: string, rest: seq<Step>)
    requires forall k :: 0 <= k < |rest| ==> rest[k].Deliver? || rest[k] == Receive(i)
    ensures Alone(Opening(i, node) + rest, i, node)
  {
  }

  lemma AnotherReturned(s: Cache, i: nat, j: nat)
    requires i in s.calls && s.calls[i].phase.Returned? && s.calls[i].phase.envelope == j && i != j
    ensures !ReturnsOwn(s, i)
  {
  }

  lemma Leftover(s: Cache, node: string) returns (j: nat)
    requires CacheOk(s) && !Clean(s, node)
    ensures j in s.calls
    ensures if node in s.sinks && s.sinks[node] in s.buffers && s.buffers[s.sinks[node]] != []
            then j == s.buffers[s.sinks[node]][0] else j in s.wire && s.calls[j].node == node
  {
    if node in s.sinks && s.sinks[node] in s.buffers && s.buffers[s.sinks[node]] != [] {
      var c := s.sinks[node];
      j := s.buffers[c][0];
      assert (c, j) in s.delivered;
    } else {
      j :| j in s.wire && j in s.calls && s.calls[j].node == node;
    }
  }

  /** A route that runs alone is sure to return its own envelope exactly when it starts clean. */
  lemma OwnExactly(s: Cache, i: nat, node: string)
    requires Reachable(s) && i !in s.calls && s.up && !s.cleared && !s.panicked
    ensures Clean(s, node) <==>
            forall run :: CanRun(s, run) && Alone(run, i, node) ==> ReturnsOwn(After(s, run), i)
  {
    ReachableOk(s);
    if Clean(s, node) {
      CleanIsPure(s, i, node);
      forall run | CanRun(s, run) && Alone(run, i, node) ensures ReturnsOwn(After(s, run), i) {
        RunPure(s, run, i, node);
      }
    } else {
      var run := UncleanReturnsAnother(s, i, node);
      assert CanRun(s, run) && Alone(run, i, node) && !ReturnsOwn(After(s, run), i);
    }
  }

  lemma ReachNext(s: Cache, step: Step)
    requires Reachable(s) && Can(s, step)
    ensures Reachable(Next(s, step))
  {
    hide Next, Can;
    var run :| CanRun(NEW, run) && After(NEW, run) == s;
    assert CanRun(Next(s, step), []);
    Prefix(s, step, []);
    Joined(NEW, run, [step] + []);
    assert CanRun(NEW, run + ([step] + []));
  }

  lemma ReachNew()
    ensures Reachable(NEW)
  {
    assert CanRun(NEW, []) && After(NEW, []) == NEW;
  }

  // ---------------------------------------------------------------------------
  // Shutdown
  // ---------------------------------------------------------------------------

  /** A step panics exactly when it stores a freshly dialed client after shutdown has discarded
      the cache. */
  lemma PanicExactly(s: Cache, step: Step)
    requires Reachable(s) && Can(s, step)
    ensures Next(s, step).panicked <==> s.cleared && step.Ensure? && step.dials
  {
    ReachableOk(s);
  }

  /** Such a step can happen: a route that looked the network up before the shutdown. */
  lemma PanicPossible() returns (s: Cache)
    ensures Reachable(s) && Can(s, Ensure(0, true)) && Next(s, Ensure(0, true)).panicked
  {
    ReachNew();
    ReachNext(NEW, Begin(0, "d"));
    var a := Next(NEW, Begin(0, "d"));
    ReachNext(a, StopClear);
    s := Next(a, StopClear);
    PanicExactly(s, Ensure(0, true));
  }

  lemma Prefix(s: Cache, step: Step, rest: seq<Step>)
    requires Can(s, step) && CanRun(Next(s, step), rest)
    ensures CanRun(s, [step] + rest) && After(s, [step] + rest) == After(Next(s, step), rest)
  {
    assert ([step] + rest)[1..] == rest;
  }
}
