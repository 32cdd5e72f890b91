/** Which envelopes delivered before an eviction a later route can still return. */
module SinkStale {
  import opened SinkCache
  import opened SinkTheorems
  import Sets

  /** Call `i` has not been handed a client: it has not begun, or not got that far. */
  predicate NoClientYet(calls: map<nat, Call>, i: nat)
  {
    i !in calls || calls[i].phase.Begun?
  }

  ghost predicate Returns(s: Cache, i: nat, e: nat)
  {
    i in s.calls && s.calls[i].phase.Returned? && s.calls[i].phase.envelope == e
  }

  lemma {:induction false} AvoidsAll(s: Cache, run: seq<Step>, i: nat)
    requires CacheOk(s) && CanRun(s, run) && NoClientYet(s.calls, i)
    ensures var s' := After(s, run);
            CacheOk(s') && (i in s'.calls && HasClient(s'.calls[i].phase) ==> s'.calls[i].phase.client !in s.evicted)
  {
    RunKeeps(s, run);
    var s' := After(s, run);
    if i in s'.calls && HasClient(s'.calls[i].phase) && s'.calls[i].phase.client in s.evicted {
      RunAvoids(s, run, i, s'.calls[i].phase.client);
    }
  }

  /** A later route never returns an envelope that was delivered to evicted clients only. */
  lemma ReturnedWasDeliveredElsewhere(s: Cache, run: seq<Step>, i: nat, e: nat)
    requires Reachable(s) && CanRun(s, run) && NoClientYet(s.calls, i) && Returns(After(s, run), i, e)
    ensures exists c :: c !in s.evicted && (c, e) in After(s, run).delivered
  {
    ReachableOk(s);
    AvoidsAll(s, run, i);
    var s' := After(s, run);
    assert (s'.calls[i].phase.client, e) in s'.delivered;
  }

  // ---------------------------------------------------------------------------
  // Exactly when a delivered envelope can come back
  // ---------------------------------------------------------------------------

  ghost predicate Free(buffers: map<nat, seq<nat>>, c: nat, e: nat)
  {
    c in buffers ==> e !in buffers[c]
  }

  /** The envelope waits unread in a client that is still cached. */
  ghost predicate Unread(s: Cache, e: nat)
  {
    exists n :: n in s.sinks && !Free(s.buffers, s.sinks[n], e)
  }

  /** Some route without a client in `s` returns the envelope on some run from there. */
  ghost predicate ComesBack(s: Cache, e: nat)
  {
    exists run, i :: CanRun(s, run) && NoClientYet(s.calls, i) && Returns(After(s, run), i, e)
  }

  ghost predicate NotCached(sinks: map<string, nat>, buffers: map<nat, seq<nat>>, e: nat)
  {
    forall n :: n in sinks ==> Free(buffers, sinks[n], e)
  }

  ghost predicate NotHeld(start: map<nat, Call>, calls: map<nat, Call>, buffers: map<nat, seq<nat>>, e: nat)
  {
    forall i :: i in calls && NoClientYet(start, i) && HasClient(calls[i].phase) ==>
      Free(buffers, calls[i].phase.client, e) && (calls[i].phase.Returned? ==> calls[i].phase.envelope != e)
  }

  /** No route that had no client at the start can reach the envelope any more. */
  ghost predicate Lost(start: map<nat, Call>, s: Cache, e: nat)
  {
    && e in s.calls && PastSend(s.calls[e].phase) && e !in s.wire
    && NotCached(s.sinks, s.buffers, e)
    && NotHeld(start, s.calls, s.buffers, e)
  }

  lemma LostMove(start: map<nat, Call>, s: Cache, e: nat, i: nat, call: Call)
    requires Lost(start, s, e) && (i == e ==> PastSend(call.phase)) && !call.phase.Returned?
    requires HasClient(call.phase) ==>
               || (i in s.calls && HasClient(s.calls[i].phase) && call.phase.client == s.calls[i].phase.client)
               || Free(s.buffers, call.phase.client, e)
    ensures Lost(start, s.(calls := s.calls[i := call]), e)
  {
    hide Free;
  }

  lemma LostSmaller(start: map<nat, Call>, s: Cache, s': Cache, e: nat)
    requires Lost(start, s, e) && s'.calls == s.calls && s'.wire <= s.wire
    requires forall c: nat :: Free(s.buffers, c, e) ==> Free(s'.buffers, c, e)
    requires forall n :: n in s'.sinks ==> (n in s.sinks && s'.sinks[n] == s.sinks[n]) || Free(s'.buffers, s'.sinks[n], e)
    ensures Lost(start, s', e)
  {
    hide Free;
  }

  lemma LostEnsure(start: map<nat, Call>, s: Cache, e: nat, i: nat, dials: bool)
    requires Lost(start, s, e) && Can(s, Ensure(i, dials))
    ensures Lost(start, EnsureSink(s, i, dials), e)
  {
    var node := s.calls[i].node;
    if node in s.sinks {
      LostMove(start, s, e, i, Call(node, Holding(s.sinks[node])));
    } else if !dials {
      LostMove(start, s, e, i, Call(node, Failed));
    } else if s.cleared {
      LostSmaller(start, s, EnsureSink(s, i, dials), e);
    } else {
      var s' := Dialed(s, node).(sinks := s.sinks[node := s.dialed]);
      LostSmaller(start, s, s', e);
      LostMove(start, s', e, i, Call(node, Holding(s.dialed)));
    }
  }

  lemma LostDeliver(start: map<nat, Call>, s: Cache, e: nat, j: nat, to: set<nat>)
    requires Lost(start, s, e) && Can(s, Deliver(j, to))
    ensures Lost(start, Next(s, Deliver(j, to)), e)
  {
    var s' := Next(s, Deliver(j, to));
    forall c: nat | Free(s.buffers, c, e) ensures Free(s'.buffers, c, e) {
      if c in s.buffers {
        assert forall k :: 0 <= k < |s'.buffers[c]| ==> s'.buffers[c][k] == j || s'.buffers[c][k] in s.buffers[c];
      }
    }
    hide Lost;
    LostSmaller(start, s, s', e);
  }

  lemma LostReceive(start: map<nat, Call>, s: Cache, e: nat, i: nat)
    requires Lost(start, s, e) && Can(s, Receive(i))
    ensures Lost(start, Next(s, Receive(i)), e)
  {
    var c := s.calls[i].phase.client;
    var s' := s.(buffers := s.buffers[c := s.buffers[c][1..]]);
    LostSmaller(start, s, s', e);
    if NoClientYet(start, i) {
      assert Free(s.buffers, c, e) && s.buffers[c][0] in s.buffers[c];
    }
  }

  lemma LostEvict(start: map<nat, Call>, s: Cache, e: nat, i: nat)
    requires Lost(start, s, e) && Can(s, Evict(i))
    ensures Lost(start, EvictSink(s, i), e)
  {
    var node, want := s.calls[i].node, s.calls[i].phase.client;
    if s.up && node in s.sinks && s.sinks[node] == want {
      var s' := s.(sinks := s.sinks - {node}, evicted := s.evicted + {want});
      LostSmaller(start, s, s', e);
      LostMove(start, s', e, i, Call(node, Closing(want)));
    } else {
      LostMove(start, s, e, i, Call(node, Failed));
    }
  }

  lemma LostSend(start: map<nat, Call>, s: Cache, e: nat, i: nat, ok: bool)
    requires Lost(start, s, e) && Can(s, Send(i, ok))
    ensures Lost(start, Next(s, Send(i, ok)), e)
  {
    LostMove(start, s, e, i, Next(s, Send(i, ok)).calls[i]);
  }

  lemma LostOther(start: map<nat, Call>, s: Cache, e: nat, step: Step)
    requires Lost(start, s, e) && Can(s, step)
    requires step.Begin? || step.Timeout? || step.CloseSink? || step.Unregister? || step.StopClear? || step.StopDone?
    ensures Lost(start, Next(s, step), e)
  {
    if step.Begin? {
      LostMove(start, s, e, step.i, Call(step.node, if s.up then Begun else Failed));
    } else if step.Timeout? || step.CloseSink? {
      LostMove(start, s, e, step.i, Next(s, step).calls[step.i]);
    } else {
      LostSmaller(start, s, Next(s, step), e);
    }
  }

  lemma StepLost(start: map<nat, Call>, s: Cache, e: nat, step: Step)
    requires Lost(start, s, e) && Can(s, step)
    ensures Lost(start, Next(s, step), e)
  {
    hide Lost, EnsureSink, EvictSink;
    if step.Ensure? {
      LostEnsure(start, s, e, step.i, step.dials);
    } else if step.Deliver? {
      LostDeliver(start, s, e, step.i, step.to);
    } else if step.Receive? {
      LostReceive(start, s, e, step.i);
    } else if step.Evict? {
      LostEvict(start, s, e, step.i);
    } else if step.Send? {
      LostSend(start, s, e, step.i, step.ok);
    } else {
      LostOther(start, s, e, step);
    }
  }

  lemma {:induction false} RunLost(start: map<nat, Call>, s: Cache, e: nat, run: seq<Step>)
    requires Lost(start, s, e) && CanRun(s, run)
    ensures Lost(start, After(s, run), e)
    decreases |run|
  {
    hide Lost, Next, Can;
    if run != [] {
      StepLost(start, s, e, run[0]);
      RunLost(start, Next(s, run[0]), e, run[1..]);
    }
  }

  // ---------------------------------------------------------------------------
  // Reading down to an unread envelope
  // ---------------------------------------------------------------------------

  /** A new route to a node with a cached client gets as far as waiting on it. */
  lemma OpensCached(s: Cache, i: nat, node: string)
    requires i !in s.calls && node in s.sinks && s.up && !s.cleared && !s.panicked
    ensures CanRun(s, Opening(i, node))
    ensures After(s, Opening(i, node)) ==
            s.(wire := s.wire + {i}, calls := s.calls[i := Call(node, Sent(s.sinks[node]))])
  {
    var s1 := Next(s, Begin(i, node));
    var s2 := Next(s1, Ensure(i, true));
    assert s2 == s.(calls := s.calls[i := Call(node, Holding(s.sinks[node]))]);
    Prefix(s2, Send(i, true), []);
    Prefix(s1, Ensure(i, true), [Send(i, true)]);
    Prefix(s, Begin(i, node), [Ensure(i, true)] + [Send(i, true)]);
  }

  /** A new route reads the head of the cached client's buffer. */
  lemma ReadsHead(s: Cache, i: nat, node: string) returns (run: seq<Step>)
    requires CacheOk(s) && i !in s.calls && node in s.sinks && s.up && !s.cleared && !s.panicked
    requires s.sinks[node] in s.buffers && s.buffers[s.sinks[node]] != []
    ensures CanRun(s, run)
    ensures var c := s.sinks[node];
            After(s, run) == s.(wire := s.wire + {i}, buffers := s.buffers[c := s.buffers[c][1..]],
                             calls := s.calls[i := Call(node, Returned(c, s.buffers[c][0]))])
  {
    CachedSink(s, node);
    hide CacheOk;
    OpensCached(s, i, node);
    var s3 := After(s, Opening(i, node));
    assert Can(s3, Receive(i));
    Prefix(s3, Receive(i), []);
    Joined(s, Opening(i, node), [Receive(i)] + []);
    run := Opening(i, node) + ([Receive(i)] + []);
  }

  lemma {:induction false} ReadsDownTo(s: Cache, node: string, k: nat) returns (run: seq<Step>, i: nat)
    requires CacheOk(s) && node in s.sinks && s.up && !s.cleared && !s.panicked
    requires s.sinks[node] in s.buffers && k < |s.buffers[s.sinks[node]]|
    ensures CanRun(s, run) && i !in s.calls && Returns(After(s, run), i, s.buffers[s.sinks[node]][k])
    decreases k
  {
    i := Sets.Above(s.calls.Keys);
    run := ReadsHead(s, i, node);
    if k > 0 {
      hide CacheOk;
      RunKeeps(s, run);
      var s' := After(s, run);
      var rest, j := ReadsDownTo(s', node, k - 1);
      Joined(s, run, rest);
      run, i := run + rest, j;
    }
  }

  lemma UnreadComesBack(s: Cache, e: nat)
    requires CacheOk(s) && s.up && !s.cleared && !s.panicked && Unread(s, e)
    ensures ComesBack(s, e)
  {
    var n :| n in s.sinks && !Free(s.buffers, s.sinks[n], e);
    var c := s.sinks[n];
    var k :| 0 <= k < |s.buffers[c]| && s.buffers[c][k] == e;
    hide CacheOk;
    var run, i := ReadsDownTo(s, n, k);
    assert CanRun(s, run) && NoClientYet(s.calls, i) && Returns(After(s, run), i, e);
  }

  lemma DeliveredIsLost(s: Cache, c: nat, e: nat)
    requires CacheOk(s) && (c, e) in s.delivered && !Unread(s, e)
    ensures Lost(s.calls, s, e)
  {
    hide SinksOk, ClosesOk, BuffersOk, CallsOk, ReturnsOk, ClientsOk;
  }

  /** An envelope that was delivered, to an evicted client or any other, is returned by some later
      route on some run if and only if it waits unread in a client that is still cached. */
  lemma StaleExactly(s: Cache, c: nat, e: nat)
    requires Reachable(s) && s.up && !s.cleared && !s.panicked && (c, e) in s.delivered
    ensures ComesBack(s, e) <==> Unread(s, e)
  {
    ReachableOk(s);
    if Unread(s, e) {
      UnreadComesBack(s, e);
    } else {
      DeliveredIsLost(s, c, e);
      forall run, i | CanRun(s, run) && NoClientYet(s.calls, i) ensures !Returns(After(s, run), i, e) {
        RunLost(s.calls, s, e, run);
        assert NotHeld(s.calls, After(s, run).calls, After(s, run).buffers, e);
      }
    }
  }

  // ---------------------------------------------------------------------------
  // Two runs in which a later route returns an earlier route's envelope
  // ---------------------------------------------------------------------------

  /** Route 0 to node "d" has dialed client 0 and sent; its envelope is on the wire. */
  const Sending := NEW.(dialed := 1, nodeOf := map[0 := "d"], registered := {0}, buffers := map[0 := []], sinks := map["d" := 0],
                     wire := {0}, calls := map[0 := Call("d", Sent(0))])

  /** Route 0 has given up waiting and evicted client 0, which the server still knows. */
  const Evicted := Sending.(sinks := map[], evicted := {0}, calls := map[0 := Call("d", Closing(0))])

  /** Route 1 has dialed client 1 and sent. */
  const Replaced := Evicted.(dialed := 2, nodeOf := map[0 := "d", 1 := "d"], registered := {0, 1},
                          buffers := map[0 := [], 1 := []], sinks := map["d" := 1], wire := {0, 1},
                          calls := map[0 := Call("d", Closing(0)), 1 := Call("d", Sent(1))])

  /** The late envelope has reached both clients. */
  const Landed := Replaced.(wire := {1}, delivered := {(0, 0), (1, 0)}, buffers := map[0 := [0], 1 := [0]])

  /** Route 1 has returned it. */
  const Shifted := Landed.(buffers := map[0 := [0], 1 := []],
                        calls := map[0 := Call("d", Closing(0)), 1 := Call("d", Returned(1, 0))])

  lemma SendingReached()
    ensures Reachable(Sending)
  {
    ReachNew();
    ReachNext(NEW, Begin(0, "d"));
    var s1 := Next(NEW, Begin(0, "d"));
    ReachNext(s1, Ensure(0, true));
    var s2 := Next(s1, Ensure(0, true));
    ReachNext(s2, Send(0, true));
    assert Next(s2, Send(0, true)) == Sending;
  }

  lemma EvictedReached()
    ensures Reachable(Evicted)
  {
    SendingReached();
    hide Reachable;
    ReachNext(Sending, Timeout(0));
    var s := Next(Sending, Timeout(0));
    ReachNext(s, Evict(0));
    assert Next(s, Evict(0)) == Evicted;
  }

  lemma ReplacedReached()
    ensures CanRun(Evicted, Opening(1, "d")) && After(Evicted, Opening(1, "d")) == Replaced
  {
    var s1 := Next(Evicted, Begin(1, "d"));
    var s2 := Next(s1, Ensure(1, true));
    assert Next(s2, Send(1, true)) == Replaced;
    Prefix(s2, Send(1, true), []);
    Prefix(s1, Ensure(1, true), [Send(1, true)]);
    Prefix(Evicted, Begin(1, "d"), [Ensure(1, true)] + [Send(1, true)]);
  }

  lemma ShiftedReached()
    ensures CanRun(Replaced, [Deliver(0, {0, 1})] + [Receive(1)])
    ensures After(Replaced, [Deliver(0, {0, 1})] + [Receive(1)]) == Shifted
  {
    LandedReached();
    ReceivedOne();
    Prefix(Landed, Receive(1), []);
    Prefix(Replaced, Deliver(0, {0, 1}), [Receive(1)]);
  }

  lemma LandedReached()
    ensures Can(Replaced, Deliver(0, {0, 1})) && Next(Replaced, Deliver(0, {0, 1})) == Landed
  {
    var s := Next(Replaced, Deliver(0, {0, 1}));
    assert s.buffers.Keys == {0, 1} == Landed.buffers.Keys;
    assert [] + [0] == [0] && s.buffers[0] == Landed.buffers[0] && s.buffers[1] == Landed.buffers[1];
    assert s.buffers == Landed.buffers;
    assert (set c | c in {0, 1} :: (c, 0)) == {(0, 0), (1, 0)};
    assert s.delivered == Landed.delivered;
    assert s.wire == Landed.wire;
  }

  lemma ReceivedOne()
    ensures Can(Landed, Receive(1)) && Next(Landed, Receive(1)) == Shifted
  {
    var s := Next(Landed, Receive(1));
    assert s.buffers == Shifted.buffers && s.calls == Shifted.calls;
  }

  /** An envelope delivered to an evicted client can be returned by a route that begins after the
      eviction: the server still knew the evicted client, and delivered to it and its replacement. */
  lemma DeliveredToBoth() returns (s: Cache, run: seq<Step>)
    ensures Reachable(s) && 0 in s.evicted && 1 !in s.calls && CanRun(s, run)
    ensures (0, 0) in After(s, run).delivered && Returns(After(s, run), 1, 0)
  {
    EvictedReached();
    ReplacedReached();
    ShiftedReached();
    hide Reachable, CanRun, After;
    s := Evicted;
    run := Opening(1, "d") + ([Deliver(0, {0, 1})] + [Receive(1)]);
    Joined(s, Opening(1, "d"), [Deliver(0, {0, 1})] + [Receive(1)]);
  }

  /** Eviction alone does not make the next route's answer its own: with the evicted client closed and
      gone from the cache, an envelope still on the wire can reach the replacement. */
  lemma EvictionIsNotEnough() returns (s: Cache, run: seq<Step>)
    ensures Reachable(s) && s.evicted == {0} && s.closes[0] == 1 && s.sinks == map[]
    ensures CanRun(s, run) && Alone(run, 1, "d") && !ReturnsOwn(After(s, run), 1)
  {
    EvictedReached();
    ReachNext(Evicted, CloseSink(0));
    s := Next(Evicted, CloseSink(0));
    ReachableOk(s);
    hide Reachable, CacheOk, CanRun, After;
    assert 0 in s.wire && s.calls[0].node == "d";
    run := UncleanReturnsAnother(s, 1, "d");
  }
}
