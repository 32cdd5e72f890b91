/** The cache of receiving sockets behind network routes, with its eviction after a failed receive. */
module SinkCache {
  import Sets

  /** Where a network route stands; the number is the client socket it holds. */
  datatype Phase =
    | Begun
    | Holding(client: nat)
    | Sent(client: nat)
    | Returned(client: nat, envelope: nat)
    | Failing(client: nat)
    | Closing(client: nat)
    | Failed

  datatype Call = Call(node: string, phase: Phase)

  /** Clients are numbered in the order they are dialed; the envelope of call `i` is named `i`.
      `closes` counts the Close calls made by evictions. */
  datatype Cache = Cache(
    up: bool,
    cleared: bool,
    sinks: map<string, nat>,
    dialed: nat,
    nodeOf: map<nat, string>,
    registered: set<nat>,
    buffers: map<nat, seq<nat>>,
    delivered: set<(nat, nat)>,
    evicted: set<nat>,
    closes: multiset<nat>,
    closed: set<nat>,
    wire: set<nat>,
    calls: map<nat, Call>,
    panicked: bool)

  const NEW := Cache(true, false, map[], 0, map[], {}, map[], {}, {}, multiset{}, {}, {}, map[], false)

  datatype Step =
    | Begin(i: nat, node: string)
    | Ensure(i: nat, dials: bool)
    | Send(i: nat, ok: bool)
    | Deliver(i: nat, to: set<nat>)
    | Receive(i: nat)
    | Timeout(i: nat)
    | Evict(i: nat)
    | CloseSink(i: nat)
    | Unregister(c: nat)
    | StopClear
    | StopDone

  /** A shutdown holds the agent's lock from `StopClear` to `StopDone`, so no route looks the network
      up in between, and after it nothing listens any more. */
  ghost predicate Can(s: Cache, step: Step)
  {
    !s.panicked &&
    match step
    case Begin(i, _) => i !in s.calls && !(s.up && s.cleared)
    case Ensure(i, dials) => i in s.calls && s.calls[i].phase.Begun? && (dials ==> s.up)
    case Send(i, _) => i in s.calls && s.calls[i].phase.Holding?
    case Deliver(i, to) =>
      i in s.wire && i in s.calls &&
      forall c :: c in to ==> c in s.registered && c in s.nodeOf && c in s.buffers && s.nodeOf[c] == s.calls[i].node
    case Receive(i) =>
      i in s.calls && s.calls[i].phase.Sent? &&
      var c := s.calls[i].phase.client;
      c !in s.closed && c in s.buffers && s.buffers[c] != []
    case Timeout(i) => i in s.calls && s.calls[i].phase.Sent?
    case Evict(i) => i in s.calls && s.calls[i].phase.Failing?
    case CloseSink(i) => i in s.calls && s.calls[i].phase.Closing?
    case Unregister(c) => c in s.closed
    case StopClear => s.up
    case StopDone => s.up && s.cleared
  }

  function To(s: Cache, i: nat, phase: Phase): map<nat, Call>
    requires i in s.calls
  {
    s.calls[i := s.calls[i].(phase := phase)]
  }

  /** The cached client is handed out, or a new one is dialed under the lock and cached. Storing
      into a cache that shutdown has already discarded panics. */
  function EnsureSink(s: Cache, i: nat, dials: bool): Cache
    requires i in s.calls
  {
    var node := s.calls[i].node;
    if node in s.sinks then s.(calls := To(s, i, Holding(s.sinks[node])))
    else if !dials then s.(calls := To(s, i, Failed))
    else if s.cleared then Dialed(s, node).(panicked := true)
    else Dialed(s, node).(sinks := s.sinks[node := s.dialed], calls := To(s, i, Holding(s.dialed)))
  }

  function Dialed(s: Cache, node: string): Cache
  {
    s.(dialed := s.dialed + 1,
    nodeOf := s.nodeOf[s.dialed := node],
    registered := s.registered + {s.dialed},
    buffers := s.buffers[s.dialed := []])
  }

  /** Removes the client from the cache only if it is still the one cached. */
  function EvictSink(s: Cache, i: nat): Cache
    requires i in s.calls && s.calls[i].phase.Failing?
  {
    var node, want := s.calls[i].node, s.calls[i].phase.client;
    if s.up && node in s.sinks && s.sinks[node] == want then
      s.(sinks := s.sinks - {node}, evicted := s.evicted + {want}, calls := To(s, i, Closing(want)))
    else s.(calls := To(s, i, Failed))
  }

  ghost function Next(s: Cache, step: Step): Cache
    requires Can(s, step)
  {
    match step
    case Begin(i, node) => s.(calls := s.calls[i := Call(node, if s.up then Begun else Failed)])
    case Ensure(i, dials) => EnsureSink(s, i, dials)
    case Send(i, ok) =>
      if ok then s.(wire := s.wire + {i}, calls := To(s, i, Sent(s.calls[i].phase.client)))
      else s.(calls := To(s, i, Failed))
    case Deliver(i, to) =>
      s.(wire := s.wire - {i},
      delivered := s.delivered + (set c | c in to :: (c, i)),
      buffers := map c | c in s.buffers :: if c in to then s.buffers[c] + [i] else s.buffers[c])
    case Receive(i) =>
      var c := s.calls[i].phase.client;
      s.(buffers := s.buffers[c := s.buffers[c][1..]], calls := To(s, i, Returned(c, s.buffers[c][0])))
    case Timeout(i) => s.(calls := To(s, i, Failing(s.calls[i].phase.client)))
    case Evict(i) => EvictSink(s, i)
    case CloseSink(i) =>
      var c := s.calls[i].phase.client;
      s.(closes := s.closes + multiset{c}, closed := s.closed + {c}, calls := To(s, i, Failed))
    case Unregister(c) => s.(registered := s.registered - {c})
    case StopClear => s.(closed := s.closed + s.sinks.Values, sinks := map[], cleared := true)
    case StopDone => s.(up := false)
  }

  ghost predicate CanRun(s: Cache, run: seq<Step>)
    decreases |run|
  {
    run == [] || (Can(s, run[0]) && CanRun(Next(s, run[0]), run[1..]))
  }

  ghost function After(s: Cache, run: seq<Step>): Cache
    requires CanRun(s, run)
    decreases |run|
  {
    if run == [] then s else After(Next(s, run[0]), run[1..])
  }

  // ---------------------------------------------------------------------------
  // Invariant
  // ---------------------------------------------------------------------------

  predicate HasClient(p: Phase)
  {
    !p.Begun? && !p.Failed?
  }

  /** Cached clients are known, registered, open and never evicted. */
  ghost predicate SinksOk(sinks: map<string, nat>, nodeOf: map<nat, string>, registered: set<nat>, closed: set<nat>, evicted: set<nat>)
  {
    forall n :: n in sinks ==> SinkOk(n, sinks[n], nodeOf, registered, closed, evicted)
  }

  predicate SinkOk(n: string, c: nat, nodeOf: map<nat, string>, registered: set<nat>, closed: set<nat>, evicted: set<nat>)
  {
    c in nodeOf && nodeOf[c] == n && c in registered && c !in closed && c !in evicted
  }

  /** The numbers below `dialed` are exactly the clients, each with a buffer. */
  ghost predicate ClientsOk(dialed: nat, nodeOf: map<nat, string>, buffers: map<nat, seq<nat>>)
  {
    forall c: nat :: (c in nodeOf <==> c < dialed) && (c in buffers <==> c < dialed)
  }

  ghost predicate Below(cs: set<nat>, dialed: nat)
  {
    forall c :: c in cs ==> c < dialed
  }

  ghost predicate CallsOk(calls: map<nat, Call>, dialed: nat)
  {
    forall i :: i in calls && HasClient(calls[i].phase) ==> calls[i].phase.client < dialed
  }

  ghost function Closers(calls: map<nat, Call>, c: nat): set<nat>
  {
    set i | i in calls && calls[i].phase == Closing(c)
  }

  /** An evicted client is closed by its evictor, once; no other client is closed by an eviction. */
  ghost predicate ClosesOk(closes: multiset<nat>, calls: map<nat, Call>, evicted: set<nat>)
  {
    forall c: nat :: closes[c] + |Closers(calls, c)| == if c in evicted then 1 else 0
  }

  /** Buffers hold only what was delivered to that very client. */
  ghost predicate BuffersOk(buffers: map<nat, seq<nat>>, delivered: set<(nat, nat)>)
  {
    forall c, k :: c in buffers && 0 <= k < |buffers[c]| ==> (c, buffers[c][k]) in delivered
  }

  /** Routes return only what was delivered to the client they hold. */
  ghost predicate ReturnsOk(calls: map<nat, Call>, delivered: set<(nat, nat)>)
  {
    forall i :: i in calls && calls[i].phase.Returned? ==> (calls[i].phase.client, calls[i].phase.envelope) in delivered
  }

  predicate PastSend(p: Phase)
  {
    !p.Begun? && !p.Holding?
  }

  /** Only the envelopes of calls past their send travel, and a delivered one is off the wire. */
  ghost predicate EnvelopesOk(wire: set<nat>, delivered: set<(nat, nat)>, calls: map<nat, Call>)
  {
    && (forall i :: i in wire ==> i in calls && PastSend(calls[i].phase))
    && (forall c, i :: (c, i) in delivered ==> i in calls && PastSend(calls[i].phase) && i !in wire)
  }

  ghost predicate CacheOk(s: Cache)
  {
    && SinksOk(s.sinks, s.nodeOf, s.registered, s.closed, s.evicted)
    && (s.cleared ==> s.sinks == map[])
    && ClientsOk(s.dialed, s.nodeOf, s.buffers)
    && Below(s.evicted, s.dialed) && Below(s.closed, s.dialed)
    && CallsOk(s.calls, s.dialed)
    && ClosesOk(s.closes, s.calls, s.evicted)
    && BuffersOk(s.buffers, s.delivered)
    && ReturnsOk(s.calls, s.delivered)
    && EnvelopesOk(s.wire, s.delivered, s.calls)
  }

  // ---------------------------------------------------------------------------
  // Each part, step by step
  // ---------------------------------------------------------------------------

  lemma MoveCalls(s: Cache, i: nat, call: Call)
    requires CallsOk(s.calls, s.dialed) && ReturnsOk(s.calls, s.delivered)
    requires HasClient(call.phase) ==> call.phase.client < s.dialed
    requires call.phase.Returned? ==> (call.phase.client, call.phase.envelope) in s.delivered
    ensures CallsOk(s.calls[i := call], s.dialed) && ReturnsOk(s.calls[i := call], s.delivered)
  {
  }

  lemma MoveEnvelopes(wire: set<nat>, delivered: set<(nat, nat)>, calls: map<nat, Call>, i: nat, call: Call)
    requires EnvelopesOk(wire, delivered, calls) && (i in calls && PastSend(calls[i].phase) ==> PastSend(call.phase))
    ensures EnvelopesOk(wire, delivered, calls[i := call])
  {
  }

  lemma SameClosers(calls: map<nat, Call>, i: nat, call: Call)
    requires !call.phase.Closing? && (i in calls ==> !calls[i].phase.Closing?)
    ensures forall c: nat :: Closers(calls[i := call], c) == Closers(calls, c)
  {
  }

  lemma QuietMove(closes: multiset<nat>, calls: map<nat, Call>, evicted: set<nat>, i: nat, call: Call)
    requires ClosesOk(closes, calls, evicted)
    requires !call.phase.Closing? && (i in calls ==> !calls[i].phase.Closing?)
    ensures ClosesOk(closes, calls[i := call], evicted)
  {
    SameClosers(calls, i, call);
  }

  lemma ClosersMoved(calls: map<nat, Call>, i: nat, call: Call, c: nat)
    requires i in calls && calls[i].phase != call.phase
    ensures |Closers(calls[i := call], c)| ==
            |Closers(calls, c)| + (if call.phase == Closing(c) then 1 else 0) - (if calls[i].phase == Closing(c) then 1 else 0)
  {
    var before, after := Closers(calls, c), Closers(calls[i := call], c);
    if call.phase == Closing(c) {
      assert after == before + {i};
    } else if calls[i].phase == Closing(c) {
      assert before == after + {i};
    } else {
      assert after == before;
    }
  }

  /** The evictor takes on the duty to close the client it removed. */
  lemma EvictMove(closes: multiset<nat>, calls: map<nat, Call>, evicted: set<nat>, i: nat, call: Call, c: nat)
    requires ClosesOk(closes, calls, evicted) && c !in evicted && i in calls && !calls[i].phase.Closing? && call.phase == Closing(c)
    ensures ClosesOk(closes, calls[i := call], evicted + {c})
  {
    hide Closers;
    forall d: nat ensures closes[d] + |Closers(calls[i := call], d)| == if d in evicted + {c} then 1 else 0 {
      ClosersMoved(calls, i, call, d);
      assert closes[d] + |Closers(calls, d)| == if d in evicted then 1 else 0;
    }
  }

  lemma CloseMove(closes: multiset<nat>, calls: map<nat, Call>, evicted: set<nat>, i: nat, call: Call, c: nat)
    requires ClosesOk(closes, calls, evicted) && i in calls && calls[i].phase == Closing(c) && !call.phase.Closing?
    ensures c in evicted && ClosesOk(closes + multiset{c}, calls[i := call], evicted)
  {
    ClosersMoved(calls, i, call, c);
    assert closes[c] + |Closers(calls, c)| == if c in evicted then 1 else 0;
    hide Closers;
    forall d: nat ensures (closes + multiset{c})[d] + |Closers(calls[i := call], d)| == if d in evicted then 1 else 0 {
      ClosersMoved(calls, i, call, d);
      assert closes[d] + |Closers(calls, d)| == if d in evicted then 1 else 0;
    }
  }

  lemma DialOk(s: Cache, node: string)
    requires CacheOk(s)
    ensures CacheOk(Dialed(s, node))
    ensures !s.cleared ==> CacheOk(Dialed(s, node).(sinks := s.sinks[node := s.dialed]))
  {
    hide ClosesOk, ReturnsOk, EnvelopesOk;
    var c := s.dialed;
    assert c !in s.closed && c !in s.evicted && c !in s.nodeOf;
    assert forall n :: n in s.sinks ==> SinkOk(n, s.sinks[n], s.nodeOf, s.registered, s.closed, s.evicted);
  }

  lemma EnsureKeeps(s: Cache, i: nat, dials: bool)
    requires CacheOk(s) && Can(s, Ensure(i, dials))
    ensures CacheOk(EnsureSink(s, i, dials))
  {
    var node := s.calls[i].node;
    if node in s.sinks {
      assert SinkOk(node, s.sinks[node], s.nodeOf, s.registered, s.closed, s.evicted);
      MoveOk(s, i, Call(node, Holding(s.sinks[node])));
    } else if !dials {
      MoveOk(s, i, Call(node, Failed));
    } else {
      DialOk(s, node);
      if !s.cleared {
        MoveOk(Dialed(s, node).(sinks := s.sinks[node := s.dialed]), i, Call(node, Holding(s.dialed)));
      }
    }
  }

  lemma EvictOk(s: Cache, i: nat, node: string, want: nat)
    requires CacheOk(s) && i in s.calls && s.calls[i] == Call(node, Failing(want)) && node in s.sinks && s.sinks[node] == want
    ensures CacheOk(s.(sinks := s.sinks - {node}, evicted := s.evicted + {want}, calls := s.calls[i := Call(node, Closing(want))]))
  {
    var call := Call(node, Closing(want));
    assert SinkOk(node, want, s.nodeOf, s.registered, s.closed, s.evicted);
    ClientKnown(s, i);
    EvictMove(s.closes, s.calls, s.evicted, i, call, want);
    MoveCalls(s, i, call);
    MoveEnvelopes(s.wire, s.delivered, s.calls, i, call);
    hide BuffersOk, ClosesOk, ReturnsOk, EnvelopesOk, CallsOk;
    var sinks' := s.sinks - {node};
    forall n | n in sinks' ensures SinkOk(n, sinks'[n], s.nodeOf, s.registered, s.closed, s.evicted + {want}) {
      assert SinkOk(n, s.sinks[n], s.nodeOf, s.registered, s.closed, s.evicted);
    }
  }

  lemma EvictKeeps(s: Cache, i: nat)
    requires CacheOk(s) && Can(s, Evict(i))
    ensures CacheOk(EvictSink(s, i))
  {
    hide CacheOk;
    var node, want := s.calls[i].node, s.calls[i].phase.client;
    if s.up && node in s.sinks && s.sinks[node] == want {
      EvictOk(s, i, node, want);
    } else {
      MoveOk(s, i, Call(node, Failed));
    }
  }

  lemma CloseKeeps(s: Cache, i: nat)
    requires CacheOk(s) && Can(s, CloseSink(i))
    ensures CacheOk(Next(s, CloseSink(i)))
  {
    var s' := Next(s, CloseSink(i));
    var c := s.calls[i].phase.client;
    CloseMove(s.closes, s.calls, s.evicted, i, s'.calls[i], c);
    MoveCalls(s, i, s'.calls[i]);
    MoveEnvelopes(s.wire, s.delivered, s.calls, i, s'.calls[i]);
    hide ClosesOk, ReturnsOk, EnvelopesOk, BuffersOk;
    forall n | n in s.sinks ensures SinkOk(n, s.sinks[n], s.nodeOf, s.registered, s'.closed, s.evicted) {
      assert SinkOk(n, s.sinks[n], s.nodeOf, s.registered, s.closed, s.evicted);
    }
  }

  lemma DeliverKeeps(s: Cache, i: nat, to: set<nat>)
    requires CacheOk(s) && Can(s, Deliver(i, to))
    ensures CacheOk(Next(s, Deliver(i, to)))
  {
    hide SinksOk, ClosesOk, CallsOk;
    var s' := Next(s, Deliver(i, to));
    assert forall p :: p in s.delivered ==> p in s'.delivered;
    forall c, k | c in s'.buffers && 0 <= k < |s'.buffers[c]| ensures (c, s'.buffers[c][k]) in s'.delivered {
      if k < |s.buffers[c]| {
        assert s'.buffers[c][k] == s.buffers[c][k];
      }
    }
  }

  lemma ReceiveKeeps(s: Cache, i: nat)
    requires CacheOk(s) && Can(s, Receive(i))
    ensures CacheOk(Next(s, Receive(i)))
  {
    hide SinksOk;
    var s' := Next(s, Receive(i));
    var c := s.calls[i].phase.client;
    assert (c, s.buffers[c][0]) in s.delivered;
    MoveCalls(s, i, s'.calls[i]);
    QuietMove(s.closes, s.calls, s.evicted, i, s'.calls[i]);
    MoveEnvelopes(s.wire, s.delivered, s.calls, i, s'.calls[i]);
    hide ClosesOk, ReturnsOk, EnvelopesOk, CallsOk;
    forall k | 0 <= k < |s'.buffers[c]| ensures (c, s'.buffers[c][k]) in s.delivered {
      assert s'.buffers[c][k] == s.buffers[c][k + 1];
    }
  }

  /** Moving one call along, away from any duty to close. */
  lemma MoveOk(s: Cache, i: nat, call: Call)
    requires CacheOk(s) && !call.phase.Closing? && !call.phase.Returned? && (i in s.calls ==> !s.calls[i].phase.Closing?)
    requires HasClient(call.phase) ==> call.phase.client < s.dialed
    requires i in s.calls && PastSend(s.calls[i].phase) ==> PastSend(call.phase)
    ensures CacheOk(s.(calls := s.calls[i := call]))
  {
    hide SinksOk, BuffersOk, ClosesOk, ReturnsOk, EnvelopesOk, CallsOk, ClientsOk;
    MoveCalls(s, i, call);
    QuietMove(s.closes, s.calls, s.evicted, i, call);
    MoveEnvelopes(s.wire, s.delivered, s.calls, i, call);
  }

  lemma ClientKnown(s: Cache, i: nat)
    requires CallsOk(s.calls, s.dialed) && i in s.calls && HasClient(s.calls[i].phase)
    ensures s.calls[i].phase.client < s.dialed
  {
  }

  lemma SendOk(s: Cache, i: nat)
    requires CacheOk(s) && i in s.calls && PastSend(s.calls[i].phase) && forall c :: (c, i) !in s.delivered
    ensures CacheOk(s.(wire := s.wire + {i}))
  {
    hide SinksOk, BuffersOk, ClosesOk, ReturnsOk, CallsOk, ClientsOk;
  }

  lemma NotSentYet(s: Cache, i: nat)
    requires EnvelopesOk(s.wire, s.delivered, s.calls) && (i in s.calls ==> !PastSend(s.calls[i].phase))
    ensures forall c :: (c, i) !in s.delivered
  {
  }

  /** Steps that only move one call along. */
  lemma MoveKeeps(s: Cache, step: Step)
    requires CacheOk(s) && Can(s, step) && (step.Begin? || step.Send? || step.Timeout?)
    ensures CacheOk(Next(s, step))
  {
    var i := step.i;
    if i in s.calls && HasClient(s.calls[i].phase) {
      ClientKnown(s, i);
    }
    if step.Send? {
      NotSentYet(s, i);
    }
    hide CacheOk;
    var s' := Next(s, step);
    MoveOk(s, i, s'.calls[i]);
    if step.Send? && step.ok {
      SendOk(s.(calls := s'.calls), i);
    }
  }

  lemma StopKeeps(s: Cache, step: Step)
    requires CacheOk(s) && Can(s, step) && (step.Unregister? || step.StopClear? || step.StopDone?)
    ensures CacheOk(Next(s, step))
  {
    hide ClosesOk, ReturnsOk, EnvelopesOk, BuffersOk, CallsOk;
    if step.Unregister? {
      forall n | n in s.sinks ensures SinkOk(n, s.sinks[n], s.nodeOf, s.registered - {step.c}, s.closed, s.evicted) {
        assert SinkOk(n, s.sinks[n], s.nodeOf, s.registered, s.closed, s.evicted);
      }
    } else if step.StopClear? {
      forall c | c in s.sinks.Values ensures c < s.dialed {
        var n :| n in s.sinks && s.sinks[n] == c;
        assert SinkOk(n, c, s.nodeOf, s.registered, s.closed, s.evicted);
      }
    }
  }

  lemma StepKeeps(s: Cache, step: Step)
    requires CacheOk(s) && Can(s, step)
    ensures CacheOk(Next(s, step))
  {
    hide CacheOk, EnsureSink, EvictSink;
    match step
    case Ensure(i, dials) => EnsureKeeps(s, i, dials);
    case Evict(i) => EvictKeeps(s, i);
    case CloseSink(i) => CloseKeeps(s, i);
    case Deliver(i, to) => DeliverKeeps(s, i, to);
    case Receive(i) => ReceiveKeeps(s, i);
    case Begin(_, _) => MoveKeeps(s, step);
    case Send(_, _) => MoveKeeps(s, step);
    case Timeout(_) => MoveKeeps(s, step);
    case Unregister(_) => StopKeeps(s, step);
    case StopClear => StopKeeps(s, step);
    case StopDone => StopKeeps(s, step);
  }

  lemma {:induction false} RunKeeps(s: Cache, run: seq<Step>)
    requires CacheOk(s) && CanRun(s, run)
    ensures CacheOk(After(s, run))
    decreases |run|
  {
    hide CacheOk, Next, Can;
    if run != [] {
      StepKeeps(s, run[0]);
      RunKeeps(Next(s, run[0]), run[1..]);
    }
  }

  ghost predicate Reachable(s: Cache)
  {
    exists run :: CanRun(NEW, run) && After(NEW, run) == s
  }

  lemma NewOk()
    ensures CacheOk(NEW)
  {
    assert forall c: nat :: Closers(NEW.calls, c) == {};
  }

  lemma ReachableOk(s: Cache)
    requires Reachable(s)
    ensures CacheOk(s)
  {
    NewOk();
    var run :| CanRun(NEW, run) && After(NEW, run) == s;
    RunKeeps(NEW, run);
  }
}
