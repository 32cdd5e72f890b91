/** What a cut and a close of the fault proxy guarantee, over every interleaving. */
module FaultProxyTheorems {
  import opened Bytes
  import opened FaultProxy
  import Sets

  // ---------------------------------------------------------------------------
  // Which states can still deliver a byte without a Heal
  // ---------------------------------------------------------------------------

  function BytesTo(s: Proxy, c: nat, dir: Direction): bytes
  {
    if c in s.conns then ToPeer(s.conns[c], dir) else []
  }

  /** Neither peer of any connection has been sent anything more. */
  ghost predicate Quiet(s: Proxy, s': Proxy)
  {
    forall c: nat, dir :: BytesTo(s', c, dir) == BytesTo(s, c, dir)
  }

  predicate NoHeal(run: seq<Step>)
  {
    Heal !in run
  }

  /** A direction of a connection that can still write: the socket it writes to is open, and the
      pump holds a chunk, or can still get one from an open socket past every check ahead of it. */
  predicate MayWrite(k: Conn, dir: Direction, partitioned: bool, closed: bool)
  {
    !SinkClosed(k, dir) &&
    match k.h
    case Piping(_, _) =>
      (match PumpOf(k.h, dir)
       case Holding(_, _) => true
       case Reading => !SourceClosed(k, dir)
       case Check => !SourceClosed(k, dir) && !partitioned
       case Top => !SourceClosed(k, dir) && !partitioned && !closed
       case Done => false)
    case Ending(_) => false
    case Gone => false
    case _ => !SourceClosed(k, dir) && !partitioned && !closed
  }

  ghost predicate Leaky(s: Proxy)
  {
    (!s.partitioned && !s.closed && !s.listenerDown) ||
    exists c, dir :: c in s.conns && MayWrite(s.conns[c], dir, s.partitioned, s.closed)
  }

  lemma ActQuiet(k: Conn, partitioned: bool, closed: bool, act: Act, dir: Direction)
    requires Ready(k, closed, act) && !MayWrite(k, dir, partitioned, closed)
    ensures !MayWrite(Act1(k, partitioned, closed, act), dir, partitioned, closed)
    ensures ToPeer(Act1(k, partitioned, closed, act), dir) == ToPeer(k, dir)
  {
    if act.WriteChunk? && act.dir == dir {
      var p := PumpOf(k.h, dir);
      assert p.chunk[..0] == [] && ToPeer(k, dir) + [] == ToPeer(k, dir);
    }
  }

  lemma ConnQuiet(s: Proxy, step: Step, c: nat, dir: Direction)
    requires Can(s, step) && !Leaky(s) && step != Heal
    ensures BytesTo(Next(s, step), c, dir) == BytesTo(s, c, dir)
    ensures c in Next(s, step).conns ==>
              !MayWrite(Next(s, step).conns[c], dir, Next(s, step).partitioned, Next(s, step).closed)
  {
    hide Act1, Ready;
    if c in s.conns {
      assert !MayWrite(s.conns[c], dir, s.partitioned, s.closed);
      if step.On? && step.c == c {
        ActQuiet(s.conns[c], s.partitioned, s.closed, step.act, dir);
      }
    }
  }

  lemma StepQuiet(s: Proxy, step: Step)
    requires Can(s, step) && !Leaky(s) && step != Heal
    ensures !Leaky(Next(s, step)) && Quiet(s, Next(s, step))
  {
    hide Act1, Ready, MayWrite;
    var s' := Next(s, step);
    forall c: nat, dir
      ensures BytesTo(s', c, dir) == BytesTo(s, c, dir)
      ensures c in s'.conns ==> !MayWrite(s'.conns[c], dir, s'.partitioned, s'.closed)
    {
      ConnQuiet(s, step, c, dir);
    }
  }

  lemma {:induction false} RunQuiet(s: Proxy, run: seq<Step>)
    requires CanRun(s, run) && !Leaky(s) && NoHeal(run)
    ensures Quiet(s, After(s, run))
    decreases |run|
  {
    hide Leaky, Can, Next;
    if run != [] {
      StepQuiet(s, run[0]);
      RunQuiet(Next(s, run[0]), run[1..]);
    }
  }

  // ---------------------------------------------------------------------------
  // A leaky state does deliver
  // ---------------------------------------------------------------------------

  function NextAct(k: Conn, dir: Direction): Act
    requires MayWrite(k, dir, false, false)
  {
    match k.h
    case Accepted => Admit
    case Dialing => Dial(true)
    case Dialed => Track
    case Piping(_, _) =>
      (match PumpOf(k.h, dir)
       case Top => CheckClosed(dir)
       case Check => CheckCut(dir)
       case Reading => Read(dir, Data([0], false))
       case _ => WriteChunk(dir, WriteResult.Sent))
  }

  function Distance(k: Conn, dir: Direction): nat
  {
    match k.h
    case Accepted => 7
    case Dialing => 6
    case Dialed => 5
    case Piping(_, _) =>
      var p := PumpOf(k.h, dir);
      if p == Top then 4 else if p == Check then 3 else if p == Reading then 2 else if p.Holding? then 1 else 0
    case _ => 0
  }

  lemma NearerToWriting(k: Conn, dir: Direction, partitioned: bool, closed: bool)
    requires MayWrite(k, dir, partitioned, closed)
    ensures MayWrite(k, dir, false, false) && Ready(k, closed, NextAct(k, dir)) && Distance(k, dir) > 0
    ensures Distance(k, dir) == 1 ==> ToPeer(Act1(k, partitioned, closed, NextAct(k, dir)), dir) != ToPeer(k, dir)
    ensures Distance(k, dir) > 1 ==>
              var k' := Act1(k, partitioned, closed, NextAct(k, dir));
              MayWrite(k', dir, partitioned, closed) && ToPeer(k', dir) == ToPeer(k, dir) && Distance(k', dir) < Distance(k, dir)
  {
    if Distance(k, dir) == 1 {
      var p := PumpOf(k.h, dir);
      assert |ToPeer(k, dir) + p.chunk| > |ToPeer(k, dir)|;
    }
  }

  lemma Delivers(s: Proxy, c: nat, dir: Direction) returns (run: seq<Step>)
    requires c in s.conns && MayWrite(s.conns[c], dir, s.partitioned, s.closed)
    ensures CanRun(s, run) && NoHeal(run) && BytesTo(After(s, run), c, dir) != BytesTo(s, c, dir)
    decreases Distance(s.conns[c], dir)
  {
    hide MayWrite, Act1, Distance, NextAct, Ready;
    var k := s.conns[c];
    NearerToWriting(k, dir, s.partitioned, s.closed);
    var step := On(c, NextAct(k, dir));
    var s' := Next(s, step);
    var rest := [];
    if Distance(k, dir) > 1 {
      rest := Delivers(s', c, dir);
    }
    run := [step] + rest;
    assert run[1..] == rest;
  }

  lemma LeakyDelivers(s: Proxy) returns (run: seq<Step>)
    requires Leaky(s)
    ensures CanRun(s, run) && NoHeal(run) && !Quiet(s, After(s, run))
  {
    if c: nat, dir :| c in s.conns && MayWrite(s.conns[c], dir, s.partitioned, s.closed) {
      run := Delivers(s, c, dir);
      assert BytesTo(After(s, run), c, dir) != BytesTo(s, c, dir);
    } else {
      var c := Sets.Above(s.conns.Keys);
      var s' := Next(s, Accept(c));
      var rest := Delivers(s', c, Up);
      run := [Accept(c)] + rest;
      assert run[1..] == rest;
      assert BytesTo(After(s, run), c, Up) != BytesTo(s, c, Up);
    }
  }

  /** A state delivers nothing more until a Heal exactly when it is not leaky. */
  lemma SilentExactly(s: Proxy)
    ensures !Leaky(s) <==> forall run :: CanRun(s, run) && NoHeal(run) ==> Quiet(s, After(s, run))
  {
    if Leaky(s) {
      var run := LeakyDelivers(s);
      assert CanRun(s, run) && NoHeal(run) && !Quiet(s, After(s, run));
    } else {
      forall run | CanRun(s, run) && NoHeal(run) ensures Quiet(s, After(s, run)) {
        RunQuiet(s, run);
      }
    }
  }

  // ---------------------------------------------------------------------------
  // Partition
  // ---------------------------------------------------------------------------

  ghost predicate CutReturned(s: Proxy)
  {
    exists j :: j in s.jobs && s.jobs[j] == Job(true, true, Returned)
  }

  lemma CutIsNotLeaky(s: Proxy)
    requires s.partitioned && AllSevered(s.conns)
    ensures !Leaky(s)
  {
  }

  /** Once a Partition that no Heal overlapped has returned, no byte reaches either peer of any
      connection until a Heal. */
  lemma PartitionSilences(s: Proxy, run: seq<Step>)
    requires Reachable(s) && CutReturned(s) && CanRun(s, run) && NoHeal(run)
    ensures Quiet(s, After(s, run))
  {
    ReachableOk(s);
    var j :| j in s.jobs && s.jobs[j] == Job(true, true, Returned);
    assert JobOk(s.conns, s.partitioned, s.jobs[j]);
    CutIsNotLeaky(s);
    RunQuiet(s, run);
  }

  /** A proxy configured as partitioned from the start delivers nothing until a Heal. */
  lemma BornPartitioned(run: seq<Step>)
    requires CanRun(NewProxy(true), run) && NoHeal(run)
    ensures Quiet(NewProxy(true), After(NewProxy(true), run))
  {
    CutIsNotLeaky(NewProxy(true));
    RunQuiet(NewProxy(true), run);
  }

  /** A Heal between a Partition's first write of the flag and its return defeats it: the call
      returns and bytes can still pass with no further Heal. */
  lemma HealInsidePartition() returns (s: Proxy, run: seq<Step>)
    ensures Reachable(s) && 0 in s.jobs && s.jobs[0] == Job(true, false, Returned)
    ensures CanRun(s, run) && NoHeal(run) && !Quiet(s, After(s, run))
  {
    HealedSteps();
    s := Healed(Returned);
    assert CanRun(s, []) && After(s, []) == s;
    hide Can, Next, CanRun, After, Healed;
    Prefix(Healed(Severing([], false)), Finish(0), []);
    Prefix(Healed(Begun), Snapshot(0, []), [Finish(0)] + []);
    Prefix(Cutting, Heal, [Snapshot(0, [])] + ([Finish(0)] + []));
    Prefix(NewProxy(false), Partition(0), [Heal] + ([Snapshot(0, [])] + ([Finish(0)] + [])));
    assert Leaky(s) by {
      HealedIsLeaky();
    }
    run := LeakyDelivers(s);
  }

  /** A Partition has set the flag on an idle proxy. */
  const Cutting := Proxy(map[], {}, true, false, false, map[0 := Job(true, true, Begun)])

  /** The same after a Heal, with the Partition in a given phase. */
  function Healed(phase: Phase): Proxy
  {
    Proxy(map[], {}, false, false, false, map[0 := Job(true, false, phase)])
  }

  lemma HealedSteps()
    ensures Can(NewProxy(false), Partition(0)) && Next(NewProxy(false), Partition(0)) == Cutting
    ensures Can(Cutting, Heal) && Next(Cutting, Heal) == Healed(Begun)
    ensures Can(Healed(Begun), Snapshot(0, [])) && Next(Healed(Begun), Snapshot(0, [])) == Healed(Severing([], false))
    ensures Can(Healed(Severing([], false)), Finish(0)) && Next(Healed(Severing([], false)), Finish(0)) == Healed(Returned)
  {
    hide Act1, Ready;
    assert Next(Cutting, Heal).jobs == map[0 := Job(true, false, Begun)];
  }

  lemma HealedIsLeaky()
    ensures Leaky(Healed(Returned))
  {
  }

  lemma Prefix(s: Proxy, step: Step, rest: seq<Step>)
    requires Can(s, step) && CanRun(Next(s, step), rest)
    ensures CanRun(s, [step] + rest) && After(s, [step] + rest) == After(Next(s, step), rest)
  {
    assert ([step] + rest)[1..] == rest;
  }

  // ---------------------------------------------------------------------------
  // Close
  // ---------------------------------------------------------------------------

  ghost predicate CloseJobOk(s: Proxy, job: Job)
  {
    !job.cut ==> s.closed && (job.phase != Begun ==> s.listenerDown) && (job.phase.Returned? ==> AllGone(s.conns))
  }

  ghost predicate CloseOk(s: Proxy)
  {
    forall j :: j in s.jobs ==> CloseJobOk(s, s.jobs[j])
  }

  lemma GoneStays(s: Proxy, step: Step)
    requires AllGone(s.conns) && s.listenerDown && Can(s, step)
    ensures AllGone(Next(s, step).conns) && Next(s, step).listenerDown
  {
  }

  lemma StepKeepsClose(s: Proxy, step: Step)
    requires CloseOk(s) && Can(s, step)
    ensures CloseOk(Next(s, step))
  {
    hide Act1, Ready, AllGone;
    var s' := Next(s, step);
    forall j | j in s'.jobs ensures CloseJobOk(s', s'.jobs[j]) {
      if j in s.jobs {
        assert CloseJobOk(s, s.jobs[j]);
        if AllGone(s.conns) && s.listenerDown {
          GoneStays(s, step);
        }
      }
    }
  }

  lemma {:induction false} RunKeepsClose(s: Proxy, run: seq<Step>)
    requires CloseOk(s) && CanRun(s, run)
    ensures CloseOk(After(s, run))
    decreases |run|
  {
    hide CloseOk, Can, Next;
    if run != [] {
      StepKeepsClose(s, run[0]);
      RunKeepsClose(Next(s, run[0]), run[1..]);
    }
  }

  ghost predicate CloseReturned(s: Proxy)
  {
    exists j :: j in s.jobs && !s.jobs[j].cut && s.jobs[j].phase == Returned
  }

  /** After Close has returned no connection is tracked, in that state and in every later one. */
  lemma {:induction false} CloseDrains(s: Proxy, run: seq<Step>)
    requires Reachable(s) && CloseReturned(s) && CanRun(s, run)
    ensures After(s, run).tracked == {} && Quiet(s, After(s, run))
  {
    var cut, before :| CanRun(NewProxy(cut), before) && After(NewProxy(cut), before) == s;
    RunKeepsClose(NewProxy(cut), before);
    var j :| j in s.jobs && !s.jobs[j].cut && s.jobs[j].phase == Returned;
    assert CloseJobOk(s, s.jobs[j]);
    ReachableOk(s);
    DrainedStays(s, run);
  }

  lemma {:induction false} DrainedStays(s: Proxy, run: seq<Step>)
    requires AllGone(s.conns) && s.listenerDown && TrackedOk(s.conns, s.tracked) && CanRun(s, run)
    ensures After(s, run).tracked == {} && Quiet(s, After(s, run))
    decreases |run|
  {
    hide Act1, Ready;
    if run == [] {
      assert forall c :: c in s.tracked ==> Live(s.conns[c].h);
    } else {
      GoneStays(s, run[0]);
      StepKeepsTracked(s, run[0]);
      GoneQuiet(s, run[0]);
      DrainedStays(Next(s, run[0]), run[1..]);
    }
  }

  lemma GoneQuiet(s: Proxy, step: Step)
    requires AllGone(s.conns) && s.listenerDown && Can(s, step)
    ensures Quiet(s, Next(s, step))
  {
  }

  // ---------------------------------------------------------------------------
  // Close can always return
  // ---------------------------------------------------------------------------

  function PumpWork(p: Pump): nat
  {
    match p
    case Check => 4
    case Reading => 3
    case Holding(_, _) => 2
    case Top => 1
    case Done => 0
  }

  /** A bound on the steps a handler and its pumps have left once the proxy is closed. */
  function HandlerWork(h: Handler): nat
  {
    match h
    case Accepted => 9
    case Dialing => 8
    case Dialed => 7
    case Piping(up, down) => 4 + PumpWork(up) + PumpWork(down)
    case Ending(stage) => if stage == 0 then 3 else if stage == 1 then 2 else 1
    case Gone => 0
  }

  ghost function Work(conns: map<nat, Conn>): nat
    decreases |conns|
  {
    if conns == map[] then 0
    else
      var c := Sets.Pick(conns.Keys);
      HandlerWork(conns[c].h) + Work(conns - {c})
  }

  lemma {:induction false} WorkSplit(conns: map<nat, Conn>, c: nat)
    requires c in conns
    ensures Work(conns) == HandlerWork(conns[c].h) + Work(conns - {c})
    decreases |conns|
  {
    var first := Sets.Pick(conns.Keys);
    if first != c {
      WorkSplit(conns - {first}, c);
      WorkSplit(conns - {c}, first);
      assert conns - {first} - {c} == conns - {c} - {first};
    }
  }

  lemma WorkUpdate(conns: map<nat, Conn>, c: nat, k: Conn)
    requires c in conns
    ensures Work(conns[c := k]) == Work(conns) - HandlerWork(conns[c].h) + HandlerWork(k.h)
  {
    hide Work, HandlerWork;
    WorkSplit(conns, c);
    WorkSplit(conns[c := k], c);
    assert conns[c := k] - {c} == conns - {c};
  }

  /** In a closed proxy every step of a handler or pump lowers its bound. */
  lemma ActLowersWork(k: Conn, partitioned: bool, act: Act)
    requires Ready(k, true, act)
    ensures HandlerWork(Act1(k, partitioned, true, act).h) < HandlerWork(k.h)
  {
  }

  lemma SeverKeepsWork(conns: map<nat, Conn>, c: nat, client: bool)
    ensures Work(CloseSocket(conns, c, client)) == Work(conns)
  {
    if c in conns {
      WorkUpdate(conns, c, CloseSocket(conns, c, client)[c]);
    }
  }

  lemma StepLowersWork(s: Proxy, step: Step)
    requires Can(s, step) && s.closed && s.listenerDown
    ensures Next(s, step).closed && Next(s, step).listenerDown
    ensures if step.On? then Work(Next(s, step).conns) < Work(s.conns) else Work(Next(s, step).conns) == Work(s.conns)
  {
    hide Act1, Ready, HandlerWork, Work;
    if step.On? {
      ActLowersWork(s.conns[step.c], s.partitioned, step.act);
      WorkUpdate(s.conns, step.c, Act1(s.conns[step.c], s.partitioned, s.closed, step.act));
    } else if step.SeverClient? {
      SeverKeepsWork(s.conns, s.jobs[step.j].phase.rest[0], true);
    } else if step.SeverServer? {
      SeverKeepsWork(s.conns, s.jobs[step.j].phase.rest[0], false);
    }
  }

  /** How many steps of a run are taken by handlers and pumps. */
  function HandlerSteps(run: seq<Step>): nat
  {
    if run == [] then 0 else (if run[0].On? then 1 else 0) + HandlerSteps(run[1..])
  }

  /** Once Close has closed the listener, handlers and pumps take a bounded number of steps, in every
      run and whatever their peers do. */
  lemma {:induction false} CloseBoundsWork(s: Proxy, run: seq<Step>)
    requires CanRun(s, run) && s.closed && s.listenerDown
    ensures HandlerSteps(run) + Work(After(s, run).conns) <= Work(s.conns)
    decreases |run|
  {
    hide Can, Next, Work;
    if run != [] {
      StepLowersWork(s, run[0]);
      CloseBoundsWork(Next(s, run[0]), run[1..]);
    }
  }

  /** A step that a handler which has not finished can take now. */
  function SomeAct(k: Conn): Act
    requires k.h != Gone
  {
    match k.h
    case Accepted => Admit
    case Dialing => Dial(false)
    case Dialed => Track
    case Ending(_) => Unwind
    case Piping(up, down) =>
      if up == Done && down == Done then Unwind
      else
        var dir := if up == Done then Down else Up;
        var p := PumpOf(k.h, dir);
        if p == Top then CheckClosed(dir) else if p == Check then CheckCut(dir)
        else if p == Reading then Read(dir, Failed) else WriteChunk(dir, Broken(0))
  }

  lemma SomeActReady(k: Conn, closed: bool)
    requires k.h != Gone
    ensures Ready(k, closed, SomeAct(k))
  {
  }

  /** From every state after Close has closed the listener some run of handler steps ends with every
      handler gone, which is what Close waits for. */
  lemma {:induction false} CloseCanFinish(s: Proxy) returns (run: seq<Step>)
    requires s.closed && s.listenerDown
    ensures CanRun(s, run) && AllGone(After(s, run).conns) && After(s, run).jobs == s.jobs
    decreases Work(s.conns)
  {
    if AllGone(s.conns) {
      run := [];
    } else {
      var c :| c in s.conns && s.conns[c].h != Gone;
      SomeActReady(s.conns[c], s.closed);
      var step := On(c, SomeAct(s.conns[c]));
      StepLowersWork(s, step);
      hide Act1, Ready, SomeAct, AllGone;
      var rest := CloseCanFinish(Next(s, step));
      Prefix(s, step, rest);
      run := [step] + rest;
    }
  }

  lemma Extended(s: Proxy, one: seq<Step>, two: seq<Step>)
    requires CanRun(s, one) && CanRun(After(s, one), two)
    ensures CanRun(s, one + two) && After(s, one + two) == After(After(s, one), two)
    decreases |one|
  {
    hide Next, Can;
    if one == [] {
      assert one + two == two;
    } else {
      Extended(Next(s, one[0]), one[1..], two);
      assert (one + two)[1..] == one[1..] + two;
    }
  }

  /** A Close that has severed what it saw can always return. */
  lemma CloseCanReturn(s: Proxy, j: nat) returns (run: seq<Step>)
    requires Reachable(s) && j in s.jobs && !s.jobs[j].cut && s.jobs[j].phase == Severing([], false)
    ensures CanRun(s, run) && CloseReturned(After(s, run))
  {
    assert s.closed && s.listenerDown by {
      ClosingIsClosed(s, j);
    }
    var finish := CloseCanFinish(s);
    var s' := After(s, finish);
    assert Can(s', Finish(j));
    Prefix(s', Finish(j), []);
    Extended(s, finish, [Finish(j)] + []);
    run := finish + ([Finish(j)] + []);
    assert After(s, run).jobs[j].phase == Returned;
  }

  /** A Close under way has closed the proxy, and the listener before it severs anything. */
  lemma ClosingIsClosed(s: Proxy, j: nat)
    requires Reachable(s) && j in s.jobs && !s.jobs[j].cut && s.jobs[j].phase != Begun
    ensures s.closed && s.listenerDown
  {
    var cut, before :| CanRun(NewProxy(cut), before) && After(NewProxy(cut), before) == s;
    RunKeepsClose(NewProxy(cut), before);
    assert CloseJobOk(s, s.jobs[j]);
  }
}
