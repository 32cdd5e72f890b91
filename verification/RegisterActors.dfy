/** The scenario's actors as the program has them: objects that update their fields when a
    message is delivered, driven by a loop that pops messages in any order. */
module RegisterActors {
  import opened Options
  import opened Porcupine
  import opened RegisterSpec
  import opened RegisterSim
  import opened RegisterProofs
  import opened RegisterTheorems
  import opened RegisterServe
  import opened RegisterCutoff

  const INFLIGHT := 4
  const MAX_REQS := 40
  const TWO64 := 0x1_0000_0000_0000_0000

  /** The generator's state after `n` draws. */
  ghost function StateAfter(seed: int, n: int): nat
    decreases n
  {
    if n <= 0 then ((seed % 0x1_0000_0000_0000_0000) * 2862933555777941757 + 3037000493) % 0x1_0000_0000_0000_0000
    else (StateAfter(seed, n - 1) * 6364136223846793005 + 1442695040888963407) % 0x1_0000_0000_0000_0000
  }

  /** Draw number `id` of a seed is even: bit 33 of the state it leaves is 0. */
  ghost predicate DrawIsRead(seed: int, id: int)
  {
    (StateAfter(seed, id + 1) / 0x2_0000_0000) % 2 == 0
  }

  /** One draw takes the state from `s` to `s'` and picks `isRead`. */
  ghost predicate Draw(s: nat, s': nat, isRead: bool)
  {
    s' == (s * 6364136223846793005 + 1442695040888963407) % 0x1_0000_0000_0000_0000 &&
    (isRead <==> (s' / 0x2_0000_0000) % 2 == 0)
  }

  lemma DrawNumber(seed: int, id: int, s': nat, isRead: bool)
    requires id >= 0 && Draw(StateAfter(seed, id), s', isRead)
    ensures s' == StateAfter(seed, id + 1) && (isRead <==> DrawIsRead(seed, id))
  {
  }

  /** The linear congruential generator that picks request kinds. */
  class SeededRng {
    var s: nat

    constructor (seed: int)
      ensures s == ((seed % TWO64) * 2862933555777941757 + 3037000493) % TWO64
    {
      s := ((seed % TWO64) * 2862933555777941757 + 3037000493) % TWO64;
    }

    method IntN(n: int) returns (r: int)
      modifies this
      ensures n <= 0 ==> r == 0 && s == old(s)
      ensures n > 0 ==> s == (old(s) * 6364136223846793005 + 1442695040888963407) % 0x1_0000_0000_0000_0000
      ensures n > 0 ==> 0 <= r < n && r == (s / 0x2_0000_0000) % n
    {
      if n <= 0 { return 0; }
      s := (s * 6364136223846793005 + 1442695040888963407) % TWO64;
      r := (s / 0x2_0000_0000) % n;
    }

    /** Whether the next draw of two is zero. */
    method Flip() returns (zero: bool)
      modifies this
      ensures Draw(old(s), s, zero)
    {
      var draw := IntN(2);
      zero := draw == 0;
    }
  }

  class HistoryRecorder {
    var clock: int
    var ops: seq<Op>
    var pending: map<int, Invocation>
    var nextTok: int

    ghost function Abs(): Recorder
      reads this
    {
      Recorder(clock, ops, pending, nextTok)
    }

    constructor ()
      ensures Abs() == Recorder(0, [], map[], 0)
    {
      clock, ops, pending, nextTok := 0, [], map[], 0;
    }

    method Begin(clientID: int, input: Request) returns (tok: int)
      modifies this
      ensures tok == old(nextTok) && Abs() == RegisterSim.Begin(old(Abs()), clientID, input)
    {
      clock := clock + 1;
      tok := nextTok;
      nextTok := nextTok + 1;
      pending := pending[tok := Invocation(clientID, input, clock)];
    }

    method End(tok: int, output: Response)
      modifies this
      ensures Abs() == RegisterSim.End(old(Abs()), tok, output)
    {
      clock := clock + 1;
      if tok !in pending { return; }
      var op := pending[tok];
      pending := pending - {tok};
      ops := ops + [Operation(op.clientID, op.input, output, op.call, clock)];
    }

    method History() returns (out: seq<Op>)
      ensures multiset(out) == multiset(ops) && SortedByWindow(out)
    {
      out := SortByWindow(ops);
    }
  }

  /** The simulator as far as the actors touch it: messages in flight and one durable cell. */
  class Simulation {
    var net: multiset<Message>
    var disk: Option<int>

    constructor ()
      ensures net == multiset{} && disk == None
    {
      net, disk := multiset{}, None;
    }

    method Send(m: Message)
      modifies this
      ensures net == old(net) + multiset{m} && disk == old(disk)
    {
      net := net + multiset{m};
    }

    method Write(v: int)
      modifies this
      ensures disk == Some(v) && net == old(net)
    {
      disk := Some(v);
    }

    /** Some message in flight is taken out: which one is up to latencies and stalls. */
    method Pop() returns (m: Message)
      requires net != multiset{}
      modifies this
      ensures m in old(net) && net == old(net) - multiset{m} && disk == old(disk)
    {
      m :| m in net;
      net := net - multiset{m};
    }
  }

  class PrimaryActor {
    const buggy: bool
    var prev: Option<int>

    ghost function Abs(sim: Simulation): Primary
      reads this, sim
    {
      Primary(buggy, sim.disk, prev)
    }

    constructor (buggy: bool)
      ensures this.buggy == buggy && prev == None
    {
      this.buggy, prev := buggy, None;
    }

    method Receive(sim: Simulation, id: int, req: Request)
      modifies this, sim
      ensures Abs(sim) == Apply(old(Abs(sim)), req).0
      ensures sim.net == old(sim.net) + multiset{Ack(id, Apply(old(Abs(sim)), req).1)}
    {
      match req
      case Write(val) =>
        if sim.disk.Some? { prev := sim.disk; }
        sim.Write(val);
        sim.Send(Ack(id, WriteAck));
      case Read =>
        var stored := 0;
        if sim.disk.Some? {
          stored := sim.disk.value;
          if buggy && prev.Some? { stored := prev.value; }
        }
        sim.Send(Ack(id, ReadAck(stored)));
    }
  }

  class ClientDriver {
    const rec: HistoryRecorder
    const rng: SeededRng
    const maxReqs: int
    var pending: map<int, PendingOp>
    var nextReq: int
    var issued: int

    ghost function Abs(): Driver
      reads this
    {
      Driver(pending, nextReq, issued, maxReqs)
    }

    constructor (rec: HistoryRecorder, rng: SeededRng, maxReqs: int)
      ensures this.rec == rec && this.rng == rng && Abs() == Driver(map[], 0, 0, maxReqs)
    {
      this.rec, this.rng, this.maxReqs := rec, rng, maxReqs;
      pending, nextReq, issued := map[], 0, 0;
    }

    /** Opens the window of the next request, sends it and remembers it. */
    method Launch(sim: Simulation, primary: PrimaryActor, isRead: bool)
      requires issued < maxReqs
      modifies this, rec, sim
      ensures WorldOf(sim, primary, this) == RegisterSim.IssueNext(old(WorldOf(sim, primary, this)), isRead)
    {
      issued := issued + 1;
      var reqid := nextReq;
      nextReq := nextReq + 1;
      var input := if isRead then Read else Write(issued);
      var tok := rec.Begin(reqid, input);
      sim.Send(Req(reqid, input));
      pending := pending[reqid := PendingOp(tok, isRead, if isRead then 0 else issued)];
    }

    /** Issues the next request, if any remain. The kind drawn is reported for the caller's record. */
    method IssueNext(sim: Simulation, primary: PrimaryActor) returns (ghost kind: bool)
      modifies this, rec, rng, sim
      ensures WorldOf(sim, primary, this) == RegisterSim.IssueNext(old(WorldOf(sim, primary, this)), kind)
      ensures old(issued) < maxReqs ==> Draw(old(rng.s), rng.s, kind)
      ensures old(issued) >= maxReqs ==> rng.s == old(rng.s)
    {
      hide Draw;
      kind := false;
      if issued >= maxReqs { return; }
      var isRead := rng.Flip();
      kind := isRead;
      Launch(sim, primary, isRead);
    }

    /** Closes the window of an answered request. */
    method Finish(sim: Simulation, primary: PrimaryActor, id: int, resp: Response)
      requires id in pending
      modifies this, rec
      ensures WorldOf(sim, primary, this) == Complete(old(WorldOf(sim, primary, this)), id, resp)
    {
      var o := pending[id];
      pending := pending - {id};
      if o.isRead {
        rec.End(o.tok, ReadAck(if resp.ReadAck? then resp.val else 0));
      } else {
        rec.End(o.tok, WriteAck);
      }
    }

    method Receive(sim: Simulation, primary: PrimaryActor, id: int, resp: Response) returns (ghost kind: bool)
      modifies this, rec, rng, sim
      ensures WorldOf(sim, primary, this) == ClientReceive(old(WorldOf(sim, primary, this)), id, resp, kind)
      ensures id in old(pending) && old(issued) < maxReqs ==> Draw(old(rng.s), rng.s, kind)
      ensures id !in old(pending) || old(issued) >= maxReqs ==> rng.s == old(rng.s)
      ensures issued == old(issued) + if id in old(pending) && old(issued) < maxReqs then 1 else 0
    {
      hide Draw, RegisterSim.Begin, RegisterSim.End;
      kind := false;
      if id !in pending { return; }
      Finish(sim, primary, id, resp);
      kind := IssueNext(sim, primary);
    }
  }

  /** The state the actors' objects represent. */
  ghost function WorldOf(sim: Simulation, primary: PrimaryActor, driver: ClientDriver): World
    reads sim, primary, driver, driver.rec
  {
    World(primary.Abs(sim), driver.Abs(), driver.rec.Abs(), sim.net)
  }

  /** The delivery makes the driver issue a request. */
  ghost predicate Issues(w: World, m: Message)
  {
    m.Ack? && m.id in w.driver.pending && w.driver.issued < w.driver.maxReqs
  }

  /** Each request issued along the run is of the kind its own draw picks. */
  ghost predicate Drawn(seed: int, w: World, run: seq<Choice>)
    decreases |run|
  {
    run == [] ||
    ((Issues(w, run[0].msg) ==> (run[0].isRead <==> DrawIsRead(seed, w.driver.issued))) &&
     Drawn(seed, Deliver(w, run[0]), run[1..]))
  }

  lemma {:induction false} DrawnConcat(seed: int, w: World, run: seq<Choice>, c: Choice)
    requires Drawn(seed, w, run)
    requires Issues(Exec(w, run), c.msg) ==> (c.isRead <==> DrawIsRead(seed, Exec(w, run).driver.issued))
    ensures Drawn(seed, w, run + [c])
    decreases |run|
  {
    hide Deliver, DrawIsRead;
    if run == [] {
      assert (run + [c])[1..] == [];
    } else {
      assert (run + [c])[1..] == run[1..] + [c];
      DrawnConcat(seed, Deliver(w, run[0]), run[1..], c);
    }
  }

  /** The input of request `id` under a seed. */
  ghost function InputDrawn(seed: int, id: int): Request
  {
    if DrawIsRead(seed, id) then Read else Write(id + 1)
  }

  /** Every request, pending or recorded, has the input its draw gives. */
  ghost predicate InputsDrawn(seed: int, w: World)
  {
    && w.driver.nextReq == w.driver.issued >= 0
    && (forall tok :: tok in w.rec.pending ==>
          w.rec.pending[tok].input == InputDrawn(seed, w.rec.pending[tok].clientID))
    && (forall i :: 0 <= i < |w.rec.ops| ==> w.rec.ops[i].input == InputDrawn(seed, w.rec.ops[i].clientID))
  }

  lemma IssueKeepsInputs(seed: int, w: World, isRead: bool)
    requires InputsDrawn(seed, w)
    requires w.driver.issued < w.driver.maxReqs ==> (isRead <==> DrawIsRead(seed, w.driver.issued))
    ensures InputsDrawn(seed, RegisterSim.IssueNext(w, isRead))
  {
    hide DrawIsRead;
  }

  lemma DeliverKeepsInputs(seed: int, w: World, c: Choice)
    requires InputsDrawn(seed, w)
    requires Issues(w, c.msg) ==> (c.isRead <==> DrawIsRead(seed, w.driver.issued))
    ensures InputsDrawn(seed, Deliver(w, c))
  {
    hide InputDrawn, DrawIsRead;
    var w' := w.(net := w.net - multiset{c.msg});
    if c.msg.Ack? && c.msg.id in w.driver.pending {
      IssueKeepsInputs(seed, Complete(w', c.msg.id, c.msg.resp), c.isRead);
    }
  }

  /** Delivers one message to the actor it is addressed to. */
  method Step(sim: Simulation, primary: PrimaryActor, driver: ClientDriver, ghost seed: int)
    returns (ghost c: Choice)
    requires sim.net != multiset{} && driver.issued >= 0 && driver.rng.s == StateAfter(seed, driver.issued)
    modifies sim, primary, driver, driver.rec, driver.rng
    ensures c.msg in old(sim.net)
    ensures WorldOf(sim, primary, driver) == Deliver(old(WorldOf(sim, primary, driver)), c)
    ensures Issues(old(WorldOf(sim, primary, driver)), c.msg) ==> (c.isRead <==> DrawIsRead(seed, old(driver.issued)))
    ensures driver.issued >= 0 && driver.rng.s == StateAfter(seed, driver.issued)
  {
    hide DrawIsRead, StateAfter, Draw, ClientReceive, RegisterSim.IssueNext, Apply, RegisterSim.Begin, RegisterSim.End;
    var m := sim.Pop();
    c := Choice(m, false);
    match m {
      case Req(id, req) =>
        primary.Receive(sim, id, req);
      case Ack(id, resp) =>
        ghost var n := driver.issued;
        ghost var kind := driver.Receive(sim, primary, id, resp);
        c := Choice(m, kind);
        if driver.issued != n { DrawNumber(seed, n, driver.rng.s, kind); }
    }
  }

  /** Pops and delivers up to `maxSteps` messages, stopping early when none is left. */
  method Run(sim: Simulation, primary: PrimaryActor, driver: ClientDriver, maxSteps: int, ghost seed: int)
    returns (executed: nat, ghost run: seq<Choice>)
    requires driver.rng.s == StateAfter(seed, driver.issued) && InputsDrawn(seed, WorldOf(sim, primary, driver))
    modifies sim, primary, driver, driver.rec, driver.rng
    ensures executed == |run|
    ensures RunOf(old(WorldOf(sim, primary, driver)), Budget(maxSteps), run)
    ensures WorldOf(sim, primary, driver) == Exec(old(WorldOf(sim, primary, driver)), run)
    ensures Drawn(seed, old(WorldOf(sim, primary, driver)), run)
    ensures InputsDrawn(seed, WorldOf(sim, primary, driver))
  {
    ghost var w0 := WorldOf(sim, primary, driver);
    executed, run := 0, [];
    while executed < maxSteps && sim.net != multiset{}
      invariant executed == |run| <= Budget(maxSteps)
      invariant Enabled(w0, run) && WorldOf(sim, primary, driver) == Exec(w0, run)
      invariant Drawn(seed, w0, run) && InputsDrawn(seed, WorldOf(sim, primary, driver))
      invariant driver.rng.s == StateAfter(seed, driver.issued)
      decreases maxSteps - executed
    {
      hide Deliver, StateAfter, DrawIsRead, Issues, Drawn;
      ghost var w := WorldOf(sim, primary, driver);
      ghost var c := Step(sim, primary, driver, seed);
      DeliverKeepsInputs(seed, w, c);
      DrawnConcat(seed, w0, run, c);
      ConsRun(w, c, []);
      RunConcat(w0, run, [c] + []);
      assert [c] + [] == [c];
      run := run + [c];
      executed := executed + 1;
    }
  }

  lemma PrimedNext(buggy: bool, kinds: seq<bool>, kind: bool)
    ensures Primed(buggy, MAX_REQS, kinds + [kind]) == RegisterSim.IssueNext(Primed(buggy, MAX_REQS, kinds), kind)
  {
    assert (kinds + [kind])[..|kinds|] == kinds;
  }

  lemma StartDrawn(buggy: bool, seed: int)
    ensures Primed(buggy, MAX_REQS, []) == Start(buggy, MAX_REQS) && InputsDrawn(seed, Primed(buggy, MAX_REQS, []))
  {
  }

  /** Puts the first requests in flight. */
  method Prime(sim: Simulation, primary: PrimaryActor, driver: ClientDriver, ghost seed: int)
    returns (ghost kinds: seq<bool>)
    requires WorldOf(sim, primary, driver) == Primed(primary.buggy, MAX_REQS, [])
    requires driver.rng.s == StateAfter(seed, 0)
    modifies sim, driver, driver.rec, driver.rng
    ensures |kinds| == INFLIGHT && WorldOf(sim, primary, driver) == Primed(primary.buggy, MAX_REQS, kinds)
    ensures forall i :: 0 <= i < INFLIGHT ==> (kinds[i] <==> DrawIsRead(seed, i))
    ensures driver.rng.s == StateAfter(seed, driver.issued) && InputsDrawn(seed, WorldOf(sim, primary, driver))
  {
    hide DrawIsRead, StateAfter, Draw, Primed, InputsDrawn;
    StartDrawn(primary.buggy, seed);
    kinds := [];
    for i := 0 to INFLIGHT
      invariant |kinds| == i && WorldOf(sim, primary, driver) == Primed(primary.buggy, MAX_REQS, kinds)
      invariant forall k :: 0 <= k < i ==> (kinds[k] <==> DrawIsRead(seed, k))
      invariant driver.issued == i && driver.maxReqs == MAX_REQS && driver.rng.s == StateAfter(seed, i)
      invariant InputsDrawn(seed, WorldOf(sim, primary, driver))
    {
      ghost var w := WorldOf(sim, primary, driver);
      ghost var kind := driver.IssueNext(sim, primary);
      DrawNumber(seed, i, driver.rng.s, kind);
      IssueKeepsInputs(seed, w, kind);
      PrimedNext(primary.buggy, kinds, kind);
      kinds := kinds + [kind];
    }
  }

  function Budget(maxSteps: int): nat
  {
    if maxSteps < 0 then 0 else maxSteps
  }

  /** A run the simulation of a seed can take: its requests are those the seed draws. */
  ghost predicate SeedRun(seed: int, maxSteps: int, buggy: bool, kinds: seq<bool>, run: seq<Choice>)
  {
    && |kinds| == 4 && (forall i :: 0 <= i < 4 ==> (kinds[i] <==> DrawIsRead(seed, i)))
    && RunOf(Primed(buggy, MAX_REQS, kinds), Budget(maxSteps), run)
    && Drawn(seed, Primed(buggy, MAX_REQS, kinds), run)
  }

  ghost predicate Passes(buggy: bool, kinds: seq<bool>, run: seq<Choice>)
  {
    Linearizable(RegModel(), multiset(Exec(Primed(buggy, MAX_REQS, kinds), run).rec.ops))
  }

  /** Sets the scenario up and runs it. */
  method Simulate(seed: int, maxSteps: int, buggy: bool)
    returns (rec: HistoryRecorder, ghost kinds: seq<bool>, ghost run: seq<Choice>)
    ensures SeedRun(seed, maxSteps, buggy, kinds, run)
    ensures rec.Abs() == Exec(Primed(buggy, MAX_REQS, kinds), run).rec
    ensures forall i :: 0 <= i < |rec.ops| ==> rec.ops[i].input == InputDrawn(seed, rec.ops[i].clientID)
  {
    var sim := new Simulation();
    rec := new HistoryRecorder();
    var rng := new SeededRng(seed);
    var driver := new ClientDriver(rec, rng, MAX_REQS);
    var primary := new PrimaryActor(buggy);
    kinds := Prime(sim, primary, driver, seed);
    hide Primed, Exec, Enabled, Drawn, DrawIsRead, StateAfter, InputDrawn;
    ghost var executed;
    executed, run := Run(sim, primary, driver, maxSteps, seed);
  }

  datatype SeedResult = SeedResult(ok: bool, numOps: nat, offending: Option<Op>)

  /** One simulation and its verdict. The verdict is the checker's on the recorded history.
      For a correct primary it is a pass for every seed and delivery order unless the budget
      stops the run between its third delivery and its last. */
  method RunSeed(seed: int, maxSteps: int, buggy: bool)
    returns (res: SeedResult, ghost kinds: seq<bool>, ghost run: seq<Choice>, ghost history: seq<Op>)
    ensures SeedRun(seed, maxSteps, buggy, kinds, run)
    ensures forall i :: 0 <= i < |history| ==>
              history[i].input == if DrawIsRead(seed, history[i].clientID) then Read else Write(history[i].clientID + 1)
    ensures history == Exec(Primed(buggy, MAX_REQS, kinds), run).rec.ops
    ensures res.ok <==> Linearizable(RegModel(), multiset(history))
    ensures res.numOps == |history| <= 40
    ensures res.offending.Some? <==> !res.ok
    ensures res.offending.Some? ==> res.offending.value in history
    ensures res.offending.Some? ==> exists path :: DeepestDeadEnd(RegModel(), multiset(history), path, res.offending.value)
    ensures !buggy && (maxSteps < 3 || maxSteps >= 80) ==> res.ok
    ensures maxSteps >= 80 ==> res.numOps == 40
  {
    hide Primed, Exec, Drawn, DrawIsRead, StateAfter, Linearizable, WorldOf, DeepestDeadEnd;
    var rec;
    rec, kinds, run := Simulate(seed, maxSteps, buggy);
    VerdictFacts(buggy, kinds, maxSteps, run, rec.ops);
    history := rec.ops;
    var ops := rec.History();
    RegModelIsLawful();
    var ok, offending := CheckOperations(RegModel(), ops);
    if offending.Some? { assert offending.value in multiset(ops); }
    assert |ops| == |rec.ops| by { assert |multiset(ops)| == |multiset(rec.ops)|; }
    res := SeedResult(ok, |ops|, offending);
  }

  lemma VerdictFacts(buggy: bool, kinds: seq<bool>, maxSteps: int, run: seq<Choice>, ops: seq<Op>)
    requires |kinds| == INFLIGHT && RunOf(Primed(buggy, MAX_REQS, kinds), Budget(maxSteps), run)
    requires ops == Exec(Primed(buggy, MAX_REQS, kinds), run).rec.ops
    ensures WellFormed(multiset(ops)) && |ops| <= MAX_REQS
    ensures !buggy && (maxSteps < 3 || maxSteps >= 2 * MAX_REQS) ==> Linearizable(RegModel(), multiset(ops))
    ensures maxSteps >= 2 * MAX_REQS ==> |ops| == MAX_REQS
  {
    var log := RunFacts(buggy, MAX_REQS, kinds, run);
    var w := Exec(Primed(buggy, MAX_REQS, kinds), run);
    forall op | op in multiset(ops) ensures op.call < op.ret {
      assert op in ops;
      assert OpRecorded(w.driver, w.rec, op);
    }
    EveryRunEnds(buggy, MAX_REQS, kinds, run);
    if !buggy && (maxSteps < 3 || maxSteps >= 2 * MAX_REQS) {
      SafeBudget(MAX_REQS, Budget(maxSteps), kinds, run);
    }
  }

  /** The gate: 2 for an empty workload, 0 when every seed passes, 1 at the first that fails. The
      verdicts are those of the seeds from `start` on, one each and in order. A correct primary
      under a sufficient budget always passes. */
  method Gate(start: int, seeds: int, maxSteps: int, buggy: bool)
    returns (code: int, verdicts: seq<bool>, ghost kinds: seq<seq<bool>>, ghost runs: seq<seq<Choice>>)
    ensures code == 2 <==> seeds <= 0
    ensures code == 0 <==> seeds > 0 && |verdicts| == seeds && forall i :: 0 <= i < seeds ==> verdicts[i]
    ensures code == 1 <==> verdicts != [] && !verdicts[|verdicts| - 1]
    ensures 0 <= code <= 2 && forall i :: 0 <= i < |verdicts| - 1 ==> verdicts[i]
    ensures |kinds| == |runs| == |verdicts| <= Budget(seeds)
    ensures forall i :: 0 <= i < |verdicts| ==> SeedRun(start + i, maxSteps, buggy, kinds[i], runs[i])
    ensures forall i :: 0 <= i < |verdicts| ==> (verdicts[i] <==> Passes(buggy, kinds[i], runs[i]))
    ensures seeds > 0 && !buggy && maxSteps >= 80 ==> code == 0
  {
    hide SeedRun, Linearizable, Primed, Exec, DrawIsRead, StateAfter;
    verdicts, kinds, runs := [], [], [];
    if seeds <= 0 { return 2, [], [], []; }
    for i := 0 to seeds
      invariant |verdicts| == |kinds| == |runs| == i && forall k :: 0 <= k < i ==> verdicts[k]
      invariant forall k :: 0 <= k < i ==> SeedRun(start + k, maxSteps, buggy, kinds[k], runs[k])
      invariant forall k :: 0 <= k < i ==> (verdicts[k] <==> Passes(buggy, kinds[k], runs[k]))
    {
      var res;
      ghost var ks, run, history;
      res, ks, run, history := RunSeed(start + i, maxSteps, buggy);
      verdicts, kinds, runs := verdicts + [res.ok], kinds + [ks], runs + [run];
      if !res.ok {
        assert !verdicts[i];
        return 1, verdicts, kinds, runs;
      }
    }
    return 0, verdicts, kinds, runs;
  }
}
