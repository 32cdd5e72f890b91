/** The TCP fault proxy as a machine of interleaved steps: connection handlers, the two pumps of
    each connection, and the control calls that cut, heal and close. */
module FaultProxy {

  import opened Bytes

  type Chunk = b: bytes | b != [] witness [0]

  // ---------------------------------------------------------------------------
  // One connection
  // ---------------------------------------------------------------------------

  /** Where a pump's loop stands. `Holding` is a chunk read and not yet forwarded; `last` when
      the read also reported an error that ends the loop. */
  datatype Pump = Top | Check | Reading | Holding(chunk: Chunk, last: bool) | Done

  /** Where the goroutine serving an accepted connection stands. */
  datatype Handler = Accepted | Dialing | Dialed | Piping(up: Pump, down: Pump) | Ending(stage: nat) | Gone

  datatype Direction = Up | Down

  /** A proxied connection: its two sockets and the bytes each peer has been sent. */
  datatype Conn = Conn(h: Handler, clientClosed: bool, serverClosed: bool, toServer: bytes, toClient: bytes)

  datatype ReadResult = Data(chunk: Chunk, last: bool) | Timeout | Failed
  datatype WriteResult = Sent | Broken(accepted: nat)

  datatype Act =
    | Admit
    | Dial(ok: bool)
    | Track
    | CheckClosed(dir: Direction)
    | CheckCut(dir: Direction)
    | Read(dir: Direction, result: ReadResult)
    | Interrupt(dir: Direction)
    | DropChunk(dir: Direction)
    | WriteChunk(dir: Direction, outcome: WriteResult)
    | Unwind

  function PumpOf(h: Handler, dir: Direction): Pump
    requires h.Piping?
  {
    if dir.Up? then h.up else h.down
  }

  function WithPump(k: Conn, dir: Direction, p: Pump): Conn
    requires k.h.Piping?
  {
    k.(h := if dir.Up? then k.h.(up := p) else k.h.(down := p))
  }

  /** Whether the socket a pump writes to is closed. */
  predicate SinkClosed(k: Conn, dir: Direction)
  {
    if dir.Up? then k.serverClosed else k.clientClosed
  }

  /** Whether the socket a pump reads from is closed. */
  predicate SourceClosed(k: Conn, dir: Direction)
  {
    if dir.Up? then k.clientClosed else k.serverClosed
  }

  function ToPeer(k: Conn, dir: Direction): bytes
  {
    if dir.Up? then k.toServer else k.toClient
  }

  function Deliver(k: Conn, dir: Direction, data: bytes): Conn
  {
    if dir.Up? then k.(toServer := k.toServer + data) else k.(toClient := k.toClient + data)
  }

  /** A closed socket yields nothing and accepts nothing; a write that fails has accepted a prefix of
      the chunk. */
  predicate Ready(k: Conn, closed: bool, act: Act)
  {
    match act
    case Admit => k.h == Accepted
    case Dial(_) => k.h == Dialing
    case Track => k.h == Dialed
    case CheckClosed(dir) => k.h.Piping? && PumpOf(k.h, dir) == Top
    case CheckCut(dir) => k.h.Piping? && PumpOf(k.h, dir) == Check
    case Read(dir, result) => k.h.Piping? && PumpOf(k.h, dir) == Reading && (SourceClosed(k, dir) ==> result == Failed)
    case Interrupt(dir) => k.h.Piping? && PumpOf(k.h, dir).Holding? && closed
    case DropChunk(dir) => k.h.Piping? && PumpOf(k.h, dir).Holding?
    case WriteChunk(dir, outcome) =>
      k.h.Piping? && PumpOf(k.h, dir).Holding? &&
      (SinkClosed(k, dir) ==> outcome == Broken(0)) &&
      (outcome.Broken? ==> outcome.accepted <= |PumpOf(k.h, dir).chunk|)
    case Unwind => k.h == Piping(Done, Done) || k.h.Ending?
  }

  /** One step of a connection's handler or of one of its pumps. */
  function Act1(k: Conn, partitioned: bool, closed: bool, act: Act): Conn
    requires Ready(k, closed, act)
  {
    match act
    case Admit => if partitioned then k.(h := Gone, clientClosed := true) else k.(h := Dialing)
    case Dial(ok) => if ok then k.(h := Dialed) else k.(h := Gone, clientClosed := true)
    case Track => k.(h := Piping(Top, Top))
    case CheckClosed(dir) => WithPump(k, dir, if closed then Done else Check)
    case CheckCut(dir) => WithPump(k, dir, if partitioned then Done else Reading)
    case Read(dir, result) =>
      WithPump(k, dir, if result.Data? then Holding(result.chunk, result.last) else if result.Timeout? then Top else Done)
    case Interrupt(dir) => WithPump(k, dir, Done)
    case DropChunk(dir) => WithPump(k, dir, Top)
    case WriteChunk(dir, outcome) =>
      var p := PumpOf(k.h, dir);
      if outcome.Sent? then WithPump(Deliver(k, dir, p.chunk), dir, if p.last then Done else Top)
      else WithPump(Deliver(k, dir, p.chunk[..outcome.accepted]), dir, Done)
    case Unwind =>
      if k.h.Piping? then k.(h := Ending(0))
      else if k.h.stage == 0 then k.(h := Ending(1), serverClosed := true)
      else if k.h.stage == 1 then k.(h := Ending(2), clientClosed := true)
      else k.(h := Gone)
  }

  /** A pump that has passed the partition check may still write. */
  predicate Armed(k: Conn)
  {
    k.h.Piping? && (k.h.up == Reading || k.h.up.Holding? || k.h.down == Reading || k.h.down.Holding?)
  }

  predicate Severed(k: Conn)
  {
    k.clientClosed && k.serverClosed
  }

  predicate Live(h: Handler)
  {
    h.Piping? || h.Ending?
  }

  /** The deferred untrack runs last, after both sockets are closed. */
  predicate Untracks(h: Handler, act: Act)
  {
    act.Unwind? && h.Ending? && h.stage >= 2
  }

  /** A connection as a control call can leave it: sockets only ever close. */
  predicate Later(k: Conn, k': Conn)
  {
    (k.clientClosed ==> k'.clientClosed) && (k.serverClosed ==> k'.serverClosed)
  }

  lemma ActArms(k: Conn, partitioned: bool, closed: bool, act: Act)
    requires Ready(k, closed, act)
    ensures Later(k, Act1(k, partitioned, closed, act))
    ensures partitioned && Armed(Act1(k, partitioned, closed, act)) ==> Armed(k)
  {
  }

  lemma ActTracks(k: Conn, partitioned: bool, closed: bool, act: Act)
    requires Ready(k, closed, act)
    ensures Live(Act1(k, partitioned, closed, act).h) <==> act.Track? || (Live(k.h) && !Untracks(k.h, act))
  {
  }

  // ---------------------------------------------------------------------------
  // The proxy
  // ---------------------------------------------------------------------------

  /** A call that severs connections: Partition (`cut`) or Close. `clean` while no Heal has
      happened since it began; `half` when the client socket of the next one is closed. */
  datatype Phase = Begun | Severing(rest: seq<nat>, half: bool) | Returned
  datatype Job = Job(cut: bool, clean: bool, phase: Phase)

  datatype Proxy = Proxy(
    conns: map<nat, Conn>,
    tracked: set<nat>,
    partitioned: bool,
    closed: bool,
    listenerDown: bool,
    jobs: map<nat, Job>)

  function NewProxy(partitioned: bool): Proxy
  {
    Proxy(map[], {}, partitioned, false, false, map[])
  }

  datatype Step =
    | Accept(c: nat)
    | On(c: nat, act: Act)
    | Partition(j: nat)
    | Close(j: nat)
    | StopListening
    | Snapshot(j: nat, order: seq<nat>)
    | SeverClient(j: nat)
    | SeverServer(j: nat)
    | Finish(j: nat)
    | Heal

  ghost predicate Can(s: Proxy, step: Step)
  {
    match step
    case Accept(c) => c !in s.conns && !s.listenerDown
    case On(c, act) => c in s.conns && Ready(s.conns[c], s.closed, act)
    case Partition(j) => j !in s.jobs
    case Close(j) => j !in s.jobs && !s.closed
    case StopListening => s.closed
    case Snapshot(j, order) =>
      j in s.jobs && s.jobs[j].phase == Begun && (!s.jobs[j].cut ==> s.listenerDown) &&
      forall c :: c in order <==> c in s.tracked
    case SeverClient(j) => j in s.jobs && s.jobs[j].phase.Severing? && s.jobs[j].phase.rest != [] && !s.jobs[j].phase.half
    case SeverServer(j) => j in s.jobs && s.jobs[j].phase.Severing? && s.jobs[j].phase.rest != [] && s.jobs[j].phase.half
    case Finish(j) =>
      j in s.jobs && s.jobs[j].phase == Severing([], false) &&
      (!s.jobs[j].cut ==> AllGone(s.conns))
    case Heal => true
  }

  predicate AllGone(conns: map<nat, Conn>)
  {
    forall c :: c in conns ==> conns[c].h == Gone
  }

  function InPhase(s: Proxy, j: nat, phase: Phase): map<nat, Job>
    requires j in s.jobs
  {
    s.jobs[j := s.jobs[j].(phase := phase)]
  }

  function CloseSocket(conns: map<nat, Conn>, c: nat, client: bool): map<nat, Conn>
  {
    if c !in conns then conns
    else conns[c := if client then conns[c].(clientClosed := true) else conns[c].(serverClosed := true)]
  }

  function Tracking(tracked: set<nat>, c: nat, h: Handler, act: Act): set<nat>
  {
    if act.Track? then tracked + {c}
    else if Untracks(h, act) then tracked - {c}
    else tracked
  }

  ghost function Next(s: Proxy, step: Step): Proxy
    requires Can(s, step)
  {
    match step
    case Accept(c) => s.(conns := s.conns[c := Conn(Accepted, false, false, [], [])])
    case On(c, act) =>
      s.(conns := s.conns[c := Act1(s.conns[c], s.partitioned, s.closed, act)],
      tracked := Tracking(s.tracked, c, s.conns[c].h, act))
    case Partition(j) => s.(partitioned := true, jobs := s.jobs[j := Job(true, true, Begun)])
    case Close(j) => s.(closed := true, jobs := s.jobs[j := Job(false, false, Begun)])
    case StopListening => s.(listenerDown := true)
    case Snapshot(j, order) => s.(jobs := InPhase(s, j, Severing(order, false)))
    case SeverClient(j) =>
      var rest := s.jobs[j].phase.rest;
      s.(conns := CloseSocket(s.conns, rest[0], true), jobs := InPhase(s, j, Severing(rest, true)))
    case SeverServer(j) =>
      var rest := s.jobs[j].phase.rest;
      s.(conns := CloseSocket(s.conns, rest[0], false), jobs := InPhase(s, j, Severing(rest[1..], false)))
    case Finish(j) => s.(jobs := InPhase(s, j, Returned))
    case Heal => s.(partitioned := false, jobs := map j | j in s.jobs :: s.jobs[j].(clean := false))
  }

  ghost predicate CanRun(s: Proxy, run: seq<Step>)
    decreases |run|
  {
    run == [] || (Can(s, run[0]) && CanRun(Next(s, run[0]), run[1..]))
  }

  ghost function After(s: Proxy, run: seq<Step>): Proxy
    requires CanRun(s, run)
    decreases |run|
  {
    if run == [] then s else After(Next(s, run[0]), run[1..])
  }

  ghost predicate Reachable(s: Proxy)
  {
    exists cut, run :: CanRun(NewProxy(cut), run) && After(NewProxy(cut), run) == s
  }

  // ---------------------------------------------------------------------------
  // Invariant
  // ---------------------------------------------------------------------------

  /** Exactly the connections between Track and the end of their handler are tracked. */
  ghost predicate TrackedOk(conns: map<nat, Conn>, tracked: set<nat>)
  {
    (forall c :: c in tracked ==> c in conns) &&
    forall c :: c in conns ==> (c in tracked <==> Live(conns[c].h))
  }

  ghost predicate AllSevered(conns: map<nat, Conn>)
  {
    forall c :: c in conns && Armed(conns[c]) ==> Severed(conns[c])
  }

  ghost predicate SeveringOk(conns: map<nat, Conn>, rest: seq<nat>, half: bool)
  {
    (forall c :: c in rest ==> c in conns) &&
    (half ==> rest != [] && conns[rest[0]].clientClosed) &&
    forall c :: c in conns && Armed(conns[c]) ==> c in rest || Severed(conns[c])
  }

  /** What a Partition has achieved at each phase, as long as nobody healed since it began. */
  ghost predicate JobOk(conns: map<nat, Conn>, partitioned: bool, job: Job)
  {
    job.cut && job.clean ==>
      partitioned &&
      (job.phase.Severing? ==> SeveringOk(conns, job.phase.rest, job.phase.half)) &&
      (job.phase.Returned? ==> AllSevered(conns))
  }

  ghost predicate JobsOk(s: Proxy)
  {
    forall j :: j in s.jobs ==> JobOk(s.conns, s.partitioned, s.jobs[j])
  }

  ghost predicate ProxyOk(s: Proxy)
  {
    TrackedOk(s.conns, s.tracked) && JobsOk(s)
  }

  /** Connections only ever appear, and sockets only ever close; while a cut is in force no pump
      gets past the partition check. */
  ghost predicate Advances(s: Proxy, conns: map<nat, Conn>)
  {
    && (forall c :: c in s.conns ==> c in conns && Later(s.conns[c], conns[c]))
    && (s.partitioned ==> forall c :: c in conns && Armed(conns[c]) ==> c in s.conns && Armed(s.conns[c]))
  }

  lemma StepAdvances(s: Proxy, step: Step)
    requires Can(s, step)
    ensures Advances(s, Next(s, step).conns)
  {
    hide Act1, Ready;
    if step.On? {
      ActArms(s.conns[step.c], s.partitioned, s.closed, step.act);
    }
  }

  lemma StepKeepsTracked(s: Proxy, step: Step)
    requires TrackedOk(s.conns, s.tracked) && Can(s, step)
    ensures TrackedOk(Next(s, step).conns, Next(s, step).tracked)
  {
    hide Act1, Ready, Untracks;
    if step.On? {
      ActTracks(s.conns[step.c], s.partitioned, s.closed, step.act);
    }
  }

  lemma JobFrame(s: Proxy, conns: map<nat, Conn>, job: Job)
    requires Advances(s, conns) && JobOk(s.conns, s.partitioned, job)
    ensures JobOk(conns, s.partitioned, job)
  {
  }

  /** A pump that could still write is tracked, so the snapshot has it. */
  lemma SnapshotCovers(s: Proxy, order: seq<nat>)
    requires TrackedOk(s.conns, s.tracked) && forall c :: c in order <==> c in s.tracked
    ensures SeveringOk(s.conns, order, false)
  {
  }

  lemma SeverOne(conns: map<nat, Conn>, rest: seq<nat>, half: bool)
    requires SeveringOk(conns, rest, half) && rest != []
    ensures !half ==> SeveringOk(CloseSocket(conns, rest[0], true), rest, true)
    ensures half ==> SeveringOk(CloseSocket(conns, rest[0], false), rest[1..], false)
  {
    var conns' := CloseSocket(conns, rest[0], !half);
    assert forall c :: c in conns ==> c in conns' && Later(conns[c], conns'[c]) && (Armed(conns'[c]) ==> Armed(conns[c]));
    assert forall c :: c in rest ==> c == rest[0] || c in rest[1..];
  }

  lemma StepKeepsJob(s: Proxy, step: Step, j: nat)
    requires ProxyOk(s) && Can(s, step) && j in Next(s, step).jobs
    ensures JobOk(Next(s, step).conns, Next(s, step).partitioned, Next(s, step).jobs[j])
  {
    hide Act1, Ready, SeveringOk, AllSevered, Advances, TrackedOk;
    var s' := Next(s, step);
    if j in s.jobs {
      assert JobOk(s.conns, s.partitioned, s.jobs[j]);
      StepAdvances(s, step);
      JobFrame(s, s'.conns, s.jobs[j]);
      var p := s.jobs[j].phase;
      if step.Snapshot? && step.j == j {
        SnapshotCovers(s, step.order);
      } else if (step.SeverClient? || step.SeverServer?) && step.j == j && s.jobs[j].cut && s.jobs[j].clean {
        SeverOne(s.conns, p.rest, p.half);
      } else if step.Finish? && step.j == j && s.jobs[j].cut && s.jobs[j].clean {
        assert AllSevered(s.conns) by { NoneLeft(s.conns); }
      }
    }
  }

  lemma NoneLeft(conns: map<nat, Conn>)
    requires SeveringOk(conns, [], false)
    ensures AllSevered(conns)
  {
  }

  lemma StepKeeps(s: Proxy, step: Step)
    requires ProxyOk(s) && Can(s, step)
    ensures ProxyOk(Next(s, step))
  {
    hide JobOk, TrackedOk, Next, Can;
    StepKeepsTracked(s, step);
    forall j | j in Next(s, step).jobs
      ensures JobOk(Next(s, step).conns, Next(s, step).partitioned, Next(s, step).jobs[j])
    {
      StepKeepsJob(s, step, j);
    }
  }

  lemma {:induction false} RunKeeps(s: Proxy, run: seq<Step>)
    requires ProxyOk(s) && CanRun(s, run)
    ensures ProxyOk(After(s, run))
    decreases |run|
  {
    hide ProxyOk, Next, Can;
    if run != [] {
      StepKeeps(s, run[0]);
      RunKeeps(Next(s, run[0]), run[1..]);
    }
  }

  lemma ReachableOk(s: Proxy)
    requires Reachable(s)
    ensures ProxyOk(s)
  {
    var cut, run :| CanRun(NewProxy(cut), run) && After(NewProxy(cut), run) == s;
    RunKeeps(NewProxy(cut), run);
  }
}
