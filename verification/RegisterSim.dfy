/** The simulated scenario as a state machine: one primary, one client driver with
    several requests in flight, and a network that may deliver in any order. */
module RegisterSim {
  import opened Options
  import opened Porcupine
  import opened RegisterSpec

  datatype Message = Req(id: int, req: Request) | Ack(id: int, resp: Response)

  /** The recorder: `pending` holds operations between Begin and End. */
  datatype Invocation = Invocation(clientID: int, input: Request, call: int)
  datatype Recorder = Recorder(clock: int, ops: seq<Op>, pending: map<int, Invocation>, nextTok: int)

  datatype PendingOp = PendingOp(tok: int, isRead: bool, val: int)
  datatype Driver = Driver(pending: map<int, PendingOp>, nextReq: int, issued: int, maxReqs: int)

  /** The primary: its durable value, and the one before it (kept for the faulty read path). */
  datatype Primary = Primary(buggy: bool, disk: Option<int>, prev: Option<int>)

  datatype World = World(primary: Primary, driver: Driver, rec: Recorder, net: multiset<Message>)

  // ---------------------------------------------------------------------------
  // The actors
  // ---------------------------------------------------------------------------

  function Begin(r: Recorder, clientID: int, input: Request): Recorder
  {
    Recorder(r.clock + 1, r.ops, r.pending[r.nextTok := Invocation(clientID, input, r.clock + 1)], r.nextTok + 1)
  }

  function End(r: Recorder, tok: int, output: Response): Recorder
  {
    if tok !in r.pending then r.(clock := r.clock + 1)
    else
      var i := r.pending[tok];
      Recorder(r.clock + 1, r.ops + [Operation(i.clientID, i.input, output, i.call, r.clock + 1)],
               r.pending - {tok}, r.nextTok)
  }

  function Stored(p: Primary): int
  {
    if p.disk.None? then 0
    else if p.buggy && p.prev.Some? then p.prev.value
    else p.disk.value
  }

  function Apply(p: Primary, req: Request): (r: (Primary, Response))
  {
    match req
    case Write(v) => (Primary(p.buggy, Some(v), if p.disk.Some? then p.disk else p.prev), WriteAck)
    case Read => (p, ReadAck(Stored(p)))
  }

  function InputOf(o: PendingOp): Request
  {
    if o.isRead then Read else Write(o.val)
  }

  /** What the client records for an acknowledgement of operation `o`. */
  function OutputOf(o: PendingOp, resp: Response): Response
  {
    if o.isRead then ReadAck(if resp.ReadAck? then resp.val else 0) else WriteAck
  }

  function IssueNext(w: World, isRead: bool): World
  {
    var d := w.driver;
    if d.issued >= d.maxReqs then w
    else
      var o := PendingOp(w.rec.nextTok, isRead, if isRead then 0 else d.issued + 1);
      World(w.primary,
            Driver(d.pending[d.nextReq := o], d.nextReq + 1, d.issued + 1, d.maxReqs),
            Begin(w.rec, d.nextReq, InputOf(o)),
            w.net + multiset{Req(d.nextReq, InputOf(o))})
  }

  function PrimaryReceive(w: World, id: int, req: Request): World
  {
    var (p, resp) := Apply(w.primary, req);
    w.(primary := p, net := w.net + multiset{Ack(id, resp)})
  }

  /** The driver closes the operation's window, before it issues the next request. */
  function Complete(w: World, id: int, resp: Response): World
    requires id in w.driver.pending
  {
    var o := w.driver.pending[id];
    w.(driver := w.driver.(pending := w.driver.pending - {id}),
       rec := End(w.rec, o.tok, OutputOf(o, resp)))
  }

  function ClientReceive(w: World, id: int, resp: Response, isRead: bool): World
  {
    if id !in w.driver.pending then w else IssueNext(Complete(w, id, resp), isRead)
  }

  /** One scheduler step: some message in flight is delivered. The flag is the kind of
      request the driver's generator would pick next. */
  datatype Choice = Choice(msg: Message, isRead: bool)

  function Deliver(w: World, c: Choice): World
  {
    var w' := w.(net := w.net - multiset{c.msg});
    match c.msg
    case Req(id, req) => PrimaryReceive(w', id, req)
    case Ack(id, resp) => ClientReceive(w', id, resp, c.isRead)
  }

  function Start(buggy: bool, maxReqs: nat): World
  {
    World(Primary(buggy, None, None), Driver(map[], 0, 0, maxReqs), Recorder(0, [], map[], 0), multiset{})
  }

  function IssueAll(w: World, kinds: seq<bool>): World
    decreases |kinds|
  {
    if kinds == [] then w else IssueNext(IssueAll(w, kinds[..|kinds| - 1]), kinds[|kinds| - 1])
  }

  /** The scenario with its first requests in flight. */
  function Primed(buggy: bool, maxReqs: nat, kinds: seq<bool>): World
  {
    IssueAll(Start(buggy, maxReqs), kinds)
  }

  ghost predicate Enabled(w: World, run: seq<Choice>)
    decreases |run|
  {
    run == [] || (run[0].msg in w.net && Enabled(Deliver(w, run[0]), run[1..]))
  }

  ghost function Exec(w: World, run: seq<Choice>): World
    decreases |run|
  {
    if run == [] then w else Exec(Deliver(w, run[0]), run[1..])
  }

  /** A run of at most `maxSteps` deliveries that stops early only on an empty network. */
  ghost predicate RunOf(w: World, maxSteps: nat, run: seq<Choice>)
  {
    Enabled(w, run) && |run| <= maxSteps && (|run| < maxSteps ==> Exec(w, run).net == multiset{})
  }

  // ---------------------------------------------------------------------------
  // The order in which the primary applied requests
  // ---------------------------------------------------------------------------

  /** A request the primary has applied, as number `idx`; `done` once its client has
      recorded the answer. */
  datatype Entry = Entry(idx: nat, op: Op, done: bool)

  datatype Log = Log(order: seq<int>, entries: map<int, Entry>)

  ghost predicate Indexed(log: Log)
  {
    && (forall i :: 0 <= i < |log.order| ==> log.order[i] in log.entries && log.entries[log.order[i]].idx == i)
    && (forall id :: id in log.entries ==>
          log.entries[id].idx < |log.order| && log.order[log.entries[id].idx] == id && log.entries[id].op.clientID == id)
  }

  /** The operation of an entry; an unanswered one is taken to return at `t`. */
  ghost function Closed(e: Entry, t: int): Op
  {
    if e.done then e.op else e.op.(ret := t)
  }

  /** The applied operations in the order of application. */
  ghost function Lin(log: Log, t: int): (lin: seq<Op>)
    requires Indexed(log)
    ensures |lin| == |log.order|
    ensures forall i :: 0 <= i < |lin| ==> lin[i] == Closed(log.entries[log.order[i]], t)
  {
    seq(|log.order|, i requires 0 <= i < |log.order| => Closed(log.entries[log.order[i]], t))
  }

  // ---------------------------------------------------------------------------
  // What holds in every reachable state
  // ---------------------------------------------------------------------------

  ghost predicate OpBooked(d: Driver, r: Recorder, id: int)
    requires id in d.pending && id in r.pending
  {
    var o, i := d.pending[id], r.pending[id];
    && 0 <= id < d.nextReq
    && o.tok == id && i.clientID == id && i.input == InputOf(o) && i.call <= r.clock
    && (!o.isRead ==> o.val == id + 1)
  }

  ghost predicate OpRecorded(d: Driver, r: Recorder, op: Op)
  {
    && op.clientID !in d.pending && 0 <= op.clientID < d.nextReq
    && op.call < op.ret <= r.clock
    && (op.input.Write? ==> op.input.val == op.clientID + 1)
  }

  /** The driver and the recorder agree, every issued request is pending or recorded,
      and no more than `primed` requests are pending. */
  ghost predicate Booked(d: Driver, r: Recorder, primed: nat)
  {
    && d.nextReq == d.issued == r.nextTok && 0 <= d.issued <= d.maxReqs
    && d.issued == (if primed + |r.ops| <= d.maxReqs then primed + |r.ops| else d.maxReqs)
    && d.pending.Keys == r.pending.Keys
    && |d.pending| + |r.ops| == d.issued
    && (forall id :: id in d.pending ==> OpBooked(d, r, id))
    && (forall i :: 0 <= i < |r.ops| ==> OpRecorded(d, r, r.ops[i]))
  }

  ghost predicate EntryOk(d: Driver, r: Recorder, log: Log, id: int)
    requires id in log.entries
  {
    var e := log.entries[id];
    && 0 <= id < d.nextReq
    && e.op.call <= r.clock
    && (e.op.input.Write? <==> e.op.output.WriteAck?)
    && (e.done ==> id !in d.pending && e.op in r.ops)
    && (!e.done ==> id in r.pending && e.op.input == r.pending[id].input && e.op.call == r.pending[id].call)
  }

  ghost predicate EntriesOk(d: Driver, r: Recorder, log: Log)
  {
    forall id :: id in log.entries ==> EntryOk(d, r, log, id)
  }

  /** Nothing in the log returned before an operation placed ahead of it was called. */
  ghost predicate InRealTime(log: Log)
  {
    forall a, b :: a in log.entries && b in log.entries &&
                   log.entries[a].idx < log.entries[b].idx && log.entries[b].done ==>
      log.entries[a].op.call <= log.entries[b].op.ret
  }

  ghost predicate IsRecorded(log: Log, op: Op)
  {
    op.clientID in log.entries && log.entries[op.clientID].done && log.entries[op.clientID].op == op
  }

  /** The history holds exactly the answered entries, each once. */
  ghost predicate HistoryOk(ops: seq<Op>, log: Log)
  {
    && (forall i :: 0 <= i < |ops| ==> IsRecorded(log, ops[i]))
    && (forall i, j :: 0 <= i < j < |ops| ==> ops[i].clientID != ops[j].clientID)
  }

  /** The message a pending request owns: its request until it is applied, then its answer. */
  ghost function Expected(r: Recorder, log: Log, id: int): Message
    requires id in r.pending
  {
    if id in log.entries then Ack(id, log.entries[id].op.output) else Req(id, r.pending[id].input)
  }

  ghost predicate NetOk(net: multiset<Message>, r: Recorder, log: Log)
  {
    forall m :: net[m] == (if m.id in r.pending && m == Expected(r, log, m.id) then 1 else 0)
  }

  /** The requests whose message has not reached the primary yet. */
  ghost function Waiting(pending: set<int>, applied: set<int>): set<int>
  {
    set id | id in pending && id !in applied
  }

  ghost predicate CountOk(d: Driver, log: Log)
  {
    |Waiting(d.pending.Keys, log.entries.Keys)| + |log.order| == d.issued
  }

  /** The applied operations explain each other and the durable value. */
  ghost predicate Sound(p: Primary, log: Log)
  {
    Indexed(log) && AllFit(0, Lin(log, 0)) &&
    After(0, Lin(log, 0)) == (if p.disk.Some? then p.disk.value else 0)
  }

  /** Everything but the values: holds for the faulty primary too. */
  ghost predicate Shape(w: World, primed: nat, log: Log)
  {
    && Booked(w.driver, w.rec, primed)
    && Indexed(log) && InRealTime(log) && HistoryOk(w.rec.ops, log) && EntriesOk(w.driver, w.rec, log)
    && NetOk(w.net, w.rec, log)
    && CountOk(w.driver, log)
  }
}
