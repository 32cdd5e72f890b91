/** The advisory lock manager: its state and its critical sections, with the history
    variables its promises are stated over. */
module AdvisoryModel {

  import opened Options
  import opened Lists

  const DEFAULT_TTL := 30_000_000_000
  const EVENT_BUFFER := 16

  // ---------------------------------------------------------------------------
  // State
  // ---------------------------------------------------------------------------

  datatype LockEntry = LockEntry(holder: string, lockID: nat, expires: int)

  /** How a lease ended. */
  datatype Cause = Expiry | UnlockBy(holder: string)
  datatype Ending = Ending(at: int, cause: Cause)

  /** A lease granted, kept forever. Its position in the list is its lock id. */
  datatype Lease = Lease(resource: string, holder: string, start: int, expires: int, ending: Option<Ending>)

  datatype Table = Table(locks: map<string, LockEntry>, leases: seq<Lease>)

  datatype EventKind = Acquired | Released
  datatype Event = Event(resource: string, holder: string, kind: EventKind)

  /** A subscriber's channel, with what its reader has taken (`got`), how many events were
      dropped on it, and how long the event log was when it was created. */
  datatype Channel = Channel(prefix: string, since: nat, got: seq<Event>, buf: seq<Event>, dropped: nat, closed: bool)

  datatype Bus = Bus(subs: map<string, seq<nat>>, chans: map<nat, Channel>, log: seq<Event>, panicked: bool)

  /** Waiter channels: the ones registered per resource, and the ones closed. */
  datatype Queue = Queue(waiters: map<string, seq<nat>>, woken: set<nat>, panicked: bool)

  datatype Manager = Manager(table: Table, bus: Bus, queue: Queue)

  const NewManager := Manager(Table(map[], []), Bus(map[], map[], [], false), Queue(map[], {}, false))

  // ---------------------------------------------------------------------------
  // Events
  // ---------------------------------------------------------------------------

  /** A non-blocking send: dropped when the buffer is full. */
  function Offer(c: Channel, e: Event): Channel
  {
    if |c.buf| < EVENT_BUFFER then c.(buf := c.buf + [e]) else c.(dropped := c.dropped + 1)
  }

  ghost predicate Subscribed(subs: map<string, seq<nat>>, ch: nat, resource: string)
  {
    exists p :: p in subs && p <= resource && ch in subs[p]
  }

  ghost function Notify(b: Bus, e: Event): Bus
  {
    Bus(b.subs,
        map ch | ch in b.chans :: if Subscribed(b.subs, ch, e.resource) then Offer(b.chans[ch], e) else b.chans[ch],
        b.log + [e],
        b.panicked || exists ch :: ch in b.chans && Subscribed(b.subs, ch, e.resource) && b.chans[ch].closed)
  }

  function Subscribe(b: Bus, prefix: string, ch: nat): Bus
  {
    b.(subs := b.subs[prefix := (if prefix in b.subs then b.subs[prefix] else []) + [ch]],
       chans := b.chans[ch := Channel(prefix, |b.log|, [], [], 0, false)])
  }

  function Unsubscribe(b: Bus, prefix: string, ch: nat): Bus
    requires ch in b.chans
  {
    var subs' := if prefix in b.subs && ch in b.subs[prefix]
                 then b.subs[prefix := RemoveFirst(b.subs[prefix], ch)] else b.subs;
    b.(subs := subs', chans := b.chans[ch := b.chans[ch].(closed := true)],
       panicked := b.panicked || b.chans[ch].closed)
  }

  /** The reader takes the oldest buffered event. */
  function Receive(b: Bus, ch: nat): Bus
    requires ch in b.chans && b.chans[ch].buf != []
  {
    var c := b.chans[ch];
    b.(chans := b.chans[ch := c.(got := c.got + [c.buf[0]], buf := c.buf[1..])])
  }

  // ---------------------------------------------------------------------------
  // The lock table and the waiters
  // ---------------------------------------------------------------------------

  function Drop(t: Table, r: string, e: Ending): Table
    requires r in t.locks
  {
    var id := t.locks[r].lockID;
    Table(t.locks - {r}, if id < |t.leases| then t.leases[id := t.leases[id].(ending := Some(e))] else t.leases)
  }

  function Grant(t: Table, r: string, holder: string, ttl: int, now: int): Table
  {
    var expires := now + (if ttl <= 0 then DEFAULT_TTL else ttl);
    Table(t.locks[r := LockEntry(holder, |t.leases|, expires)],
          t.leases + [Lease(r, holder, now, expires, None)])
  }

  /** Closes every channel waiting for `r` and forgets them. */
  ghost function Wake(q: Queue, r: string): Queue
  {
    var chs := if r in q.waiters then q.waiters[r] else [];
    Queue(q.waiters - {r}, q.woken + (set ch | ch in chs),
          q.panicked || !NoRepeats(chs) || exists ch :: ch in chs && ch in q.woken)
  }

  function Park(q: Queue, r: string, ch: nat): Queue
  {
    q.(waiters := q.waiters[r := (if r in q.waiters then q.waiters[r] else []) + [ch]])
  }

  function Withdraw(q: Queue, r: string, ch: nat): Queue
  {
    if r in q.waiters && ch in q.waiters[r]
    then q.(waiters := q.waiters[r := RemoveFirst(q.waiters[r], ch)]) else q
  }

  // ---------------------------------------------------------------------------
  // Critical sections
  // ---------------------------------------------------------------------------

  /** Takes `r` out of the table and announces it. */
  ghost function Free(m: Manager, r: string, e: Ending): Manager
    requires r in m.table.locks
  {
    m.(table := Drop(m.table, r, e), bus := Notify(m.bus, Event(r, "", Released)))
  }

  ghost function Take(m: Manager, r: string, holder: string, ttl: int, now: int): Manager
  {
    m.(table := Grant(m.table, r, holder, ttl, now), bus := Notify(m.bus, Event(r, holder, Acquired)))
  }

  /** `t1` is the clock at the expiry test and `t2` at the grant. */
  ghost function TryLock(m: Manager, r: string, holder: string, ttl: int, t1: int, t2: int): (Manager, Option<nat>)
  {
    if r in m.table.locks && t1 < m.table.locks[r].expires then (m, None)
    else
      var m' := if r in m.table.locks then Free(m, r, Ending(t1, Expiry)) else m;
      (Take(m', r, holder, ttl, t2), Some(|m'.table.leases|))
  }

  /** The resource can be tried again: nothing is held, or what is held has lapsed. */
  predicate LooksFree(t: Table, r: string, now: int)
  {
    r !in t.locks || now > t.locks[r].expires
  }

  datatype UnlockResult = Ok | NotFound | NotOwner

  ghost function Unlock(m: Manager, r: string, holder: string, now: int): (Manager, UnlockResult)
  {
    if r !in m.table.locks then (m, NotFound)
    else if m.table.locks[r].holder != holder then (m, NotOwner)
    else
      var m' := Free(m, r, Ending(now, UnlockBy(holder)));
      (m'.(queue := Wake(m'.queue, r)), Ok)
  }

  predicate Lapsed(t: Table, r: string, now: int)
  {
    r in t.locks && now > t.locks[r].expires
  }

  ghost function SweepOne(m: Manager, r: string, now: int): Manager
    requires r in m.table.locks
  {
    var m' := Free(m, r, Ending(now, Expiry));
    m'.(queue := Wake(m'.queue, r))
  }

  /** Sweeps the resources of `order` one after the other; those not lapsed are left alone. */
  ghost function Sweep(m: Manager, now: int, order: seq<string>): Manager
    decreases |order|
  {
    if order == [] then m
    else
      var m' := if Lapsed(m.table, order[0], now) then SweepOne(m, order[0], now) else m;
      Sweep(m', now, order[1..])
  }

  // ---------------------------------------------------------------------------
  // The whole system
  // ---------------------------------------------------------------------------

  /** Where a call to lock stands. */
  datatype Pc = Trying | Checking | Parked(ch: nat) | Retrying | Returned(lockID: Option<nat>)

  /** A call: `blocking` for lock, not for the one-shot attempt. */
  datatype Call = Call(resource: string, holder: string, ttl: int, blocking: bool, pc: Pc)

  datatype System = System(m: Manager, calls: map<nat, Call>, clock: int, nextCh: nat)

  datatype Step =
    | Begin(id: nat, call: Call)
    | Try(id: nat, t1: int, t2: int)
    | Check(id: nat, now: int)
    | Resume(id: nat)
    | Cancel(id: nat)
    | Release(resource: string, holder: string, now: int)
    | Tick(now: int, order: seq<string>)
    | Watch(prefix: string)
    | Unwatch(ch: nat)
    | Read(ch: nat)

  ghost predicate Covers(t: Table, order: seq<string>)
  {
    forall r :: r in t.locks ==> r in order
  }

  ghost predicate Can(s: System, step: Step)
  {
    match step
    case Begin(id, call) => id !in s.calls && call.pc == Trying
    case Try(id, t1, t2) => id in s.calls && s.calls[id].pc in {Trying, Retrying} && s.clock <= t1 <= t2
    case Check(id, now) => id in s.calls && s.calls[id].pc == Checking && s.clock <= now
    case Resume(id) => id in s.calls && s.calls[id].pc.Parked? && s.calls[id].pc.ch in s.m.queue.woken
    case Cancel(id) => id in s.calls && s.calls[id].pc.Parked?
    case Release(_, _, now) => s.clock <= now
    case Tick(now, order) => s.clock <= now && Covers(s.m.table, order)
    case Watch(_) => true
    case Unwatch(ch) => ch in s.m.bus.chans && !s.m.bus.chans[ch].closed
    case Read(ch) => ch in s.m.bus.chans && s.m.bus.chans[ch].buf != []
  }

  ghost function Goto(s: System, id: nat, pc: Pc): map<nat, Call>
    requires id in s.calls
  {
    s.calls[id := s.calls[id].(pc := pc)]
  }

  ghost function Next(s: System, step: Step): System
    requires Can(s, step)
  {
    match step
    case Begin(id, call) => s.(calls := s.calls[id := call])
    case Try(id, t1, t2) =>
      var c := s.calls[id];
      var (m, got) := TryLock(s.m, c.resource, c.holder, c.ttl, t1, t2);
      var pc := if got.None? && c.blocking && c.pc == Trying then Checking else Returned(got);
      System(m, Goto(s, id, pc), t2, s.nextCh)
    case Check(id, now) =>
      var r := s.calls[id].resource;
      if LooksFree(s.m.table, r, now) then s.(calls := Goto(s, id, Retrying), clock := now)
      else System(s.m.(queue := Park(s.m.queue, r, s.nextCh)), Goto(s, id, Parked(s.nextCh)), now, s.nextCh + 1)
    case Resume(id) => s.(calls := Goto(s, id, Checking))
    case Cancel(id) =>
      var c := s.calls[id];
      System(s.m.(queue := Withdraw(s.m.queue, c.resource, c.pc.ch)), Goto(s, id, Returned(None)), s.clock, s.nextCh)
    case Release(r, holder, now) => s.(m := Unlock(s.m, r, holder, now).0, clock := now)
    case Tick(now, order) => s.(m := Sweep(s.m, now, order), clock := now)
    case Watch(prefix) => s.(m := s.m.(bus := Subscribe(s.m.bus, prefix, s.nextCh)), nextCh := s.nextCh + 1)
    case Unwatch(ch) => s.(m := s.m.(bus := Unsubscribe(s.m.bus, s.m.bus.chans[ch].prefix, ch)))
    case Read(ch) => s.(m := s.m.(bus := Receive(s.m.bus, ch)))
  }

  const Initial := System(NewManager, map[], 0, 0)

  ghost predicate CanRun(s: System, run: seq<Step>)
    decreases |run|
  {
    run == [] || (Can(s, run[0]) && CanRun(Next(s, run[0]), run[1..]))
  }

  ghost function After(s: System, run: seq<Step>): System
    requires CanRun(s, run)
    decreases |run|
  {
    if run == [] then s else After(Next(s, run[0]), run[1..])
  }
}
