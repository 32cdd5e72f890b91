/** The lock manager's promises, over every run and every monotone clock. */
module AdvisoryTheorems {
  import opened Options
  import opened Lists
  import opened AdvisoryModel
  import opened AdvisoryInvariants
  import opened AdvisoryQueue

  // ---------------------------------------------------------------------------
  // Critical sections keep the invariant
  // ---------------------------------------------------------------------------

  /** The table, its log and the subscribers, at time `clock`. */
  ghost predicate CoreOk(m: Manager, clock: int, nextCh: nat)
  {
    TableOk(m.table, clock) && LogOk(m.bus.log, m.table.locks) && BusOk(m.bus, nextCh)
  }

  lemma FreeKeepsCore(m: Manager, clock: int, nextCh: nat, r: string, e: Ending)
    requires CoreOk(m, clock, nextCh) && r in m.table.locks && clock <= e.at
    requires e.at < m.table.locks[r].expires ==> e.cause == UnlockBy(m.table.locks[r].holder)
    ensures CoreOk(Free(m, r, e), e.at, nextCh) && Free(m, r, e).table.locks == m.table.locks - {r}
  {
    hide TableOk, BusOk, LogOk;
    DropKeepsTable(m.table, clock, r, e);
    NotifyKeepsBus(m.bus, nextCh, Event(r, "", Released));
    LogStep(m.bus.log, m.table.locks, Event(r, "", Released), m.table.locks - {r});
  }

  lemma TakeKeepsCore(m: Manager, clock: int, nextCh: nat, r: string, holder: string, ttl: int, now: int)
    requires CoreOk(m, clock, nextCh) && r !in m.table.locks && clock <= now
    ensures CoreOk(Take(m, r, holder, ttl, now), now, nextCh)
  {
    hide TableOk, BusOk, LogOk;
    GrantKeepsTable(m.table, clock, r, holder, ttl, now);
    NotifyKeepsBus(m.bus, nextCh, Event(r, holder, Acquired));
    LogStep(m.bus.log, m.table.locks, Event(r, holder, Acquired), Grant(m.table, r, holder, ttl, now).locks);
  }

  lemma TryLockKeepsCore(m: Manager, clock: int, nextCh: nat, r: string, holder: string, ttl: int, t1: int, t2: int)
    requires CoreOk(m, clock, nextCh) && clock <= t1 <= t2
    ensures var m' := TryLock(m, r, holder, ttl, t1, t2).0;
            CoreOk(m', t2, nextCh) && m'.queue == m.queue && forall k :: k in m.table.locks ==> k in m'.table.locks
  {
    hide TableOk, BusOk, LogOk, Notify;
    LaterTable(m.table, clock, t2);
    if !(r in m.table.locks && t1 < m.table.locks[r].expires) {
      if r in m.table.locks {
        FreeKeepsCore(m, clock, nextCh, r, Ending(t1, Expiry));
        TakeKeepsCore(Free(m, r, Ending(t1, Expiry)), t1, nextCh, r, holder, ttl, t2);
      } else {
        TakeKeepsCore(m, clock, nextCh, r, holder, ttl, t2);
      }
    }
  }

  /** Manager and parked calls together. */
  ghost predicate Good(m: Manager, calls: map<nat, Call>, clock: int, nextCh: nat)
  {
    CoreOk(m, clock, nextCh) && QueueOk(m.queue, calls, nextCh) && Behind(m.queue, m.table.locks)
  }

  /** Freeing a resource and waking its waiters in one critical section. */
  lemma FreeAndWake(m: Manager, calls: map<nat, Call>, clock: int, nextCh: nat, r: string, e: Ending)
    requires Good(m, calls, clock, nextCh) && r in m.table.locks && clock <= e.at
    requires e.at < m.table.locks[r].expires ==> e.cause == UnlockBy(m.table.locks[r].holder)
    ensures var m' := Free(m, r, e).(queue := Wake(m.queue, r));
            Good(m', calls, e.at, nextCh) && m'.table.locks == m.table.locks - {r} &&
            forall id :: id in calls && calls[id].pc.Parked? && calls[id].resource == r ==> calls[id].pc.ch in m'.queue.woken
  {
    hide CoreOk, QueueOk;
    FreeKeepsCore(m, clock, nextCh, r, e);
    WakeKeepsQueue(m.queue, calls, nextCh, r);
    CoreIgnoresQueue(Free(m, r, e), e.at, nextCh, Wake(m.queue, r));
  }

  lemma CoreIgnoresQueue(m: Manager, clock: int, nextCh: nat, q: Queue)
    requires CoreOk(m, clock, nextCh)
    ensures CoreOk(m.(queue := q), clock, nextCh)
  {
  }

  lemma UnlockKeeps(m: Manager, calls: map<nat, Call>, clock: int, nextCh: nat, r: string, holder: string, now: int)
    requires Good(m, calls, clock, nextCh) && clock <= now
    ensures Good(Unlock(m, r, holder, now).0, calls, now, nextCh)
  {
    hide QueueOk;
    LaterTable(m.table, clock, now);
    hide TableOk, BusOk, LogOk;
    if r in m.table.locks && m.table.locks[r].holder == holder {
      FreeAndWake(m, calls, clock, nextCh, r, Ending(now, UnlockBy(holder)));
    }
  }

  /** A sweep removes exactly the lapsed resources it visits. */
  lemma {:induction false} SweepRemoves(m: Manager, now: int, order: seq<string>)
    ensures forall r :: r in Sweep(m, now, order).table.locks <==> r in m.table.locks && !(Lapsed(m.table, r, now) && r in order)
    ensures forall r :: r in Sweep(m, now, order).table.locks ==> Sweep(m, now, order).table.locks[r] == m.table.locks[r]
    decreases |order|
  {
    hide Notify, Wake;
    if order != [] {
      var m' := if Lapsed(m.table, order[0], now) then SweepOne(m, order[0], now) else m;
      SweepRemoves(m', now, order[1..]);
    }
  }

  lemma {:induction false} SweepKeeps(m: Manager, calls: map<nat, Call>, clock: int, nextCh: nat, now: int, order: seq<string>)
    requires Good(m, calls, clock, nextCh) && clock <= now
    ensures Good(Sweep(m, now, order), calls, now, nextCh)
    decreases |order|
  {
    LaterTable(m.table, clock, now);
    hide TableOk, QueueOk, BusOk, LogOk, Notify, Wake, Behind;
    if order != [] {
      var m' := m;
      if Lapsed(m.table, order[0], now) {
        FreeAndWake(m, calls, clock, nextCh, order[0], Ending(now, Expiry));
        m' := SweepOne(m, order[0], now);
      }
      SweepKeeps(m', calls, now, nextCh, now, order[1..]);
    }
  }

  // ---------------------------------------------------------------------------
  // Every step and every run
  // ---------------------------------------------------------------------------

  ghost predicate SystemOk(s: System)
  {
    Good(s.m, s.calls, s.clock, s.nextCh)
  }

  lemma TryKeeps(s: System, id: nat, t1: int, t2: int)
    requires SystemOk(s) && Can(s, Try(id, t1, t2))
    ensures SystemOk(Next(s, Try(id, t1, t2)))
  {
    var c := s.calls[id];
    hide CoreOk, QueueOk, TryLock;
    TryLockKeepsCore(s.m, s.clock, s.nextCh, c.resource, c.holder, c.ttl, t1, t2);
    MoveKeepsQueue(s.m.queue, s.calls, s.nextCh, id, Next(s, Try(id, t1, t2)).calls[id]);
  }

  lemma CheckKeeps(s: System, id: nat, now: int)
    requires SystemOk(s) && Can(s, Check(id, now))
    ensures SystemOk(Next(s, Check(id, now)))
  {
    LaterTable(s.m.table, s.clock, now);
    BusLater(s.m.bus, s.nextCh);
    hide TableOk, QueueOk, BusOk, LogOk;
    ParkKeepsQueue(s.m.queue, s.calls, s.nextCh, id);
    MoveKeepsQueue(s.m.queue, s.calls, s.nextCh, id, s.calls[id].(pc := Retrying));
  }

  lemma BusLater(b: Bus, nextCh: nat)
    requires BusOk(b, nextCh)
    ensures BusOk(b, nextCh + 1)
  {
  }

  lemma QueueLater(q: Queue, calls: map<nat, Call>, nextCh: nat)
    requires QueueOk(q, calls, nextCh)
    ensures QueueOk(q, calls, nextCh + 1)
  {
    forall id | id in calls ensures CallOk(q, calls[id], nextCh + 1) {
      assert CallOk(q, calls[id], nextCh);
    }
  }

  lemma BusStepKeeps(s: System, step: Step)
    requires SystemOk(s) && Can(s, step) && (step.Watch? || step.Unwatch? || step.Read?)
    ensures SystemOk(Next(s, step))
  {
    QueueLater(s.m.queue, s.calls, s.nextCh);
    match step
    case Watch(prefix) => SubscribeKeepsBus(s.m.bus, prefix, s.nextCh);
    case Unwatch(ch) => UnsubscribeKeepsBus(s.m.bus, s.nextCh, ch);
    case Read(ch) => ReceiveKeepsBus(s.m.bus, s.nextCh, ch);
    hide TableOk, QueueOk, BusOk, InOrder, Held;
  }

  /** Every step keeps the invariant. */
  lemma StepKeeps(s: System, step: Step)
    requires SystemOk(s) && Can(s, step)
    ensures SystemOk(Next(s, step))
  {
    match step
    case Begin(id, call) =>
      hide CoreOk, QueueOk;
      MoveKeepsQueue(s.m.queue, s.calls, s.nextCh, id, call);
    case Try(id, t1, t2) => TryKeeps(s, id, t1, t2);
    case Check(id, now) => CheckKeeps(s, id, now);
    case Resume(id) =>
      hide CoreOk, QueueOk;
      MoveKeepsQueue(s.m.queue, s.calls, s.nextCh, id, s.calls[id].(pc := Checking));
    case Cancel(id) =>
      hide QueueOk, TableOk, LogOk, BusOk;
      WithdrawKeepsQueue(s.m.queue, s.calls, s.nextCh, id);
    case Release(r, holder, now) =>
      hide CoreOk, QueueOk, Unlock, Behind;
      UnlockKeeps(s.m, s.calls, s.clock, s.nextCh, r, holder, now);
    case Tick(now, order) =>
      hide CoreOk, QueueOk, Sweep, Behind;
      SweepKeeps(s.m, s.calls, s.clock, s.nextCh, now, order);
    case _ => BusStepKeeps(s, step);
  }

  lemma InitialOk()
    ensures SystemOk(Initial)
  {
  }

  lemma {:induction false} RunKeeps(s: System, run: seq<Step>)
    requires SystemOk(s) && CanRun(s, run)
    ensures SystemOk(After(s, run))
    decreases |run|
  {
    if run != [] {
      hide SystemOk, Next, Can;
      StepKeeps(s, run[0]);
      RunKeeps(Next(s, run[0]), run[1..]);
    }
  }

  lemma Reachable(run: seq<Step>)
    requires CanRun(Initial, run)
    ensures SystemOk(After(Initial, run))
  {
    InitialOk();
    RunKeeps(Initial, run);
  }

  // ---------------------------------------------------------------------------
  // The promises
  // ---------------------------------------------------------------------------

  /** On every run no two leases on one resource hold at the same time. */
  lemma LeasesNeverOverlap(run: seq<Step>, i: nat, j: nat, at: int)
    requires CanRun(Initial, run)
    requires var ls := After(Initial, run).m.table.leases;
             i < |ls| && j < |ls| && i != j && ls[i].resource == ls[j].resource && ls[i].start <= at < LeaseEnd(ls[i])
    ensures var l := After(Initial, run).m.table.leases[j]; !(l.start <= at < LeaseEnd(l))
  {
    Reachable(run);
    MutualExclusion(After(Initial, run).m.table, After(Initial, run).clock, i, j, at);
  }

  /** On every run a lease that ends before its expiry was unlocked in its holder's name. */
  lemma EarlyEndIsByHolder(run: seq<Step>, i: nat)
    requires CanRun(Initial, run) && i < |After(Initial, run).m.table.leases|
    ensures var l := After(Initial, run).m.table.leases[i];
            l.ending.Some? && l.ending.value.at < l.expires ==> l.ending.value.cause == UnlockBy(l.holder)
  {
    Reachable(run);
    var s := After(Initial, run);
    assert LeaseOk(s.m.table, s.clock, i);
  }

  /** On every run a parked call has been woken, or its channel is registered under its
      resource and that resource is in the lock table. */
  lemma NoLostWakeup(run: seq<Step>, id: nat)
    requires CanRun(Initial, run) && id in After(Initial, run).calls && After(Initial, run).calls[id].pc.Parked?
    ensures var s := After(Initial, run);
            var c := s.calls[id];
            c.pc.ch in s.m.queue.woken || (IsRegistered(s.m.queue, c.resource, c.pc.ch) && c.resource in s.m.table.locks)
  {
    Reachable(run);
    var s := After(Initial, run);
    assert CallOk(s.m.queue, s.calls[id], s.nextCh);
  }

  /** Just after a sweep, whoever still waits is behind a lease the sweep's time has not passed. */
  lemma SweptWaitersAreBehindLiveLeases(s: System, now: int, order: seq<string>, r: string)
    requires SystemOk(s) && Can(s, Tick(now, order))
    requires r in Next(s, Tick(now, order)).m.queue.waiters
    ensures var t := Next(s, Tick(now, order)).m.table; r in t.locks && now <= t.locks[r].expires
  {
    StepKeeps(s, Tick(now, order));
    SweepRemoves(s.m, now, order);
  }

  lemma {:induction false} SweepWakes(m: Manager, calls: map<nat, Call>, clock: int, nextCh: nat, now: int, order: seq<string>,
                                      r: string, id: nat)
    requires Good(m, calls, clock, nextCh) && clock <= now
    requires r in m.table.locks && r !in Sweep(m, now, order).table.locks
    requires id in calls && calls[id].pc.Parked? && calls[id].resource == r
    ensures calls[id].pc.ch in Sweep(m, now, order).queue.woken
    decreases |order|
  {
    if order != [] {
      hide Good, Notify, Wake;
      if Lapsed(m.table, order[0], now) {
        SweepOneKeeps(m, calls, clock, nextCh, order[0], now);
        var m' := SweepOne(m, order[0], now);
        if order[0] == r {
          WokenStays(m', now, order[1..], calls[id].pc.ch);
        } else {
          SweepWakes(m', calls, now, nextCh, now, order[1..], r, id);
        }
      } else {
        SweepWakes(m, calls, clock, nextCh, now, order[1..], r, id);
      }
    }
  }

  lemma SweepOneKeeps(m: Manager, calls: map<nat, Call>, clock: int, nextCh: nat, r: string, now: int)
    requires Good(m, calls, clock, nextCh) && clock <= now && Lapsed(m.table, r, now)
    ensures Good(SweepOne(m, r, now), calls, now, nextCh) && SweepOne(m, r, now).table.locks == m.table.locks - {r}
    ensures forall id :: id in calls && calls[id].pc.Parked? && calls[id].resource == r ==>
              calls[id].pc.ch in SweepOne(m, r, now).queue.woken
  {
    hide Good;
    FreeAndWake(m, calls, clock, nextCh, r, Ending(now, Expiry));
  }

  lemma {:induction false} WokenStays(m: Manager, now: int, order: seq<string>, ch: nat)
    requires ch in m.queue.woken
    ensures ch in Sweep(m, now, order).queue.woken
    decreases |order|
  {
    if order != [] {
      hide Notify;
      WokenStays(if Lapsed(m.table, order[0], now) then SweepOne(m, order[0], now) else m, now, order[1..], ch);
    }
  }

  /** Whenever a step takes a resource out of the table, everyone parked on it is woken by that step. */
  lemma FreedMeansWoken(s: System, step: Step, r: string, id: nat)
    requires SystemOk(s) && Can(s, step) && r in s.m.table.locks && r !in Next(s, step).m.table.locks
    requires id in s.calls && s.calls[id].pc.Parked? && s.calls[id].resource == r
    ensures s.calls[id].pc.ch in Next(s, step).m.queue.woken
  {
    match step
    case Release(res, holder, now) =>
      if res in s.m.table.locks && s.m.table.locks[res].holder == holder {
        hide Good, Notify;
        FreeAndWake(s.m, s.calls, s.clock, s.nextCh, res, Ending(now, UnlockBy(holder)));
      }
    case Tick(now, order) =>
      hide Good, Sweep;
      SweepWakes(s.m, s.calls, s.clock, s.nextCh, now, order, r, id);
    case Try(k, t1, t2) =>
      var c := s.calls[k];
      hide CoreOk;
      TryLockKeepsCore(s.m, s.clock, s.nextCh, c.resource, c.holder, c.ttl, t1, t2);
    case _ =>
  }

  /** On every run no channel is closed twice or sent to after it was closed. */
  lemma NoChannelPanics(run: seq<Step>)
    requires CanRun(Initial, run)
    ensures !After(Initial, run).m.bus.panicked && !After(Initial, run).m.queue.panicked
  {
    Reachable(run);
  }

  /** On every run, per resource, the event log alternates starting with an acquisition, and
      the resource is in the table exactly when its last event is an acquisition. */
  lemma EventsAlternate(run: seq<Step>, r: string)
    requires CanRun(Initial, run)
    ensures var s := After(Initial, run);
            var events := Of(s.m.bus.log, r);
            (forall k :: 0 <= k < |events| ==> (events[k].kind.Acquired? <==> k % 2 == 0)) &&
            (r in s.m.table.locks <==> |events| % 2 == 1)
  {
    Reachable(run);
    Alternates(After(Initial, run).m.bus.log, r);
  }

  /** On every run a subscriber has seen, in order, a part of the matching events since it
      subscribed, has at most sixteen buffered, and while it is subscribed everything it has
      not seen was dropped on it. */
  lemma SubscribersSeeTheLog(run: seq<Step>, ch: nat)
    requires CanRun(Initial, run) && ch in After(Initial, run).m.bus.chans
    ensures var b := After(Initial, run).m.bus;
            var c := b.chans[ch];
            var due := Matching(b.log, c.since, c.prefix);
            Subsequence(c.got + c.buf, due) && |c.buf| <= EVENT_BUFFER &&
            (!c.closed ==> |c.got| + |c.buf| + c.dropped == |due|)
  {
    Reachable(run);
    assert Faithful(After(Initial, run).m.bus.log, After(Initial, run).m.bus.chans[ch]);
  }
}
