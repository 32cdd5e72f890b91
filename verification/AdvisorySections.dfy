/** Each critical section in terms of the lock table's entries, the waiting channels and the
    events announced. */
module AdvisorySections {
  import opened Options
  import opened AdvisoryModel
  import opened AdvisoryInvariants
  import opened AdvisoryTheorems

  /** An attempt fails exactly while an unexpired lease is in the table. Otherwise it is granted a
      new lease of the length asked for, 30 s when none was; a lapsed entry is released first. */
  lemma TryExactly(s: System, id: nat, t1: int, t2: int)
    requires Can(s, Try(id, t1, t2))
    ensures var s', c, t := Next(s, Try(id, t1, t2)), s.calls[id], s.m.table;
            var held := c.resource in t.locks && t1 < t.locks[c.resource].expires;
            && (held ==> s'.m == s.m && s'.calls[id].pc == if c.blocking && c.pc == Trying then Checking else Returned(None))
            && (!held ==> s'.calls[id].pc == Returned(Some(|t.leases|)) && GrantedTo(s.m, s'.m, c, t2))
  {
    hide Notify;
    var c, b := s.calls[id], s.m.bus;
    NotifyLogs(b, Event(c.resource, "", Released));
    NotifyLogs(b, Event(c.resource, c.holder, Acquired));
    NotifyLogs(Notify(b, Event(c.resource, "", Released)), Event(c.resource, c.holder, Acquired));
  }

  /** The table has one lease more, in the caller's name from `now` on, and it is announced. */
  ghost predicate GrantedTo(m: Manager, m': Manager, c: Call, now: int)
  {
    var n, expires := |m.table.leases|, now + if c.ttl <= 0 then 30_000_000_000 else c.ttl;
    var released := if c.resource in m.table.locks then [Event(c.resource, "", Released)] else [];
    && m'.table.locks == m.table.locks[c.resource := LockEntry(c.holder, n, expires)]
    && |m'.table.leases| == n + 1 && m'.table.leases[n] == Lease(c.resource, c.holder, now, expires, None)
    && m'.bus.log == m.bus.log + released + [Event(c.resource, c.holder, Acquired)]
    && m'.queue == m.queue
  }

  lemma NotifyLogs(b: Bus, e: Event)
    ensures Notify(b, e).log == b.log + [e]
  {
  }

  /** An unlock takes effect exactly when the table has the resource in the caller's name: the entry
      goes, the release is announced once and every waiting channel of the resource is closed. */
  lemma ReleaseExactly(s: System, r: string, holder: string, now: int)
    requires Can(s, Release(r, holder, now))
    ensures var m, m' := s.m, Next(s, Release(r, holder, now)).m;
            if r in m.table.locks && m.table.locks[r].holder == holder
            then && m'.table.locks == m.table.locks - {r}
                 && m'.bus.log == m.bus.log + [Event(r, "", Released)]
                 && m'.queue.waiters == m.queue.waiters - {r}
                 && m'.queue.woken == m.queue.woken + if r in m.queue.waiters then (set ch | ch in m.queue.waiters[r]) else {}
            else m' == m
  {
    hide Notify;
    NotifyLogs(s.m.bus, Event(r, "", Released));
  }

  /** A sweep keeps exactly the entries its time has not passed, announces one release for each
      entry it removes, and closes exactly the channels waiting for those. */
  lemma TickExactly(s: System, now: int, order: seq<string>)
    requires Can(s, Tick(now, order))
    ensures var m, m' := s.m, Next(s, Tick(now, order)).m;
            && m'.table.locks == (map r | r in m.table.locks && now <= m.table.locks[r].expires :: m.table.locks[r])
            && (forall r :: Of(m'.bus.log, r) == Of(m.bus.log, r) +
                              if r in m.table.locks && now > m.table.locks[r].expires then [Event(r, "", Released)] else [])
            && m'.queue.waiters == (map r | r in m.queue.waiters && !Lapsed(m.table, r, now) :: m.queue.waiters[r])
            && (forall ch :: ch in m'.queue.woken <==> ch in m.queue.woken || WaitsBehindLapsed(m, now, ch))
  {
    hide Sweep, Of;
    SweepRemoves(s.m, now, order);
    SweepQueue(s.m, now, order);
    forall r
      ensures Of(Sweep(s.m, now, order).bus.log, r) == Of(s.m.bus.log, r) +
                if r in s.m.table.locks && now > s.m.table.locks[r].expires then [Event(r, "", Released)] else []
    {
      SweepAnnounces(s.m, now, order, r);
    }
    forall ch ensures WaitsBehindLapsed(s.m, now, ch) <==> WokenBy(s.m, now, order, ch) {
      assert forall r :: Lapsed(s.m.table, r, now) ==> r in order;
    }
  }

  ghost predicate WaitsBehindLapsed(m: Manager, now: int, ch: nat)
  {
    exists r :: r in m.table.locks && now > m.table.locks[r].expires && r in m.queue.waiters && ch in m.queue.waiters[r]
  }

  ghost predicate WokenBy(m: Manager, now: int, order: seq<string>, ch: nat)
  {
    exists r :: r in order && Lapsed(m.table, r, now) && r in m.queue.waiters && ch in m.queue.waiters[r]
  }

  lemma {:induction false} SweepAnnounces(m: Manager, now: int, order: seq<string>, r: string)
    ensures Of(Sweep(m, now, order).bus.log, r) == Of(m.bus.log, r) +
              if r in order && Lapsed(m.table, r, now) then [Event(r, "", Released)] else []
    decreases |order|
  {
    hide Notify, Wake;
    if order != [] {
      var m' := if Lapsed(m.table, order[0], now) then SweepOne(m, order[0], now) else m;
      SweepAnnounces(m', now, order[1..], r);
      NotifyLogs(m.bus, Event(order[0], "", Released));
      assert (m.bus.log + [Event(order[0], "", Released)])[..|m.bus.log|] == m.bus.log;
    }
  }

  lemma {:induction false} SweepQueue(m: Manager, now: int, order: seq<string>)
    ensures Sweep(m, now, order).queue.waiters ==
              (map r | r in m.queue.waiters && !(r in order && Lapsed(m.table, r, now)) :: m.queue.waiters[r])
    ensures forall ch :: ch in Sweep(m, now, order).queue.woken <==> ch in m.queue.woken || WokenBy(m, now, order, ch)
    decreases |order|
  {
    hide Notify;
    if order != [] {
      var m' := if Lapsed(m.table, order[0], now) then SweepOne(m, order[0], now) else m;
      SweepQueue(m', now, order[1..]);
      forall ch
        ensures ch in m'.queue.woken || WokenBy(m', now, order[1..], ch) <==>
                ch in m.queue.woken || WokenBy(m, now, order, ch)
      {
        WokenByFirst(m, now, order, ch);
      }
    }
  }

  lemma WokenByFirst(m: Manager, now: int, order: seq<string>, ch: nat)
    requires order != []
    ensures var m' := if Lapsed(m.table, order[0], now) then SweepOne(m, order[0], now) else m;
            ch in m'.queue.woken || WokenBy(m', now, order[1..], ch) <==> ch in m.queue.woken || WokenBy(m, now, order, ch)
  {
    hide Notify;
    var m' := if Lapsed(m.table, order[0], now) then SweepOne(m, order[0], now) else m;
    if WokenBy(m', now, order[1..], ch) {
      var r :| r in order[1..] && Lapsed(m'.table, r, now) && r in m'.queue.waiters && ch in m'.queue.waiters[r];
      assert r in order && Lapsed(m.table, r, now) && r in m.queue.waiters && ch in m.queue.waiters[r];
    }
    if WokenBy(m, now, order, ch) {
      var r :| r in order && Lapsed(m.table, r, now) && r in m.queue.waiters && ch in m.queue.waiters[r];
      if r != order[0] {
        assert r in order[1..] && Lapsed(m'.table, r, now) && r in m'.queue.waiters && ch in m'.queue.waiters[r];
      }
    }
  }

  /** On every run an announcement is buffered for each open subscriber with a matching prefix that
      has fewer than sixteen events waiting, counted as dropped for a full one, and seen by no other. */
  lemma AnnouncedExactly(run: seq<Step>, e: Event, ch: nat)
    requires CanRun(Initial, run) && ch in After(Initial, run).m.bus.chans
    ensures var b := After(Initial, run).m.bus;
            var c := b.chans[ch];
            Notify(b, e).chans[ch] ==
              if c.closed || !(c.prefix <= e.resource) then c
              else if |c.buf| < 16 then c.(buf := c.buf + [e])
              else c.(dropped := c.dropped + 1)
  {
    Reachable(run);
    var b := After(Initial, run).m.bus;
    SubscribedIs(b.subs, b.chans, ch, e.resource);
  }

  /** Subscribing opens an empty channel that listens to its prefix from now on; unsubscribing closes
      it, and nothing is announced to it any more; reading takes the oldest buffered event. */
  lemma SubscriberSteps(s: System, step: Step, e: Event)
    requires SystemOk(s) && Can(s, step) && (step.Watch? || step.Unwatch? || step.Read?)
    ensures var b, b' := s.m.bus, Next(s, step).m.bus;
            match step
            case Watch(prefix) => b'.chans == b.chans[s.nextCh := Channel(prefix, |b.log|, [], [], 0, false)] &&
                                  (Subscribed(b'.subs, s.nextCh, e.resource) <==> prefix <= e.resource)
            case Unwatch(ch) => b'.chans == b.chans[ch := b.chans[ch].(closed := true)] &&
                                !Subscribed(b'.subs, ch, e.resource)
            case Read(ch) =>
              var c := b.chans[ch];
              b'.subs == b.subs && b'.chans == b.chans[ch := c.(got := c.got + [c.buf[0]], buf := c.buf[1..])]
            case _ => true
  {
    StepKeeps(s, step);
    var b' := Next(s, step).m.bus;
    if step.Watch? {
      SubscribedIs(b'.subs, b'.chans, s.nextCh, e.resource);
    } else if step.Unwatch? {
      SubscribedIs(b'.subs, b'.chans, step.ch, e.resource);
    }
  }
}
