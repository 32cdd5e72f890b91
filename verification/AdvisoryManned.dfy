/** No waiting channel outlives the call that waits on it. */
module AdvisoryManned {
  import opened Options
  import opened Lists
  import opened AdvisoryModel
  import opened AdvisoryQueue
  import opened AdvisoryTheorems
  import opened AdvisorySections

  ghost predicate Waits(calls: map<nat, Call>, id: nat, r: string, ch: nat)
  {
    id in calls && calls[id].pc == Parked(ch) && calls[id].resource == r
  }

  ghost predicate HasCaller(calls: map<nat, Call>, r: string, ch: nat)
  {
    exists id: nat :: Waits(calls, id, r, ch)
  }

  ghost predicate Manned(q: Queue, calls: map<nat, Call>)
  {
    forall r, ch: nat :: IsRegistered(q, r, ch) ==> HasCaller(calls, r, ch)
  }

  /** One call moves on; the channel it waited on, if any, is no longer registered. */
  lemma MoveManned(q: Queue, calls: map<nat, Call>, q': Queue, id: nat, c: Call)
    requires Manned(q, calls)
    requires forall r, ch: nat :: IsRegistered(q', r, ch) ==>
               || Waits(map[id := c], id, r, ch)
               || (IsRegistered(q, r, ch) && (id in calls ==> calls[id].pc != Parked(ch)))
    ensures Manned(q', calls[id := c])
  {
    forall r, ch: nat | IsRegistered(q', r, ch) ensures HasCaller(calls[id := c], r, ch) {
      if Waits(map[id := c], id, r, ch) {
        assert Waits(calls[id := c], id, r, ch);
      } else {
        assert HasCaller(calls, r, ch);
        var k: nat :| Waits(calls, k, r, ch);
        assert Waits(calls[id := c], k, r, ch);
      }
    }
  }

  lemma FewerManned(q: Queue, q': Queue, calls: map<nat, Call>)
    requires Manned(q, calls) && forall r :: r in q'.waiters ==> r in q.waiters && q'.waiters[r] == q.waiters[r]
    ensures Manned(q', calls)
  {
    forall r, ch: nat | IsRegistered(q', r, ch) ensures HasCaller(calls, r, ch) {
      assert IsRegistered(q, r, ch);
    }
  }

  lemma ParkManned(q: Queue, calls: map<nat, Call>, id: nat, ch: nat)
    requires Manned(q, calls) && id in calls && !calls[id].pc.Parked?
    ensures Manned(Park(q, calls[id].resource, ch), calls[id := calls[id].(pc := Parked(ch))])
  {
    MoveManned(q, calls, Park(q, calls[id].resource, ch), id, calls[id].(pc := Parked(ch)));
  }

  lemma WithdrawManned(q: Queue, calls: map<nat, Call>, nextCh: nat, id: nat)
    requires Manned(q, calls) && QueueOk(q, calls, nextCh) && id in calls && calls[id].pc.Parked?
    ensures Manned(Withdraw(q, calls[id].resource, calls[id].pc.ch), calls[id := calls[id].(pc := Returned(None))])
  {
    var r, ch := calls[id].resource, calls[id].pc.ch;
    var q' := Withdraw(q, r, ch);
    if r in q.waiters {
      RemoveFirstDistinct(q.waiters[r], ch);
    }
    forall k, c: nat | IsRegistered(q', k, c) ensures IsRegistered(q, k, c) && c != ch {
      assert IsRegistered(q, k, c);
      if c == ch {
        assert HasCaller(calls, k, c);
        var other: nat :| Waits(calls, other, k, c);
        assert SameChannel(calls[id], calls[other]);
      }
    }
    MoveManned(q, calls, q', id, calls[id].(pc := Returned(None)));
  }

  lemma ResumeManned(q: Queue, calls: map<nat, Call>, nextCh: nat, id: nat)
    requires Manned(q, calls) && QueueOk(q, calls, nextCh) && id in calls && calls[id].pc.Parked? && calls[id].pc.ch in q.woken
    ensures Manned(q, calls[id := calls[id].(pc := Checking)])
  {
    MoveManned(q, calls, q, id, calls[id].(pc := Checking));
  }

  lemma CheckManned(s: System, id: nat, now: int)
    requires Can(s, Check(id, now)) && Manned(s.m.queue, s.calls)
    ensures Manned(Next(s, Check(id, now)).m.queue, Next(s, Check(id, now)).calls)
  {
    hide Manned, Park;
    ParkManned(s.m.queue, s.calls, id, s.nextCh);
    MoveManned(s.m.queue, s.calls, s.m.queue, id, s.calls[id].(pc := Retrying));
  }

  lemma TryManned(s: System, id: nat, t1: int, t2: int)
    requires Can(s, Try(id, t1, t2)) && Manned(s.m.queue, s.calls)
    ensures Manned(Next(s, Try(id, t1, t2)).m.queue, Next(s, Try(id, t1, t2)).calls)
  {
    hide Manned, Notify;
    MoveManned(s.m.queue, s.calls, s.m.queue, id, Next(s, Try(id, t1, t2)).calls[id]);
  }

  lemma StepManned(s: System, step: Step)
    requires SystemOk(s) && Can(s, step) && Manned(s.m.queue, s.calls)
    ensures Manned(Next(s, step).m.queue, Next(s, step).calls)
  {
    var q, q' := s.m.queue, Next(s, step).m.queue;
    hide Manned, QueueOk, CoreOk, Notify, Behind;
    match step
    case Begin(id, call) => MoveManned(q, s.calls, q, id, call);
    case Try(id, t1, t2) => TryManned(s, id, t1, t2);
    case Check(id, now) => CheckManned(s, id, now);
    case Resume(id) => ResumeManned(q, s.calls, s.nextCh, id);
    case Cancel(id) => WithdrawManned(q, s.calls, s.nextCh, id);
    case Release(r, holder, now) => FewerManned(q, q', s.calls);
    case Tick(now, order) =>
      SweepQueue(s.m, now, order);
      hide Sweep;
      FewerManned(q, q', s.calls);
    case _ =>
  }

  lemma {:induction false} RunManned(s: System, run: seq<Step>)
    requires SystemOk(s) && CanRun(s, run) && Manned(s.m.queue, s.calls)
    ensures Manned(After(s, run).m.queue, After(s, run).calls)
    decreases |run|
  {
    hide SystemOk, Next, Can, Manned;
    if run != [] {
      StepKeeps(s, run[0]);
      StepManned(s, run[0]);
      RunManned(Next(s, run[0]), run[1..]);
    }
  }

  /** On every run, every registered channel is the one some call waits on right now, for that very
      resource: a cancelled call leaves nothing registered behind. */
  lemma NoAbandonedWaiters(run: seq<Step>, r: string, ch: nat)
    requires CanRun(Initial, run) && IsRegistered(After(Initial, run).m.queue, r, ch)
    ensures exists id: nat :: Waits(After(Initial, run).calls, id, r, ch)
  {
    InitialOk();
    RunManned(Initial, run);
    assert HasCaller(After(Initial, run).calls, r, ch);
  }
}
