/** Parked calls and their channels: none is lost, none is closed twice. */
module AdvisoryQueue {
  import opened Options
  import opened Lists
  import opened AdvisoryModel
  import opened AdvisoryInvariants

  ghost predicate IsRegistered(q: Queue, r: string, ch: nat)
  {
    r in q.waiters && ch in q.waiters[r]
  }

  /** A registered channel is open and registered nowhere else. */
  ghost predicate WaitersOk(q: Queue, nextCh: nat)
  {
    && (forall r :: r in q.waiters ==> NoRepeats(q.waiters[r]))
    && (forall r, ch: nat :: IsRegistered(q, r, ch) ==> ch !in q.woken && ch < nextCh)
    && (forall r, k, ch: nat :: IsRegistered(q, r, ch) && IsRegistered(q, k, ch) ==> r == k)
  }

  /** A parked call has been woken or is registered under its resource. */
  ghost predicate CallOk(q: Queue, c: Call, nextCh: nat)
  {
    c.pc.Parked? ==> c.pc.ch < nextCh && (c.pc.ch in q.woken || IsRegistered(q, c.resource, c.pc.ch))
  }

  ghost predicate SameChannel(a: Call, b: Call)
  {
    a.pc.Parked? && b.pc.Parked? && a.pc.ch == b.pc.ch
  }

  ghost predicate ParkedOk(q: Queue, calls: map<nat, Call>, nextCh: nat)
  {
    && (forall id :: id in calls ==> CallOk(q, calls[id], nextCh))
    && (forall id, k :: id in calls && k in calls && SameChannel(calls[id], calls[k]) ==> id == k)
  }

  /** Waiters queue only for resources in the table. */
  ghost predicate Behind(q: Queue, locks: map<string, LockEntry>)
  {
    forall r :: r in q.waiters ==> r in locks
  }

  ghost predicate QueueOk(q: Queue, calls: map<nat, Call>, nextCh: nat)
  {
    !q.panicked && WaitersOk(q, nextCh) && ParkedOk(q, calls, nextCh) && forall ch :: ch in q.woken ==> ch < nextCh
  }

  lemma WakeKeepsWaiters(q: Queue, nextCh: nat, r: string)
    requires WaitersOk(q, nextCh) && !q.panicked
    ensures WaitersOk(Wake(q, r), nextCh) && !Wake(q, r).panicked
    ensures forall k, ch: nat :: IsRegistered(q, k, ch) ==>
              if k == r then ch in Wake(q, r).woken else IsRegistered(Wake(q, r), k, ch)
    ensures forall ch: nat :: ch in Wake(q, r).woken ==> ch in q.woken || IsRegistered(q, r, ch)
  {
    assert r in q.waiters ==> NoRepeats(q.waiters[r]);
    forall k, ch: nat | IsRegistered(Wake(q, r), k, ch) ensures IsRegistered(q, k, ch) && ch !in Wake(q, r).woken {
      assert IsRegistered(q, k, ch);
      OneHome(q, nextCh, k, r, ch);
    }
    forall ch: nat | r in q.waiters && ch in q.waiters[r] ensures ch !in q.woken {
      assert IsRegistered(q, r, ch);
    }
  }

  lemma OneHome(q: Queue, nextCh: nat, k: string, r: string, ch: nat)
    requires WaitersOk(q, nextCh) && IsRegistered(q, k, ch) && k != r
    ensures !IsRegistered(q, r, ch)
  {
  }

  lemma WakeKeepsQueue(q: Queue, calls: map<nat, Call>, nextCh: nat, r: string)
    requires QueueOk(q, calls, nextCh)
    ensures QueueOk(Wake(q, r), calls, nextCh)
    ensures forall id :: id in calls && calls[id].pc.Parked? && calls[id].resource == r ==>
              calls[id].pc.ch in Wake(q, r).woken
  {
    var q' := Wake(q, r);
    WakeKeepsWaiters(q, nextCh, r);
    forall id | id in calls
      ensures CallOk(q', calls[id], nextCh)
      ensures calls[id].pc.Parked? && calls[id].resource == r ==> calls[id].pc.ch in q'.woken
    {
      assert CallOk(q, calls[id], nextCh);
    }
  }

  lemma ParkKeepsWaiters(q: Queue, nextCh: nat, r: string)
    requires WaitersOk(q, nextCh) && forall ch :: ch in q.woken ==> ch < nextCh
    ensures WaitersOk(Park(q, r, nextCh), nextCh + 1) && IsRegistered(Park(q, r, nextCh), r, nextCh)
    ensures forall k, ch: nat :: IsRegistered(q, k, ch) ==> IsRegistered(Park(q, r, nextCh), k, ch)
  {
    var q' := Park(q, r, nextCh);
    forall k | k in q'.waiters ensures NoRepeats(q'.waiters[k]) {
      if k in q.waiters { assert NoRepeats(q.waiters[k]) && !IsRegistered(q, k, nextCh); }
    }
    forall k, ch: nat | IsRegistered(q', k, ch) ensures IsRegistered(q, k, ch) || (k == r && ch == nextCh) {
    }
  }

  lemma ParkKeepsQueue(q: Queue, calls: map<nat, Call>, nextCh: nat, id: nat)
    requires QueueOk(q, calls, nextCh) && id in calls
    ensures QueueOk(Park(q, calls[id].resource, nextCh), calls[id := calls[id].(pc := Parked(nextCh))], nextCh + 1)
  {
    var q' := Park(q, calls[id].resource, nextCh);
    var calls' := calls[id := calls[id].(pc := Parked(nextCh))];
    ParkKeepsWaiters(q, nextCh, calls[id].resource);
    forall k | k in calls' ensures CallOk(q', calls'[k], nextCh + 1) {
      assert CallOk(q, calls[k], nextCh);
    }
    forall a, b | a in calls' && b in calls' && SameChannel(calls'[a], calls'[b]) ensures a == b {
      assert CallOk(q, calls[a], nextCh) && CallOk(q, calls[b], nextCh);
      assert a != id && b != id ==> SameChannel(calls[a], calls[b]);
    }
  }

  lemma WithdrawKeepsWaiters(q: Queue, nextCh: nat, r: string, ch: nat)
    requires WaitersOk(q, nextCh)
    ensures WaitersOk(Withdraw(q, r, ch), nextCh)
    ensures forall k, c: nat :: IsRegistered(q, k, c) && c != ch ==> IsRegistered(Withdraw(q, r, ch), k, c)
  {
    if r in q.waiters { RemoveFirstDistinct(q.waiters[r], ch); }
    forall k, c: nat | IsRegistered(Withdraw(q, r, ch), k, c) ensures IsRegistered(q, k, c) {
    }
  }

  lemma WithdrawKeepsQueue(q: Queue, calls: map<nat, Call>, nextCh: nat, id: nat)
    requires QueueOk(q, calls, nextCh) && id in calls && calls[id].pc.Parked?
    ensures QueueOk(Withdraw(q, calls[id].resource, calls[id].pc.ch), calls[id := calls[id].(pc := Returned(None))], nextCh)
  {
    var q' := Withdraw(q, calls[id].resource, calls[id].pc.ch);
    var calls' := calls[id := calls[id].(pc := Returned(None))];
    WithdrawKeepsWaiters(q, nextCh, calls[id].resource, calls[id].pc.ch);
    forall k | k in calls' ensures CallOk(q', calls'[k], nextCh) {
      assert CallOk(q, calls[k], nextCh);
      assert SameChannel(calls[id], calls[k]) ==> k == id;
    }
    forall a, b | a in calls' && b in calls' && SameChannel(calls'[a], calls'[b]) ensures a == b {
      assert SameChannel(calls[a], calls[b]);
    }
  }

  /** A call that moves without parking leaves the queue's promises alone. */
  lemma MoveKeepsQueue(q: Queue, calls: map<nat, Call>, nextCh: nat, id: nat, c: Call)
    requires QueueOk(q, calls, nextCh) && !c.pc.Parked?
    ensures QueueOk(q, calls[id := c], nextCh)
  {
    var calls' := calls[id := c];
    forall k | k in calls' ensures CallOk(q, calls'[k], nextCh) {
      if k != id { assert CallOk(q, calls[k], nextCh); }
    }
    forall a, b | a in calls' && b in calls' && SameChannel(calls'[a], calls'[b]) ensures a == b {
      assert SameChannel(calls[a], calls[b]);
    }
  }
}
