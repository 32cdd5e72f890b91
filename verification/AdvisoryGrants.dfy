/** Successful calls and leases correspond one to one. */
module AdvisoryGrants {
  import opened Options
  import opened AdvisoryModel
  import opened AdvisoryInvariants

  ghost predicate Granted(calls: map<nat, Call>, id: nat, k: nat)
  {
    id in calls && calls[id].pc == Returned(Some(k))
  }

  ghost predicate HasOwner(calls: map<nat, Call>, k: nat)
  {
    exists id: nat :: Granted(calls, id, k)
  }

  /** The lease is for the call's resource and holder, and as long as it asked: 30 s when it asked for none. */
  ghost predicate LeaseOf(c: Call, l: Lease)
  {
    l.resource == c.resource && l.holder == c.holder && l.expires == l.start + if c.ttl <= 0 then 30_000_000_000 else c.ttl
  }

  ghost predicate Owns(calls: map<nat, Call>, leases: seq<Lease>, id: nat, k: nat)
  {
    id in calls && k < |leases| && LeaseOf(calls[id], leases[k])
  }

  /** Every successful call owns the lease with its lock id, and every lease was handed to exactly one call. */
  ghost predicate GrantsOk(calls: map<nat, Call>, leases: seq<Lease>)
  {
    && (forall id: nat, k: nat :: Granted(calls, id, k) ==> Owns(calls, leases, id, k))
    && (forall id: nat, j: nat, k: nat :: Granted(calls, id, k) && Granted(calls, j, k) ==> id == j)
    && (forall k: nat :: k < |leases| ==> HasOwner(calls, k))
  }

  /** The same leases, some of them ended meanwhile. */
  ghost predicate SameGrants(a: seq<Lease>, b: seq<Lease>)
  {
    |a| == |b| && forall k :: 0 <= k < |a| ==> b[k] == a[k].(ending := b[k].ending)
  }

  lemma EndingsKeepGrants(calls: map<nat, Call>, a: seq<Lease>, b: seq<Lease>)
    requires GrantsOk(calls, a) && SameGrants(a, b)
    ensures GrantsOk(calls, b)
  {
    forall id: nat, k: nat | Granted(calls, id, k) ensures Owns(calls, b, id, k) {
      assert Owns(calls, a, id, k);
    }
  }

  lemma MoveKeepsGrants(calls: map<nat, Call>, leases: seq<Lease>, id: nat, c: Call)
    requires GrantsOk(calls, leases) && (id in calls ==> !calls[id].pc.Returned?)
    requires c.pc.Returned? ==> c.pc.lockID.None?
    ensures GrantsOk(calls[id := c], leases)
  {
    var calls' := calls[id := c];
    forall k: nat | k < |leases| ensures HasOwner(calls', k) {
      assert HasOwner(calls, k);
      var i: nat :| Granted(calls, i, k);
      assert Granted(calls', i, k);
    }
    forall i: nat, k: nat | Granted(calls', i, k) ensures Granted(calls, i, k) && Owns(calls', leases, i, k) {
      assert Granted(calls, i, k);
      assert Owns(calls, leases, i, k);
    }
  }

  lemma NewGrant(calls: map<nat, Call>, leases: seq<Lease>, id: nat, l: Lease)
    requires GrantsOk(calls, leases) && id in calls && !calls[id].pc.Returned?
    requires LeaseOf(calls[id], l)
    ensures GrantsOk(calls[id := calls[id].(pc := Returned(Some(|leases|)))], leases + [l])
  {
    var n := |leases|;
    var calls' := calls[id := calls[id].(pc := Returned(Some(n)))];
    assert Granted(calls', id, n);
    forall k: nat | k < |leases + [l]| ensures HasOwner(calls', k) {
      if k < n {
        assert HasOwner(calls, k);
        var i: nat :| Granted(calls, i, k);
        assert Granted(calls', i, k);
      }
    }
    forall i: nat, k: nat | Granted(calls', i, k)
      ensures Owns(calls', leases + [l], i, k) && if i == id then k == n else k < n && Granted(calls, i, k)
    {
      if i != id {
        assert Granted(calls, i, k);
        assert Owns(calls, leases, i, k);
      }
    }
  }

  lemma {:induction false} SweepSameGrants(m: Manager, now: int, order: seq<string>)
    ensures SameGrants(m.table.leases, Sweep(m, now, order).table.leases)
    decreases |order|
  {
    if order != [] {
      hide Notify, Wake;
      SweepSameGrants(if Lapsed(m.table, order[0], now) then SweepOne(m, order[0], now) else m, now, order[1..]);
    }
  }

  lemma TryKeepsGrants(s: System, id: nat, t1: int, t2: int)
    requires GrantsOk(s.calls, s.m.table.leases) && Can(s, Try(id, t1, t2))
    ensures var s' := Next(s, Try(id, t1, t2)); GrantsOk(s'.calls, s'.m.table.leases)
  {
    hide GrantsOk, Notify;
    var c := s.calls[id];
    var r, t := c.resource, s.m.table;
    if r in t.locks && t1 < t.locks[r].expires {
      MoveKeepsGrants(s.calls, t.leases, id, Next(s, Try(id, t1, t2)).calls[id]);
    } else {
      var t' := if r in t.locks then Drop(t, r, Ending(t1, Expiry)) else t;
      EndingsKeepGrants(s.calls, t.leases, t'.leases);
      NewGrant(s.calls, t'.leases, id, Grant(t', r, c.holder, c.ttl, t2).leases[|t'.leases|]);
    }
  }

  lemma StepKeepsGrants(s: System, step: Step)
    requires GrantsOk(s.calls, s.m.table.leases) && Can(s, step)
    ensures var s' := Next(s, step); GrantsOk(s'.calls, s'.m.table.leases)
  {
    hide GrantsOk, Notify, Wake;
    match step
    case Begin(id, call) => MoveKeepsGrants(s.calls, s.m.table.leases, id, call);
    case Try(id, t1, t2) => TryKeepsGrants(s, id, t1, t2);
    case Check(id, now) =>
      MoveKeepsGrants(s.calls, s.m.table.leases, id, Next(s, step).calls[id]);
    case Resume(id) => MoveKeepsGrants(s.calls, s.m.table.leases, id, Next(s, step).calls[id]);
    case Cancel(id) => MoveKeepsGrants(s.calls, s.m.table.leases, id, Next(s, step).calls[id]);
    case Release(r, holder, now) =>
      EndingsKeepGrants(s.calls, s.m.table.leases, Next(s, step).m.table.leases);
    case Tick(now, order) =>
      SweepSameGrants(s.m, now, order);
      hide Sweep;
      EndingsKeepGrants(s.calls, s.m.table.leases, Next(s, step).m.table.leases);
    case _ =>
  }

  lemma {:induction false} RunKeepsGrants(s: System, run: seq<Step>)
    requires GrantsOk(s.calls, s.m.table.leases) && CanRun(s, run)
    ensures GrantsOk(After(s, run).calls, After(s, run).m.table.leases)
    decreases |run|
  {
    if run != [] {
      hide GrantsOk, Next, Can;
      StepKeepsGrants(s, run[0]);
      RunKeepsGrants(Next(s, run[0]), run[1..]);
    }
  }

  /** On every run each successful call owns the lease its lock id names, no two calls own the
      same lease, and no lease exists that no call was told about. */
  lemma GrantsMatchLeases(run: seq<Step>)
    requires CanRun(Initial, run)
    ensures GrantsOk(After(Initial, run).calls, After(Initial, run).m.table.leases)
  {
    RunKeepsGrants(Initial, run);
  }
}
