/** The lock manager as an object: each method is one critical section. */
module AdvisoryManager {
  import opened Options
  import opened Lists
  import opened AdvisoryModel
  import opened AdvisoryInvariants
  import opened AdvisoryQueue
  import opened AdvisoryTheorems
  import Sets

  /** Removes the first occurrence of `x` by searching for it and splicing it out. */
  method Splice(s: seq<nat>, x: nat) returns (found: bool, r: seq<nat>)
    ensures found <==> x in s
    ensures r == if found then RemoveFirst(s, x) else s
  {
    for i := 0 to |s|
      invariant x !in s[..i]
    {
      if s[i] == x {
        RemoveFirstAt(s, x, i);
        return true, s[..i] + s[i + 1..];
      }
    }
    return false, s;
  }

  lemma {:induction false} SweepSnoc(m: Manager, now: int, order: seq<string>, r: string)
    ensures var m' := Sweep(m, now, order);
            Sweep(m, now, order + [r]) == if Lapsed(m'.table, r, now) then SweepOne(m', r, now) else m'
    decreases |order|
  {
    hide SweepOne;
    if order == [] {
      assert ([] + [r])[1..] == [];
    } else {
      var m1 := if Lapsed(m.table, order[0], now) then SweepOne(m, order[0], now) else m;
      SweepSnoc(m1, now, order[1..], r);
      assert (order + [r])[1..] == order[1..] + [r];
    }
  }

  /** When the registrations are in order, an announcement reaches exactly the open channels
      with a matching prefix and sends to no closed one. */
  lemma NotifyIs(b: Bus, e: Event, chans': map<nat, Channel>)
    requires SubsOk(b.subs, b.chans) && chans'.Keys == b.chans.Keys
    requires forall ch :: ch in b.chans ==>
               chans'[ch] == if !b.chans[ch].closed && b.chans[ch].prefix <= e.resource then Offer(b.chans[ch], e) else b.chans[ch]
    ensures Notify(b, e) == Bus(b.subs, chans', b.log + [e], b.panicked)
  {
    forall ch | ch in b.chans
      ensures Subscribed(b.subs, ch, e.resource) <==> !b.chans[ch].closed && b.chans[ch].prefix <= e.resource
    {
      SubscribedIs(b.subs, b.chans, ch, e.resource);
    }
    assert Notify(b, e).chans == chans';
  }

  lemma WakeIs(q: Queue, nextCh: nat, r: string)
    requires WaitersOk(q, nextCh) && !q.panicked
    ensures var chs := if r in q.waiters then q.waiters[r] else [];
            Wake(q, r) == Queue(q.waiters - {r}, q.woken + (set ch | ch in chs), false) && NoRepeats(chs) &&
            forall i :: 0 <= i < |chs| ==> chs[i] !in q.woken
  {
    WakeKeepsWaiters(q, nextCh, r);
    if r in q.waiters {
      forall i | 0 <= i < |q.waiters[r]| ensures q.waiters[r][i] !in q.woken {
        assert IsRegistered(q, r, q.waiters[r][i]);
      }
    }
  }

  lemma NewSubscriber(subs: map<string, seq<nat>>, chans: map<nat, Channel>, ch: nat, c: Channel)
    requires SubsOk(subs, chans) && ch !in chans && !c.closed
    ensures SubsOk(subs[c.prefix := (if c.prefix in subs then subs[c.prefix] else []) + [ch]], chans[ch := c])
  {
    var subs' := subs[c.prefix := (if c.prefix in subs then subs[c.prefix] else []) + [ch]];
    forall p | p in subs' ensures NoRepeats(subs'[p]) {
      if p == c.prefix && p in subs { assert ch !in subs[p]; }
    }
  }

  lemma GoneSubscriber(subs: map<string, seq<nat>>, chans: map<nat, Channel>, ch: nat)
    requires SubsOk(subs, chans) && ch in chans && !chans[ch].closed
    ensures var p := chans[ch].prefix;
            p in subs && ch in subs[p] &&
            SubsOk(subs[p := RemoveFirst(subs[p], ch)], chans[ch := chans[ch].(closed := true)])
  {
    RemoveFirstDistinct(subs[chans[ch].prefix], ch);
  }

  class LockManager {
    var locks: map<string, LockEntry>
    var waiters: map<string, seq<nat>>
    var subs: map<string, seq<nat>>
    var woken: set<nat>           // waiter channels that have been closed
    var chans: map<nat, Channel>  // subscriber channels
    var nextCh: nat               // channel identities are never reused
    var leases: seq<Lease>        // history: every lease granted
    var log: seq<Event>           // history: every event announced
    var panicked: bool            // a closed channel was closed again

    ghost function Abs(): Manager
      reads this
    {
      Manager(Table(locks, leases), Bus(subs, chans, log, panicked), Queue(waiters, woken, false))
    }

    ghost predicate Valid()
      reads this
    {
      && SubsOk(subs, chans)
      && (forall ch :: ch in chans ==> ch < nextCh)
      && (forall ch :: ch in woken ==> ch < nextCh)
      && WaitersOk(Queue(waiters, woken, false), nextCh)
    }

    constructor ()
      ensures Valid() && Abs() == NewManager
    {
      locks, waiters, subs, woken, chans := map[], map[], map[], {}, map[];
      nextCh, leases, log, panicked := 0, [], [], false;
    }

    /** Offers `e` to one list of subscribers. */
    method OfferAll(chs: seq<nat>, e: Event)
      requires NoRepeats(chs) && forall i :: 0 <= i < |chs| ==> chs[i] in chans && !chans[chs[i]].closed
      modifies this`chans
      ensures chans.Keys == old(chans.Keys)
      ensures forall ch :: ch in chans ==> chans[ch] == if ch in chs then Offer(old(chans)[ch], e) else old(chans)[ch]
    {
      for i := 0 to |chs|
        invariant chans.Keys == old(chans.Keys)
        invariant forall ch :: ch in chans ==> chans[ch] == if ch in chs[..i] then Offer(old(chans)[ch], e) else old(chans)[ch]
      {
        chans := chans[chs[i] := Offer(chans[chs[i]], e)];
        assert chs[..i + 1] == chs[..i] + [chs[i]];
      }
      assert chs[..|chs|] == chs;
    }

    /** Offers `e` to every list whose prefix matches, in some order. */
    method OfferMatching(e: Event)
      requires SubsOk(subs, chans)
      modifies this`chans
      ensures chans.Keys == old(chans.Keys)
      ensures forall ch :: ch in chans ==>
                chans[ch] == if !old(chans)[ch].closed && old(chans)[ch].prefix <= e.resource
                             then Offer(old(chans)[ch], e) else old(chans)[ch]
    {
      var left := subs.Keys;
      ghost var was := chans;
      while left != {}
        invariant left <= subs.Keys && chans.Keys == was.Keys
        invariant forall ch :: ch in chans ==>
                    chans[ch] == if !was[ch].closed && was[ch].prefix <= e.resource && was[ch].prefix !in left
                                 then Offer(was[ch], e) else was[ch]
        decreases left
      {
        var p := Sets.AnyOf(left);
        if p <= e.resource { OfferAll(subs[p], e); }
        left := left - {p};
      }
    }

    /** Every subscriber whose prefix matches is offered the event, none that is closed. */
    method Notify(resource: string, holder: string, kind: EventKind)
      requires Valid()
      modifies this`chans, this`log
      ensures Valid()
      ensures Abs() == old(Abs()).(bus := AdvisoryModel.Notify(old(Abs().bus), Event(resource, holder, kind)))
    {
      var e := Event(resource, holder, kind);
      ghost var b := Abs().bus;
      OfferMatching(e);
      NotifyIs(b, e, chans);
      SameSubs(subs, b.chans, chans);
      log := log + [e];
    }

    /** Closes channels that are open and all different. */
    method CloseAll(chs: seq<nat>)
      requires NoRepeats(chs) && forall i :: 0 <= i < |chs| ==> chs[i] !in woken
      modifies this`woken
      ensures woken == old(woken) + (set ch | ch in chs)
    {
      for i := 0 to |chs|
        invariant woken == old(woken) + (set ch | ch in chs[..i])
      {
        assert chs[i] !in woken;
        woken := woken + {chs[i]};
        assert chs[..i + 1] == chs[..i] + [chs[i]];
      }
      assert chs[..|chs|] == chs;
    }

    /** Every channel waiting for `resource` is closed, each for the first time. */
    method WakeWaiters(resource: string)
      requires Valid()
      modifies this`waiters, this`woken
      ensures Valid()
      ensures Abs() == old(Abs()).(queue := Wake(old(Abs().queue), resource))
    {
      WakeKeepsWaiters(Abs().queue, nextCh, resource);
      WakeIs(Abs().queue, nextCh, resource);
      CloseAll(if resource in waiters then waiters[resource] else []);
      waiters := waiters - {resource};
    }

    method TryLock(resource: string, holder: string, ttl: int, t1: int, t2: int) returns (lockID: Option<nat>)
      requires Valid()
      modifies this
      ensures Valid() && nextCh == old(nextCh)
      ensures (Abs(), lockID) == AdvisoryModel.TryLock(old(Abs()), resource, holder, ttl, t1, t2)
      ensures lockID.None? <==> resource in old(locks) && t1 < old(locks)[resource].expires
    {
      if resource in locks {
        if t1 < locks[resource].expires { return None; }
        Remove(resource, Ending(t1, Expiry));
      }
      var id := |leases|;
      var expires := t2 + (if ttl <= 0 then DEFAULT_TTL else ttl);
      locks := locks[resource := LockEntry(holder, id, expires)];
      leases := leases + [Lease(resource, holder, t2, expires, None)];
      Notify(resource, holder, Acquired);
      return Some(id);
    }

    /** Deletes an entry and announces the release. */
    method Remove(resource: string, e: Ending)
      requires Valid() && resource in locks
      modifies this
      ensures Valid() && nextCh == old(nextCh)
      ensures Abs() == Free(old(Abs()), resource, e)
    {
      var id := locks[resource].lockID;
      locks := locks - {resource};
      if id < |leases| { leases := leases[id := leases[id].(ending := Some(e))]; }
      Notify(resource, "", Released);
    }

    /** The waiting half of lock: reports that the resource looks free, or parks on a new channel. */
    method CheckOrPark(resource: string, now: int) returns (ch: Option<nat>)
      requires Valid()
      modifies this`waiters, this`nextCh
      ensures Valid()
      ensures ch.Some? <==> resource in old(locks) && now <= old(locks)[resource].expires
      ensures ch.None? ==> Abs() == old(Abs()) && nextCh == old(nextCh)
      ensures ch.Some? ==> ch.value == old(nextCh) && nextCh == old(nextCh) + 1 &&
                           Abs() == old(Abs()).(queue := Park(old(Abs().queue), resource, ch.value))
    {
      if resource !in locks || now > locks[resource].expires { return None; }
      ParkKeepsWaiters(Abs().queue, nextCh, resource);
      ch := Some(nextCh);
      nextCh := nextCh + 1;
      waiters := waiters[resource := (if resource in waiters then waiters[resource] else []) + [ch.value]];
    }

    method Withdraw(resource: string, ch: nat)
      requires Valid()
      modifies this`waiters
      ensures Valid()
      ensures Abs() == old(Abs()).(queue := AdvisoryModel.Withdraw(old(Abs().queue), resource, ch))
    {
      WithdrawKeepsWaiters(Abs().queue, nextCh, resource, ch);
      if resource in waiters {
        var found, rest := Splice(waiters[resource], ch);
        if found { waiters := waiters[resource := rest]; }
      }
    }

    method Unlock(resource: string, holder: string, now: int) returns (res: UnlockResult)
      requires Valid()
      modifies this
      ensures Valid() && nextCh == old(nextCh)
      ensures (Abs(), res) == AdvisoryModel.Unlock(old(Abs()), resource, holder, now)
      ensures res == NotFound <==> resource !in old(locks)
      ensures res == Ok <==> resource in old(locks) && old(locks)[resource].holder == holder
    {
      if resource !in locks { return NotFound; }
      if locks[resource].holder != holder { return NotOwner; }
      Remove(resource, Ending(now, UnlockBy(holder)));
      WakeWaiters(resource);
      return Ok;
    }

    /** One tick of the expiry loop: visits the entries in some order, which covers them all. */
    method Sweep(now: int) returns (ghost order: seq<string>)
      requires Valid()
      modifies this
      ensures Valid() && nextCh == old(nextCh) && Covers(old(Abs().table), order)
      ensures Abs() == AdvisoryModel.Sweep(old(Abs()), now, order)
      ensures forall r :: r in locks <==> r in old(locks) && now <= old(locks)[r].expires
    {
      var left := locks.Keys;
      order := [];
      ghost var m := Abs();
      while left != {}
        invariant Valid() && nextCh == old(nextCh) && left <= locks.Keys
        invariant forall r :: r in m.table.locks ==> r in left || r in order
        invariant Abs() == AdvisoryModel.Sweep(m, now, order)
        decreases left
      {
        var r := Sets.AnyOf(left);
        left := left - {r};
        SweepSnoc(m, now, order, r);
        if now > locks[r].expires {
          Remove(r, Ending(now, Expiry));
          WakeWaiters(r);
        }
        order := order + [r];
      }
      SweepRemoves(m, now, order);
    }

    method Subscribe(prefix: string) returns (ch: nat)
      requires Valid()
      modifies this`subs, this`chans, this`nextCh
      ensures Valid() && ch == old(nextCh) && nextCh == ch + 1
      ensures Abs() == old(Abs()).(bus := AdvisoryModel.Subscribe(old(Abs().bus), prefix, ch))
    {
      ch := nextCh;
      nextCh := nextCh + 1;
      var c := Channel(prefix, |log|, [], [], 0, false);
      NewSubscriber(subs, chans, ch, c);
      subs := subs[prefix := (if prefix in subs then subs[prefix] else []) + [ch]];
      chans := chans[ch := c];
    }

    /** Removes the channel from its list and closes it. The caller hands in a channel it got from
        Subscribe for the same prefix; handing it in a second time panics. */
    method Unsubscribe(prefix: string, ch: nat)
      requires Valid() && ch in chans && chans[ch].prefix == prefix
      modifies this`subs, this`chans, this`panicked
      ensures Valid() && panicked == (old(panicked) || old(chans[ch].closed))
      ensures Abs() == old(Abs()).(bus := AdvisoryModel.Unsubscribe(old(Abs().bus), prefix, ch))
    {
      if !chans[ch].closed { GoneSubscriber(subs, chans, ch); }
      if prefix in subs {
        var found, rest := Splice(subs[prefix], ch);
        if found { subs := subs[prefix := rest]; }
      }
      panicked := panicked || chans[ch].closed;
      chans := chans[ch := chans[ch].(closed := true)];
    }
  }
}
