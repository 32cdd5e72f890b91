/** What every reachable state of the lock manager satisfies. */
module AdvisoryInvariants {
  import opened Options
  import opened Lists
  import opened AdvisoryModel

  // ---------------------------------------------------------------------------
  // Leases
  // ---------------------------------------------------------------------------

  /** A lease holds from its start to the earlier of its expiry and its end. */
  ghost function LeaseEnd(l: Lease): int
  {
    if l.ending.Some? && l.ending.value.at < l.expires then l.ending.value.at else l.expires
  }

  ghost predicate LeaseOk(t: Table, clock: int, i: nat)
    requires i < |t.leases|
  {
    var l := t.leases[i];
    && l.start <= clock && l.start < l.expires
    && (l.ending.None? ==> l.resource in t.locks && t.locks[l.resource].lockID == i)
    && (l.ending.Some? ==>
          l.start <= l.ending.value.at <= clock &&
          (l.ending.value.at < l.expires ==> l.ending.value.cause == UnlockBy(l.holder)))
  }

  /** Later leases on a resource start after earlier ones have ended. */
  ghost predicate InTurn(leases: seq<Lease>)
  {
    forall i, j :: 0 <= i < j < |leases| && leases[i].resource == leases[j].resource ==>
      leases[i].ending.Some? && leases[i].ending.value.at <= leases[j].start
  }

  ghost predicate EntryOk(t: Table, r: string)
    requires r in t.locks
  {
    var e := t.locks[r];
    e.lockID < |t.leases| &&
    var l := t.leases[e.lockID];
    l.resource == r && l.holder == e.holder && l.expires == e.expires && l.ending.None?
  }

  ghost predicate TableOk(t: Table, clock: int)
  {
    && (forall r :: r in t.locks ==> EntryOk(t, r))
    && (forall i :: 0 <= i < |t.leases| ==> LeaseOk(t, clock, i))
    && InTurn(t.leases)
  }

  lemma DropKeepsTable(t: Table, clock: int, r: string, e: Ending)
    requires TableOk(t, clock) && r in t.locks && clock <= e.at
    requires e.at < t.locks[r].expires ==> e.cause == UnlockBy(t.locks[r].holder)
    ensures TableOk(Drop(t, r, e), e.at)
  {
    var t' := Drop(t, r, e);
    assert EntryOk(t, r);
    forall k | k in t'.locks ensures EntryOk(t', k) {
      assert EntryOk(t, k);
    }
    forall i | 0 <= i < |t'.leases| ensures LeaseOk(t', e.at, i) {
      assert LeaseOk(t, clock, i);
    }
  }

  lemma GrantKeepsTable(t: Table, clock: int, r: string, holder: string, ttl: int, now: int)
    requires TableOk(t, clock) && r !in t.locks && clock <= now
    ensures TableOk(Grant(t, r, holder, ttl, now), now)
  {
    var t' := Grant(t, r, holder, ttl, now);
    forall k | k in t'.locks ensures EntryOk(t', k) {
      if k != r { assert EntryOk(t, k); }
    }
    forall i | 0 <= i < |t'.leases| ensures LeaseOk(t', now, i) {
      if i < |t.leases| { assert LeaseOk(t, clock, i); }
    }
    forall i | 0 <= i < |t.leases| && t.leases[i].resource == r
      ensures t.leases[i].ending.Some? && t.leases[i].ending.value.at <= now
    {
      assert LeaseOk(t, clock, i);
    }
  }

  lemma LaterTable(t: Table, clock: int, now: int)
    requires TableOk(t, clock) && clock <= now
    ensures TableOk(t, now)
  {
    forall i | 0 <= i < |t.leases| ensures LeaseOk(t, now, i) {
      assert LeaseOk(t, clock, i);
    }
  }

  /** At no time do two leases hold the same resource. */
  lemma MutualExclusion(t: Table, clock: int, i: nat, j: nat, at: int)
    requires TableOk(t, clock) && i < |t.leases| && j < |t.leases| && i != j
    requires t.leases[i].resource == t.leases[j].resource
    requires t.leases[i].start <= at < LeaseEnd(t.leases[i])
    ensures !(t.leases[j].start <= at < LeaseEnd(t.leases[j]))
  {
    assert i < j || j < i;
  }

  // ---------------------------------------------------------------------------
  // The event log
  // ---------------------------------------------------------------------------

  /** Whether `r` is held after the events in `log`. */
  ghost predicate Held(log: seq<Event>, r: string)
  {
    log != [] &&
    var e := log[|log| - 1];
    if e.resource == r then e.kind.Acquired? else Held(log[..|log| - 1], r)
  }

  /** A resource is acquired only when free and released only when held. */
  ghost predicate InOrder(log: seq<Event>)
  {
    forall i :: 0 <= i < |log| ==> (log[i].kind.Acquired? <==> !Held(log[..i], log[i].resource))
  }

  ghost predicate LogOk(log: seq<Event>, locks: map<string, LockEntry>)
  {
    InOrder(log) && forall r :: Held(log, r) <==> r in locks
  }

  lemma LogStep(log: seq<Event>, locks: map<string, LockEntry>, e: Event, locks': map<string, LockEntry>)
    requires LogOk(log, locks)
    requires e.kind.Acquired? <==> e.resource !in locks
    requires forall r :: r in locks' <==> if r == e.resource then e.kind.Acquired? else r in locks
    ensures LogOk(log + [e], locks')
  {
    var log' := log + [e];
    assert log'[..|log|] == log;
    forall i | 0 <= i < |log'|
      ensures log'[i].kind.Acquired? <==> !Held(log'[..i], log'[i].resource)
    {
      if i < |log| { assert log'[..i] == log[..i]; }
    }
  }

  /** The events of one resource. */
  ghost function Of(log: seq<Event>, r: string): seq<Event>
  {
    if log == [] then []
    else
      var e := log[|log| - 1];
      Of(log[..|log| - 1], r) + (if e.resource == r then [e] else [])
  }

  /** Per resource the log alternates, beginning with an acquisition, and the resource is
      held exactly when the last event is an acquisition. */
  lemma {:induction false} Alternates(log: seq<Event>, r: string)
    requires InOrder(log)
    ensures forall k :: 0 <= k < |Of(log, r)| ==> (Of(log, r)[k].kind.Acquired? <==> k % 2 == 0)
    ensures Held(log, r) <==> |Of(log, r)| % 2 == 1
    decreases |log|
  {
    if log != [] {
      var n := |log| - 1;
      forall i | 0 <= i < n
        ensures log[..n][i].kind.Acquired? <==> !Held(log[..n][..i], log[..n][i].resource)
      {
        assert log[..n][..i] == log[..i];
      }
      Alternates(log[..n], r);
    }
  }

  // ---------------------------------------------------------------------------
  // Subscribers
  // ---------------------------------------------------------------------------

  /** The events a subscriber should see: those logged since it subscribed that match its prefix. */
  ghost function Matching(log: seq<Event>, since: nat, prefix: string): seq<Event>
    decreases |log|
  {
    if |log| <= since then []
    else
      var e := log[|log| - 1];
      Matching(log[..|log| - 1], since, prefix) + (if prefix <= e.resource then [e] else [])
  }

  ghost predicate Faithful(log: seq<Event>, c: Channel)
  {
    && c.since <= |log| && |c.buf| <= EVENT_BUFFER
    && Subsequence(c.got + c.buf, Matching(log, c.since, c.prefix))
    && (!c.closed ==> |c.got| + |c.buf| + c.dropped == |Matching(log, c.since, c.prefix)|)
  }

  /** Registered channels are open, and each open channel is registered once, under its prefix. */
  ghost predicate SubsOk(subs: map<string, seq<nat>>, chans: map<nat, Channel>)
  {
    && (forall p :: p in subs ==> NoRepeats(subs[p]))
    && (forall p, ch :: p in subs && ch in subs[p] ==> ch in chans && !chans[ch].closed && chans[ch].prefix == p)
    && (forall ch :: ch in chans && !chans[ch].closed ==> chans[ch].prefix in subs && ch in subs[chans[ch].prefix])
  }

  ghost predicate ChansOk(b: Bus, nextCh: nat)
  {
    forall ch :: ch in b.chans ==> ch < nextCh && Faithful(b.log, b.chans[ch])
  }

  ghost predicate BusOk(b: Bus, nextCh: nat)
  {
    !b.panicked && SubsOk(b.subs, b.chans) && ChansOk(b, nextCh)
  }

  lemma SubscribedIs(subs: map<string, seq<nat>>, chans: map<nat, Channel>, ch: nat, r: string)
    requires SubsOk(subs, chans) && ch in chans
    ensures Subscribed(subs, ch, r) <==> !chans[ch].closed && chans[ch].prefix <= r
  {
    if !chans[ch].closed && chans[ch].prefix <= r {
      assert chans[ch].prefix in subs && ch in subs[chans[ch].prefix];
    }
  }

  lemma MatchingStep(log: seq<Event>, since: nat, prefix: string, e: Event)
    requires since <= |log|
    ensures Matching(log + [e], since, prefix) ==
            if prefix <= e.resource then Matching(log, since, prefix) + [e] else Matching(log, since, prefix)
  {
    assert (log + [e])[..|log|] == log;
  }

  lemma OfferIsFaithful(log: seq<Event>, c: Channel, e: Event)
    requires Faithful(log, c)
    ensures !c.closed && c.prefix <= e.resource ==> Faithful(log + [e], Offer(c, e))
    ensures c.closed || !(c.prefix <= e.resource) ==> Faithful(log + [e], c)
  {
    MatchingStep(log, c.since, c.prefix, e);
    SubsequenceStep(c.got + c.buf, Matching(log, c.since, c.prefix), e);
    assert c.got + (c.buf + [e]) == (c.got + c.buf) + [e];
  }

  lemma SameSubs(subs: map<string, seq<nat>>, chans: map<nat, Channel>, chans': map<nat, Channel>)
    requires SubsOk(subs, chans) && chans'.Keys == chans.Keys
    requires forall ch :: ch in chans ==> chans'[ch].closed == chans[ch].closed && chans'[ch].prefix == chans[ch].prefix
    ensures SubsOk(subs, chans')
  {
  }

  lemma NotifyChannel(b: Bus, nextCh: nat, e: Event, ch: nat)
    requires BusOk(b, nextCh) && ch in b.chans
    ensures var c := Notify(b, e).chans[ch];
            Faithful(b.log + [e], c) && c.closed == b.chans[ch].closed && c.prefix == b.chans[ch].prefix
    ensures Subscribed(b.subs, ch, e.resource) ==> !b.chans[ch].closed
  {
    SubscribedIs(b.subs, b.chans, ch, e.resource);
    OfferIsFaithful(b.log, b.chans[ch], e);
  }

  lemma NotifyKeepsBus(b: Bus, nextCh: nat, e: Event)
    requires BusOk(b, nextCh)
    ensures BusOk(Notify(b, e), nextCh)
  {
    var b' := Notify(b, e);
    forall ch | ch in b.chans
      ensures Faithful(b'.log, b'.chans[ch]) && b'.chans[ch].closed == b.chans[ch].closed
      ensures b'.chans[ch].prefix == b.chans[ch].prefix
      ensures Subscribed(b.subs, ch, e.resource) ==> !b.chans[ch].closed
    {
      NotifyChannel(b, nextCh, e, ch);
    }
    hide SubsOk, Faithful, Subscribed;
    assert b'.chans.Keys == b.chans.Keys;
    SameSubs(b.subs, b.chans, b'.chans);
  }

  lemma SubscribeKeepsBus(b: Bus, prefix: string, ch: nat)
    requires BusOk(b, ch)
    ensures BusOk(Subscribe(b, prefix, ch), ch + 1)
  {
    var b' := Subscribe(b, prefix, ch);
    assert ch !in b.chans;
    forall c | c in b'.chans ensures c < ch + 1 && Faithful(b'.log, b'.chans[c]) {
      if c != ch { assert Faithful(b.log, b.chans[c]); }
    }
    forall p | p in b'.subs ensures NoRepeats(b'.subs[p]) {
      if p == prefix && p in b.subs { assert ch !in b.subs[p]; }
    }
  }

  lemma UnsubscribeKeepsBus(b: Bus, nextCh: nat, ch: nat)
    requires BusOk(b, nextCh) && ch in b.chans && !b.chans[ch].closed
    ensures BusOk(Unsubscribe(b, b.chans[ch].prefix, ch), nextCh)
  {
    var p := b.chans[ch].prefix;
    var b' := Unsubscribe(b, p, ch);
    RemoveFirstDistinct(b.subs[p], ch);
    forall c | c in b'.chans ensures c < nextCh && Faithful(b'.log, b'.chans[c]) {
      assert Faithful(b.log, b.chans[c]);
    }
  }

  lemma ReceiveKeepsBus(b: Bus, nextCh: nat, ch: nat)
    requires BusOk(b, nextCh) && ch in b.chans && b.chans[ch].buf != []
    ensures BusOk(Receive(b, ch), nextCh)
  {
    var b', c := Receive(b, ch), b.chans[ch];
    assert c.got + c.buf == (c.got + [c.buf[0]]) + c.buf[1..];
    forall k | k in b'.chans ensures k < nextCh && Faithful(b'.log, b'.chans[k]) {
      assert Faithful(b.log, b.chans[k]);
    }
  }
}
