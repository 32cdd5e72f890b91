/** The gateway object and its in-process transport. */
module GatewayCore {
  import opened Envelopes
  import opened Lists
  import opened Routing
  import opened GatewayTable
  import opened Gateway
  import Sets

  class Core {
    const table: RoutingTable
    var closed: bool

    constructor (maxConns: int, maxNodes: int)
      ensures table.Valid() && table.contents == map[] && !closed && fresh(table) && table.Repr == {}
      ensures table.maxConns == (if maxConns <= 0 then 4096 else maxConns)
      ensures table.maxNodes == (if maxNodes <= 0 then 4096 else maxNodes)
    {
      table := new RoutingTable(maxConns, maxNodes);
      closed := false;
    }

    method Register(c: Endpoint) returns (r: Outcome)
      requires table.Valid()
      modifies table, table.Repr
      ensures table.Valid() && fresh(table.Repr - old(table.Repr))
      ensures r == (if closed then Err(Closed)
                    else if old(|All(table.contents)|) >= table.maxConns then Err(TooManyConns)
                    else if c.nodeId !in old(table.contents) && old(|table.contents|) >= table.maxNodes then Err(TooManyNodes)
                    else Ok)
      ensures table.contents == if r.Ok? then Routing.Add(old(table.contents), c.nodeId, c) else old(table.contents)
    {
      if closed {
        return Err(Closed);
      }
      r := table.Add(c);
    }

    method Unregister(c: Endpoint)
      requires table.Valid()
      modifies table, table.Repr
      ensures table.Valid() && fresh(table.Repr - old(table.Repr))
      ensures table.contents == Routing.Remove(old(table.contents), c.nodeId, c)
      ensures All(table.contents) == old(All(table.contents)) - multiset{c}
    {
      RemoveAll(table.contents, c.nodeId, c);
      table.Remove(c);
    }

    /** The registrations a message goes to now. */
    ghost function Receivers(env: Envelope): multiset<Endpoint>
      reads this, table
    {
      ReceiversIn(closed, table.contents, env)
    }

    /** A message for a node, by id or else by topic, reaches each registration of that node and no
        other connection. One that names no node reaches, as a status, each registration of every
        node but its source, and as a dispatch only connections without a node id. */
    lemma ReceiversExactly(env: Envelope, c: Endpoint)
      requires table.Valid() && !closed && WellFormed(env)
      ensures env.dest != "" ==> Receivers(env)[c] == if c.nodeId == env.dest then All(table.contents)[c] else 0
      ensures env.dest == "" ==>
                forall id :: NamesNode(env.topic, id) ==>
                  Receivers(env)[c] == if c.nodeId == id then All(table.contents)[c] else 0
      ensures env.dest == "" && (forall id :: !NamesNode(env.topic, id)) ==>
                Receivers(env)[c] ==
                if (if env.kind.Status? then c.nodeId != env.source else c.nodeId == "") then All(table.contents)[c] else 0
    {
      hide All, Destination, WellFormed, NamesNode;
      DestinationExactly(env);
      NonEmptyName(env.topic);
      var t := table.contents;
      NamedUnder(t, c);
      if FansOut(env) {
        NamedUnder(t - {env.source}, c);
      }
    }

    /** A dispatch never reaches connections of two nodes, nor any of a node it is not for. */
    lemma DispatchIsolated(env: Envelope, c: Endpoint, d: Endpoint)
      requires table.Valid() && env.kind.Dispatch? && c in Receivers(env) && d in Receivers(env)
      ensures c.nodeId == d.nodeId
      ensures env.dest != "" ==> c.nodeId == env.dest
      ensures env.dest == "" && c.nodeId != "" ==> NamesNode(env.topic, c.nodeId)
    {
      hide All, NamesNode;
      ReceiversExactly(env, c);
      ReceiversExactly(env, d);
    }

    /** Every connection that is not registered under `source`, in no particular order. */
    method FanTargets(source: string) returns (targets: seq<Endpoint>)
      requires table.Shaped()
      ensures multiset(targets) == All(table.contents - {source})
    {
      hide All, Done;
      var left := table.byNode.Keys;
      targets := [];
      NothingDone(table.contents, source);
      while left != {}
        invariant left <= table.contents.Keys
        invariant multiset(targets) == All(Done(table.contents, left, source))
        decreases left
      {
        var id := Sets.AnyOf(left);
        OneMoreDone(table.contents, left, source, id);
        left := left - {id};
        if id != source {
          assert table.Holds(id);
          var s := table.byNode[id];
          targets := targets + s.data[..s.len];
        }
      }
    }

    /** Sends to every receiver as many copies as it is registered times, whatever the others do.
        The error is that of the first receiver that refused, in the order they were tried: for a
        unicast the order of registration. */
    method Route(env: Envelope) returns (r: Outcome, ghost order: seq<Endpoint>)
      requires table.Valid()
      modifies Members(Receivers(env))`inbox
      ensures multiset(order) == old(Receivers(env))
      ensures old(closed) ==> order == [] && r == Err(Closed)
      ensures !old(closed) && !WellFormed(env) ==> order == [] && r == Err(Invalid)
      ensures !old(closed) && WellFormed(env) && order == [] ==> r == Err(NoRoute)
      ensures !old(closed) && WellFormed(env) && env.dest != "" ==> order == Get(old(table.contents), env.dest)
      ensures !old(closed) && WellFormed(env) && env.dest == "" ==>
                forall id :: NamesNode(env.topic, id) ==> order == Get(old(table.contents), id)
      ensures Look(old(Receivers(env))) == Offered(old(Look(Receivers(env))), old(Receivers(env)), env)
      ensures order != [] ==> FirstError(old(Look(Receivers(env))), order, r)
      ensures order != [] ==> (r.Ok? <==> AllTaken(old(Look(Receivers(env))), old(Receivers(env))))
    {
      hide All, Destination, WellFormed, Offered, AllTaken, Verdict, Delivered, NamesNode;
      DestinationExactly(env);
      NonEmptyName(env.topic);
      order := [];
      if closed {
        NobodyToOffer(env);
        return Err(Closed), [];
      }
      if !WellFormed(env) {
        NobodyToOffer(env);
        return Err(Invalid), [];
      }
      var targets := Targets(env);
      order := targets;
      if |targets| == 0 {
        assert multiset(targets) == multiset{};
        NobodyToOffer(env);
        return Err(NoRoute), targets;
      }
      SameView(targets);
      r := SendAll(targets, env);
      SameView(targets);
      SentToAll(old(Look(Receivers(env))), targets, env, r);
    }

    method Targets(env: Envelope) returns (targets: seq<Endpoint>)
      requires table.Valid() && !closed && WellFormed(env)
      ensures multiset(targets) == Receivers(env)
      ensures !FansOut(env) ==> targets == Get(table.contents, Destination(env))
    {
      if FansOut(env) {
        targets := FanTargets(env.source);
      } else {
        var found := table.Lookup(Destination(env));
        targets := found[..];
      }
    }
  }

  lemma NonEmptyName(topic: string)
    ensures !NamesNode(topic, "")
  {
  }

  predicate FansOut(env: Envelope)
  {
    env.kind.Status? && Destination(env) == ""
  }

  /** The registrations in a table that a message goes to. */
  ghost function ReceiversIn(closed: bool, t: Table<Endpoint>, env: Envelope): multiset<Endpoint>
  {
    if closed || !WellFormed(env) then multiset{}
    else if FansOut(env) then All(t - {env.source})
    else multiset(Get(t, Destination(env)))
  }

  /** Only the list under its own id can hold a connection. */
  lemma NamedUnder(t: Table<Endpoint>, c: Endpoint)
    requires Named(t)
    ensures All(t)[c] == multiset(Get(t, c.nodeId))[c]
    ensures forall id :: id != c.nodeId ==> multiset(Get(t, id))[c] == 0
  {
    AllUpdate(t, c.nodeId, []);
    AllHas(t - {c.nodeId}, c);
    forall id | id != c.nodeId ensures multiset(Get(t, id))[c] == 0 {
      assert c !in Get(t, id);
    }
  }

  // ---------------------------------------------------------------------------
  // The in-process transport
  // ---------------------------------------------------------------------------

  /** A gateway takes a new connection of `node`: it is open, the connection cap is not reached, and
      the node is known or the node cap is not reached. */
  ghost predicate Registers(closed: bool, t: Table<Endpoint>, node: string, maxConns: nat, maxNodes: nat)
  {
    !closed && |All(t)| < maxConns && (node in t || |t| < maxNodes)
  }

  class LoopbackTransport {
    const core: Core
    var conns: seq<Endpoint>
    var closed: bool

    constructor (core: Core)
      ensures this.core == core && conns == [] && !closed
    {
      this.core := core;
      conns, closed := [], false;
    }

    /** A new endpoint is remembered for Close even when registering it then fails. */
    method Connect(nodeId: string) returns (r: Outcome, c: Endpoint?)
      requires core.table.Valid()
      modifies this, core.table, core.table.Repr
      ensures core.table.Valid() && fresh(core.table.Repr - old(core.table.Repr)) && closed == old(closed)
      ensures c != null <==> r.Ok?
      ensures r.Ok? <==>
              !old(closed) && Registers(old(core.closed), old(core.table.contents), nodeId, core.table.maxConns, core.table.maxNodes)
      ensures r.Ok? ==> !core.closed && fresh(c) && c.nodeId == nodeId && c.inbox == [] && !c.closed
      ensures r.Ok? ==> core.table.contents == Routing.Add(old(core.table.contents), nodeId, c) && conns == old(conns) + [c]
      ensures r.Err? ==> core.table.contents == old(core.table.contents)
      ensures closed ==> r == Err(Closed) && conns == old(conns)
      ensures !closed ==> |conns| == |old(conns)| + 1 && conns[..|old(conns)|] == old(conns)
    {
      hide RoutingTable.Valid, All;
      if closed {
        return Err(Closed), null;
      }
      var made := new Endpoint(nodeId);
      conns := conns + [made];
      r := core.Register(made);
      c := if r.Ok? then made else null;
    }

    /** Takes every connection of this transport out of the table, once each, and closes it. */
    method Close()
      requires core.table.Valid()
      modifies this, core.table, core.table.Repr, conns`closed
      ensures core.table.Valid() && closed
      ensures old(closed) ==> core.table.contents == old(core.table.contents)
      ensures !old(closed) ==> conns == [] && All(core.table.contents) == old(All(core.table.contents)) - multiset(old(conns))
      ensures !old(closed) ==> forall c :: c in old(conns) ==> c.closed
    {
      hide RoutingTable.Valid, All;
      if closed {
        return;
      }
      closed := true;
      var all := conns;
      conns := [];
      DropAll(all);
    }

    method DropOne(c: Endpoint)
      requires core.table.Valid()
      modifies core.table, core.table.Repr, c`closed
      ensures core.table.Valid() && fresh(core.table.Repr - old(core.table.Repr))
      ensures c.closed && All(core.table.contents) == LessOne(old(All(core.table.contents)), c)
    {
      hide RoutingTable.Valid, All;
      core.Unregister(c);
      c.Close();
    }

    method DropAll(all: seq<Endpoint>)
      requires core.table.Valid()
      modifies core.table, core.table.Repr, all`closed
      ensures core.table.Valid() && All(core.table.contents) == old(All(core.table.contents)) - multiset(all)
      ensures forall c :: c in all ==> c.closed
    {
      hide *;
      ghost var was := All(core.table.contents);
      NothingTaken(was, all);
      var i := 0;
      while i < |all|
        invariant i <= |all| && core.table.Valid() && fresh(core.table.Repr - old(core.table.Repr))
        invariant All(core.table.contents) == Minus(was, all, i)
        invariant forall c :: c in all[..i] ==> c.closed
      {
        MinusMore(was, all, i);
        DropOne(all[i]);
        assert all[..i + 1] == all[..i] + [all[i]];
        i := i + 1;
      }
      assert all[..i] == all;
      AllMinus(was, all);
    }
  }

  ghost function LessOne(m: multiset<Endpoint>, c: Endpoint): multiset<Endpoint>
  {
    m - multiset{c}
  }

  ghost function Minus(m: multiset<Endpoint>, s: seq<Endpoint>, i: nat): multiset<Endpoint>
    requires i <= |s|
  {
    m - multiset(s[..i])
  }

  lemma NothingTaken(m: multiset<Endpoint>, s: seq<Endpoint>)
    ensures Minus(m, s, 0) == m
  {
  }

  lemma MinusMore(m: multiset<Endpoint>, s: seq<Endpoint>, i: nat)
    requires i < |s|
    ensures LessOne(Minus(m, s, i), s[i]) == Minus(m, s, i + 1)
  {
    assert s[..i + 1] == s[..i] + [s[i]];
  }

  lemma AllMinus(m: multiset<Endpoint>, s: seq<Endpoint>)
    ensures Minus(m, s, |s|) == m - multiset(s)
  {
    assert s[..|s|] == s;
  }

  function Members(m: multiset<Endpoint>): set<Endpoint>
  {
    set c | c in m
  }

  ghost function Look(m: multiset<Endpoint>): View
    reads Members(m)
  {
    map c | c in Members(m) :: State(c.closed, c.inbox)
  }

  ghost function Offered(v: View, m: multiset<Endpoint>, env: Envelope): View
  {
    map c | c in v :: Filled(v[c], env, m[c])
  }

  ghost predicate AllTaken(v: View, m: multiset<Endpoint>)
  {
    forall c :: c in v ==> Accepted(v[c], m[c]) == m[c]
  }

  /** The verdict on sending to all of `order` is the error of the first that refused. */
  ghost predicate FirstError(v: View, order: seq<Endpoint>, r: Outcome)
  {
    Covers(v, order) && Verdict(v, order, |order|, r)
  }

  lemma NobodyToOffer(env: Envelope)
    ensures Look(multiset{}) == Offered(Look(multiset{}), multiset{}, env)
  {
  }

  lemma SameView(targets: seq<Endpoint>)
    ensures ViewOf(targets) == Look(multiset(targets))
  {
    assert forall c :: c in targets <==> c in Members(multiset(targets));
  }

  /** The part of the table already gone through. */
  ghost function Done(t: Table<Endpoint>, left: set<string>, source: string): Table<Endpoint>
  {
    map id | id in t && id !in left && id != source :: t[id]
  }

  lemma NothingDone(t: Table<Endpoint>, source: string)
    ensures All(Done(t, t.Keys, source)) == multiset{} && Done(t, {}, source) == t - {source}
  {
    assert Done(t, t.Keys, source) == map[];
  }

  lemma OneMoreDone(t: Table<Endpoint>, left: set<string>, source: string, id: string)
    requires id in t && id in left
    ensures All(Done(t, left - {id}, source)) ==
            All(Done(t, left, source)) + if id == source then multiset{} else multiset(t[id])
  {
    hide All;
    var done := Done(t, left, source);
    if id == source {
      assert Done(t, left - {id}, source) == done;
    } else {
      assert Done(t, left - {id}, source) == done[id := t[id]] && done - {id} == done;
      AllUpdate(done, id, t[id]);
    }
  }

  lemma SentToAll(v: View, targets: seq<Endpoint>, env: Envelope, r: Outcome)
    requires v.Keys == Members(multiset(targets)) && Covers(v, targets) && Verdict(v, targets, |targets|, r)
    ensures Delivered(v, targets, |targets|, env) == Offered(v, multiset(targets), env)
    ensures r.Ok? <==> AllTaken(v, multiset(targets))
  {
    assert targets[..|targets|] == targets;
    OkMeansAllTaken(v, targets);
  }
}
