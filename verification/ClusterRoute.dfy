/** A node's Route calls over its own gateway, with one cached connection per destination. */
module ClusterRoute {
  import opened Envelopes
  import opened Routing
  import opened GatewayTable
  import opened Gateway
  import opened GatewayCore

  datatype Routed = Received(env: Envelope) | Failed

  predicate Takes(s: State)
  {
    !s.closed && |s.inbox| < INBOX_CAP
  }

  function Put(s: State, env: Envelope): seq<Envelope>
  {
    if Takes(s) then s.inbox + [env] else s.inbox
  }

  /** The connection cache of one source node; `own` is the node's own endpoint on its gateway. */
  class PairCache {
    const self: string
    const own: Endpoint
    const loop: LoopbackTransport
    var routes: map<string, Endpoint>

    /** What the gateway has registered for a destination: one cached connection, and for the node
        itself its own endpoint ahead of it. */
    ghost function Listed(dst: string): seq<Endpoint>
      reads this
    {
      if dst == self then if dst in routes then [own, routes[dst]] else [own]
      else if dst in routes then [routes[dst]] else []
    }

    ghost predicate Valid()
      reads this, loop, loop.core, loop.core.table, loop.core.table.Repr
    {
      && loop.core.table.Valid()
      && own.nodeId == self
      && (forall id :: id in routes ==> routes[id].nodeId == id && routes[id] != own)
      && (forall id :: Get(loop.core.table.contents, id) == Listed(id))
    }

    constructor (self: string, own: Endpoint, loop: LoopbackTransport)
      requires loop.core.table.Valid() && own.nodeId == self
      requires forall id :: Get(loop.core.table.contents, id) == if id == self then [own] else []
      ensures Valid() && routes == map[] && this.self == self && this.own == own && this.loop == loop
    {
      hide RoutingTable.Valid;
      this.self, this.own, this.loop, routes := self, own, loop, map[];
    }

    /** What the cached inbox for `dst` holds; nothing when there is none yet. */
    ghost function Inbox(dst: string): seq<Envelope>
      reads this, if dst in routes then {routes[dst]} else {}
    {
      if dst in routes then routes[dst].inbox else []
    }

    /** A connection for `dst` is cached, or the transport is open and the gateway takes a new one. */
    ghost predicate Connectable(dst: string)
      reads this, loop, loop.core, loop.core.table
    {
      dst in routes ||
      (!loop.closed &&
       Registers(loop.core.closed, loop.core.table.contents, dst, loop.core.table.maxConns, loop.core.table.maxNodes))
    }

    /** The connection for `dst`, made and registered on first use only. */
    method RouteConn(dst: string) returns (conn: Endpoint?)
      requires Valid()
      modifies this, loop, loop.core.table, loop.core.table.Repr
      ensures Valid() && fresh(loop.core.table.Repr - old(loop.core.table.Repr))
      ensures conn != null <==> old(Connectable(dst))
      ensures dst in old(routes) ==> conn == old(routes[dst]) && routes == old(routes)
      ensures dst in old(routes) ==> loop.core.table.contents == old(loop.core.table.contents)
      ensures dst !in old(routes) ==> if conn == null then routes == old(routes) else fresh(conn) && routes == old(routes)[dst := conn]
      ensures dst !in old(routes) && conn != null ==> conn.inbox == [] && !conn.closed && !loop.core.closed
    {
      hide RoutingTable.Valid, Registers;
      if dst in routes {
        return routes[dst];
      }
      ghost var t := loop.core.table.contents;
      var r;
      r, conn := loop.Connect(dst);
      if conn != null {
        routes := routes[dst := conn];
        forall id ensures Get(loop.core.table.contents, id) == Listed(id) {
          assert Get(t, id) == old(Listed(id));
          assert [own] + [conn] == [own, conn] && [] + [conn] == [conn];
        }
      }
    }

    /** Sends through the gateway: the cached connection and, for the node itself, its own endpoint
        each take the envelope if they can, and the send succeeds only if all of them do. */
    method Offer(conn: Endpoint, env: Envelope) returns (sent: Outcome)
      requires Valid() && WellFormed(env) && env.kind.Dispatch? && env.dest != ""
      requires env.dest in routes && routes[env.dest] == conn
      modifies conn`inbox, (if env.dest == self then {own} else {})`inbox
      ensures conn != own
      ensures sent.Ok? <==>
              && !loop.core.closed && Takes(old(State(conn.closed, conn.inbox)))
              && (env.dest == self ==> Takes(old(State(own.closed, own.inbox))))
      ensures conn.inbox == if loop.core.closed then old(conn.inbox) else Put(old(State(conn.closed, conn.inbox)), env)
      ensures env.dest == self ==>
                own.inbox == if loop.core.closed then old(own.inbox) else Put(old(State(own.closed, own.inbox)), env)
    {
      hide RoutingTable.Valid, WellFormed, All, FirstError, AllTaken, Offered, ReceiversIn, Listed, Takes, Put;
      ghost var m := loop.core.Receivers(env);
      ghost var twice := env.dest == self;
      OnlyReceivers(env, conn);
      ghost var view := Look(m);
      ghost var order;
      sent, order := loop.core.Route(env);
      if !loop.core.closed {
        OfferedTo(view, m, conn, own, twice, env);
        assert Look(m)[conn] == State(conn.closed, conn.inbox);
        assert twice ==> Look(m)[own] == State(own.closed, own.inbox);
        assert order != [];
      } else {
        assert order == [];
      }
    }

    /** Routes one dispatch and takes one envelope back, unless the caller gives up waiting. A route
        to the node itself also leaves a copy with its own endpoint, which nothing here takes out. */
    method Route(dst: string, env: Envelope, cancelled: bool) returns (r: Routed)
      requires Valid() && dst != "" && WellFormed(env) && env.kind.Dispatch? && env.dest == dst
      modifies this, loop, loop.core.table, loop.core.table.Repr,
               (if dst in routes then {routes[dst]} else {})`inbox, (if dst == self then {own} else {})`inbox
      ensures Valid() && routes.Keys >= old(routes).Keys
      ensures forall id :: id in old(routes) ==> routes[id] == old(routes[id])
      ensures r.Received? <==>
              && !cancelled && old(Connectable(dst)) && !old(loop.core.closed)
              && (dst in old(routes) ==> Takes(old(State(routes[dst].closed, routes[dst].inbox))))
              && (dst == self ==> Takes(old(State(own.closed, own.inbox))))
      ensures r.Received? && dst !in old(routes) ==> r.env == env
      ensures r.Received? ==> r.env == (old(Inbox(dst)) + [env])[0] && Inbox(dst) == (old(Inbox(dst)) + [env])[1..]
      ensures r.Received? ==> !cancelled && old(|Inbox(dst)|) < INBOX_CAP
      ensures r.Received? && dst == self ==> own.inbox == old(own.inbox) + [env] && old(|own.inbox|) < INBOX_CAP
      ensures r.Failed? ==>
                || Inbox(dst) == old(Inbox(dst))
                || (Inbox(dst) == old(Inbox(dst)) + [env] &&
                    (cancelled || (dst == self && !Takes(old(State(own.closed, own.inbox))))))
    {
      hide RoutingTable.Valid, Registers, PairCache.Valid, PairCache.Listed, PairCache.Connectable, WellFormed;
      var conn := RouteConn(dst);
      if conn == null {
        return Failed;
      }
      var sent := Offer(conn, env);
      if sent.Err? {
        return Failed;
      }
      if cancelled {
        return Failed;
      }
      r := Received(conn.inbox[0]);
      conn.inbox := conn.inbox[1..];
    }

    /** The receivers of a message to `env.dest`, each registered once. */
    lemma OnlyReceivers(env: Envelope, conn: Endpoint)
      requires Valid() && WellFormed(env) && env.kind.Dispatch? && env.dest != ""
      requires env.dest in routes && routes[env.dest] == conn
      ensures loop.core.closed ==> loop.core.Receivers(env) == multiset{}
      ensures !loop.core.closed ==>
                loop.core.Receivers(env) == if env.dest == self then multiset{conn, own} else multiset{conn}
      ensures conn != own
    {
      hide All;
      assert Get(loop.core.table.contents, env.dest) == Listed(env.dest);
    }
  }

  /** What an offer to one or two endpoints does. */
  lemma OfferedTo(v: View, m: multiset<Endpoint>, conn: Endpoint, own: Endpoint, twice: bool, env: Envelope)
    requires conn != own && m == (if twice then multiset{conn, own} else multiset{conn}) && v.Keys == Members(m)
    ensures conn in v && (twice ==> own in v)
    ensures AllTaken(v, m) <==> Takes(v[conn]) && (twice ==> Takes(v[own]))
    ensures Offered(v, m, env)[conn] == State(v[conn].closed, Put(v[conn], env))
    ensures twice ==> Offered(v, m, env)[own] == State(v[own].closed, Put(v[own], env))
  {
    hide Takes, Put, Filled, Accepted;
    assert conn in Members(m) && (twice ==> own in Members(m));
    assert m[conn] == 1 && (twice ==> m[own] == 1);
    OneOffer(v[conn], env);
    if twice {
      OneOffer(v[own], env);
    }
    assert forall c :: c in v ==> c == conn || (twice && c == own);
  }

  lemma OneOffer(s: State, env: Envelope)
    ensures Accepted(s, 1) == (if Takes(s) then 1 else 0)
    ensures Filled(s, env, 1) == State(s.closed, Put(s, env))
  {
    assert Copies(env, 1) == [env];
    assert s.inbox + Copies(env, 0) == s.inbox;
  }
}
