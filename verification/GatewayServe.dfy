/** Serving one framed connection: the hello, the registration, and the loop that routes what
    arrives through the gateway. */
module GatewayServe {
  import opened Options
  import opened Bytes
  import opened Envelopes
  import opened Routing
  import opened GatewayTable
  import opened Gateway
  import opened GatewayCore
  import opened Frames
  import opened FrameStreams

  // ---------------------------------------------------------------------------
  // What routing a list of envelopes does to the endpoints
  // ---------------------------------------------------------------------------

  /** The endpoints of `v` after routing `list` in order over a table that does not change. */
  ghost function RoutedAll(v: View, closed: bool, t: Table<Endpoint>, list: seq<Envelope>): View
  {
    if list == [] then v
    else
      var n := |list| - 1;
      Offered(RoutedAll(v, closed, t, list[..n]), ReceiversIn(closed, t, list[n]), list[n])
  }

  lemma RoutedSnoc(v: View, closed: bool, t: Table<Endpoint>, list: seq<Envelope>, env: Envelope)
    ensures RoutedAll(v, closed, t, list + [env]) ==
            Offered(RoutedAll(v, closed, t, list), ReceiversIn(closed, t, env), env)
  {
    assert (list + [env])[..|list|] == list;
  }

  /** Only registered connections receive. */
  lemma ReceiversRegistered(closed: bool, t: Table<Endpoint>, env: Envelope)
    ensures Members(ReceiversIn(closed, t, env)) <= Members(All(t))
  {
    hide All, WellFormed, Destination;
    forall c | c in ReceiversIn(closed, t, env) ensures c in All(t) {
      AllHas(t, c);
      AllHas(t - {env.source}, c);
    }
  }

  lemma NotOffered(s: State, env: Envelope)
    ensures Filled(s, env, 0) == s
  {
    assert s.inbox + Copies(env, 0) == s.inbox;
  }

  /** Endpoints nobody touched look the same. */
  twostate lemma LookFrame(m: multiset<Endpoint>)
    requires forall c :: c in m ==> c.closed == old(c.closed) && c.inbox == old(c.inbox)
    ensures Look(m) == old(Look(m))
  {
  }

  /** Routes one envelope, seen from all of `everyone`. */
  method RouteAmong(core: Core, env: Envelope, ghost everyone: multiset<Endpoint>)
    requires core.table.Valid() && Members(All(core.table.contents)) <= Members(everyone)
    modifies Members(everyone)`inbox
    ensures Look(everyone) == Offered(old(Look(everyone)), old(core.Receivers(env)), env)
  {
    hide All, WellFormed, Destination, FirstError, AllTaken, RoutingTable.Valid, Filled;
    ghost var m := core.Receivers(env);
    ReceiversRegistered(core.closed, core.table.contents, env);
    var _, _ := core.Route(env);
    forall c | c in everyone ensures Look(everyone)[c] == Filled(old(Look(everyone))[c], env, m[c]) {
      if c in m {
        assert Look(m)[c] == Filled(old(Look(m))[c], env, m[c]);
      } else {
        NotOffered(old(State(c.closed, c.inbox)), env);
      }
    }
  }

  // ---------------------------------------------------------------------------
  // The connection
  // ---------------------------------------------------------------------------

  /** One turn of the loop: reads an envelope, fills in its source and routes it. An envelope that no
      receiver takes is not an error here. */
  method PumpOne(core: Core, r: Reader, k: Codec, nodeId: string, ghost everyone: multiset<Endpoint>)
    returns (env: Option<Envelope>)
    requires core.table.Valid() && Members(All(core.table.contents)) <= Members(everyone)
    modifies r, Members(everyone)`inbox
    ensures match ParseEnvelope(k, old(r.data))
            case Bad => env == None && Look(everyone) == old(Look(everyone))
            case Good(e, rest) =>
              && env == Some(Stamp(e, nodeId)) && r.data == rest
              && Look(everyone) == Offered(old(Look(everyone)), ReceiversIn(core.closed, core.table.contents, env.value), env.value)
  {
    hide ParseEnvelope, All, RoutingTable.Valid, Offered, ReceiversIn;
    var e := ReadFrame(r, k);
    LookFrame(everyone);
    if e.None? {
      return None;
    }
    var stamped := if e.value.source == "" then e.value.(source := nodeId) else e.value;
    RouteAmong(core, stamped, everyone);
    return Some(stamped);
  }

  /** Reads and routes until the first frame it cannot take. */
  method ReadPump(core: Core, r: Reader, k: Codec, nodeId: string, ghost everyone: multiset<Endpoint>)
    returns (routed: seq<Envelope>)
    requires core.table.Valid() && Members(All(core.table.contents)) <= Members(everyone)
    modifies r, Members(everyone)`inbox
    ensures routed == Stamped(ReadAll(k, old(r.data)), nodeId)
    ensures Look(everyone) == RoutedAll(old(Look(everyone)), core.closed, core.table.contents, routed)
  {
    hide ParseEnvelope, Stamped, Stamp, All, RoutedAll, RoutingTable.Valid, Offered, ReceiversIn, Look;
    routed := [];
    ghost var left := ReadAll(k, r.data);
    ghost var start := Look(everyone);
    NothingRouted(start, core.closed, core.table.contents);
    var reading := true;
    while reading
      invariant Stamped(ReadAll(k, old(r.data)), nodeId) == routed + Stamped(left, nodeId)
      invariant left == if reading then ReadAll(k, r.data) else []
      invariant core.table.Valid() && Look(everyone) == RoutedAll(start, core.closed, core.table.contents, routed)
      decreases reading, |r.data|
    {
      ghost var p := ParseEnvelope(k, r.data);
      var env := PumpOne(core, r, k, nodeId, everyone);
      if env.None? {
        reading := false;
        left := [];
      } else {
        StampedCons(p.value, ReadAll(k, p.rest), nodeId);
        RoutedSnoc(start, core.closed, core.table.contents, routed, env.value);
        routed := routed + [env.value];
        left := ReadAll(k, r.data);
      }
    }
    NoneStamped(nodeId);
  }

  lemma NothingRouted(v: View, closed: bool, t: Table<Endpoint>)
    ensures RoutedAll(v, closed, t, []) == v
  {
  }

  lemma NoneStamped(id: string)
    ensures Stamped([], id) == []
  {
  }

  /** The endpoints after a session: those registered before it and the connection itself, which
      starts empty, with everything it sent routed over the table that includes it. */
  ghost function SessionView(v: View, conn: Endpoint, closed: bool, t: Table<Endpoint>, routed: seq<Envelope>): View
  {
    RoutedAll(v[conn := State(false, [])], closed, Add(t, conn.nodeId, conn), routed)
  }

  /** Registers a connection that is not in the table yet; when that fails, the connection is dropped,
      which takes nothing out. */
  method Enroll(core: Core, conn: Endpoint) returns (ok: bool)
    requires core.table.Valid() && conn !in All(core.table.contents) && !conn.closed && conn.inbox == []
    modifies core.table, core.table.Repr
    ensures core.table.Valid() && fresh(core.table.Repr - old(core.table.Repr))
    ensures ok <==> Registers(core.closed, old(core.table.contents), conn.nodeId, core.table.maxConns, core.table.maxNodes)
    ensures ok ==> core.table.contents == Add(old(core.table.contents), conn.nodeId, conn)
    ensures All(core.table.contents) == old(All(core.table.contents)) + if ok then multiset{conn} else multiset{}
  {
    hide RoutingTable.Valid, All;
    AddAll(core.table.contents, conn.nodeId, conn);
    var reg := core.Register(conn);
    ok := reg.Ok?;
    if !ok {
      Unlisted(All(core.table.contents), conn);
      core.Unregister(conn);
    }
  }

  /** Routes what a registered connection sends and takes it out of the table. */
  method Session(core: Core, r: Reader, k: Codec, conn: Endpoint, ghost everyone: multiset<Endpoint>)
    returns (routed: seq<Envelope>)
    requires core.table.Valid() && everyone == All(core.table.contents)
    modifies r, core.table, core.table.Repr, Members(everyone)`inbox
    ensures core.table.Valid() && All(core.table.contents) == everyone - multiset{conn}
    ensures routed == Stamped(ReadAll(k, old(r.data)), conn.nodeId)
    ensures Look(everyone) == RoutedAll(old(Look(everyone)), core.closed, old(core.table.contents), routed)
  {
    hide RoutingTable.Valid, All, Stamped, ReadAll, RoutedAll;
    routed := ReadPump(core, r, k, conn.nodeId, everyone);
    label pumped:
    core.Unregister(conn);
    LookFrame@pumped(everyone);
  }

  /** Registers the connection, routes what it sends, and takes it out of the table again. */
  method Attach(core: Core, r: Reader, k: Codec, conn: Endpoint, ghost before: multiset<Endpoint>)
    returns (routed: Option<seq<Envelope>>)
    requires core.table.Valid() && before == All(core.table.contents)
    requires conn !in before && !conn.closed && conn.inbox == []
    modifies r, core.table, core.table.Repr, Members(before)`inbox, conn`inbox
    ensures core.table.Valid() && All(core.table.contents) == before
    ensures routed.Some? <==> Registers(core.closed, old(core.table.contents), conn.nodeId, core.table.maxConns, core.table.maxNodes)
    ensures routed.None? ==> Look(before) == old(Look(before))
    ensures routed.Some? ==> routed.value == Stamped(ReadAll(k, old(r.data)), conn.nodeId)
    ensures routed.Some? ==>
              Look(before + multiset{conn}) ==
              SessionView(old(Look(before)), conn, core.closed, old(core.table.contents), routed.value)
  {
    hide *;
    ghost var everyone := before + multiset{conn};
    ghost var view, t := Look(before), core.table.contents;
    OneMoreView(before, view, conn);
    MoreMembers(before, conn);
    var ok := Enroll(core, conn);
    LookFrame(before);
    LookFrame(everyone);
    if !ok {
      Nobody(before);
      return None;
    }
    var sent := Session(core, r, k, conn, everyone);
    GivenBack(before, conn);
    SessionViewIs(view, conn, core.closed, t, sent);
    return Some(sent);
  }

  lemma SessionViewIs(v: View, conn: Endpoint, closed: bool, t: Table<Endpoint>, routed: seq<Envelope>)
    ensures SessionView(v, conn, closed, t, routed) ==
            RoutedAll(v[conn := State(false, [])], closed, Add(t, conn.nodeId, conn), routed)
  {
  }

  lemma MoreMembers(m: multiset<Endpoint>, c: Endpoint)
    ensures Members(m + multiset{c}) == Members(m) + {c}
  {
  }

  lemma Nobody(m: multiset<Endpoint>)
    ensures m + multiset{} == m
  {
  }

  lemma GivenBack(m: multiset<Endpoint>, c: Endpoint)
    ensures (m + multiset{c}) - multiset{c} == m
  {
  }

  lemma Unlisted(m: multiset<Endpoint>, c: Endpoint)
    requires c !in m
    ensures m - multiset{c} == m
  {
  }

  lemma OneMoreView(m: multiset<Endpoint>, v: View, c: Endpoint)
    requires v == Look(m) && c !in m && !c.closed && c.inbox == []
    ensures Look(m + multiset{c}) == v[c := State(false, [])]
  {
    assert Members(m + multiset{c}) == Members(m) + {c};
  }

  /** Serves one connection. It is turned away before anything is routed when its hello is not valid,
      the transport is closing or the gateway does not register it; otherwise the session is served
      in full, every envelope reaches its receivers in order, and the registration is undone. */
  method ServeConn(core: Core, r: Reader, k: Codec, closing: bool) returns (served: Option<Served>, conn: Endpoint?)
    requires core.table.Valid()
    modifies r, core.table, core.table.Repr, Members(All(core.table.contents))`inbox
    ensures core.table.Valid() && All(core.table.contents) == old(All(core.table.contents))
    ensures served.Some? <==>
            && !closing && Serve(k, old(r.data)).Some?
            && Registers(core.closed, old(core.table.contents), Serve(k, old(r.data)).value.node,
                         core.table.maxConns, core.table.maxNodes)
    ensures served.None? ==> Look(old(All(core.table.contents))) == old(Look(All(core.table.contents)))
    ensures served.Some? ==> served == Serve(k, old(r.data)) && conn != null && fresh(conn) && conn.nodeId == served.value.node
    ensures served.Some? ==>
              Look(old(All(core.table.contents)) + multiset{conn}) ==
              SessionView(old(Look(All(core.table.contents))), conn, core.closed, old(core.table.contents), served.value.routed)
  {
    hide RoutingTable.Valid, All, Stamped, ReadAll, SessionView, DecodeHello, Registers;
    ghost var before := All(core.table.contents);
    var b := ReadRawFrame(r);
    LookFrame(before);
    if b.None? {
      return None, null;
    }
    var hello := DecodeHello(k, b.value);
    if hello.None? || closing {
      return None, null;
    }
    conn := new Endpoint(hello.value);
    LookFrame(before);
    var routed := Attach(core, r, k, conn, before);
    if routed.None? {
      return None, null;
    }
    return Some(Served(hello.value, routed.value)), conn;
  }
}
