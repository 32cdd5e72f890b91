/** Bringing a cluster of node agents up, all or nothing. */
module BringUp {

  /** One composed node. `online` is its discovery host and gateway, `server` its network gateway. */
  class NodeAgent {
    const id: string
    var started: bool
    var stopped: bool
    var online: bool
    var server: bool
    var bootstrap: seq<string>

    constructor (id: string)
      ensures this.id == id && !started && !stopped && !online && !server && bootstrap == []
    {
      this.id := id;
      started, stopped, online, server, bootstrap := false, false, false, false, [];
    }

    /** `hostUp` and `attached` say whether the discovery host and the gateway endpoint come up. */
    method Start(hostUp: bool, attached: bool) returns (ok: bool)
      modifies `started, `online
      ensures ok == (!old(started) && !stopped && hostUp && attached)
      ensures started == (old(started) || ok) && online == (old(online) || ok)
    {
      if started || stopped || !hostUp || !attached {
        return false;
      }
      started, online := true, true;
      return true;
    }

    method Stop()
      modifies `stopped, `online, `server
      ensures stopped
      ensures if old(stopped) then online == old(online) && server == old(server)
              else if started then !online && !server
              else online == old(online) && server == old(server)
    {
      if stopped {
        return;
      }
      stopped := true;
      if started {
        online, server := false, false;
      }
    }

    /** `listens` says whether the socket can be bound. */
    method StartServer(listens: bool) returns (ok: bool)
      modifies `server
      ensures ok == (started && !stopped && (old(server) || listens))
      ensures server == (old(server) || ok)
    {
      if !started || stopped {
        return false;
      }
      if server {
        return true;
      }
      if listens {
        server := true;
      }
      return listens;
    }

    method StopServer()
      modifies `server
      ensures !server
    {
      server := false;
    }
  }

  datatype Status = Status(started: bool, stopped: bool, online: bool, server: bool, bootstrap: seq<string>)

  /** What the environment lets happen to each agent during a bring-up. */
  datatype Luck = Luck(hostUp: bool, attached: bool, seeded: bool, listens: bool)

  class NodeCluster {
    const agents: seq<NodeAgent>

    ghost predicate Valid()
    {
      forall i, j :: 0 <= i < j < |agents| ==> agents[i] != agents[j]
    }

    constructor (agents: seq<NodeAgent>)
      requires forall i, j :: 0 <= i < j < |agents| ==> agents[i] != agents[j]
      ensures Valid() && this.agents == agents
    {
      this.agents := agents;
    }

    ghost function At(i: nat): Status
      requires i < |agents|
      reads agents
    {
      Status(agents[i].started, agents[i].stopped, agents[i].online, agents[i].server, agents[i].bootstrap)
    }

    /** An agent as it is handed to its own start: every agent but the anchor is first told to
        bootstrap from the anchor alone. */
    ghost function Joining(st: Status, i: nat): Status
      requires |agents| > 0
    {
      if i == 0 then st else st.(bootstrap := [agents[0].id])
    }

    lemma Others(i: nat, k: nat)
      requires Valid() && i < |agents| && k < |agents| && i != k
      ensures agents[i] != agents[k]
    {
    }

    /** Stops the first `n` agents, last started first. */
    method RollBack(n: nat)
      requires Valid() && n <= |agents|
      requires forall i: nat :: i < n ==> At(i).started && !At(i).stopped
      modifies agents
      ensures forall i: nat :: i < n ==> At(i) == old(At(i)).(stopped := true, online := false, server := false)
      ensures forall i: nat :: n <= i < |agents| ==> At(i) == old(At(i))
    {
      var i := n;
      while i > 0
        invariant 0 <= i <= n
        invariant forall k: nat :: k < i ==> At(k) == old(At(k))
        invariant forall k: nat :: i <= k < n ==> At(k) == old(At(k)).(stopped := true, online := false, server := false)
        invariant forall k: nat :: n <= k < |agents| ==> At(k) == old(At(k))
      {
        i := i - 1;
        StopOne(i);
      }
    }

    method StopOne(i: nat)
      requires Valid() && i < |agents| && At(i).started && !At(i).stopped
      modifies agents[i]
      ensures At(i) == old(At(i)).(stopped := true, online := false, server := false)
      ensures forall k: nat :: k < |agents| && k != i ==> At(k) == old(At(k))
    {
      agents[i].Stop();
      forall k: nat | k < |agents| && k != i ensures At(k) == old(At(k)) {
        Others(i, k);
      }
    }

    predicate Startable(st: Status, l: Luck)
    {
      !st.started && !st.stopped && l.hostUp && l.attached
    }

    /** Hands one agent to its start. */
    method StartOne(i: nat, l: Luck) returns (ok: bool)
      requires Valid() && i < |agents|
      modifies agents[i]
      ensures ok == Startable(old(At(i)), l)
      ensures At(i) == if ok then Joining(old(At(i)), i).(started := true, online := true) else Joining(old(At(i)), i)
      ensures forall k: nat :: k < |agents| && k != i ==> At(k) == old(At(k))
    {
      if i > 0 {
        agents[i].bootstrap := [agents[0].id];
      }
      ok := agents[i].Start(l.hostUp, l.attached);
      forall k: nat | k < |agents| && k != i ensures At(k) == old(At(k)) {
        Others(i, k);
      }
    }

    /** Starts the agents in order until one fails; `n` is how many came up. */
    method StartAgents(luck: seq<Luck>) returns (n: nat)
      requires Valid() && |luck| == |agents|
      modifies agents
      ensures n <= |agents| && forall i: nat :: i < n ==> Startable(old(At(i)), luck[i])
      ensures forall i: nat :: i < n ==> At(i) == Joining(old(At(i)), i).(started := true, online := true)
      ensures n < |agents| ==> !Startable(old(At(n)), luck[n]) && At(n) == Joining(old(At(n)), n)
      ensures forall i: nat :: n < i < |agents| ==> At(i) == old(At(i))
    {
      n := 0;
      while n < |agents|
        invariant n <= |agents| && forall i: nat :: i < n ==> Startable(old(At(i)), luck[i])
        invariant forall i: nat :: i < n ==> At(i) == Joining(old(At(i)), i).(started := true, online := true)
        invariant forall i: nat :: n <= i < |agents| ==> At(i) == old(At(i))
      {
        var ok := StartOne(n, luck[n]);
        if !ok {
          return;
        }
        n := n + 1;
      }
    }

    /** Either every agent is up, each joiner with the anchor as its one bootstrap peer; or every
        agent this call brought up is stopped again and no other agent has been started or stopped.
        The agent whose start failed, unless it is the anchor, keeps the bootstrap list it was
        given. */
    method Start(luck: seq<Luck>) returns (ok: bool, n: nat)
      requires Valid() && |luck| == |agents|
      modifies agents
      ensures ok <==> |agents| > 0 && forall i: nat :: i < |agents| ==> Startable(old(At(i)), luck[i]) && luck[i].seeded
      ensures ok ==> forall i: nat :: i < |agents| ==> At(i) == Joining(old(At(i)), i).(started := true, online := true)
      ensures n <= |agents| && forall i: nat :: i < n ==> Startable(old(At(i)), luck[i])
      ensures n < |agents| ==> !Startable(old(At(n)), luck[n])
      ensures !ok ==> forall i: nat :: i < n ==>
                At(i) == Joining(old(At(i)), i).(started := true, stopped := true, online := false, server := false)
      ensures !ok && n < |agents| ==> At(n) == Joining(old(At(n)), n)
      ensures !ok ==> forall i: nat :: n < i < |agents| ==> At(i) == old(At(i))
    {
      if |agents| == 0 {
        return false, 0;
      }
      n := StartAgents(luck);
      if n < |agents| {
        RollBack(n);
        return false, n;
      }
      var i := 0;
      while i < |agents|
        invariant i <= |agents| && forall k :: 0 <= k < i ==> luck[k].seeded
      {
        if !luck[i].seeded {
          RollBack(n);
          return false, n;
        }
        i := i + 1;
      }
      return true, n;
    }

    /** After a failed Start an agent that it did not bring up is as it was before exactly when it is
        the anchor, comes after the one that failed, or already had the anchor as its one peer. */
    method FailedStart(luck: seq<Luck>, i: nat) returns (ok: bool, n: nat)
      requires Valid() && |luck| == |agents| && i < |agents|
      modifies agents
      ensures !ok && i >= n ==>
                (At(i) == old(At(i)) <==> i == 0 || i > n || old(At(i)).bootstrap == [agents[0].id])
      ensures !ok && i >= n ==> At(i) == old(At(i)).(bootstrap := At(i).bootstrap)
    {
      ok, n := Start(luck);
    }

    /** A second Start succeeds exactly when the first failed at the anchor, with every agent still
        startable and better luck; an agent that was ever started cannot be started again. */
    method StartAgain(luck: seq<Luck>, retry: seq<Luck>) returns (first: bool, second: bool)
      requires Valid() && |luck| == |agents| == |retry|
      modifies agents
      ensures second <==>
              && |agents| > 0 && !(luck[0].hostUp && luck[0].attached)
              && forall i: nat :: i < |agents| ==> Startable(old(At(i)), retry[i]) && retry[i].seeded
    {
      var n, m;
      first, n := Start(luck);
      label again:
      second, m := Start(retry);
      if |agents| > 0 {
        assert n == 0 <==> !Startable(old(At(0)), luck[0]);
        if n == 0 {
          assert forall i: nat :: i < |agents| ==> old@again(At(i)) == old(At(i));
        } else {
          assert old@again(At(0)).started;
        }
      }
    }

    /** Closes the servers of the listed agents again. */
    method CloseServers(mine: seq<NodeAgent>)
      requires forall a :: a in mine ==> a in agents
      modifies agents`server
      ensures forall a :: a in mine ==> !a.server
      ensures forall a :: a in agents && a !in mine ==> a.server == old(a.server)
    {
      var i := |mine|;
      while i > 0
        invariant 0 <= i <= |mine|
        invariant forall k :: i <= k < |mine| ==> !mine[k].server
        invariant forall a :: a in agents && a !in mine ==> a.server == old(a.server)
      {
        i := i - 1;
        assert mine[i] in mine;
        mine[i].StopServer();
      }
    }

    /** Either every server is up, or exactly the servers that ran before the call run. */
    method StartServers(luck: seq<Luck>) returns (ok: bool)
      requires Valid() && |luck| == |agents|
      modifies agents`server
      ensures ok <==> forall i :: 0 <= i < |agents| ==>
                agents[i].started && !agents[i].stopped && (old(agents[i].server) || luck[i].listens)
      ensures forall i :: 0 <= i < |agents| ==> agents[i].server == if ok then true else old(agents[i].server)
    {
      var mine := [];
      var i := 0;
      while i < |agents|
        invariant i <= |agents|
        invariant forall a :: a in mine ==> a in agents[..i] && !old(a.server)
        invariant forall k :: 0 <= k < i ==> agents[k].server && (old(agents[k].server) || agents[k] in mine)
        invariant forall k :: 0 <= k < i ==> agents[k].started && !agents[k].stopped && (old(agents[k].server) || luck[k].listens)
        invariant forall k :: i <= k < |agents| ==> agents[k].server == old(agents[k].server)
      {
        var alreadyUp := agents[i].server;
        ok := agents[i].StartServer(luck[i].listens);
        if !ok {
          CloseServers(mine);
          return;
        }
        if !alreadyUp {
          mine := mine + [agents[i]];
        }
        i := i + 1;
      }
      return true;
    }
  }

  /** A failed Start does touch an agent it never brought up: the joiner that could not come up is
      left with the anchor as its bootstrap peer. */
  method FailedJoinerKeepsAnchor() returns (cluster: NodeCluster, ok: bool)
    ensures !ok && |cluster.agents| == 2 && cluster.agents[1].bootstrap == [cluster.agents[0].id]
    ensures !cluster.agents[1].started && !cluster.agents[1].stopped && cluster.agents[0].stopped
  {
    var a := new NodeAgent("a");
    var b := new NodeAgent("b");
    cluster := new NodeCluster([a, b]);
    var n;
    ok, n := cluster.Start([Luck(true, true, true, true), Luck(false, true, true, true)]);
    assert cluster.At(1).bootstrap == ["a"];
    assert cluster.At(0).stopped;
  }
}
