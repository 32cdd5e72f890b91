/** The routing table under any sequence of register and unregister calls. */
module RoutingScript {
  import opened Routing
  import opened GatewayTable
  import Sets

  datatype Change = Join(c: Endpoint) | Leave(c: Endpoint)

  // ---------------------------------------------------------------------------
  // The table and the multiset it stands for
  // ---------------------------------------------------------------------------

  ghost function ChangeTable(t: Table<Endpoint>, change: Change, maxConns: nat, maxNodes: nat): Table<Endpoint>
  {
    match change
    case Join(c) => if |All(t)| >= maxConns || (c.nodeId !in t && |t| >= maxNodes) then t else Add(t, c.nodeId, c)
    case Leave(c) => Remove(t, c.nodeId, c)
  }

  ghost function PlayTable(t: Table<Endpoint>, script: seq<Change>, maxConns: nat, maxNodes: nat): Table<Endpoint>
  {
    if script == [] then t
    else
      var n := |script| - 1;
      ChangeTable(PlayTable(t, script[..n], maxConns, maxNodes), script[n], maxConns, maxNodes)
  }

  /** The node ids a multiset of registrations names. */
  ghost function Ids(m: multiset<Endpoint>): set<string>
  {
    set c | c in m :: c.nodeId
  }

  /** A plain multiset with a cap on its size and on the node ids in it. */
  ghost function ChangeBag(m: multiset<Endpoint>, change: Change, maxConns: nat, maxNodes: nat): multiset<Endpoint>
  {
    match change
    case Join(c) =>
      if |m| >= maxConns || (c.nodeId !in Ids(m) && |Ids(m)| >= maxNodes) then m else m + multiset{c}
    case Leave(c) => m - multiset{c}
  }

  ghost function PlayBag(m: multiset<Endpoint>, script: seq<Change>, maxConns: nat, maxNodes: nat): multiset<Endpoint>
  {
    if script == [] then m
    else
      var n := |script| - 1;
      ChangeBag(PlayBag(m, script[..n], maxConns, maxNodes), script[n], maxConns, maxNodes)
  }

  /** The table's keys are exactly the node ids of its registrations. */
  lemma KeysAreIds(t: Table<Endpoint>)
    requires NoneEmpty(t) && Named(t)
    ensures t.Keys == Ids(All(t)) && |t| == |Ids(All(t))|
  {
    hide All;
    forall id | id in t ensures id in Ids(All(t)) {
      var c := t[id][0];
      assert c.nodeId == id;
      AllHas(t, c);
      assert c in All(t);
    }
    forall id | id in Ids(All(t)) ensures id in t {
      var c :| c in All(t) && c.nodeId == id;
      AllHas(t, c);
    }
    assert |t| == |t.Keys|;
  }

  lemma NamedAdd(t: Table<Endpoint>, c: Endpoint)
    requires Named(t)
    ensures Named(Add(t, c.nodeId, c))
  {
  }

  lemma NamedIsOnlyUnder(t: Table<Endpoint>, c: Endpoint)
    requires Named(t)
    ensures OnlyUnder(t, c.nodeId, c)
  {
  }

  /** One change of the table is the same change of its multiset. */
  lemma ChangeRefines(t: Table<Endpoint>, change: Change, maxConns: nat, maxNodes: nat)
    requires NoneEmpty(t) && Named(t)
    ensures var t' := ChangeTable(t, change, maxConns, maxNodes);
            NoneEmpty(t') && Named(t') && All(t') == ChangeBag(All(t), change, maxConns, maxNodes)
  {
    hide All, Named, NoneEmpty, Ids;
    KeysAreIds(t);
    var c := change.c;
    if change.Join? {
      AddAll(t, c.nodeId, c);
      NamedAdd(t, c);
    } else {
      NamedIsOnlyUnder(t, c);
      RemoveAll(t, c.nodeId, c);
      RemovedCount(t, c);
    }
  }

  /** Under any sequence of calls the table stands for the multiset the same calls give. */
  lemma {:induction false} PlayRefines(t: Table<Endpoint>, script: seq<Change>, maxConns: nat, maxNodes: nat)
    requires NoneEmpty(t) && Named(t)
    ensures var t' := PlayTable(t, script, maxConns, maxNodes);
            NoneEmpty(t') && Named(t') && All(t') == PlayBag(All(t), script, maxConns, maxNodes)
    decreases |script|
  {
    hide All, Named, NoneEmpty, ChangeTable, ChangeBag;
    if script != [] {
      var n := |script| - 1;
      PlayRefines(t, script[..n], maxConns, maxNodes);
      ChangeRefines(PlayTable(t, script[..n], maxConns, maxNodes), script[n], maxConns, maxNodes);
    }
  }

  /** The caps hold after every sequence of calls that starts within them. */
  lemma {:induction false} PlayCapped(m: multiset<Endpoint>, script: seq<Change>, maxConns: nat, maxNodes: nat)
    requires |m| <= maxConns && |Ids(m)| <= maxNodes
    ensures var m' := PlayBag(m, script, maxConns, maxNodes); |m'| <= maxConns && |Ids(m')| <= maxNodes
    decreases |script|
  {
    if script != [] {
      var n := |script| - 1;
      PlayCapped(m, script[..n], maxConns, maxNodes);
      var before := PlayBag(m, script[..n], maxConns, maxNodes);
      var c := script[n].c;
      hide PlayBag;
      assert Ids(before + multiset{c}) == Ids(before) + {c.nodeId};
      assert forall id :: id in Ids(before - multiset{c}) ==> id in Ids(before);
      Sets.SubsetSize(Ids(before - multiset{c}), Ids(before));
    }
  }

  // ---------------------------------------------------------------------------
  // The same calls on the table's own slices
  // ---------------------------------------------------------------------------

  method ChangeOne(table: RoutingTable, change: Change)
    requires table.Valid()
    modifies table, table.Repr
    ensures table.Valid() && fresh(table.Repr - old(table.Repr))
    ensures table.contents == ChangeTable(old(table.contents), change, table.maxConns, table.maxNodes)
  {
    hide RoutingTable.Valid, All;
    match change
    case Join(c) =>
      var r := table.Add(c);
    case Leave(c) =>
      table.Remove(c);
  }

  /** A list obtained by a lookup keeps its contents through any later calls, whatever they append
      and shift in place, and the calls leave the table standing for what they give on a multiset. */
  method SnapshotSurvives(table: RoutingTable, id: string, script: seq<Change>) returns (out: List)
    requires table.Valid()
    modifies table, table.Repr
    ensures out[..] == Get(old(table.contents), id)
    ensures table.Valid() && table.contents == PlayTable(old(table.contents), script, table.maxConns, table.maxNodes)
    ensures All(table.contents) == PlayBag(old(All(table.contents)), script, table.maxConns, table.maxNodes)
  {
    hide All, ChangeTable, PlayBag, RoutingTable.Shaped;
    ghost var start := table.contents;
    NoneEmptyNow(table);
    PlayRefines(start, script, table.maxConns, table.maxNodes);
    out := table.Lookup(id);
    hide RoutingTable.Valid;
    var i := 0;
    while i < |script|
      invariant i <= |script| && table.Valid() && fresh(table.Repr - old(table.Repr))
      invariant out !in table.Repr && out[..] == Get(start, id)
      invariant table.contents == PlayTable(start, script[..i], table.maxConns, table.maxNodes)
    {
      ChangeOne(table, script[i]);
      assert script[..i + 1][..i] == script[..i];
      i := i + 1;
    }
    assert script[..i] == script;
  }

  lemma NoneEmptyNow(table: RoutingTable)
    requires table.Shaped()
    ensures NoneEmpty(table.contents)
  {
    forall id | id in table.contents ensures table.contents[id] != [] {
      assert table.Holds(id);
    }
  }
}
