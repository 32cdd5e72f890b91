/** The gateway's routing table with its slices in the heap: appends use spare capacity and a
    removal shifts the rest of the backing array down. */
module GatewayTable {
  import opened Envelopes
  import opened Lists
  import opened Routing
  import Sets

  const INBOX_CAP := 16
  const DEFAULT_MAX := 4096

  datatype Error = Closed | TooManyConns | TooManyNodes | Invalid | NoRoute | InboxFull

  datatype Outcome = Ok | Err(error: Error)

  /** An in-process endpoint with a bounded inbox. */
  class Endpoint {
    const nodeId: string
    var inbox: seq<Envelope>
    var closed: bool

    constructor (nodeId: string)
      ensures this.nodeId == nodeId && inbox == [] && !closed
    {
      this.nodeId := nodeId;
      inbox, closed := [], false;
    }

    method Send(env: Envelope) returns (r: Outcome)
      modifies `inbox
      ensures r == (if closed then Err(Closed) else if old(|inbox|) >= 16 then Err(InboxFull) else Ok)
      ensures inbox == if r.Ok? then old(inbox) + [env] else old(inbox)
    {
      if closed {
        return Err(Closed);
      }
      if |inbox| < INBOX_CAP {
        inbox := inbox + [env];
        return Ok;
      }
      return Err(InboxFull);
    }

    method Close()
      modifies `closed
      ensures closed
    {
      closed := true;
    }
  }

  type List = array<Endpoint>

  /** A slice header: a backing array and how much of it is in use. */
  datatype Slice = Slice(data: List, len: nat)

  /** `append` for one element: in place when there is room, else into a larger copy. */
  method Append(s: Slice, c: Endpoint) returns (r: Slice)
    requires s.len <= s.data.Length
    modifies s.data
    ensures r.len == s.len + 1 <= r.data.Length
    ensures r.data[..r.len] == old(s.data[..s.len]) + [c]
    ensures if s.len < s.data.Length then r.data == s.data else fresh(r.data) && s.data[..] == old(s.data[..])
  {
    if s.len < s.data.Length {
      s.data[s.len] := c;
      return Slice(s.data, s.len + 1);
    }
    var bigger := new Endpoint[2 * s.len + 1](_ => c);
    forall k | 0 <= k < s.len {
      bigger[k] := s.data[k];
    }
    return Slice(bigger, s.len + 1);
  }

  /** Closes the gap at `i` by moving every later element down one place. */
  method ShiftDown(data: List, i: nat, len: nat)
    requires i < len <= data.Length
    modifies data
    ensures data[..len - 1] == old(data[..i]) + old(data[i + 1..len])
  {
    var k := i;
    while k < len - 1
      invariant i <= k <= len - 1
      invariant forall j :: 0 <= j < i ==> data[j] == old(data[j])
      invariant forall j :: i <= j < k ==> data[j] == old(data[j + 1])
      invariant forall j :: k <= j < data.Length ==> data[j] == old(data[j])
    {
      data[k] := data[k + 1];
      k := k + 1;
    }
    ghost var was := old(data[..]);
    assert forall j :: i <= j < len - 1 ==> data[j] == was[j + 1];
    assert data[..len - 1] == was[..i] + was[i + 1..len];
    assert was[..i] == old(data[..i]) && was[i + 1..len] == old(data[i + 1..len]);
  }

  method IndexOf(data: List, len: nat, c: Endpoint) returns (i: nat)
    requires len <= data.Length
    ensures i <= len && c !in data[..i] && (i < len ==> data[i] == c)
  {
    i := 0;
    while i < len && data[i] != c
      invariant i <= len && c !in data[..i]
    {
      i := i + 1;
    }
  }

  /** Removes the first occurrence of `c` from the slice, leaving the backing array in place. */
  method CutOut(s: Slice, c: Endpoint) returns (found: bool, r: Slice)
    requires s.len <= s.data.Length
    modifies s.data
    ensures found == (c in old(s.data[..s.len]))
    ensures r.data == s.data && r.len <= s.len && r.data[..r.len] == RemoveFirst(old(s.data[..s.len]), c)
  {
    ghost var list := s.data[..s.len];
    var i := IndexOf(s.data, s.len, c);
    assert list[..i] == s.data[..i];
    if i < s.len {
      assert list[i] == c;
      RemoveFirstAt(list, c, i);
      ShiftDown(s.data, i, s.len);
      return true, Slice(s.data, s.len - 1);
    }
    RemoveFirstAll(list, c);
    return false, s;
  }

  /** Every connection sits under its own node id. */
  ghost predicate Named(t: Table<Endpoint>)
  {
    forall id, i :: id in t && 0 <= i < |t[id]| ==> t[id][i].nodeId == id
  }

  class RoutingTable {
    var byNode: map<string, Slice>
    var totalConns: nat
    const maxConns: nat
    const maxNodes: nat

    /** What the slices hold, and the backing arrays the table owns. */
    ghost var contents: Table<Endpoint>
    ghost var Repr: set<List>

    /** The slice under `id` holds what `contents` says. */
    ghost predicate Holds(id: string)
      reads `byNode, `contents, `Repr, Repr
    {
      id in byNode && id in contents &&
      var s := byNode[id];
      s.data in Repr && 0 < s.len <= s.data.Length && s.data[..s.len] == contents[id]
    }

    ghost predicate Shaped()
      reads `byNode, `contents, `Repr, Repr
    {
      && byNode.Keys == contents.Keys
      && (forall id :: id in byNode ==> Holds(id))
      && (forall id, other :: id in byNode && other in byNode && id != other ==> byNode[id].data != byNode[other].data)
    }

    ghost predicate Counted()
      reads this
    {
      totalConns == |All(contents)| <= maxConns && |contents| <= maxNodes
    }

    ghost predicate Valid()
      reads this, Repr
    {
      Shaped() && Named(contents) && Counted()
    }

    constructor (maxConns: int, maxNodes: int)
      ensures Valid() && contents == map[] && Repr == {}
      ensures this.maxConns == (if maxConns <= 0 then 4096 else maxConns)
      ensures this.maxNodes == (if maxNodes <= 0 then 4096 else maxNodes)
    {
      byNode, totalConns, contents, Repr := map[], 0, map[], {};
      this.maxConns := if maxConns <= 0 then DEFAULT_MAX else maxConns;
      this.maxNodes := if maxNodes <= 0 then DEFAULT_MAX else maxNodes;
    }

    /** The list for `id`, or an empty one. */
    method Existing(id: string) returns (s: Slice)
      requires Shaped()
      ensures s.len <= s.data.Length && s.data[..s.len] == Get(contents, id)
      ensures if id in byNode then s == byNode[id] else fresh(s.data)
    {
      if id in byNode {
        assert Holds(id);
        return byNode[id];
      }
      var none := new Endpoint[0];
      return Slice(none, 0);
    }

    /** Files the list `s` under `id`. */
    method Put(id: string, s: Slice, ghost v: seq<Endpoint>)
      requires byNode.Keys == contents.Keys
      requires forall other :: other in byNode && other != id ==> Holds(other) && byNode[other].data != s.data
      requires forall one, two :: one in byNode && two in byNode && one != two ==> byNode[one].data != byNode[two].data
      requires 0 < s.len <= s.data.Length && s.data[..s.len] == v
      modifies `byNode, `contents, `Repr
      ensures Shaped() && contents == old(contents)[id := v] && Repr == old(Repr) + {s.data}
    {
      byNode := byNode[id := s];
      contents := contents[id := v];
      Repr := Repr + {s.data};
      forall other | other in byNode ensures Holds(other) {
        assert other != id ==> old(Holds(other));
      }
    }

    method Insert(c: Endpoint)
      requires Shaped()
      modifies `byNode, `contents, `Repr, Repr
      ensures Shaped() && contents == Routing.Add(old(contents), c.nodeId, c) && fresh(Repr - old(Repr))
    {
      var id := c.nodeId;
      var existing := Existing(id);
      var grown := Append(existing, c);
      forall other | other in byNode && other != id ensures Holds(other) && byNode[other].data != grown.data {
        assert old(Holds(other));
      }
      Put(id, grown, Get(contents, id) + [c]);
    }

    lemma KeysAgree()
      requires Shaped()
      ensures byNode.Keys == contents.Keys && |byNode| == |contents|
    {
      assert |byNode| == |byNode.Keys| && |contents| == |contents.Keys|;
    }

    method Add(c: Endpoint) returns (r: Outcome)
      requires Valid()
      modifies this, Repr
      ensures Valid() && fresh(Repr - old(Repr))
      ensures r == (if old(|All(contents)|) >= maxConns then Err(TooManyConns)
                    else if c.nodeId !in old(contents) && old(|contents|) >= maxNodes then Err(TooManyNodes)
                    else Ok)
      ensures contents == if r.Ok? then Routing.Add(old(contents), c.nodeId, c) else old(contents)
    {
      hide All, Shaped;
      KeysAgree();
      if totalConns >= maxConns {
        return Err(TooManyConns);
      }
      if c.nodeId !in byNode && |byNode| >= maxNodes {
        return Err(TooManyNodes);
      }
      AddAll(contents, c.nodeId, c);
      Insert(c);
      totalConns := totalConns + 1;
      assert |contents| == |old(contents)| + if c.nodeId in old(contents) then 0 else 1 by {
        KeyCount(old(contents), c.nodeId, contents[c.nodeId]);
      }
      return Ok;
    }

    /** Drops the list for `id`. */
    method Forget(id: string)
      requires byNode.Keys == contents.Keys
      requires forall other :: other in byNode && other != id ==> Holds(other)
      requires forall one, two :: one in byNode && two in byNode && one != two ==> byNode[one].data != byNode[two].data
      modifies `byNode, `contents
      ensures Shaped() && contents == old(contents) - {id}
    {
      byNode := byNode - {id};
      contents := contents - {id};
      forall other | other in byNode ensures Holds(other) {
        assert old(Holds(other));
      }
    }

    /** Takes the first occurrence of `c` out of its list, in place. */
    method Delete(c: Endpoint) returns (found: bool)
      requires Shaped()
      modifies `byNode, `contents, `Repr, Repr
      ensures found == (c in Get(old(contents), c.nodeId))
      ensures Shaped() && contents == Routing.Remove(old(contents), c.nodeId, c) && fresh(Repr - old(Repr))
    {
      var id := c.nodeId;
      var conns := Existing(id);
      ghost var list := Get(contents, id);
      found, conns := CutOut(conns, c);
      forall other | other in byNode && other != id ensures Holds(other) && byNode[other].data != conns.data {
        assert old(Holds(other));
      }
      if conns.len == 0 {
        Forget(id);
      } else {
        Put(id, conns, RemoveFirst(list, c));
      }
    }

    method Remove(c: Endpoint)
      requires Valid()
      modifies this, Repr
      ensures Valid() && contents == Routing.Remove(old(contents), c.nodeId, c) && fresh(Repr - old(Repr))
    {
      hide All, Shaped, RemoveFirst;
      RemovedCount(contents, c);
      var found := Delete(c);
      if found {
        totalConns := totalConns - 1;
      }
    }

    /** A copy of the connections under `id`, in an array of its own. */
    method Lookup(id: string) returns (out: List)
      requires Shaped()
      ensures fresh(out) && out[..] == Get(contents, id)
    {
      var conns := Existing(id);
      if conns.len == 0 {
        out := new Endpoint[0];
        return;
      }
      var first := conns.data[0];
      out := new Endpoint[conns.len](_ => first);
      forall k | 0 <= k < conns.len {
        out[k] := conns.data[k];
      }
    }
  }

  lemma RemovedCount(t: Table<Endpoint>, c: Endpoint)
    requires Named(t)
    ensures Named(Routing.Remove(t, c.nodeId, c)) && |Routing.Remove(t, c.nodeId, c)| <= |t|
    ensures |All(Routing.Remove(t, c.nodeId, c))| == |All(t)| - if c in Get(t, c.nodeId) then 1 else 0
  {
    hide All;
    var t' := Routing.Remove(t, c.nodeId, c);
    RemoveAll(t, c.nodeId, c);
    AllHas(t, c);
    RemoveFirstAll(Get(t, c.nodeId), c);
    assert forall e :: e in t'.Keys ==> e in t.Keys;
    Sets.SubsetSize(t'.Keys, t.Keys);
    assert |t| == |t.Keys| && |t'| == |t'.Keys|;
    forall id, i | id in t' && 0 <= i < |t'[id]| ensures t'[id][i].nodeId == id {
      assert t'[id][i] in multiset(t'[id]);
    }
  }

  lemma KeyCount<A>(m: map<string, A>, id: string, v: A)
    ensures |m[id := v]| == |m| + if id in m then 0 else 1
  {
    assert m[id := v].Keys == m.Keys + {id};
    assert |m| == |m.Keys| && |m[id := v]| == |m[id := v].Keys|;
  }
}
