/** The routing table as a value: node ids to the connections registered under them. */
module Routing {
  import opened Lists
  import Sets

  type Table<T> = map<string, seq<T>>

  function Get<T>(t: Table<T>, id: string): seq<T>
  {
    if id in t then t[id] else []
  }

  function Add<T>(t: Table<T>, id: string, c: T): Table<T>
  {
    t[id := Get(t, id) + [c]]
  }

  function Remove<T(==)>(t: Table<T>, id: string, c: T): Table<T>
  {
    var rest := RemoveFirst(Get(t, id), c);
    if rest == [] then t - {id} else t[id := rest]
  }

  /** Every registration in the table, with multiplicity. */
  ghost function All<T>(t: Table<T>): multiset<T>
    decreases |t|
  {
    if t == map[] then multiset{}
    else
      var id := Sets.Pick(t.Keys);
      multiset(t[id]) + All(t - {id})
  }

  ghost predicate NoneEmpty<T>(t: Table<T>)
  {
    forall id :: id in t ==> t[id] != []
  }

  /** The table lists `c` nowhere but under `id`. */
  ghost predicate OnlyUnder<T>(t: Table<T>, id: string, c: T)
  {
    forall other :: other in t && other != id ==> c !in t[other]
  }

  lemma {:induction false} AllSplit<T>(t: Table<T>, id: string)
    requires id in t
    ensures All(t) == multiset(t[id]) + All(t - {id})
    decreases |t|
  {
    var first := Sets.Pick(t.Keys);
    if first != id {
      AllSplit(t - {first}, id);
      AllSplit(t - {id}, first);
      assert t - {first} - {id} == t - {id} - {first};
    }
  }

  lemma AllUpdate<T>(t: Table<T>, id: string, v: seq<T>)
    ensures All(t[id := v]) == multiset(v) + All(t - {id})
    ensures All(t) == multiset(Get(t, id)) + All(t - {id})
  {
    AllSplit(t[id := v], id);
    assert t[id := v] - {id} == t - {id};
    if id in t {
      AllSplit(t, id);
    } else {
      assert t - {id} == t;
    }
  }

  lemma {:induction false} AllHas<T>(t: Table<T>, c: T)
    ensures c in All(t) <==> exists id :: id in t && c in t[id]
    decreases |t|
  {
    if t != map[] {
      var first := Sets.Pick(t.Keys);
      AllHas(t - {first}, c);
      if id :| id in t && c in t[id] {
        assert id == first || id in t - {first};
      }
    }
  }

  /** A registration adds exactly one copy. */
  lemma AddAll<T>(t: Table<T>, id: string, c: T)
    ensures All(Add(t, id, c)) == All(t) + multiset{c}
    ensures NoneEmpty(t) ==> NoneEmpty(Add(t, id, c))
  {
    AllUpdate(t, id, Get(t, id) + [c]);
  }

  lemma TakeFromLeft<T>(a: multiset<T>, b: multiset<T>, c: T)
    requires c !in b
    ensures (a - multiset{c}) + b == (a + b) - multiset{c}
  {
  }

  /** Removal takes away exactly one copy, none when there is none. */
  lemma RemoveAll<T>(t: Table<T>, id: string, c: T)
    requires OnlyUnder(t, id, c)
    ensures All(Remove(t, id, c)) == All(t) - multiset{c}
    ensures NoneEmpty(t) ==> NoneEmpty(Remove(t, id, c))
  {
    hide All, RemoveFirst;
    var rest := RemoveFirst(Get(t, id), c);
    AllUpdate(t, id, rest);
    AllHas(t - {id}, c);
    RemoveFirstAll(Get(t, id), c);
    TakeFromLeft(multiset(Get(t, id)), All(t - {id}), c);
    if rest == [] {
      assert multiset(rest) + All(t - {id}) == All(t - {id});
    }
  }

  /** Registering and then removing a connection leaves the same registrations. */
  lemma RemoveUndoesAdd<T>(t: Table<T>, id: string, c: T)
    requires OnlyUnder(t, id, c)
    ensures All(Remove(Add(t, id, c), id, c)) == All(t)
  {
    AddAll(t, id, c);
    RemoveAll(Add(t, id, c), id, c);
  }
}
