/** The linearizability checker: histories, sequential specifications and the
    backtracking search with its table of known dead ends. */
module Porcupine {

  import opened Options

  /** A sequential specification. `step` answers None where the transition is illegal. */
  datatype Model<!S, !I, !O> = Model(
    init: S,
    step: (S, I, O) -> Option<S>,
    equal: Option<(S, S) -> bool>)

  /** One completed client operation with its real-time window. */
  datatype Operation<I, O> = Operation(clientID: int, input: I, output: O, call: int, ret: int)

  // ---------------------------------------------------------------------------
  // What linearizable means
  // ---------------------------------------------------------------------------

  ghost predicate Legal<S, I, O>(m: Model<S, I, O>, s: S, lin: seq<Operation<I, O>>)
  {
    lin == [] ||
    (var r := m.step(s, lin[0].input, lin[0].output);
     r.Some? && Legal(m, r.value, lin[1..]))
  }

  /** No operation is placed before one that returned before it was called. */
  ghost predicate RealTime<I, O>(lin: seq<Operation<I, O>>)
  {
    forall i, j :: 0 <= i < j < |lin| ==> lin[i].call <= lin[j].ret
  }

  ghost predicate IsLinearization<S, I, O>(m: Model<S, I, O>, s: S, rest: multiset<Operation<I, O>>,
                                           lin: seq<Operation<I, O>>)
  {
    multiset(lin) == rest && Legal(m, s, lin) && RealTime(lin)
  }

  /** The operations in `rest` can be ordered after a prefix that left the model in state `s`. */
  ghost predicate Completable<S, I(!new), O(!new)>(m: Model<S, I, O>, s: S, rest: multiset<Operation<I, O>>)
  {
    exists lin :: IsLinearization(m, s, rest, lin)
  }

  ghost predicate Linearizable<S, I(!new), O(!new)>(m: Model<S, I, O>, history: multiset<Operation<I, O>>)
  {
    Completable(m, m.init, history)
  }

  /** `Equal` may only identify states that no sequence of operations can tell apart. */
  ghost predicate EqualIsBisimulation<S(!new), I(!new), O(!new)>(m: Model<S, I, O>)
  {
    m.equal.Some? ==>
      forall a, b, i, o :: m.equal.value(a, b) ==>
        (m.step(a, i, o).None? && m.step(b, i, o).None?) ||
        (m.step(a, i, o).Some? && m.step(b, i, o).Some? &&
         m.equal.value(m.step(a, i, o).value, m.step(b, i, o).value))
  }

  lemma {:induction false} EqualStatesAcceptTheSame<S(!new), I(!new), O(!new)>(
    m: Model<S, I, O>, a: S, b: S, lin: seq<Operation<I, O>>)
    requires EqualIsBisimulation(m) && m.equal.Some? && m.equal.value(a, b)
    ensures Legal(m, a, lin) <==> Legal(m, b, lin)
    decreases |lin|
  {
    if lin != [] {
      var x, y := m.step(a, lin[0].input, lin[0].output), m.step(b, lin[0].input, lin[0].output);
      if x.Some? && y.Some? {
        EqualStatesAcceptTheSame(m, x.value, y.value, lin[1..]);
      }
    }
  }

  lemma EqualStatesCompletable<S(!new), I(!new), O(!new)>(
    m: Model<S, I, O>, a: S, b: S, rest: multiset<Operation<I, O>>)
    requires EqualIsBisimulation(m) && m.equal.Some? && m.equal.value(a, b)
    ensures Completable(m, a, rest) <==> Completable(m, b, rest)
  {
    forall lin: seq<Operation<I, O>>
      ensures IsLinearization(m, a, rest, lin) <==> IsLinearization(m, b, rest, lin)
    {
      EqualStatesAcceptTheSame(m, a, b, lin);
    }
  }

  // ---------------------------------------------------------------------------
  // One step of the search
  // ---------------------------------------------------------------------------

  /** `op` may come first: nothing still pending returned before it was called. */
  ghost predicate Minimal<I, O>(rest: multiset<Operation<I, O>>, op: Operation<I, O>)
  {
    op in rest && forall b :: b in rest ==> op.call <= b.ret
  }

  /** Choosing `op` next leaves a completable remainder. */
  ghost predicate GoodChoice<S, I(!new), O(!new)>(m: Model<S, I, O>, s: S,
                                                  rest: multiset<Operation<I, O>>, op: Operation<I, O>)
  {
    Minimal(rest, op) &&
    var r := m.step(s, op.input, op.output);
    r.Some? && Completable(m, r.value, rest - multiset{op})
  }

  ghost predicate IsEarliestReturn<I, O>(rest: multiset<Operation<I, O>>, t: int)
  {
    (exists b :: b in rest && b.ret == t) && forall b :: b in rest ==> t <= b.ret
  }

  ghost predicate WellFormed<I, O>(rest: multiset<Operation<I, O>>)
  {
    forall op :: op in rest ==> op.call < op.ret
  }

  lemma PutFirst<I, O>(op: Operation<I, O>, tail: seq<Operation<I, O>>)
    requires RealTime(tail) && forall b :: b in multiset(tail) ==> op.call <= b.ret
    ensures RealTime([op] + tail)
  {
    var lin := [op] + tail;
    forall i, j | 0 <= i < j < |lin| ensures lin[i].call <= lin[j].ret {
      assert lin[j] == tail[j - 1] && tail[j - 1] in multiset(tail);
    }
  }

  lemma ConsBag<T>(x: T, tail: seq<T>, rest: multiset<T>)
    requires x in rest && multiset(tail) == rest - multiset{x}
    ensures multiset([x] + tail) == rest
  {
    assert multiset([x] + tail) == multiset{x} + multiset(tail);
  }

  lemma GoodChoiceCompletes<S, I(!new), O(!new)>(m: Model<S, I, O>, s: S,
                                                 rest: multiset<Operation<I, O>>, op: Operation<I, O>)
    requires GoodChoice(m, s, rest, op)
    ensures Completable(m, s, rest)
  {
    var r := m.step(s, op.input, op.output);
    var tail :| IsLinearization(m, r.value, rest - multiset{op}, tail);
    PutFirst(op, tail);
    ConsBag(op, tail, rest);
    var lin := [op] + tail;
    assert lin[0] == op && lin[1..] == tail;
    assert Legal(m, s, lin);
    assert IsLinearization(m, s, rest, lin);
  }

  lemma FirstIsMinimal<I, O>(lin: seq<Operation<I, O>>)
    requires lin != [] && RealTime(lin) && lin[0].call < lin[0].ret
    ensures Minimal(multiset(lin), lin[0])
  {
    forall b | b in multiset(lin) ensures lin[0].call <= b.ret {
      var k :| 0 <= k < |lin| && lin[k] == b;
    }
  }

  lemma CompletableHasGoodChoice<S, I(!new), O(!new)>(m: Model<S, I, O>, s: S,
                                                      rest: multiset<Operation<I, O>>) returns (op: Operation<I, O>)
    requires rest != multiset{} && WellFormed(rest) && Completable(m, s, rest)
    ensures GoodChoice(m, s, rest, op)
  {
    var lin :| IsLinearization(m, s, rest, lin);
    op := lin[0];
    FirstIsMinimal(lin) by {
      assert op in multiset(lin);
    }
    TailLinearizes(m, s, lin);
  }

  lemma TailBag<T>(s: seq<T>)
    requires s != []
    ensures multiset(s[1..]) == multiset(s) - multiset{s[0]}
  {
    assert s == [s[0]] + s[1..];
    assert multiset(s) == multiset([s[0]]) + multiset(s[1..]);
  }

  /** What follows the first operation of a linearization is one from the state it leads to. */
  lemma TailLinearizes<S, I(!new), O(!new)>(m: Model<S, I, O>, s: S, lin: seq<Operation<I, O>>)
    requires lin != [] && Legal(m, s, lin) && RealTime(lin)
    ensures var r := m.step(s, lin[0].input, lin[0].output);
            r.Some? && Completable(m, r.value, multiset(lin) - multiset{lin[0]})
  {
    var tail := lin[1..];
    TailBag(lin);
    assert RealTime(tail) by {
      forall i, j | 0 <= i < j < |tail| ensures tail[i].call <= tail[j].ret {
        assert tail[i] == lin[i + 1] && tail[j] == lin[j + 1];
      }
    }
    var next := m.step(s, lin[0].input, lin[0].output).value;
    assert IsLinearization(m, next, multiset(lin) - multiset{lin[0]}, tail);
  }

  // ---------------------------------------------------------------------------
  // The operations a set of marks leaves over
  // ---------------------------------------------------------------------------

  ghost function Rest<I, O>(ops: seq<Operation<I, O>>, used: seq<bool>): multiset<Operation<I, O>>
    requires |used| == |ops|
  {
    if ops == [] then multiset{}
    else
      var n := |ops| - 1;
      Rest(ops[..n], used[..n]) + (if used[n] then multiset{} else multiset{ops[n]})
  }

  ghost function Marks(used: seq<bool>): nat
    ensures Marks(used) <= |used|
  {
    if used == [] then 0
    else Marks(used[..|used| - 1]) + (if used[|used| - 1] then 1 else 0)
  }

  lemma {:induction false} RestHas<I, O>(ops: seq<Operation<I, O>>, used: seq<bool>, i: nat)
    requires |used| == |ops| && i < |ops| && !used[i]
    ensures ops[i] in Rest(ops, used)
    decreases |ops|
  {
    var n := |ops| - 1;
    if i < n { RestHas(ops[..n], used[..n], i); }
  }

  lemma {:induction false} RestIndex<I, O>(ops: seq<Operation<I, O>>, used: seq<bool>, op: Operation<I, O>)
    returns (i: nat)
    requires |used| == |ops| && op in Rest(ops, used)
    ensures i < |ops| && !used[i] && ops[i] == op
    decreases |ops|
  {
    var n := |ops| - 1;
    if !used[n] && ops[n] == op {
      i := n;
    } else {
      i := RestIndex(ops[..n], used[..n], op);
    }
  }

  lemma TakeOut<T>(a: multiset<T>, b: multiset<T>, x: T)
    ensures (a + multiset{x}) - multiset{x} == a
    ensures x in a ==> x in a + b && (a + b) - multiset{x} == (a - multiset{x}) + b
  {
  }

  ghost function LeftAt<I, O>(ops: seq<Operation<I, O>>, used: seq<bool>, n: nat): multiset<Operation<I, O>>
    requires n < |used| == |ops|
  {
    if used[n] then multiset{} else multiset{ops[n]}
  }

  lemma Unfold<I, O>(ops: seq<Operation<I, O>>, used: seq<bool>, n: nat)
    requires |used| == |ops| == n + 1
    ensures Rest(ops, used) == Rest(ops[..n], used[..n]) + LeftAt(ops, used, n)
    ensures Marks(used) == Marks(used[..n]) + if used[n] then 1 else 0
  {
  }

  lemma {:induction false} MarkOne<I, O>(ops: seq<Operation<I, O>>, used: seq<bool>, i: nat)
    requires |used| == |ops| && i < |ops| && !used[i]
    ensures Rest(ops, used[i := true]) == Rest(ops, used) - multiset{ops[i]}
    ensures ops[i] in Rest(ops, used)
    ensures Marks(used[i := true]) == Marks(used) + 1
    decreases |ops|
  {
    hide Rest, Marks;
    var n := |ops| - 1;
    var used' := used[i := true];
    Unfold(ops, used, n);
    Unfold(ops, used', n);
    var before := Rest(ops[..n], used[..n]);
    if i < n {
      MarkOne(ops[..n], used[..n], i);
      assert used'[..n] == used[..n][i := true];
      TakeOut(before, LeftAt(ops, used, n), ops[i]);
    } else {
      assert used'[..n] == used[..n];
      TakeOut(before, multiset{}, ops[n]);
      Nothing(before);
    }
  }

  lemma Nothing<T>(a: multiset<T>)
    ensures a + multiset{} == a
  {
  }

  lemma {:induction false} NothingLeft<I, O>(ops: seq<Operation<I, O>>, used: seq<bool>)
    requires |used| == |ops|
    ensures Rest(ops, used) == multiset{} <==> Marks(used) == |ops|
    decreases |ops|
  {
    if ops != [] {
      var n := |ops| - 1;
      NothingLeft(ops[..n], used[..n]);
      if !used[n] { assert ops[n] in Rest(ops, used); }
    }
  }

  lemma {:induction false} NoMarks<I, O>(ops: seq<Operation<I, O>>, used: seq<bool>)
    requires |used| == |ops| && forall i :: 0 <= i < |used| ==> !used[i]
    ensures Rest(ops, used) == multiset(ops) && Marks(used) == 0
    decreases |ops|
  {
    if ops != [] {
      var n := |ops| - 1;
      NoMarks(ops[..n], used[..n]);
      assert ops == ops[..n] + [ops[n]];
    }
  }

  // ---------------------------------------------------------------------------
  // Partial orders the search can build
  // ---------------------------------------------------------------------------

  /** `pre` can be placed one operation after the other: each may come next when it is placed and
      the model accepts it. */
  ghost predicate Placeable<S(!new), I(!new), O(!new)>(
    m: Model<S, I, O>, s: S, rest: multiset<Operation<I, O>>, pre: seq<Operation<I, O>>)
    decreases |pre|
  {
    pre == [] ||
    var next := m.step(s, pre[0].input, pre[0].output);
    Minimal(rest, pre[0]) && next.Some? && Placeable(m, next.value, rest - multiset{pre[0]}, pre[1..])
  }

  /** Placing `path` takes the search from `s` and `rest` to `s'` and `rest'`. */
  ghost predicate Leads<S(!new), I(!new), O(!new)>(
    m: Model<S, I, O>, s: S, rest: multiset<Operation<I, O>>, path: seq<Operation<I, O>>,
    s': S, rest': multiset<Operation<I, O>>)
    decreases |path|
  {
    if path == [] then s == s' && rest == rest'
    else
      var next := m.step(s, path[0].input, path[0].output);
      Minimal(rest, path[0]) && next.Some? && Leads(m, next.value, rest - multiset{path[0]}, path[1..], s', rest')
  }

  lemma {:induction false} LeadsPlaces<S(!new), I(!new), O(!new)>(
    m: Model<S, I, O>, s: S, rest: multiset<Operation<I, O>>, path: seq<Operation<I, O>>,
    s': S, rest': multiset<Operation<I, O>>)
    requires Leads(m, s, rest, path, s', rest')
    ensures Placeable(m, s, rest, path) && rest' == rest - multiset(path)
    decreases |path|
  {
    if path != [] {
      var next := m.step(s, path[0].input, path[0].output);
      LeadsPlaces(m, next.value, rest - multiset{path[0]}, path[1..], s', rest');
      assert path == [path[0]] + path[1..];
    }
  }

  lemma {:induction false} LeadsOn<S(!new), I(!new), O(!new)>(
    m: Model<S, I, O>, s: S, rest: multiset<Operation<I, O>>, path: seq<Operation<I, O>>,
    s': S, rest': multiset<Operation<I, O>>, op: Operation<I, O>)
    requires Leads(m, s, rest, path, s', rest') && Minimal(rest', op) && m.step(s', op.input, op.output).Some?
    ensures Leads(m, s, rest, path + [op], m.step(s', op.input, op.output).value, rest' - multiset{op})
    decreases |path|
  {
    if path == [] {
      assert (path + [op])[1..] == [];
    } else {
      var next := m.step(s, path[0].input, path[0].output);
      LeadsOn(m, next.value, rest - multiset{path[0]}, path[1..], s', rest', op);
      assert (path + [op])[1..] == path[1..] + [op];
    }
  }

  /** No more than `d` operations can be placed from here. */
  ghost predicate Bounded<S(!new), I(!new), O(!new)>(
    m: Model<S, I, O>, s: S, rest: multiset<Operation<I, O>>, d: int)
  {
    forall pre: seq<Operation<I, O>> :: Placeable(m, s, rest, pre) ==> |pre| <= d
  }

  /** No more than `d` operations can be placed from here if `op` is the first. */
  ghost predicate BoundedBy<S(!new), I(!new), O(!new)>(
    m: Model<S, I, O>, s: S, rest: multiset<Operation<I, O>>, op: Operation<I, O>, d: int)
  {
    forall pre: seq<Operation<I, O>> :: Placeable(m, s, rest, pre) && pre != [] && pre[0] == op ==> |pre| <= d
  }

  lemma {:induction false} EqualStatesPlace<S(!new), I(!new), O(!new)>(
    m: Model<S, I, O>, a: S, b: S, rest: multiset<Operation<I, O>>, pre: seq<Operation<I, O>>)
    requires EqualIsBisimulation(m) && m.equal.Some? && m.equal.value(a, b)
    ensures Placeable(m, a, rest, pre) <==> Placeable(m, b, rest, pre)
    decreases |pre|
  {
    if pre != [] {
      var x, y := m.step(a, pre[0].input, pre[0].output), m.step(b, pre[0].input, pre[0].output);
      if x.Some? && y.Some? {
        EqualStatesPlace(m, x.value, y.value, rest - multiset{pre[0]}, pre[1..]);
      }
    }
  }

  lemma EqualStatesBounded<S(!new), I(!new), O(!new)>(
    m: Model<S, I, O>, a: S, b: S, rest: multiset<Operation<I, O>>, d: int)
    requires EqualIsBisimulation(m) && m.equal.Some? && m.equal.value(a, b) && Bounded(m, a, rest, d)
    ensures Bounded(m, b, rest, d)
  {
    forall pre: seq<Operation<I, O>> | Placeable(m, b, rest, pre) ensures |pre| <= d {
      EqualStatesPlace(m, a, b, rest, pre);
    }
  }

  lemma BoundedLater<S(!new), I(!new), O(!new)>(
    m: Model<S, I, O>, s: S, rest: multiset<Operation<I, O>>, d: int, d': int)
    requires Bounded(m, s, rest, d) && d <= d'
    ensures Bounded(m, s, rest, d')
  {
  }

  lemma ChoiceBounded<S(!new), I(!new), O(!new)>(
    m: Model<S, I, O>, s: S, rest: multiset<Operation<I, O>>, op: Operation<I, O>, d: int)
    requires Minimal(rest, op) && m.step(s, op.input, op.output).Some? ==>
               Bounded(m, m.step(s, op.input, op.output).value, rest - multiset{op}, d - 1)
    ensures BoundedBy(m, s, rest, op, d)
  {
    forall pre: seq<Operation<I, O>> | Placeable(m, s, rest, pre) && pre != [] && pre[0] == op ensures |pre| <= d {
      assert Placeable(m, m.step(s, op.input, op.output).value, rest - multiset{op}, pre[1..]);
    }
  }

  /** `op` is left over by a longest order the search can build. */
  ghost predicate DeepestDeadEnd<S(!new), I(!new), O(!new)>(
    m: Model<S, I, O>, all: multiset<Operation<I, O>>, path: seq<Operation<I, O>>, op: Operation<I, O>)
  {
    Placeable(m, m.init, all, path) && op in all - multiset(path) && Bounded(m, m.init, all, |path|)
  }

  // ---------------------------------------------------------------------------
  // The search
  // ---------------------------------------------------------------------------

  class Search<S(!new), I(==,!new), O(==,!new)> {
    const model: Model<S, I, O>
    const ops: seq<Operation<I, O>>
    const used: array<bool>
    var visited: map<seq<bool>, seq<S>>  // marks -> states known to lead nowhere
    var memoHits: nat
    var deepestStuck: int
    var deepestDepth: int
    ghost var deepestPath: seq<Operation<I, O>>  // the order placed when it was recorded

    ghost predicate Valid()
      reads this`visited, this`deepestStuck, this`deepestDepth, this`deepestPath
    {
      && used.Length == |ops|
      && EqualIsBisimulation(model)
      && WellFormed(multiset(ops))
      && -1 <= deepestStuck < |ops| && -1 <= deepestDepth
      && (deepestDepth >= 0 ==> deepestStuck >= 0)
      && (visited != map[] ==> deepestDepth >= 0)
      && DeadEnds(visited)
      && Deepest()
    }

    /** The operation to blame is left over by an order of the recorded depth, and no recorded dead
        end can be extended beyond it. */
    ghost predicate Deepest()
      reads this`visited, this`deepestStuck, this`deepestDepth, this`deepestPath
    {
      && (0 <= deepestStuck < |ops| && deepestDepth >= 0 ==>
            && |deepestPath| == deepestDepth && Placeable(model, model.init, multiset(ops), deepestPath)
            && ops[deepestStuck] in multiset(ops) - multiset(deepestPath))
      && Shallow(visited, deepestDepth)
    }

    ghost predicate Shallow(table: map<seq<bool>, seq<S>>, depth: int)
    {
      forall k :: k in table && |k| == |ops| ==>
        forall i :: 0 <= i < |table[k]| ==> Bounded(model, table[k][i], Rest(ops, k), depth - Marks(k))
    }

    lemma ShallowLater(table: map<seq<bool>, seq<S>>, depth: int, depth': int)
      requires Shallow(table, depth) && depth <= depth'
      ensures Shallow(table, depth')
    {
      forall k, i | k in table && |k| == |ops| && 0 <= i < |table[k]|
        ensures Bounded(model, table[k][i], Rest(ops, k), depth' - Marks(k))
      {
        BoundedLater(model, table[k][i], Rest(ops, k), depth - Marks(k), depth' - Marks(k));
      }
    }

    lemma WithDeadEndIsShallow(table: map<seq<bool>, seq<S>>, key: seq<bool>, state: S, depth: int)
      requires Shallow(table, depth) && |key| == |ops| && Bounded(model, state, Rest(ops, key), depth - Marks(key))
      ensures Shallow(WithDeadEnd(table, key, state), depth)
    {
      var table' := WithDeadEnd(table, key, state);
      forall k, i | k in table' && |k| == |ops| && 0 <= i < |table'[k]|
        ensures Bounded(model, table'[k][i], Rest(ops, k), depth - Marks(k))
      {
        if k == key {
          assert table'[k][i] == state || (k in table && i < |table[k]| && table'[k][i] == table[k][i]);
        } else {
          assert table'[k] == table[k];
        }
      }
    }

    ghost predicate DeadEnds(table: map<seq<bool>, seq<S>>)
    {
      forall k :: k in table ==>
        |k| == |ops| &&
        forall i :: 0 <= i < |table[k]| ==> !Completable(model, table[k][i], Rest(ops, k))
    }

    constructor (model: Model<S, I, O>, ops: seq<Operation<I, O>>)
      requires EqualIsBisimulation(model) && WellFormed(multiset(ops))
      ensures Valid() && fresh(used)
      ensures this.model == model && this.ops == ops && visited == map[]
      ensures forall i :: 0 <= i < used.Length ==> !used[i]
    {
      this.model := model;
      this.ops := ops;
      used := new bool[|ops|](_ => false);
      visited := map[];
      memoHits := 0;
      deepestStuck := -1;
      deepestDepth := -1;
      deepestPath := [];
    }

    /** Some recorded dead end agrees with the current marks and state. */
    method KnownDeadEnd(state: S) returns (hit: bool)
      requires Valid()
      ensures hit ==> deepestDepth >= 0 && !Completable(model, state, Rest(ops, used[..]))
      ensures hit ==> Bounded(model, state, Rest(ops, used[..]), deepestDepth - Marks(used[..]))
    {
      hide Bounded, EqualIsBisimulation;
      hit := false;
      var key := used[..];
      if model.equal.None? || key !in visited { return; }
      var states := visited[key];
      for i := 0 to |states| {
        if model.equal.value(states[i], state) {
          EqualStatesCompletable(model, states[i], state, Rest(ops, key));
          EqualStatesBounded(model, states[i], state, Rest(ops, key), deepestDepth - Marks(key));
          return true;
        }
      }
    }

    /** The earliest return among the operations not yet placed. */
    method EarliestReturn() returns (minReturn: int)
      requires used.Length == |ops| && Rest(ops, used[..]) != multiset{}
      ensures IsEarliestReturn(Rest(ops, used[..]), minReturn)
    {
      var found := false;
      minReturn := 0;
      for i := 0 to |ops|
        invariant !found ==> forall k :: 0 <= k < i ==> used[k]
        invariant found ==> exists k :: 0 <= k < i && !used[k] && ops[k].ret == minReturn
        invariant forall k :: 0 <= k < i && !used[k] ==> minReturn <= ops[k].ret
      {
        if !used[i] && (!found || ops[i].ret < minReturn) {
          minReturn, found := ops[i].ret, true;
        }
      }
      EarliestFound(used[..], minReturn, found);
    }

    lemma EarliestFound(marks: seq<bool>, minReturn: int, found: bool)
      requires |marks| == |ops| && Rest(ops, marks) != multiset{}
      requires !found ==> forall k :: 0 <= k < |ops| ==> marks[k]
      requires found ==> exists k :: 0 <= k < |ops| && !marks[k] && ops[k].ret == minReturn
      requires forall k :: 0 <= k < |ops| && !marks[k] ==> minReturn <= ops[k].ret
      ensures IsEarliestReturn(Rest(ops, marks), minReturn)
    {
      var some :| some in Rest(ops, marks);
      var l := RestIndex(ops, marks, some);
      var k :| 0 <= k < |ops| && !marks[k] && ops[k].ret == minReturn;
      RestHas(ops, marks, k);
      forall b | b in Rest(ops, marks) ensures minReturn <= b.ret {
        var j := RestIndex(ops, marks, b);
      }
    }

    /** Operation `i` is unplaced and passes the real-time test. */
    ghost predicate CouldBeNext(i: nat, minReturn: int)
      requires used.Length == |ops| && i < |ops|
      reads used
    {
      !used[i] && ops[i].call <= minReturn
    }

    /** An unplaced operation to blame for a dead end, one that could have come next if there is any. */
    method Blame(minReturn: int) returns (k: nat)
      requires Valid() && Marks(used[..]) < |ops|
      ensures k < |ops| && !used[k]
      ensures forall i :: 0 <= i < |ops| && CouldBeNext(i, minReturn) ==> k <= i && CouldBeNext(k, minReturn)
    {
      for i := 0 to |ops|
        invariant forall j :: 0 <= j < i ==> !CouldBeNext(j, minReturn)
      {
        if !used[i] && ops[i].call <= minReturn { return i; }
      }
      for i := 0 to |ops|
        invariant forall j :: 0 <= j < i ==> used[j]
      {
        if !used[i] { return i; }
      }
      NothingLeft(ops, used[..]);
      ghost var some :| some in Rest(ops, used[..]);
      ghost var j := RestIndex(ops, used[..], some);
      assert false;
    }

    /** None of the first `upto` unplaced operations can come next. */
    ghost predicate AllRejected(state: S, marks: seq<bool>, upto: nat)
      requires |marks| == |ops| && upto <= |ops|
    {
      forall k :: 0 <= k < upto && !marks[k] ==> !GoodChoice(model, state, Rest(ops, marks), ops[k])
    }

    lemma RejectOne(state: S, marks: seq<bool>, i: nat)
      requires |marks| == |ops| && i < |ops| && AllRejected(state, marks, i)
      requires marks[i] || !GoodChoice(model, state, Rest(ops, marks), ops[i])
      ensures AllRejected(state, marks, i + 1)
    {
    }

    lemma AllRejectedIsDeadEnd(state: S, marks: seq<bool>)
      requires |marks| == |ops| && Rest(ops, marks) != multiset{} && WellFormed(Rest(ops, marks))
      requires AllRejected(state, marks, |ops|)
      ensures !Completable(model, state, Rest(ops, marks))
    {
      var rest := Rest(ops, marks);
      forall op | op in rest ensures !GoodChoice(model, state, rest, op) {
        var k := RestIndex(ops, marks, op);
      }
      if Completable(model, state, rest) {
        var op := CompletableHasGoodChoice(model, state, rest);
        assert false;
      }
    }

    /** From `state` no more than `d` operations can be placed if one of the first `upto` comes next. */
    ghost predicate AllBounded(state: S, marks: seq<bool>, upto: nat, d: int)
      requires |marks| == |ops| && upto <= |ops|
    {
      forall k :: 0 <= k < upto && !marks[k] ==> BoundedBy(model, state, Rest(ops, marks), ops[k], d)
    }

    lemma BoundOne(state: S, marks: seq<bool>, i: nat, d: int, d': int)
      requires |marks| == |ops| && i < |ops| && AllBounded(state, marks, i, d) && d <= d'
      requires marks[i] || BoundedBy(model, state, Rest(ops, marks), ops[i], d')
      ensures AllBounded(state, marks, i + 1, d')
    {
      forall k | 0 <= k < i + 1 && !marks[k] ensures BoundedBy(model, state, Rest(ops, marks), ops[k], d') {
        assert k < i ==> BoundedBy(model, state, Rest(ops, marks), ops[k], d);
      }
    }

    lemma AllBoundedIsBounded(state: S, marks: seq<bool>, d: int, d': nat)
      requires |marks| == |ops| && AllBounded(state, marks, |ops|, d) && d <= d'
      ensures Bounded(model, state, Rest(ops, marks), d')
    {
      forall pre: seq<Operation<I, O>> | Placeable(model, state, Rest(ops, marks), pre) ensures |pre| <= d' {
        if pre != [] {
          var k := RestIndex(ops, marks, pre[0]);
          assert BoundedBy(model, state, Rest(ops, marks), ops[k], d);
        }
      }
    }

    lemma RestWellFormed()
      requires used.Length == |ops| && WellFormed(multiset(ops))
      ensures WellFormed(Rest(ops, used[..]))
    {
      forall op | op in Rest(ops, used[..]) ensures op.call < op.ret {
        var k := RestIndex(ops, used[..], op);
        assert op in multiset(ops);
      }
    }

    lemma Shaped()
      requires Valid()
      ensures used.Length == |ops| && WellFormed(multiset(ops))
    {
    }

    /** Placing `path` leads to `state` and the marks. */
    ghost predicate At(path: seq<Operation<I, O>>, state: S, marks: seq<bool>)
    {
      |marks| == |ops| && |path| == Marks(marks) &&
      Leads(model, model.init, multiset(ops), path, state, Rest(ops, marks))
    }

    lemma NothingToPlace(state: S, marks: seq<bool>)
      requires |marks| == |ops| && Marks(marks) == |ops|
      ensures Completable(model, state, Rest(ops, marks))
    {
      NothingLeft(ops, marks);
      assert IsLinearization(model, state, Rest(ops, marks), []);
    }

    /** Backtracking search: succeeds exactly when the unplaced operations can be
        ordered from `state`, and puts every mark back. When it fails, nothing from here
        gets deeper than the deepest dead end on record. */
    method Find(state: S, depth: nat, ghost path: seq<Operation<I, O>>) returns (ok: bool)
      requires Valid() && Marks(used[..]) == depth && At(path, state, used[..])
      modifies this, used
      ensures Valid() && used[..] == old(used[..]) && deepestDepth >= old(deepestDepth)
      ensures ok <==> Completable(model, state, Rest(ops, used[..]))
      ensures !ok ==> deepestDepth >= 0 && Bounded(model, state, Rest(ops, used[..]), deepestDepth - depth)
      decreases |ops| - depth, 2
    {
      hide *;
      Shaped();
      if depth == |ops| {
        NothingToPlace(state, used[..]);
        return true;
      }
      var hit := KnownDeadEnd(state);
      if hit {
        memoHits := memoHits + 1;
        return false;
      }
      ok := TryAll(state, depth, path);
    }

    /** Tries every unplaced operation that may come next; records a dead end if none works. */
    method TryAll(state: S, depth: nat, ghost path: seq<Operation<I, O>>) returns (ok: bool)
      requires Valid() && Marks(used[..]) == depth < |ops| && At(path, state, used[..])
      modifies this, used
      ensures Valid() && used[..] == old(used[..]) && deepestDepth >= old(deepestDepth)
      ensures ok <==> Completable(model, state, Rest(ops, used[..]))
      ensures !ok ==> deepestDepth >= 0 && Bounded(model, state, Rest(ops, used[..]), deepestDepth - depth)
      decreases |ops| - depth, 1
    {
      hide *;
      Shaped();
      ghost var marks := used[..];
      NothingLeft(ops, marks);
      RestWellFormed();
      NoneTried(state, marks, deepestDepth - depth);
      var minReturn := EarliestReturn();
      var i := 0;
      while i < |ops|
        invariant 0 <= i <= |ops|
        invariant Valid() && used[..] == marks && deepestDepth >= old(deepestDepth)
        invariant AllRejected(state, marks, i) && AllBounded(state, marks, i, deepestDepth - depth)
      {
        ghost var d := deepestDepth - depth;
        if !used[i] {
          ok := Try(i, state, depth, minReturn, path);
          if ok {
            GoodChoiceCompletes(model, state, Rest(ops, marks), ops[i]);
            return true;
          }
        }
        RejectOne(state, marks, i);
        BoundOne(state, marks, i, d, deepestDepth - depth);
        i := i + 1;
      }
      AllRejectedIsDeadEnd(state, marks);
      AllBoundedIsBounded(state, marks, deepestDepth - depth, if deepestDepth < depth then 0 else deepestDepth - depth);
      RecordDeadEnd(state, depth, minReturn, path);
      return false;
    }

    lemma NoneTried(state: S, marks: seq<bool>, d: int)
      requires |marks| == |ops|
      ensures AllRejected(state, marks, 0) && AllBounded(state, marks, 0, d)
    {
    }

    /** Places one operation next, searches on, and takes it back. */
    method Try(i: nat, state: S, depth: nat, minReturn: int, ghost path: seq<Operation<I, O>>) returns (ok: bool)
      requires Valid() && Marks(used[..]) == depth && i < |ops| && !used[i] && At(path, state, used[..])
      requires IsEarliestReturn(Rest(ops, used[..]), minReturn)
      modifies this, used
      ensures Valid() && used[..] == old(used[..]) && deepestDepth >= old(deepestDepth)
      ensures ok <==> GoodChoice(model, state, Rest(ops, used[..]), ops[i])
      ensures !ok ==> BoundedBy(model, state, Rest(ops, used[..]), ops[i], deepestDepth - depth)
      decreases |ops| - depth, 0
    {
      hide *;
      Shaped();
      ghost var marks := used[..];
      MarkOne(ops, marks, i);
      if ops[i].call > minReturn {
        CannotComeNext(state, marks, i, minReturn, deepestDepth - depth);
        return false;
      }
      var next := model.step(state, ops[i].input, ops[i].output);
      if next.None? {
        CannotComeNext(state, marks, i, minReturn, deepestDepth - depth);
        return false;
      }
      used[i] := true;
      assert used[..] == marks[i := true];
      Descend(state, marks, i, minReturn, path);
      ok := Find(next.value, depth + 1, path + [ops[i]]);
      Ascend(state, marks, i, minReturn, deepestDepth - depth, ok);
      used[i] := false;
      assert used[..] == marks;
    }

    lemma CannotComeNext(state: S, marks: seq<bool>, i: nat, minReturn: int, d: int)
      requires |marks| == |ops| && i < |ops| && !marks[i] && IsEarliestReturn(Rest(ops, marks), minReturn)
      requires ops[i].call > minReturn || model.step(state, ops[i].input, ops[i].output).None?
      ensures !GoodChoice(model, state, Rest(ops, marks), ops[i])
      ensures BoundedBy(model, state, Rest(ops, marks), ops[i], d)
    {
      ChoiceBounded(model, state, Rest(ops, marks), ops[i], d);
    }

    /** The next operation is placed: the path leads one further. */
    lemma Descend(state: S, marks: seq<bool>, i: nat, minReturn: int, path: seq<Operation<I, O>>)
      requires At(path, state, marks) && i < |ops| && !marks[i] && IsEarliestReturn(Rest(ops, marks), minReturn)
      requires ops[i].call <= minReturn && model.step(state, ops[i].input, ops[i].output).Some?
      ensures At(path + [ops[i]], model.step(state, ops[i].input, ops[i].output).value, marks[i := true])
      ensures Marks(marks[i := true]) == Marks(marks) + 1
    {
      hide Leads, Rest, Marks;
      MarkOne(ops, marks, i);
      assert Minimal(Rest(ops, marks), ops[i]);
      LeadsOn(model, model.init, multiset(ops), path, state, Rest(ops, marks), ops[i]);
    }

    /** What the search below says about the operation it was started with. */
    lemma Ascend(state: S, marks: seq<bool>, i: nat, minReturn: int, d: int, ok: bool)
      requires |marks| == |ops| && i < |ops| && !marks[i] && IsEarliestReturn(Rest(ops, marks), minReturn)
      requires ops[i].call <= minReturn && model.step(state, ops[i].input, ops[i].output).Some?
      requires ok <==> Completable(model, model.step(state, ops[i].input, ops[i].output).value, Rest(ops, marks[i := true]))
      requires !ok ==> Bounded(model, model.step(state, ops[i].input, ops[i].output).value, Rest(ops, marks[i := true]), d - 1)
      ensures ok <==> GoodChoice(model, state, Rest(ops, marks), ops[i])
      ensures !ok ==> BoundedBy(model, state, Rest(ops, marks), ops[i], d)
    {
      hide Rest, Marks, Bounded, BoundedBy, Completable;
      MarkOne(ops, marks, i);
      if !ok {
        ChoiceBounded(model, state, Rest(ops, marks), ops[i], d);
      }
    }

    function WithDeadEnd(table: map<seq<bool>, seq<S>>, key: seq<bool>, state: S): map<seq<bool>, seq<S>>
    {
      table[key := (if key in table then table[key] else []) + [state]]
    }

    lemma WithDeadEndIsSound(table: map<seq<bool>, seq<S>>, key: seq<bool>, state: S)
      requires DeadEnds(table) && |key| == |ops| && !Completable(model, state, Rest(ops, key))
      ensures DeadEnds(WithDeadEnd(table, key, state))
    {
      var table' := WithDeadEnd(table, key, state);
      forall k, i | k in table' && 0 <= i < |table'[k]|
        ensures |k| == |ops| && !Completable(model, table'[k][i], Rest(ops, k))
      {
        if k == key {
          assert table'[k][i] == state || (k in table && i < |table[k]| && table'[k][i] == table[k][i]);
        } else {
          assert table'[k] == table[k];
        }
      }
    }

    method RecordDeadEnd(state: S, depth: nat, minReturn: int, ghost path: seq<Operation<I, O>>)
      requires Valid() && Marks(used[..]) == depth < |ops| && At(path, state, used[..])
      requires !Completable(model, state, Rest(ops, used[..]))
      requires Bounded(model, state, Rest(ops, used[..]), if deepestDepth < depth then 0 else deepestDepth - depth)
      modifies this
      ensures Valid() && deepestDepth >= 0 && Bounded(model, state, Rest(ops, used[..]), deepestDepth - depth)
      ensures visited == if model.equal.Some? then WithDeadEnd(old(visited), used[..], state) else old(visited)
      ensures depth <= old(deepestDepth) ==> deepestDepth == old(deepestDepth) && deepestStuck == old(deepestStuck)
      ensures depth > old(deepestDepth) ==> deepestDepth == depth && 0 <= deepestStuck < |ops| && !used[deepestStuck]
      ensures depth > old(deepestDepth) ==>
                forall i :: 0 <= i < |ops| && CouldBeNext(i, minReturn) ==>
                  deepestStuck <= i && CouldBeNext(deepestStuck, minReturn)
    {
      hide Bounded, EqualIsBisimulation, Placeable, Shallow, DeadEnds, WellFormed, Completable, Rest, Marks, At;
      var k := Blame(minReturn);
      if depth > deepestDepth {
        ShallowLater(visited, deepestDepth, depth);
        LeftOver(path, state, used[..], k);
        deepestDepth, deepestStuck, deepestPath := depth, k, path;
      }
      if model.equal.Some? {
        WithDeadEndIsSound(visited, used[..], state);
        WithDeadEndIsShallow(visited, used[..], state, deepestDepth);
        visited := WithDeadEnd(visited, used[..], state);
      }
    }

    lemma LeftOver(path: seq<Operation<I, O>>, state: S, marks: seq<bool>, k: nat)
      requires At(path, state, marks) && k < |ops| && !marks[k]
      ensures |path| == Marks(marks) && Placeable(model, model.init, multiset(ops), path)
      ensures ops[k] in multiset(ops) - multiset(path)
    {
      LeadsPlaces(model, model.init, multiset(ops), path, state, Rest(ops, marks));
      RestHas(ops, marks, k);
    }
  }

  // ---------------------------------------------------------------------------
  // The verdict
  // ---------------------------------------------------------------------------

  predicate Before<I, O>(a: Operation<I, O>, b: Operation<I, O>)
  {
    a.call < b.call || (a.call == b.call && a.ret <= b.ret)
  }

  ghost predicate SortedByWindow<I, O>(ops: seq<Operation<I, O>>)
  {
    forall i, j :: 0 <= i < j < |ops| ==> Before(ops[i], ops[j])
  }

  function Insert<I, O>(ops: seq<Operation<I, O>>, op: Operation<I, O>): (r: seq<Operation<I, O>>)
    ensures multiset(r) == multiset(ops) + multiset{op}
  {
    if ops == [] || Before(op, ops[0]) then [op] + ops
    else
      assert ops == [ops[0]] + ops[1..];
      [ops[0]] + Insert(ops[1..], op)
  }

  lemma {:induction false} InsertKeepsSorted<I, O>(ops: seq<Operation<I, O>>, op: Operation<I, O>)
    requires SortedByWindow(ops)
    ensures SortedByWindow(Insert(ops, op))
    decreases |ops|
  {
    if ops != [] && !Before(op, ops[0]) {
      InsertKeepsSorted(ops[1..], op);
      var tail := Insert(ops[1..], op);
      forall j | 0 <= j < |tail| ensures Before(ops[0], tail[j]) {
        assert tail[j] in multiset(tail);
        assert tail[j] in ops[1..] || tail[j] == op;
      }
    }
  }

  method SortByWindow<I, O>(history: seq<Operation<I, O>>) returns (ops: seq<Operation<I, O>>)
    ensures multiset(ops) == multiset(history) && SortedByWindow(ops)
  {
    ops := [];
    for i := 0 to |history|
      invariant multiset(ops) == multiset(history[..i]) && SortedByWindow(ops)
    {
      InsertKeepsSorted(ops, history[i]);
      ops := Insert(ops, history[i]);
      assert history[..i + 1] == history[..i] + [history[i]];
    }
    assert history[..|history|] == history;
  }

  /** The checker decides linearizability: it accepts exactly the histories that
      have a legal sequential order respecting real time, whatever the order they
      are listed in, and on rejection it names an operation that some longest order
      of operations the search can place leaves over. */
  method CheckOperations<S(!new), I(==,!new), O(==,!new)>(model: Model<S, I, O>, history: seq<Operation<I, O>>)
    returns (ok: bool, offending: Option<Operation<I, O>>)
    requires EqualIsBisimulation(model)
    requires WellFormed(multiset(history))
    ensures ok <==> Linearizable(model, multiset(history))
    ensures offending.Some? <==> !ok
    ensures offending.Some? ==> offending.value in history
    ensures offending.Some? ==> exists path :: DeepestDeadEnd(model, multiset(history), path, offending.value)
  {
    offending := None;
    var ops := SortByWindow(history);
    if |ops| == 0 {
      assert IsLinearization(model, model.init, multiset(history), []);
      return true, None;
    }
    var search := new Search(model, ops);
    NoMarks(ops, search.used[..]);
    ok := search.Find(model.init, 0, []);
    if !ok {
      assert DeepestDeadEnd(model, multiset(history), search.deepestPath, ops[search.deepestStuck]);
      offending := Some(ops[search.deepestStuck]);
      assert ops[search.deepestStuck] in multiset(history);
    }
  }
}
