/** Small facts about finite sets. */
module Sets {

  ghost function Pick<T>(s: set<T>): (x: T)
    requires s != {}
    ensures x in s
  {
    var x :| x in s; x
  }

  method AnyOf<T(==)>(s: set<T>) returns (x: T)
    requires s != {}
    ensures x in s
  {
    x :| x in s;
  }

  lemma {:induction false} SubsetSize<T>(s: set<T>, t: set<T>)
    requires s <= t
    ensures |s| <= |t|
    decreases s
  {
    if s != {} {
      var x := Pick(s);
      SubsetSize(s - {x}, t - {x});
    }
  }

  /** Every finite set of numbers has a number above it. */
  lemma Above(ids: set<nat>) returns (bound: nat)
    ensures forall i: nat :: i in ids ==> i < bound
  {
    if ids == {} {
      bound := 0;
    } else {
      var i := Pick(ids);
      var rest := Above(ids - {i});
      bound := if i < rest then rest else i + 1;
      assert forall x: nat :: x in ids ==> x == i || x in ids - {i};
    }
  }
}
