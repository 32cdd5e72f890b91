/** The sequential specification of the single register, and what it means for histories. */
module RegisterSpec {
  import opened Options
  import opened Porcupine

  datatype Request = Write(val: int) | Read
  datatype Response = WriteAck | ReadAck(val: int)

  type Op = Operation<Request, Response>

  /** A write must be acknowledged and sets the register; a read must return its value. */
  function RegStep(cur: int, input: Request, output: Response): (next: Option<int>)
  {
    match input
    case Write(v) => if output.WriteAck? then Some(v) else None
    case Read => if output.ReadAck? && output.val == cur then Some(cur) else None
  }

  function RegModel(): Model<int, Request, Response>
  {
    Model(0, RegStep, Some((a: int, b: int) => a == b))
  }

  // ---------------------------------------------------------------------------
  // Legal sequences, position by position
  // ---------------------------------------------------------------------------

  /** The value the register holds after `lin`: the last write's, or the starting one. */
  ghost function After(s: int, lin: seq<Op>): int
  {
    if lin == [] then s
    else
      var last := lin[|lin| - 1];
      if last.input.Write? then last.input.val else After(s, lin[..|lin| - 1])
  }

  ghost predicate Fits(cur: int, op: Op)
  {
    match op.input
    case Write(_) => op.output.WriteAck?
    case Read => op.output == ReadAck(cur)
  }

  ghost predicate FitsAt(s: int, lin: seq<Op>, j: nat)
    requires j < |lin|
  {
    Fits(After(s, lin[..j]), lin[j])
  }

  /** Every operation fits the value left by the ones before it. */
  ghost predicate AllFit(s: int, lin: seq<Op>)
  {
    forall j :: 0 <= j < |lin| ==> FitsAt(s, lin, j)
  }

  lemma {:induction false} AfterTail(s: int, lin: seq<Op>)
    requires lin != []
    ensures After(s, lin) == After(After(s, lin[..1]), lin[1..])
    decreases |lin|
  {
    if |lin| == 1 {
      assert lin[..1] == lin;
    } else {
      var n := |lin| - 1;
      AfterTail(s, lin[..n]);
      assert lin[..n][..1] == lin[..1] && lin[..n][1..] == lin[1..][..n - 1];
    }
  }

  /** The recursive and the positional reading of "legal" agree. */
  lemma {:induction false} LegalIsAllFit(s: int, lin: seq<Op>)
    ensures Legal(RegModel(), s, lin) <==> AllFit(s, lin)
    decreases |lin|
  {
    if lin != [] {
      var s' := After(s, lin[..1]);
      var tail := lin[1..];
      LegalIsAllFit(s', tail);
      forall j | 0 <= j < |tail| ensures FitsAt(s', tail, j) <==> FitsAt(s, lin, j + 1) {
        AfterTail(s, lin[..j + 1]);
        assert lin[..j + 1][..1] == lin[..1] && lin[..j + 1][1..] == tail[..j];
      }
      assert lin[..0] == [];
      var r := RegStep(s, lin[0].input, lin[0].output);
      assert FitsAt(s, lin, 0) <==> r.Some?;
      assert r.Some? ==> r.value == s';
      if AllFit(s, lin) {
        forall j | 0 <= j < |tail| ensures FitsAt(s', tail, j) { assert FitsAt(s, lin, j + 1); }
      }
      if FitsAt(s, lin, 0) && AllFit(s', tail) {
        forall j | 0 <= j < |lin| ensures FitsAt(s, lin, j) {
          if j > 0 { assert FitsAt(s', tail, j - 1); }
        }
      }
    }
  }

  /** The value after `lin` was put there by a write that no later write overtook. */
  lemma {:induction false} LastWrite(s: int, lin: seq<Op>) returns (k: int)
    ensures -1 <= k < |lin|
    ensures k == -1 ==> After(s, lin) == s
    ensures k >= 0 ==> lin[k].input == Write(After(s, lin))
    ensures forall i :: k < i < |lin| ==> lin[i].input.Read?
    decreases |lin|
  {
    if lin == [] {
      k := -1;
    } else if lin[|lin| - 1].input.Write? {
      k := |lin| - 1;
    } else {
      k := LastWrite(s, lin[..|lin| - 1]);
    }
  }

  // ---------------------------------------------------------------------------
  // Histories no correct register can produce
  // ---------------------------------------------------------------------------

  lemma IndexOf(lin: seq<Op>, op: Op) returns (i: nat)
    requires op in multiset(lin)
    ensures i < |lin| && lin[i] == op
  {
    i :| 0 <= i < |lin| && lin[i] == op;
  }

  lemma {:induction false} OnlyIndex(lin: seq<Op>, i: nat, j: nat)
    requires i < j < |lin| && lin[i] == lin[j]
    ensures multiset(lin)[lin[i]] >= 2
  {
    assert lin == lin[..i] + [lin[i]] + lin[i + 1..];
    assert lin[i + 1..][j - i - 1] == lin[j];
    assert lin[j] in multiset(lin[i + 1..]);
  }

  lemma ReadIsExplained(lin: seq<Op>, i: nat)
    requires i < |lin| && FitsAt(0, lin, i) && lin[i].input.Read? && lin[i].output.val != 0
    ensures exists w :: w in multiset(lin) && w.input == Write(lin[i].output.val)
  {
    var k := LastWrite(0, lin[..i]);
    assert lin[k] in multiset(lin);
  }

  /** A read of a value that is neither initial nor written in the history cannot be explained. */
  lemma UnwrittenValueRejected(history: multiset<Op>, r: Op)
    requires r in history && r.input.Read? && r.output.ReadAck? && r.output.val != 0
    requires forall w :: w in history ==> w.input != Write(r.output.val)
    ensures !Linearizable(RegModel(), history)
  {
    forall lin | IsLinearization(RegModel(), 0, history, lin) ensures false {
      LegalIsAllFit(0, lin);
      var i := IndexOf(lin, r);
      ReadIsExplained(lin, i);
    }
  }

  /** Write values identify writes. */
  ghost predicate DistinctWrites(history: multiset<Op>)
  {
    forall a, b :: a in history && b in history && a.input.Write? && a.input == b.input ==>
      a == b && history[a] == 1
  }

  /** After a write at `i`, a read at `j` is explained by a write no earlier than `i`. */
  lemma OverwrittenAgain(lin: seq<Op>, i: nat, j: nat) returns (k: nat)
    requires i < j < |lin| && lin[i].input.Write? && lin[j].input.Read? && FitsAt(0, lin, j)
    ensures i <= k < j && lin[k].input.Write? && lin[j].output == ReadAck(lin[k].input.val)
  {
    var last := LastWrite(0, lin[..j]);
    assert lin[..j][i] == lin[i];
    k := last;
  }

  /** A stale read has no linearization: v1 was overwritten by an acknowledged write
      before the read was issued, yet the read returns v1. */
  lemma StaleReadRejected(history: multiset<Op>, w1: Op, w2: Op, r: Op)
    requires DistinctWrites(history) && w1 in history && w2 in history && r in history
    requires w1.input.Write? && w2.input.Write? && w1 != w2
    requires w1.ret < w2.call && w2.ret < r.call
    requires r.input.Read? && r.output == ReadAck(w1.input.val)
    ensures !Linearizable(RegModel(), history)
  {
    forall lin | IsLinearization(RegModel(), 0, history, lin) ensures false {
      LegalIsAllFit(0, lin);
      var i1 := IndexOf(lin, w1);
      var i2 := IndexOf(lin, w2);
      var ir := IndexOf(lin, r);
      WrittenTwice(lin, i1, i2, ir);
    }
  }

  /** A read that returns what was written before a later write needs that value written again. */
  lemma WrittenTwice(lin: seq<Op>, i: nat, j: nat, k: nat)
    requires i < j < k < |lin| && lin[i].input.Write? && lin[j].input.Write? && lin[k].input.Read?
    requires FitsAt(0, lin, k) && lin[k].output == ReadAck(lin[i].input.val)
    requires forall n :: 0 <= n < |lin| && lin[n].input == lin[i].input ==> lin[n] == lin[i]
    ensures multiset(lin)[lin[i]] >= 2
  {
    var n := OverwrittenAgain(lin, j, k);
    OnlyIndex(lin, i, n);
  }

  // ---------------------------------------------------------------------------
  // Reads can be left out
  // ---------------------------------------------------------------------------

  lemma {:induction false} LegalWithoutRead(s: int, lin: seq<Op>, i: nat)
    requires Legal(RegModel(), s, lin) && i < |lin| && lin[i].input.Read?
    ensures Legal(RegModel(), s, lin[..i] + lin[i + 1..])
    decreases i
  {
    if i == 0 {
      assert lin[..0] + lin[1..] == lin[1..];
    } else {
      var next := RegStep(s, lin[0].input, lin[0].output).value;
      LegalWithoutRead(next, lin[1..], i - 1);
      var rest := lin[..i] + lin[i + 1..];
      assert rest[0] == lin[0] && rest[1..] == lin[1..][..i - 1] + lin[1..][i..];
    }
  }

  lemma WithoutInRealTime(lin: seq<Op>, i: nat)
    requires RealTime(lin) && i < |lin|
    ensures RealTime(lin[..i] + lin[i + 1..])
  {
    var rest := lin[..i] + lin[i + 1..];
    forall a, b | 0 <= a < b < |rest| ensures rest[a].call <= rest[b].ret {
      var a', b' := if a < i then a else a + 1, if b < i then b else b + 1;
      assert rest[a] == lin[a'] && rest[b] == lin[b'];
    }
  }

  lemma WithoutBag(lin: seq<Op>, i: nat, history: multiset<Op>)
    requires i < |lin| && multiset(lin) == history + multiset{lin[i]}
    ensures multiset(lin[..i] + lin[i + 1..]) == history
  {
    assert lin == lin[..i] + [lin[i]] + lin[i + 1..];
    assert multiset(lin) == multiset(lin[..i] + lin[i + 1..]) + multiset{lin[i]};
    assert multiset(lin[..i] + lin[i + 1..]) == multiset(lin) - multiset{lin[i]};
  }

  /** A history that is linearizable with one more read is linearizable without it. */
  lemma ReadCanBeDropped(history: multiset<Op>, r: Op)
    requires r.input.Read? && Linearizable(RegModel(), history + multiset{r})
    ensures Linearizable(RegModel(), history)
  {
    hide Legal, RealTime;
    var lin :| IsLinearization(RegModel(), 0, history + multiset{r}, lin);
    var i := IndexOf(lin, r);
    LegalWithoutRead(0, lin, i);
    WithoutInRealTime(lin, i);
    WithoutBag(lin, i, history);
    assert IsLinearization(RegModel(), 0, history, lin[..i] + lin[i + 1..]);
  }

  lemma RegModelIsLawful()
    ensures EqualIsBisimulation(RegModel())
  {
  }
}
