/** The faulty primary: a stale read it serves is rejected, whatever happens afterwards. */
module RegisterFaulty {
  import opened Options
  import opened Porcupine
  import opened RegisterSpec
  import opened RegisterSim
  import opened RegisterProofs
  import opened RegisterTheorems
  import opened RegisterServe
  import opened RegisterCutoff

  /** The history only grows. */
  lemma {:induction false} HistoryGrows(w: World, run: seq<Choice>)
    ensures w.rec.ops <= Exec(w, run).rec.ops
    decreases |run|
  {
    if run != [] {
      HistoryGrows(Deliver(w, run[0]), run[1..]);
      assert w.rec.ops <= Deliver(w, run[0]).rec.ops;
    }
  }

  lemma ShapeDistinctWrites(w: World, primed: nat, log: Log)
    requires Shape(w, primed, log)
    ensures DistinctWrites(HistoryOf(w))
  {
    var h := HistoryOf(w);
    forall a, b | a in h && b in h && a.input.Write? && a.input == b.input
      ensures a == b && h[a] == 1
    {
      assert a in w.rec.ops && b in w.rec.ops;
      assert OpRecorded(w.driver, w.rec, a) && OpRecorded(w.driver, w.rec, b);
      assert IsRecorded(log, a) && IsRecorded(log, b);
      EachOnce(w.rec.ops, a);
    }
  }

  /** A history with a stale read in it stays rejected however the run goes on. */
  lemma StaleForever(w: World, primed: nat, log: Log, w1: Op, w2: Op, r: Op, rest: seq<Choice>)
    requires Shape(w, primed, log) && Enabled(w, rest)
    requires w1 in w.rec.ops && w2 in w.rec.ops && r in w.rec.ops && StaleOps(w1, w2, r)
    ensures !Linearizable(RegModel(), HistoryOf(Exec(w, rest)))
  {
    var log' := RunShape(w, primed, log, rest);
    HistoryGrows(w, rest);
    var w' := Exec(w, rest);
    ShapeDistinctWrites(w', primed, log');
    hide Shape, DistinctWrites, Linearizable;
    assert w1 in w'.rec.ops && w2 in w'.rec.ops && r in w'.rec.ops;
    StaleReadRejected(HistoryOf(w'), w1, w2, r);
  }

  lemma RunThree(w: World, x: seq<Choice>, y: seq<Choice>, z: seq<Choice>)
    requires Enabled(w, x) && Enabled(Exec(w, x), y) && Enabled(Exec(Exec(w, x), y), z)
    ensures Enabled(w, x + (y + z)) && Exec(w, x + (y + z)) == Exec(Exec(Exec(w, x), y), z)
  {
    hide Enabled, Exec;
    RunConcat(Exec(w, x), y, z);
    RunConcat(w, x, y + z);
  }

  ghost predicate StaleOps(w1: Op, w2: Op, r: Op)
  {
    && w1.input.Write? && w2.input.Write? && w1 != w2 && w1.ret < w2.call && w2.ret < r.call
    && r.input.Read? && r.output == ReadAck(w1.input.val)
  }

  /** A write, another write after it is acknowledged, then a read answered with the first. */
  lemma StaleTriple(p: World, primed: nat) returns (run: seq<Choice>, w: World, log: Log, w1: Op, w2: Op, r: Op)
    requires FaultyPrimed(p, primed)
    ensures |run| == 6 && Enabled(p, run) && w == Exec(p, run)
    ensures Shape(w, primed, log) && w.rec.ops == [w1, w2, r] && StaleOps(w1, w2, r)
  {
    hide Shape, Serve, Exec, Enabled;
    var a, logA := ServeOne(p, primed, EmptyLog, 0, false);
    var b, logB := ServeOne(a, primed, logA, primed, true);
    w, log := ServeLast(b, primed, logB, primed + 1);
    w1, w2, r := ServedOp(p, 0), ServedOp(a, primed), ServedOp(b, primed + 1);
    run := Serve(p, 0, false) + (Serve(a, primed, true) + Serve(b, primed + 1, true));
    RunThree(p, Serve(p, 0, false), Serve(a, primed, true), Serve(b, primed + 1, true));
    ServeLength(p, 0, false);
    ServeLength(a, primed, true);
    ServeLength(b, primed + 1, true);
  }

  /** The faulty primary trips the gate: there is a run of six deliveries after which the
      history is rejected, and it stays rejected in every continuation, including the ones
      that drain the network. */
  lemma FaultyPrimaryRejected(primed: nat, maxReqs: nat) returns (kinds: seq<bool>, run: seq<Choice>)
    requires primed >= 1 && maxReqs >= primed + 2
    ensures |kinds| == primed && |run| == 6 && Enabled(Primed(true, maxReqs, kinds), run)
    ensures forall rest :: Enabled(Primed(true, maxReqs, kinds), run + rest) ==>
              !Linearizable(RegModel(), HistoryOf(Exec(Primed(true, maxReqs, kinds), run + rest)))
  {
    hide Shape, Linearizable, Exec, Enabled, Primed, FaultyPrimed, StaleOps;
    kinds := seq(primed, _ => false);
    var p := Primed(true, maxReqs, kinds);
    var w, log, w1, w2, r;
    FaultyStart(maxReqs, kinds);
    run, w, log, w1, w2, r := StaleTriple(p, primed);
    forall rest | Enabled(p, run + rest)
      ensures !Linearizable(RegModel(), HistoryOf(Exec(p, run + rest)))
    {
      RunConcat(p, run, rest);
      StaleForever(w, primed, log, w1, w2, r, rest);
    }
  }

  /** The faulty scenario, primed with a write of 1 first and two more requests to come. */
  ghost predicate FaultyPrimed(p: World, primed: nat)
  {
    && Shape(p, primed, EmptyLog) && 0 in p.driver.pending && 0 in p.rec.pending
    && p.rec.pending[0].input == Write(1) && p.driver.issued == primed >= 1 && p.driver.maxReqs >= primed + 2
    && p.rec.ops == [] && p.primary == Primary(true, None, None)
  }

  lemma FaultyStart(maxReqs: nat, kinds: seq<bool>)
    requires 1 <= |kinds| && |kinds| + 2 <= maxReqs && !kinds[0]
    ensures FaultyPrimed(Primed(true, maxReqs, kinds), |kinds|)
  {
    PrimedShape(true, maxReqs, kinds);
    PrimedKind(true, maxReqs, kinds, 0);
    var p := Primed(true, maxReqs, kinds);
    assert OpBooked(p.driver, p.rec, 0);
    PrimingLeavesPrimary(true, maxReqs, kinds);
  }

  lemma {:induction false} PrimingLeavesPrimary(buggy: bool, maxReqs: nat, kinds: seq<bool>)
    ensures Primed(buggy, maxReqs, kinds).primary == Primary(buggy, None, None)
    decreases |kinds|
  {
    if kinds != [] { PrimingLeavesPrimary(buggy, maxReqs, kinds[..|kinds| - 1]); }
  }
}
