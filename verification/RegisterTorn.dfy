/** A correct primary cut off between applying a write and answering it, with every request
    served in order up to that point. */
module RegisterTorn {
  import opened Options
  import opened Porcupine
  import opened RegisterSpec
  import opened RegisterSim
  import opened RegisterProofs
  import opened RegisterTheorems
  import opened RegisterServe
  import opened RegisterCutoff

  /** Messages are delivered in the order of the requests they belong to, up to one position. */
  ghost predicate NearlyInOrder(run: seq<Choice>)
  {
    forall j :: 0 <= j < |run| ==> j / 2 <= run[j].msg.id <= j / 2 + 1
  }

  // ---------------------------------------------------------------------------
  // The first requests, served in order
  // ---------------------------------------------------------------------------

  /** What serving request `id` leaves pending. */
  lemma ServePending(w: World, id: int, nextIsRead: bool)
    requires id in w.rec.pending && id in w.driver.pending
    ensures var d, d' := w.driver, Served(w, id, nextIsRead).driver;
            && d'.maxReqs == d.maxReqs
            && d'.issued == (if d.issued < d.maxReqs then d.issued + 1 else d.issued)
            && (forall k :: k in d.pending && k != id && k != d.nextReq ==> k in d'.pending && d'.pending[k] == d.pending[k])
            && (d.issued < d.maxReqs ==> d.nextReq in d'.pending && d'.pending[d.nextReq].isRead == nextIsRead)
            && Served(w, id, nextIsRead).primary.buggy == w.primary.buggy
  {
  }

  lemma ServeLogged(w: World, primed: nat, log: Log, id: int, nextIsRead: bool) returns (log': Log)
    requires Shape(w, primed, log) && id in w.rec.pending && Req(id, w.rec.pending[id].input) in w.net
    ensures Shape(Served(w, id, nextIsRead), primed, log')
    ensures forall k :: k in log'.entries ==> k in log.entries || k == id
  {
    var run := Serve(w, id, nextIsRead);
    var w1, log1 := Deliver(w, run[0]), NextLog(w, log, run[0]);
    assert run[1].msg in w1.net;
    log' := NextLog(w1, log1, run[1]);
    hide Shape, Deliver, NextLog;
    StepKeepsShape(w, primed, log, run[0]);
    StepKeepsShape(w1, primed, log1, run[1]);
    LoggedIds(w, log, run[0]);
    LoggedIds(w1, log1, run[1]);
  }

  lemma LoggedIds(w: World, log: Log, c: Choice)
    ensures forall k :: k in NextLog(w, log, c).entries ==> k in log.entries || k == c.msg.id
  {
  }

  /** The first `j` requests have been served, the rest is pending, and only request `r` is a read. */
  ghost predicate InOrder(w: World, primed: nat, log: Log, j: nat, r: nat)
  {
    && Shape(w, primed, log) && !w.primary.buggy
    && w.driver.issued == (if primed + j <= w.driver.maxReqs then primed + j else w.driver.maxReqs)
    && (forall k :: k in log.entries ==> k < j)
    && (forall k :: j <= k < w.driver.issued ==> k in w.driver.pending && w.driver.pending[k].isRead == (k == r))
  }

  lemma ServeNext(w: World, primed: nat, log: Log, j: nat, r: nat) returns (log': Log)
    requires InOrder(w, primed, log, j, r) && j < w.driver.issued
    ensures j in w.rec.pending && Enabled(w, Serve(w, j, w.driver.issued == r))
    ensures InOrder(Exec(w, Serve(w, j, w.driver.issued == r)), primed, log', j + 1, r)
    ensures Exec(w, Serve(w, j, w.driver.issued == r)).driver.maxReqs == w.driver.maxReqs
  {
    hide Shape, OpBooked, Serve, Served, Enabled, Exec;
    var kind := w.driver.issued == r;
    NextIsNew(w, primed, log, j);
    ReadyToServe(w, primed, log, j);
    log' := ServeLogged(w, primed, log, j, kind);
    ServeRuns(w, j, kind);
    ServePending(w, j, kind);
  }

  /** A run that serves the first `j` requests in order. */
  lemma {:induction false} ServeFirst(p: World, primed: nat, j: nat, r: nat) returns (run: seq<Choice>, log: Log)
    requires InOrder(p, primed, EmptyLog, 0, r) && j <= p.driver.maxReqs && primed >= 1
    ensures Enabled(p, run) && |run| == 2 * j && InOrder(Exec(p, run), primed, log, j, r)
    ensures Exec(p, run).driver.maxReqs == p.driver.maxReqs
    ensures forall i :: 0 <= i < |run| ==> run[i].msg.id == i / 2
    decreases j
  {
    hide InOrder, Enabled, Exec, Serve;
    if j == 0 {
      run, log := [], EmptyLog;
      RunNothing(p);
    } else {
      run, log := ServeFirst(p, primed, j - 1, r);
      var w := Exec(p, run);
      StillSome(w, primed, log, j - 1, r);
      var kind := w.driver.issued == r;
      log := ServeNext(w, primed, log, j - 1, r);
      ServeIds(w, j - 1, kind);
      RunConcat(p, run, Serve(w, j - 1, kind));
      run := run + Serve(w, j - 1, kind);
    }
  }

  lemma RunNothing(w: World)
    ensures Enabled(w, []) && Exec(w, []) == w
  {
  }

  lemma StillSome(w: World, primed: nat, log: Log, j: nat, r: nat)
    requires InOrder(w, primed, log, j, r) && j < w.driver.maxReqs && primed >= 1
    ensures j < w.driver.issued
  {
  }

  lemma ServeIds(w: World, id: int, kind: bool)
    requires id in w.rec.pending
    ensures var s := Serve(w, id, kind); |s| == 2 && s[0].msg.id == id && s[1].msg.id == id
  {
  }

  // ---------------------------------------------------------------------------
  // Budgets that are not
  // ---------------------------------------------------------------------------

  /** Request `k`, a write, is applied but unanswered, and a read of its value is on record. */
  ghost predicate Torn(w: World, log: Log, k: int)
  {
    k in w.driver.pending && k in log.entries && ReadOf(w.rec.ops, k + 1)
  }

  ghost predicate ReadOf(ops: seq<Op>, val: int)
  {
    exists i :: 0 <= i < |ops| && ops[i].input == Read && ops[i].output == ReadAck(val)
  }

  lemma TornIsRejected(w: World, primed: nat, log: Log, k: nat)
    requires Shape(w, primed, log) && Torn(w, log, k)
    ensures !Linearizable(RegModel(), HistoryOf(w))
  {
    var i :| 0 <= i < |w.rec.ops| && w.rec.ops[i].input == Read && w.rec.ops[i].output == ReadAck(k + 1);
    forall op | op in HistoryOf(w) ensures op.input != Write(k + 1) {
      assert op in w.rec.ops;
      assert OpRecorded(w.driver, w.rec, op);
    }
    UnwrittenValueRejected(HistoryOf(w), w.rec.ops[i]);
  }

  // ---------------------------------------------------------------------------
  // The torn pair
  // ---------------------------------------------------------------------------

  function WriteOf(k: nat): Choice
  {
    Choice(Req(k, Write(k + 1)), false)
  }

  function ReadAfter(k: nat): Choice
  {
    Choice(Req(k + 1, Read), false)
  }

  function ReadBack(k: nat): Choice
  {
    Choice(Ack(k + 1, ReadAck(k + 1)), false)
  }

  lemma BothInFlight(w: World, primed: nat, log: Log, k: nat)
    requires InOrder(w, primed, log, k, k + 1) && k + 1 < w.driver.issued
    ensures WriteOf(k).msg in w.net && ReadAfter(k).msg in w.net && k in w.driver.pending
  {
    hide Shape;
    ReadyToServe(w, primed, log, k);
    ReadyToServe(w, primed, log, k + 1);
  }

  /** The write and then the read reach the primary: the read is answered with the write's value. */
  lemma WriteThenRead(w: World, primed: nat, log: Log, k: nat) returns (w1: World, w2: World, log2: Log)
    requires Shape(w, primed, log) && !w.primary.buggy && WriteOf(k).msg in w.net && ReadAfter(k).msg in w.net
    ensures w1 == Deliver(w, WriteOf(k)) && ReadAfter(k).msg in w1.net
    ensures w2 == Deliver(w1, ReadAfter(k)) && ReadBack(k).msg in w2.net && Shape(w2, primed, log2)
    ensures k in log2.entries && w2.driver == w.driver && w2.rec == w.rec
    ensures k + 2 !in log.entries ==> k + 2 !in log2.entries
  {
    hide Shape;
    RequestFacts(w, primed, log, k, Write(k + 1));
    RequestFacts(w, primed, log, k + 1, Read);
    StepKeepsShape(w, primed, log, WriteOf(k));
    w1 := Deliver(w, WriteOf(k));
    var log1 := NextLog(w, log, WriteOf(k));
    StepKeepsShape(w1, primed, log1, ReadAfter(k));
    w2, log2 := Deliver(w1, ReadAfter(k)), NextLog(w1, log1, ReadAfter(k));
  }

  lemma ReadBackTears(w: World, primed: nat, log: Log, k: nat) returns (w': World, log': Log)
    requires Shape(w, primed, log) && ReadBack(k).msg in w.net && k in log.entries && k in w.driver.pending
    ensures w' == Deliver(w, ReadBack(k)) && Shape(w', primed, log') && Torn(w', log', k)
    ensures k + 2 in w.driver.pending || k + 2 == w.driver.issued < w.driver.maxReqs ==> k + 2 in w'.driver.pending
    ensures k + 2 !in log.entries ==> k + 2 !in log'.entries
  {
    hide Shape;
    NextIsNew(w, primed, log, k);
    AnswerFacts(w, primed, log, k + 1, ReadAck(k + 1));
    StepKeepsShape(w, primed, log, ReadBack(k));
    w', log' := Deliver(w, ReadBack(k)), NextLog(w, log, ReadBack(k));
    assert w'.rec.ops[|w.rec.ops|].output == ReadAck(k + 1);
  }

  lemma ThirdRequest(w: World, primed: nat, log: Log, k: nat)
    requires InOrder(w, primed, log, k, k + 1)
    ensures Shape(w, primed, log) && !w.primary.buggy && k + 2 !in log.entries
    ensures k + 2 < w.driver.maxReqs && primed >= 2 ==>
              k + 2 in w.driver.pending || k + 2 == w.driver.issued < w.driver.maxReqs
  {
    hide Shape;
  }

  function Tear(k: nat): seq<Choice>
  {
    [WriteOf(k)] + ([ReadAfter(k)] + ([ReadBack(k)] + []))
  }

  /** Three deliveries tear the pair: the write is applied, the read of it recorded, and the write's
      answer still on its way. */
  lemma TearsAt(w: World, primed: nat, log: Log, k: nat) returns (log': Log)
    requires InOrder(w, primed, log, k, k + 1) && k + 1 < w.driver.issued
    ensures Enabled(w, Tear(k)) && Shape(Exec(w, Tear(k)), primed, log') && Torn(Exec(w, Tear(k)), log', k)
    ensures k + 2 < w.driver.maxReqs && primed >= 2 ==>
              k + 2 in Exec(w, Tear(k)).driver.pending && k + 2 !in log'.entries
  {
    BothInFlight(w, primed, log, k);
    ThirdRequest(w, primed, log, k);
    hide InOrder, Shape, Torn, Deliver, Enabled, Exec, WriteOf, ReadAfter, ReadBack;
    var w1, w2, log2 := WriteThenRead(w, primed, log, k);
    var w3;
    w3, log' := ReadBackTears(w2, primed, log2, k);
    RunNothing(w3);
    ConsRun(w2, ReadBack(k), []);
    ConsRun(w1, ReadAfter(k), [ReadBack(k)] + []);
    ConsRun(w, WriteOf(k), [ReadAfter(k)] + ([ReadBack(k)] + []));
  }

  lemma TearIds(k: nat)
    ensures |Tear(k)| == 3
    ensures Tear(k)[0].msg.id == k && Tear(k)[1].msg.id == k + 1 && Tear(k)[2].msg.id == k + 1
  {
  }

  /** One more request may reach the primary without mending the pair. */
  lemma OneMoreRequest(w: World, primed: nat, log: Log, k: nat) returns (c: Choice)
    requires Shape(w, primed, log) && Torn(w, log, k) && k + 2 in w.driver.pending && k + 2 !in log.entries
    ensures c.msg in w.net && c.msg.id == k + 2
    ensures Shape(Deliver(w, c), primed, NextLog(w, log, c)) && Torn(Deliver(w, c), NextLog(w, log, c), k)
  {
    hide Shape;
    ReadyToServe(w, primed, log, k + 2);
    c := Choice(Req(k + 2, w.rec.pending[k + 2].input), false);
    StepKeepsShape(w, primed, log, c);
  }

  lemma PrimedInOrder(maxReqs: nat, kinds: seq<bool>, r: nat)
    requires forall i :: 0 <= i < |kinds| ==> kinds[i] == (i == r)
    ensures InOrder(Primed(false, maxReqs, kinds), |kinds|, EmptyLog, 0, r)
    ensures Primed(false, maxReqs, kinds).driver.maxReqs == maxReqs
  {
    hide Shape;
    PrimedShape(false, maxReqs, kinds);
    PrimedCount(false, maxReqs, kinds);
    var w := Primed(false, maxReqs, kinds);
    forall k | 0 <= k < w.driver.issued ensures k in w.driver.pending && w.driver.pending[k].isRead == (k == r) {
      PrimedKind(false, maxReqs, kinds, k);
    }
  }

  /** For every budget from three steps up to one short of two per request there is a run of the
      correct primary, with messages delivered nearly in the order of issue, whose recorded history
      is rejected. */
  lemma UnsafeBudget(primed: nat, maxReqs: nat, maxSteps: nat) returns (kinds: seq<bool>, run: seq<Choice>)
    requires 3 <= maxSteps < 2 * maxReqs && primed >= 2
    ensures |kinds| == primed && RunOf(Primed(false, maxReqs, kinds), maxSteps, run) && NearlyInOrder(run)
    ensures !Linearizable(RegModel(), HistoryOf(Exec(Primed(false, maxReqs, kinds), run)))
  {
    hide Shape, Torn, Linearizable, Primed, NextLog, Deliver, Enabled, Exec, Tear, InOrder;
    var k := (maxSteps - 3) / 2;
    kinds := seq(primed, i => i == k + 1);
    var p := Primed(false, maxReqs, kinds);
    PrimedInOrder(maxReqs, kinds, k + 1);
    var first, log := ServeFirst(p, primed, k, k + 1);
    var w := Exec(p, first);
    TwoMore(w, primed, log, k);
    var log' := TearsAt(w, primed, log, k);
    TearIds(k);
    RunConcat(p, first, Tear(k));
    run := first + Tear(k);
    if |run| == maxSteps {
      TornIsRejected(Exec(p, run), primed, log', k);
    } else {
      var w' := Exec(p, run);
      var c := OneMoreRequest(w', primed, log', k);
      RunNothing(Deliver(w', c));
      ConsRun(w', c, []);
      RunConcat(p, run, [c] + []);
      run := run + ([c] + []);
      TornIsRejected(Exec(p, run), primed, NextLog(w', log', c), k);
    }
  }

  lemma TwoMore(w: World, primed: nat, log: Log, k: nat)
    requires InOrder(w, primed, log, k, k + 1) && k + 1 < w.driver.maxReqs && primed >= 2
    ensures k + 1 < w.driver.issued
  {
  }

  /** As AlwaysAccepted, for runs that deliver nearly in order only. */
  ghost predicate AcceptedInOrder(primed: nat, maxReqs: nat, maxSteps: nat)
  {
    forall kinds, run :: |kinds| == primed && RunOf(Primed(false, maxReqs, kinds), maxSteps, run) && NearlyInOrder(run) ==>
      Linearizable(RegModel(), HistoryOf(Exec(Primed(false, maxReqs, kinds), run)))
  }

  /** The gate is sound for a step budget exactly when the budget is under three steps, or covers
      two deliveries per request, or requests never overlap; and it takes no more reordering than
      one position to show it unsound otherwise. */
  lemma CutoffExact(primed: nat, maxReqs: nat, maxSteps: nat)
    ensures AlwaysAccepted(primed, maxReqs, maxSteps) <==>
            maxSteps < 3 || maxSteps >= 2 * maxReqs || primed < 2
    ensures AcceptedInOrder(primed, maxReqs, maxSteps) <==> AlwaysAccepted(primed, maxReqs, maxSteps)
  {
    if maxSteps < 3 || maxSteps >= 2 * maxReqs || primed < 2 {
      forall kinds, run | |kinds| == primed && RunOf(Primed(false, maxReqs, kinds), maxSteps, run)
        ensures Linearizable(RegModel(), HistoryOf(Exec(Primed(false, maxReqs, kinds), run)))
      {
        SafeBudget(maxReqs, maxSteps, kinds, run);
      }
    } else {
      var kinds, run := UnsafeBudget(primed, maxReqs, maxSteps);
    }
  }
}
