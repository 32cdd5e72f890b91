/** Step budgets under which a correct primary always passes. */
module RegisterCutoff {
  import opened Options
  import opened Porcupine
  import opened Sets
  import opened RegisterSpec
  import opened RegisterSim
  import opened RegisterProofs
  import opened RegisterTheorems
  import opened RegisterServe

  ghost function HistoryOf(w: World): multiset<Op>
  {
    multiset(w.rec.ops)
  }

  /** Whatever is primed and however messages are delivered, a run of the correct primary
      under this step budget leaves a linearizable history. */
  ghost predicate AlwaysAccepted(primed: nat, maxReqs: nat, maxSteps: nat)
  {
    forall kinds, run :: |kinds| == primed && RunOf(Primed(false, maxReqs, kinds), maxSteps, run) ==>
      Linearizable(RegModel(), HistoryOf(Exec(Primed(false, maxReqs, kinds), run)))
  }

  // ---------------------------------------------------------------------------
  // Budgets that are safe
  // ---------------------------------------------------------------------------

  lemma ShortRunLinearizable(w: World, primed: nat, log: Log)
    requires Shape(w, primed, log) && Sound(w.primary, log) && |log.order| + |w.rec.ops| <= 2
    ensures Linearizable(RegModel(), HistoryOf(w))
  {
    if w.rec.ops == [] {
      assert IsLinearization(RegModel(), 0, HistoryOf(w), []);
    } else {
      assert IsRecorded(log, w.rec.ops[0]);
      var id := w.rec.ops[0].clientID;
      assert log.entries[id].idx == 0 && |log.order| == 1 && log.order[0] == id;
      forall k | k in log.entries ensures log.entries[k].done {
        assert log.order[log.entries[k].idx] == k;
      }
      AllAnsweredLinearizable(w, primed, log);
    }
  }

  /** With one request in flight at a time, only the latest applied one can be unanswered. */
  ghost predicate OnlyLastOpen(log: Log)
  {
    forall id :: id in log.entries && !log.entries[id].done ==> log.entries[id].idx == |log.order| - 1
  }

  lemma TwoPending(d: Driver, a: int, b: int)
    requires a in d.pending && b in d.pending && a != b
    ensures |d.pending| >= 2
  {
    assert {a, b} <= d.pending.Keys;
    SubsetSize({a, b}, d.pending.Keys);
  }

  lemma StepKeepsOnlyLastOpen(w: World, primed: nat, log: Log, c: Choice)
    requires Shape(w, primed, log) && c.msg in w.net && primed <= 1 && OnlyLastOpen(log)
    ensures OnlyLastOpen(NextLog(w, log, c))
  {
    match c.msg
    case Req(id, req) =>
      RequestFacts(w, primed, log, id, req);
      forall k | k in log.entries ensures log.entries[k].done {
        assert EntryOk(w.driver, w.rec, log, k);
        if !log.entries[k].done { TwoPending(w.driver, id, k); }
      }
    case Ack(id, resp) =>
      AnswerFacts(w, primed, log, id, resp);
  }

  lemma {:induction false} RunKeepsOnlyLastOpen(w: World, primed: nat, log: Log, run: seq<Choice>) returns (log': Log)
    requires Shape(w, primed, log) && Sound(w.primary, log) && !w.primary.buggy && Enabled(w, run)
    requires primed <= 1 && OnlyLastOpen(log)
    ensures Shape(Exec(w, run), primed, log') && Sound(Exec(w, run).primary, log') && OnlyLastOpen(log')
    decreases |run|
  {
    if run == [] {
      log' := log;
    } else {
      hide Shape, Sound, OnlyLastOpen;
      StepKeepsShape(w, primed, log, run[0]);
      StepKeepsSound(w, primed, log, run[0]);
      StepKeepsOnlyLastOpen(w, primed, log, run[0]);
      log' := RunKeepsOnlyLastOpen(Deliver(w, run[0]), primed, NextLog(w, log, run[0]), run[1..]);
    }
  }

  lemma {:induction false} LegalPrefix(s: int, lin: seq<Op>, n: nat)
    requires n <= |lin| && Legal(RegModel(), s, lin)
    ensures Legal(RegModel(), s, lin[..n])
  {
    LegalIsAllFit(s, lin);
    forall j | 0 <= j < n ensures FitsAt(s, lin[..n], j) {
      assert FitsAt(s, lin, j) && lin[..n][..j] == lin[..j];
    }
    LegalIsAllFit(s, lin[..n]);
  }

  lemma OpenLastIsUnanswered(log: Log, t: int)
    requires Indexed(log) && OnlyLastOpen(log)
    ensures var n := |log.order|; Unanswered(log, n, t) == [] || (n > 0 && Unanswered(log, n, t) == [Lin(log, t)[n - 1]])
  {
    var n := |log.order|;
    if n > 0 {
      var prev := Unanswered(log, n - 1, t);
      if prev != [] { UnansweredIs(log, n - 1, t, prev[0]); }
      LinAt(log, t, n - 1);
    }
  }

  lemma DropLast(lin: seq<Op>, history: multiset<Op>)
    requires lin != [] && multiset(lin) == history + multiset([lin[|lin| - 1]])
    ensures multiset(lin[..|lin| - 1]) == history
  {
    var k := |lin| - 1;
    assert lin == lin[..k] + [lin[k]];
    assert multiset(lin) == multiset(lin[..k]) + multiset([lin[k]]);
    assert multiset(lin[..k]) == multiset(lin) - multiset([lin[k]]);
  }

  lemma PrefixIsLinearization(lin: seq<Op>, ext: seq<Op>, history: multiset<Op>)
    requires Legal(RegModel(), 0, lin) && RealTime(lin) && multiset(lin) == history + multiset(ext)
    requires ext == [] || (lin != [] && ext == [lin[|lin| - 1]])
    ensures Linearizable(RegModel(), history)
  {
    if ext == [] {
      assert IsLinearization(RegModel(), 0, history, lin);
    } else {
      var k := |lin| - 1;
      LegalPrefix(0, lin, k);
      DropLast(lin, history);
      assert IsLinearization(RegModel(), 0, history, lin[..k]);
    }
  }

  lemma OnlyLastOpenLinearizable(w: World, primed: nat, log: Log)
    requires Shape(w, primed, log) && Sound(w.primary, log) && OnlyLastOpen(log)
    ensures Linearizable(RegModel(), HistoryOf(w))
  {
    hide Booked, NetOk, EntriesOk, HistoryOk, InRealTime, CountOk, Unanswered, OnlyLastOpen, Legal, RealTime, Indexed, Linearizable;
    var t := w.rec.clock + 1;
    LinLegal(w.primary, log, t);
    LinRealTime(w.driver, w.rec, log);
    LinIsHistory(w.driver, w.rec, log);
    OpenLastIsUnanswered(log, t);
    PrefixIsLinearization(Lin(log, t), Unanswered(log, |log.order|, t), HistoryOf(w));
  }

  lemma OneAtATimeLinearizable(maxReqs: nat, kinds: seq<bool>, run: seq<Choice>)
    requires |kinds| <= 1 && Enabled(Primed(false, maxReqs, kinds), run)
    ensures Linearizable(RegModel(), HistoryOf(Exec(Primed(false, maxReqs, kinds), run)))
  {
    PrimedShape(false, maxReqs, kinds);
    var log := RunKeepsOnlyLastOpen(Primed(false, maxReqs, kinds), |kinds|, EmptyLog, run);
    OnlyLastOpenLinearizable(Exec(Primed(false, maxReqs, kinds), run), |kinds|, log);
  }

  lemma SafeBudget(maxReqs: nat, maxSteps: nat, kinds: seq<bool>, run: seq<Choice>)
    requires maxSteps < 3 || maxSteps >= 2 * maxReqs || |kinds| < 2
    requires RunOf(Primed(false, maxReqs, kinds), maxSteps, run)
    ensures Linearizable(RegModel(), HistoryOf(Exec(Primed(false, maxReqs, kinds), run)))
  {
    if |kinds| < 2 {
      OneAtATimeLinearizable(maxReqs, kinds, run);
    } else {
      EveryRunEnds(false, maxReqs, kinds, run);
      if Exec(Primed(false, maxReqs, kinds), run).net == multiset{} {
        DrainedRunLinearizable(maxReqs, kinds, run);
      } else {
        var log := RunFacts(false, maxReqs, kinds, run);
        ShortRunLinearizable(Exec(Primed(false, maxReqs, kinds), run), |kinds|, log);
      }
    }
  }
}
