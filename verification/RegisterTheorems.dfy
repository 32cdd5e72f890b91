/** What every run of the scenario satisfies, and exactly when its recorded history does. */
module RegisterTheorems {
  import opened Options
  import opened Porcupine
  import opened RegisterSpec
  import opened RegisterSim
  import opened RegisterProofs

  // ---------------------------------------------------------------------------
  // The invariant along a run
  // ---------------------------------------------------------------------------

  const EmptyLog := Log([], map[])

  lemma {:induction false} PrimedShape(buggy: bool, maxReqs: nat, kinds: seq<bool>)
    ensures var w := Primed(buggy, maxReqs, kinds);
            Shape(w, |kinds|, EmptyLog) && Sound(w.primary, EmptyLog) && w.rec.ops == [] &&
            w.primary.buggy == buggy && w.driver.maxReqs == maxReqs
    decreases |kinds|
  {
    if kinds == [] {
      assert Lin(EmptyLog, 0) == [];
    } else {
      var k := |kinds| - 1;
      PrimedShape(buggy, maxReqs, kinds[..k]);
      IssueKeeps(Primed(buggy, maxReqs, kinds[..k]), k, EmptyLog, kinds[k]);
    }
  }

  lemma {:induction false} RunConcat(w: World, a: seq<Choice>, b: seq<Choice>)
    requires Enabled(w, a)
    ensures Exec(w, a + b) == Exec(Exec(w, a), b)
    ensures Enabled(w, a + b) <==> Enabled(Exec(w, a), b)
    decreases |a|
  {
    hide Deliver;
    if a == [] {
      assert a + b == b;
    } else {
      RunConcat(Deliver(w, a[0]), a[1..], b);
      assert (a + b)[1..] == a[1..] + b;
    }
  }

  lemma KeptAlong(w: World, c: Choice)
    ensures Deliver(w, c).primary.buggy == w.primary.buggy && Deliver(w, c).driver.maxReqs == w.driver.maxReqs
  {
  }

  /** Along a run the invariant holds, and (applied) + (recorded) counts the deliveries. */
  lemma {:induction false} RunShape(w: World, primed: nat, log: Log, run: seq<Choice>) returns (log': Log)
    requires Shape(w, primed, log) && Enabled(w, run)
    ensures Shape(Exec(w, run), primed, log')
    ensures |log'.order| + |Exec(w, run).rec.ops| == |log.order| + |w.rec.ops| + |run|
    ensures !w.primary.buggy && Sound(w.primary, log) ==> Sound(Exec(w, run).primary, log')
    ensures Exec(w, run).driver.maxReqs == w.driver.maxReqs
    decreases |run|
  {
    if run == [] {
      log' := log;
    } else {
      KeptAlong(w, run[0]);
      hide Shape, Sound, Deliver, NextLog;
      StepKeepsShape(w, primed, log, run[0]);
      if !w.primary.buggy && Sound(w.primary, log) { StepKeepsSound(w, primed, log, run[0]); }
      log' := RunShape(Deliver(w, run[0]), primed, NextLog(w, log, run[0]), run[1..]);
    }
  }

  lemma RunFacts(buggy: bool, maxReqs: nat, kinds: seq<bool>, run: seq<Choice>) returns (log: Log)
    requires Enabled(Primed(buggy, maxReqs, kinds), run)
    ensures var w := Exec(Primed(buggy, maxReqs, kinds), run);
            Shape(w, |kinds|, log) && |log.order| + |w.rec.ops| == |run| && w.driver.maxReqs == maxReqs &&
            (!buggy ==> Sound(w.primary, log))
  {
    PrimedShape(buggy, maxReqs, kinds);
    log := RunShape(Primed(buggy, maxReqs, kinds), |kinds|, EmptyLog, run);
  }

  // ---------------------------------------------------------------------------
  // Every run ends, after two deliveries per request
  // ---------------------------------------------------------------------------

  ghost function RequestsInFlight(w: World): set<int>
  {
    set id | id in w.rec.pending && Req(id, w.rec.pending[id].input) in w.net
  }

  ghost predicate AnswerInFlight(w: World, id: int)
  {
    exists resp :: Ack(id, resp) in w.net
  }

  ghost function AnswersInFlight(w: World): set<int>
  {
    set id | id in w.rec.pending && AnswerInFlight(w, id)
  }

  /** Deliveries still to come. */
  ghost function Potential(w: World): int
  {
    2 * (w.driver.maxReqs - w.driver.issued) + 2 * |RequestsInFlight(w)| + |AnswersInFlight(w)|
  }

  /** A pending request owns exactly one message. */
  ghost predicate OwnsOne(w: World, id: int)
  {
    exists m: Message :: m.id == id && w.net[m] == 1 && forall other: Message :: other in w.net && other.id == id ==> other == m
  }

  lemma ShapeOwnsOne(w: World, primed: nat, log: Log, id: int)
    requires Shape(w, primed, log) && id in w.driver.pending
    ensures OwnsOne(w, id)
  {
    var m := Expected(w.rec, log, id);
    assert w.net[m] == 1;
    forall other | other in w.net && other.id == id ensures other == m {
      OwnsMessage(w.net, w.rec, log, other);
    }
  }

  lemma InFlightSplit(net: multiset<Message>, r: Recorder, log: Log, w: World)
    requires NetOk(net, r, log) && w.net == net && w.rec == r
    ensures RequestsInFlight(w) == Waiting(r.pending.Keys, log.entries.Keys)
    ensures AnswersInFlight(w) !! RequestsInFlight(w)
    ensures AnswersInFlight(w) + RequestsInFlight(w) == r.pending.Keys
  {
    forall id | id in r.pending
      ensures id in RequestsInFlight(w) <==> id !in log.entries
      ensures id in AnswersInFlight(w) <==> id in log.entries
    {
      assert net[Expected(r, log, id)] == 1;
      if id in log.entries {
        assert Ack(id, log.entries[id].op.output) in w.net;
        if Req(id, r.pending[id].input) in net { OwnsMessage(net, r, log, Req(id, r.pending[id].input)); }
      } else {
        if AnswerInFlight(w, id) {
          var resp :| Ack(id, resp) in w.net;
          OwnsMessage(net, r, log, Ack(id, resp));
        }
      }
    }
  }

  lemma PotentialIs(w: World, primed: nat, log: Log)
    requires Shape(w, primed, log)
    ensures Potential(w) == 2 * w.driver.maxReqs - |log.order| - |w.rec.ops|
  {
    InFlightSplit(w.net, w.rec, log, w);
    var q, a := RequestsInFlight(w), AnswersInFlight(w);
    assert |a + q| == |a| + |q|;
    assert |w.rec.pending.Keys| == |w.driver.pending.Keys| == |w.driver.pending|;
  }

  lemma PendingHasMessage(net: multiset<Message>, r: Recorder, log: Log, id: int)
    requires NetOk(net, r, log) && id in r.pending
    ensures Expected(r, log, id) in net
  {
    assert net[Expected(r, log, id)] == 1;
  }

  /** A drained network means every request has been answered. */
  lemma DrainedMeansAnswered(w: World, primed: nat, log: Log)
    requires Shape(w, primed, log) && w.net == multiset{}
    ensures w.driver.pending == map[] && w.rec.pending == map[]
    ensures primed >= 1 ==> |w.rec.ops| == w.driver.maxReqs
    ensures forall id :: id in log.entries ==> log.entries[id].done
  {
    forall id | id in w.rec.pending ensures false {
      PendingHasMessage(w.net, w.rec, log, id);
    }
    assert w.driver.pending.Keys == {};
    forall id | id in log.entries ensures log.entries[id].done {
      assert EntryOk(w.driver, w.rec, log, id);
    }
  }

  /** Every run of the scenario, with either primary: at most as many requests are pending
      as were primed, each owns exactly one message, every delivery brings the end one step
      closer, and the network drains after exactly two deliveries per request, when all
      requests have been recorded. */
  lemma EveryRunEnds(buggy: bool, maxReqs: nat, kinds: seq<bool>, run: seq<Choice>)
    requires |kinds| >= 1 && Enabled(Primed(buggy, maxReqs, kinds), run)
    ensures var w := Exec(Primed(buggy, maxReqs, kinds), run);
            && Potential(w) == 2 * maxReqs - |run| >= 0
            && |w.driver.pending| <= |kinds|
            && (forall id :: id in w.driver.pending ==> OwnsOne(w, id))
            && (w.net == multiset{} <==> |run| == 2 * maxReqs)
            && (w.net == multiset{} ==> |w.rec.ops| == maxReqs && w.driver.pending == map[])
  {
    var log := RunFacts(buggy, maxReqs, kinds, run);
    var w := Exec(Primed(buggy, maxReqs, kinds), run);
    PotentialIs(w, |kinds|, log);
    forall id | id in w.driver.pending ensures OwnsOne(w, id) {
      ShapeOwnsOne(w, |kinds|, log, id);
    }
    if w.net == multiset{} {
      DrainedMeansAnswered(w, |kinds|, log);
      assert Waiting(w.driver.pending.Keys, log.entries.Keys) == {};
    }
    if |run| == 2 * maxReqs {
      ZeroPotentialDrains(w, |kinds|, log);
    }
  }

  lemma ZeroPotentialDrains(w: World, primed: nat, log: Log)
    requires Shape(w, primed, log) && |log.order| + |w.rec.ops| == 2 * w.driver.maxReqs
    ensures w.net == multiset{}
  {
    assert |w.rec.ops| == w.driver.issued && |w.driver.pending| == 0;
    assert w.driver.pending.Keys == {};
    forall m: Message ensures w.net[m] == 0 {
      assert m.id !in w.rec.pending.Keys;
    }
  }

  // ---------------------------------------------------------------------------
  // Linearizability of every run of the correct primary
  // ---------------------------------------------------------------------------

  ghost predicate DistinctClients(s: seq<Op>)
  {
    forall i, j :: 0 <= i < j < |s| ==> s[i].clientID != s[j].clientID
  }

  lemma {:induction false} EachOnce(s: seq<Op>, x: Op)
    requires DistinctClients(s)
    ensures multiset(s)[x] == if x in s then 1 else 0
    decreases |s|
  {
    if s != [] {
      var n := |s| - 1;
      EachOnce(s[..n], x);
      assert s == s[..n] + [s[n]];
    }
  }

  lemma SameOperations(a: seq<Op>, b: seq<Op>)
    requires DistinctClients(a) && DistinctClients(b) && forall x :: x in a <==> x in b
    ensures multiset(a) == multiset(b)
  {
    forall x: Op ensures multiset(a)[x] == multiset(b)[x] {
      EachOnce(a, x);
      EachOnce(b, x);
    }
  }

  /** The applied but unanswered operations among the first `n`, returning at `t`. */
  ghost function Unanswered(log: Log, n: nat, t: int): (ext: seq<Op>)
    requires Indexed(log) && n <= |log.order|
  {
    if n == 0 then []
    else
      var e := log.entries[log.order[n - 1]];
      Unanswered(log, n - 1, t) + (if e.done then [] else [e.op.(ret := t)])
  }

  ghost predicate IsUnanswered(log: Log, x: Op, n: nat, t: int)
  {
    var id := x.clientID;
    id in log.entries && !log.entries[id].done && log.entries[id].idx < n && x == log.entries[id].op.(ret := t)
  }

  lemma {:induction false} UnansweredIs(log: Log, n: nat, t: int, x: Op)
    requires Indexed(log) && n <= |log.order|
    ensures x in Unanswered(log, n, t) <==> IsUnanswered(log, x, n, t)
  {
    if n > 0 {
      UnansweredIs(log, n - 1, t, x);
      var id := log.order[n - 1];
      assert id in log.entries && log.entries[id].idx == n - 1 && log.entries[id].op.clientID == id;
      if x.clientID in log.entries && log.entries[x.clientID].idx == n - 1 {
        assert log.order[log.entries[x.clientID].idx] == x.clientID;
      }
    }
  }

  lemma {:induction false} UnansweredDistinct(log: Log, n: nat, t: int)
    requires Indexed(log) && n <= |log.order|
    ensures DistinctClients(Unanswered(log, n, t))
  {
    if n > 0 {
      UnansweredDistinct(log, n - 1, t);
      var prev, id := Unanswered(log, n - 1, t), log.order[n - 1];
      assert id in log.entries && log.entries[id].op.clientID == id;
      forall i | 0 <= i < |prev| ensures prev[i].clientID != id {
        UnansweredIs(log, n - 1, t, prev[i]);
      }
    }
  }

  /** `ext` answers some of the requests still pending, each at most once and after everything recorded. */
  ghost predicate CompletesPending(w: World, ext: seq<Op>)
  {
    && DistinctClients(ext)
    && forall i :: 0 <= i < |ext| ==>
         var id := ext[i].clientID;
         id in w.rec.pending && ext[i].input == w.rec.pending[id].input && ext[i].call == w.rec.pending[id].call &&
         ext[i].ret == w.rec.clock + 1
  }

  lemma LinAt(log: Log, t: int, i: nat)
    requires Indexed(log) && i < |log.order|
    ensures Lin(log, t)[i].clientID == log.order[i] && log.order[i] in log.entries
    ensures log.entries[log.order[i]].idx == i && Lin(log, t)[i] == Closed(log.entries[log.order[i]], t)
  {
    assert log.order[i] in log.entries;
  }

  lemma LinDistinct(log: Log, t: int)
    requires Indexed(log)
    ensures DistinctClients(Lin(log, t))
  {
    var lin := Lin(log, t);
    forall i, j | 0 <= i < j < |lin| ensures lin[i].clientID != lin[j].clientID {
      LinAt(log, t, i);
      LinAt(log, t, j);
    }
  }

  lemma LinRealTime(d: Driver, r: Recorder, log: Log)
    requires Indexed(log) && InRealTime(log) && EntriesOk(d, r, log)
    ensures RealTime(Lin(log, r.clock + 1))
  {
    var lin := Lin(log, r.clock + 1);
    forall i, j | 0 <= i < j < |lin| ensures lin[i].call <= lin[j].ret {
      LinAt(log, r.clock + 1, i);
      LinAt(log, r.clock + 1, j);
      assert EntryOk(d, r, log, lin[i].clientID);
    }
  }

  lemma LinLegal(p: Primary, log: Log, t: int)
    requires Sound(p, log)
    ensures Legal(RegModel(), 0, Lin(log, t))
  {
    SameAnswers(0, Lin(log, 0), Lin(log, t));
    LegalIsAllFit(0, Lin(log, t));
  }

  lemma LinMember(d: Driver, r: Recorder, log: Log, x: Op)
    requires Indexed(log) && EntriesOk(d, r, log) && HistoryOk(r.ops, log)
    ensures var t := r.clock + 1; x in Lin(log, t) <==> x in r.ops || x in Unanswered(log, |log.order|, t)
  {
    var t := r.clock + 1;
    var lin := Lin(log, t);
    UnansweredIs(log, |log.order|, t, x);
    if x in lin {
      var i :| 0 <= i < |lin| && lin[i] == x;
      LinAt(log, t, i);
      assert EntryOk(d, r, log, x.clientID);
    }
    if x in r.ops {
      assert IsRecorded(log, x);
    }
    if x in r.ops || x in Unanswered(log, |log.order|, t) {
      LinAt(log, t, log.entries[x.clientID].idx);
      assert lin[log.entries[x.clientID].idx] == x;
    }
  }

  lemma ExtCompletes(w: World, log: Log)
    requires Indexed(log) && EntriesOk(w.driver, w.rec, log)
    ensures CompletesPending(w, Unanswered(log, |log.order|, w.rec.clock + 1))
  {
    var t := w.rec.clock + 1;
    var ext := Unanswered(log, |log.order|, t);
    UnansweredDistinct(log, |log.order|, t);
    forall i | 0 <= i < |ext|
      ensures IsUnanswered(log, ext[i], |log.order|, t) && EntryOk(w.driver, w.rec, log, ext[i].clientID)
    {
      UnansweredIs(log, |log.order|, t, ext[i]);
    }
  }

  lemma ExtDistinct(ops: seq<Op>, log: Log, t: int)
    requires Indexed(log) && HistoryOk(ops, log)
    ensures DistinctClients(ops + Unanswered(log, |log.order|, t))
  {
    var ext := Unanswered(log, |log.order|, t);
    UnansweredDistinct(log, |log.order|, t);
    forall i, j | 0 <= i < |ops| && 0 <= j < |ext| ensures ops[i].clientID != ext[j].clientID {
      assert IsRecorded(log, ops[i]);
      UnansweredIs(log, |log.order|, t, ext[j]);
    }
  }

  lemma LinIsHistory(d: Driver, r: Recorder, log: Log)
    requires Indexed(log) && EntriesOk(d, r, log) && HistoryOk(r.ops, log)
    ensures var t := r.clock + 1;
            multiset(Lin(log, t)) == multiset(r.ops) + multiset(Unanswered(log, |log.order|, t))
  {
    var t := r.clock + 1;
    var lin, ext := Lin(log, t), Unanswered(log, |log.order|, t);
    LinDistinct(log, t);
    ExtDistinct(r.ops, log, t);
    forall x ensures x in lin <==> x in r.ops + ext {
      LinMember(d, r, log, x);
    }
    hide Indexed, EntriesOk, HistoryOk, DistinctClients, Unanswered;
    SameOperations(lin, r.ops + ext);
    assert multiset(r.ops + ext) == multiset(r.ops) + multiset(ext);
  }

  lemma ShapeIsLinearizable(w: World, primed: nat, log: Log)
    requires Shape(w, primed, log) && Sound(w.primary, log)
    ensures var ext := Unanswered(log, |log.order|, w.rec.clock + 1);
            CompletesPending(w, ext) && Linearizable(RegModel(), multiset(w.rec.ops) + multiset(ext))
  {
    hide Booked, NetOk, EntriesOk, HistoryOk, InRealTime, CountOk, Unanswered, CompletesPending, Legal, RealTime, Indexed;
    LinLegal(w.primary, log, w.rec.clock + 1);
    LinRealTime(w.driver, w.rec, log);
    ExtCompletes(w, log);
    LinIsHistory(w.driver, w.rec, log);
    var lin := Lin(log, w.rec.clock + 1);
    assert IsLinearization(RegModel(), 0, multiset(lin), lin);
  }

  /** `ext` answers exactly the requests whose answer is in flight, with that answer. */
  ghost predicate AnswersExactly(w: World, ext: seq<Op>)
  {
    && (forall i :: 0 <= i < |ext| ==> Ack(ext[i].clientID, ext[i].output) in w.net)
    && (forall id, resp :: Ack(id, resp) in w.net ==> IsAnswered(ext, id, resp))
  }

  ghost predicate IsAnswered(ext: seq<Op>, id: int, resp: Response)
  {
    exists i :: 0 <= i < |ext| && ext[i].clientID == id && ext[i].output == resp
  }

  lemma ExtAnswersExactly(w: World, primed: nat, log: Log)
    requires Shape(w, primed, log)
    ensures AnswersExactly(w, Unanswered(log, |log.order|, w.rec.clock + 1))
  {
    var n, t := |log.order|, w.rec.clock + 1;
    var ext := Unanswered(log, n, t);
    forall i | 0 <= i < |ext| ensures Ack(ext[i].clientID, ext[i].output) in w.net {
      UnansweredIs(log, n, t, ext[i]);
      var id := ext[i].clientID;
      assert EntryOk(w.driver, w.rec, log, id);
      PendingHasMessage(w.net, w.rec, log, id);
    }
    forall id, resp | Ack(id, resp) in w.net ensures IsAnswered(ext, id, resp) {
      AnswerFacts(w, primed, log, id, resp);
      var x := log.entries[id].op.(ret := t);
      UnansweredIs(log, n, t, x);
      var i :| 0 <= i < |ext| && ext[i] == x;
    }
  }

  /** In every reachable state of the correct primary, whatever the delivery order and the number
      of requests, the recorded history together with the requests the primary has applied and
      not yet had recorded, answered as it answered them, is linearizable. */
  lemma AppliedLinearizable(maxReqs: nat, kinds: seq<bool>, run: seq<Choice>) returns (ext: seq<Op>)
    requires Enabled(Primed(false, maxReqs, kinds), run)
    ensures var w := Exec(Primed(false, maxReqs, kinds), run);
            && CompletesPending(w, ext) && AnswersExactly(w, ext)
            && (forall i :: 0 <= i < |ext| ==> (ext[i].input.Write? <==> ext[i].output.WriteAck?))
            && Linearizable(RegModel(), multiset(w.rec.ops) + multiset(ext))
  {
    hide Linearizable, CompletesPending, AnswersExactly;
    var log := RunFacts(false, maxReqs, kinds, run);
    var w := Exec(Primed(false, maxReqs, kinds), run);
    ShapeIsLinearizable(w, |kinds|, log);
    ExtAnswersExactly(w, |kinds|, log);
    ext := Unanswered(log, |log.order|, w.rec.clock + 1);
    forall i | 0 <= i < |ext| ensures ext[i].input.Write? <==> ext[i].output.WriteAck? {
      UnansweredIs(log, |log.order|, w.rec.clock + 1, ext[i]);
      assert EntryOk(w.driver, w.rec, log, ext[i].clientID);
    }
  }

  /** The writes of a list of operations. */
  ghost function WritesOf(ext: seq<Op>): seq<Op>
  {
    if ext == [] then []
    else
      var last := ext[|ext| - 1];
      WritesOf(ext[..|ext| - 1]) + if last.input.Write? then [last] else []
  }

  lemma {:induction false} WritesOfIs(ext: seq<Op>, x: Op)
    ensures x in WritesOf(ext) <==> x in ext && x.input.Write?
    decreases |ext|
  {
    if ext != [] {
      WritesOfIs(ext[..|ext| - 1], x);
      assert ext == ext[..|ext| - 1] + [ext[|ext| - 1]];
    }
  }

  lemma {:induction false} WritesOfDistinct(ext: seq<Op>)
    requires DistinctClients(ext)
    ensures DistinctClients(WritesOf(ext))
    decreases |ext|
  {
    if ext != [] {
      var n := |ext| - 1;
      WritesOfDistinct(ext[..n]);
      var prev := WritesOf(ext[..n]);
      forall i | 0 <= i < |prev| ensures prev[i].clientID != ext[n].clientID {
        WritesOfIs(ext[..n], prev[i]);
      }
    }
  }

  lemma {:induction false} WritesSuffice(history: multiset<Op>, ext: seq<Op>)
    requires Linearizable(RegModel(), history + multiset(ext))
    ensures Linearizable(RegModel(), history + multiset(WritesOf(ext)))
    decreases |ext|
  {
    hide Linearizable;
    if ext == [] {
    } else {
      var init, last := ext[..|ext| - 1], ext[|ext| - 1];
      assert ext == init + [last];
      if last.input.Read? {
        assert history + multiset(ext) == (history + multiset(init)) + multiset{last};
        ReadCanBeDropped(history + multiset(init), last);
        WritesSuffice(history, init);
        assert WritesOf(ext) == WritesOf(init);
      } else {
        assert history + multiset(ext) == (history + multiset{last}) + multiset(init);
        WritesSuffice(history + multiset{last}, init);
        assert WritesOf(ext) == WritesOf(init) + [last];
        assert history + multiset(WritesOf(ext)) == (history + multiset{last}) + multiset(WritesOf(init));
      }
    }
  }

  /** `ext` acknowledges exactly the writes the primary has applied and whose answer is in flight. */
  ghost predicate AppliedWrites(w: World, ext: seq<Op>)
  {
    && (forall i :: 0 <= i < |ext| ==>
          ext[i].input.Write? && ext[i].output == WriteAck && Ack(ext[i].clientID, WriteAck) in w.net)
    && (forall id :: Ack(id, WriteAck) in w.net ==> IsAnswered(ext, id, WriteAck))
  }

  lemma WritesOfMember(ext: seq<Op>, i: nat) returns (k: nat)
    requires i < |WritesOf(ext)|
    ensures k < |ext| && ext[k] == WritesOf(ext)[i] && ext[k].input.Write?
  {
    WritesOfIs(ext, WritesOf(ext)[i]);
    k :| 0 <= k < |ext| && ext[k] == WritesOf(ext)[i];
  }

  lemma WritesOfComplete(w: World, ext: seq<Op>)
    requires CompletesPending(w, ext)
    ensures CompletesPending(w, WritesOf(ext))
  {
    var writes := WritesOf(ext);
    WritesOfDistinct(ext);
    forall i | 0 <= i < |writes|
      ensures var id := writes[i].clientID;
              id in w.rec.pending && writes[i].input == w.rec.pending[id].input && writes[i].call == w.rec.pending[id].call &&
              writes[i].ret == w.rec.clock + 1
    {
      var k := WritesOfMember(ext, i);
    }
  }

  lemma WritesOfAnswered(ext: seq<Op>, id: int)
    requires IsAnswered(ext, id, WriteAck)
    requires forall i :: 0 <= i < |ext| ==> (ext[i].input.Write? <==> ext[i].output.WriteAck?)
    ensures IsAnswered(WritesOf(ext), id, WriteAck)
  {
    var i :| 0 <= i < |ext| && ext[i].clientID == id && ext[i].output == WriteAck;
    WritesOfIs(ext, ext[i]);
    var writes := WritesOf(ext);
    var k :| 0 <= k < |writes| && writes[k] == ext[i];
  }

  lemma WritesOfAnswers(w: World, ext: seq<Op>)
    requires AnswersExactly(w, ext)
    requires forall i :: 0 <= i < |ext| ==> (ext[i].input.Write? <==> ext[i].output.WriteAck?)
    ensures AppliedWrites(w, WritesOf(ext))
  {
    hide WritesOf, IsAnswered;
    var writes := WritesOf(ext);
    forall i | 0 <= i < |writes|
      ensures writes[i].input.Write? && writes[i].output == WriteAck && Ack(writes[i].clientID, WriteAck) in w.net
    {
      var k := WritesOfMember(ext, i);
    }
    forall id | Ack(id, WriteAck) in w.net ensures IsAnswered(writes, id, WriteAck) {
      WritesOfAnswered(ext, id);
    }
  }

  /** In every reachable state of the correct primary the completed operations plus the writes
      already applied are linearizable: no other pending request is needed to explain them. */
  lemma EveryStateLinearizable(maxReqs: nat, kinds: seq<bool>, run: seq<Choice>) returns (ext: seq<Op>)
    requires Enabled(Primed(false, maxReqs, kinds), run)
    ensures var w := Exec(Primed(false, maxReqs, kinds), run);
            && CompletesPending(w, ext) && AppliedWrites(w, ext)
            && Linearizable(RegModel(), multiset(w.rec.ops) + multiset(ext))
  {
    hide Linearizable, CompletesPending, AnswersExactly, AppliedWrites;
    var w := Exec(Primed(false, maxReqs, kinds), run);
    var answered := AppliedLinearizable(maxReqs, kinds, run);
    WritesSuffice(multiset(w.rec.ops), answered);
    WritesOfAnswers(w, answered);
    WritesOfComplete(w, answered);
    ext := WritesOf(answered);
  }

  lemma NothingUnanswered(log: Log, t: int)
    requires Indexed(log) && forall id :: id in log.entries ==> log.entries[id].done
    ensures Unanswered(log, |log.order|, t) == []
  {
    var ext := Unanswered(log, |log.order|, t);
    if ext != [] { UnansweredIs(log, |log.order|, t, ext[0]); }
  }

  lemma AllAnsweredLinearizable(w: World, primed: nat, log: Log)
    requires Shape(w, primed, log) && Sound(w.primary, log)
    requires forall id :: id in log.entries ==> log.entries[id].done
    ensures Linearizable(RegModel(), multiset(w.rec.ops))
  {
    hide Booked, NetOk, EntriesOk, HistoryOk, InRealTime, CountOk, Unanswered, CompletesPending, Linearizable;
    ShapeIsLinearizable(w, primed, log);
    NothingUnanswered(log, w.rec.clock + 1);
    assert multiset(w.rec.ops) + multiset([]) == multiset(w.rec.ops);
  }

  /** A run of the correct primary that drains the network has a linearizable history. */
  lemma DrainedRunLinearizable(maxReqs: nat, kinds: seq<bool>, run: seq<Choice>)
    requires Enabled(Primed(false, maxReqs, kinds), run)
    requires Exec(Primed(false, maxReqs, kinds), run).net == multiset{}
    ensures Linearizable(RegModel(), multiset(Exec(Primed(false, maxReqs, kinds), run).rec.ops))
  {
    var log := RunFacts(false, maxReqs, kinds, run);
    var w := Exec(Primed(false, maxReqs, kinds), run);
    DrainedMeansAnswered(w, |kinds|, log);
    AllAnsweredLinearizable(w, |kinds|, log);
  }
}
