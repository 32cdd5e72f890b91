/** Requests served one at a time: each is delivered and its answer comes straight back. */
module RegisterServe {
  import opened Options
  import opened Porcupine
  import opened RegisterSpec
  import opened RegisterSim
  import opened RegisterProofs
  import opened RegisterTheorems

  lemma ConsRun(w: World, c: Choice, run: seq<Choice>)
    requires c.msg in w.net && Enabled(Deliver(w, c), run)
    ensures Enabled(w, [c] + run) && Exec(w, [c] + run) == Exec(Deliver(w, c), run)
  {
    assert ([c] + run)[1..] == run;
  }

  lemma PrimedCount(buggy: bool, maxReqs: nat, kinds: seq<bool>)
    ensures var d := Primed(buggy, maxReqs, kinds).driver;
            d.nextReq == d.issued == (if |kinds| <= maxReqs then |kinds| else maxReqs) && d.maxReqs == maxReqs
  {
    PrimedShape(buggy, maxReqs, kinds);
  }

  lemma {:induction false} PrimedKind(buggy: bool, maxReqs: nat, kinds: seq<bool>, i: nat)
    requires i < |kinds| && i < maxReqs
    ensures var d := Primed(buggy, maxReqs, kinds).driver; i in d.pending && d.pending[i].isRead == kinds[i]
    decreases |kinds|
  {
    var k := |kinds| - 1;
    PrimedCount(buggy, maxReqs, kinds[..k]);
    if i < k { PrimedKind(buggy, maxReqs, kinds[..k], i); }
  }

  /** A pending, unapplied request is delivered and its answer comes straight back. */
  ghost function Serve(w: World, id: int, nextIsRead: bool): seq<Choice>
    requires id in w.rec.pending
  {
    var input := w.rec.pending[id].input;
    [Choice(Req(id, input), nextIsRead), Choice(Ack(id, Apply(w.primary, input).1), nextIsRead)]
  }

  /** The operation that serving `id` adds to the history. */
  ghost function ServedOp(w: World, id: int): Op
    requires id in w.rec.pending
  {
    var i := w.rec.pending[id];
    Operation(id, i.input, Apply(w.primary, i.input).1, i.call, w.rec.clock + 1)
  }

  ghost function Served(w: World, id: int, nextIsRead: bool): World
    requires id in w.rec.pending
  {
    var run := Serve(w, id, nextIsRead);
    Deliver(Deliver(w, run[0]), run[1])
  }

  lemma ServeRuns(w: World, id: int, nextIsRead: bool)
    requires id in w.rec.pending && Req(id, w.rec.pending[id].input) in w.net
    ensures Enabled(w, Serve(w, id, nextIsRead))
    ensures Exec(w, Serve(w, id, nextIsRead)) == Served(w, id, nextIsRead)
  {
    var run := Serve(w, id, nextIsRead);
    var w1 := Deliver(w, run[0]);
    assert run[1].msg in w1.net;
    hide Deliver;
    ConsRun(w1, run[1], []);
    ConsRun(w, run[0], [run[1]]);
    assert run == [run[0]] + [run[1]] && [run[1]] == [run[1]] + [];
  }

  lemma ReadyToServe(w: World, primed: nat, log: Log, id: int)
    requires Shape(w, primed, log) && id in w.driver.pending && id !in log.entries
    ensures id in w.rec.pending && OpBooked(w.driver, w.rec, id) && Req(id, w.rec.pending[id].input) in w.net
  {
    PendingHasMessage(w.net, w.rec, log, id);
    assert OpBooked(w.driver, w.rec, id);
  }

  /** A delivery only touches its own request's place in the log. */
  lemma LogFrame(w: World, log: Log, c: Choice, n: int)
    requires n !in log.entries && n != c.msg.id
    ensures n !in NextLog(w, log, c).entries
  {
  }

  lemma ServeShape(w: World, primed: nat, log: Log, id: int, nextIsRead: bool, n: int) returns (log': Log)
    requires Shape(w, primed, log) && id in w.rec.pending && Req(id, w.rec.pending[id].input) in w.net
    requires n !in log.entries && n != id
    ensures Shape(Served(w, id, nextIsRead), primed, log') && n !in log'.entries
  {
    var run := Serve(w, id, nextIsRead);
    var w1, log1 := Deliver(w, run[0]), NextLog(w, log, run[0]);
    assert run[1].msg in w1.net;
    hide Shape, Deliver, NextLog;
    StepKeepsShape(w, primed, log, run[0]);
    StepKeepsShape(w1, primed, log1, run[1]);
    LogFrame(w, log, run[0], n);
    LogFrame(w1, log1, run[1], n);
    log' := NextLog(w1, log1, run[1]);
  }

  /** What serving a request leaves behind. */
  lemma ServeEffect(w: World, id: int, nextIsRead: bool)
    requires id in w.rec.pending && id in w.driver.pending && OpBooked(w.driver, w.rec, id)
    ensures var w' := Served(w, id, nextIsRead);
            w'.primary == Apply(w.primary, w.rec.pending[id].input).0 && w'.rec.ops == w.rec.ops + [ServedOp(w, id)]
  {
  }

  lemma ServeIssues(w: World, id: int, nextIsRead: bool)
    requires id in w.rec.pending && id in w.driver.pending && OpBooked(w.driver, w.rec, id)
    requires w.driver.nextReq == w.driver.issued == w.rec.nextTok < w.driver.maxReqs
    ensures var w', n := Served(w, id, nextIsRead), w.driver.nextReq;
            n in w'.driver.pending && n in w'.rec.pending && w'.driver.maxReqs == w.driver.maxReqs &&
            w'.driver.issued == n + 1 &&
            w'.rec.pending[n] == Invocation(n, if nextIsRead then Read else Write(n + 1), w.rec.clock + 2)
  {
  }

  /** Serving a request, all at once. */
  lemma ServeOne(w: World, primed: nat, log: Log, id: int, nextIsRead: bool) returns (w': World, log': Log)
    requires Shape(w, primed, log) && id in w.driver.pending && id !in log.entries
    requires w.driver.issued < w.driver.maxReqs
    ensures id in w.rec.pending && Enabled(w, Serve(w, id, nextIsRead)) && w' == Exec(w, Serve(w, id, nextIsRead))
    ensures Shape(w', primed, log') && w'.driver.maxReqs == w.driver.maxReqs
    ensures w'.primary == Apply(w.primary, w.rec.pending[id].input).0
    ensures w'.rec.ops == w.rec.ops + [ServedOp(w, id)] && w'.driver.issued == w.driver.issued + 1
    ensures var n := w.driver.issued;
            n in w'.driver.pending && n in w'.rec.pending && n !in log'.entries &&
            w'.rec.pending[n] == Invocation(n, if nextIsRead then Read else Write(n + 1), w.rec.clock + 2)
  {
    hide Shape, OpBooked, Serve, Served, ServedOp, Enabled, Exec, Apply;
    NextIsNew(w, primed, log, id);
    ReadyToServe(w, primed, log, id);
    log' := ServeShape(w, primed, log, id, nextIsRead, w.driver.issued);
    w' := Served(w, id, nextIsRead);
    ServeRuns(w, id, nextIsRead);
    ServeEffect(w, id, nextIsRead);
    ServeIssues(w, id, nextIsRead);
  }

  lemma NextIsNew(w: World, primed: nat, log: Log, id: int)
    requires Shape(w, primed, log) && id in w.driver.pending
    ensures w.driver.nextReq == w.driver.issued == w.rec.nextTok
    ensures w.driver.issued !in log.entries && w.driver.issued != id
  {
    assert forall k :: k in log.entries ==> EntryOk(w.driver, w.rec, log, k);
    assert OpBooked(w.driver, w.rec, id);
  }

  /** Serving the last request of interest; nothing is said about what is issued after it. */
  lemma ServeLast(w: World, primed: nat, log: Log, id: int) returns (w': World, log': Log)
    requires Shape(w, primed, log) && id in w.driver.pending && id !in log.entries
    ensures id in w.rec.pending && Enabled(w, Serve(w, id, true)) && w' == Exec(w, Serve(w, id, true))
    ensures Shape(w', primed, log') && w'.rec.ops == w.rec.ops + [ServedOp(w, id)]
  {
    hide Shape, OpBooked, Serve, Served, ServedOp, Enabled, Exec, Apply;
    NextIsNew(w, primed, log, id);
    ReadyToServe(w, primed, log, id);
    log' := ServeShape(w, primed, log, id, true, w.driver.issued);
    w' := Served(w, id, true);
    ServeRuns(w, id, true);
    ServeEffect(w, id, true);
  }

  lemma ServeLength(w: World, id: int, nextIsRead: bool)
    requires id in w.rec.pending
    ensures |Serve(w, id, nextIsRead)| == 2
  {
  }
}
