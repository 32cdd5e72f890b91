/** The scenario's invariants are kept by every step. */
module RegisterProofs {
  import opened Options
  import opened Porcupine
  import opened RegisterSpec
  import opened RegisterSim

  lemma Difference(p: set<int>, e: set<int>, n: int)
    ensures n !in p && n !in e ==> |Waiting(p + {n}, e)| == |Waiting(p, e)| + 1
    ensures n in p && n !in e ==> |Waiting(p, e + {n})| == |Waiting(p, e)| - 1
    ensures n in e ==> Waiting(p - {n}, e) == Waiting(p, e) && e + {n} == e
  {
    if n !in e {
      if n !in p {
        assert Waiting(p + {n}, e) == Waiting(p, e) + {n};
      } else {
        assert Waiting(p, e) == Waiting(p, e + {n}) + {n};
      }
    }
  }

  // ---------------------------------------------------------------------------
  // Issuing a request
  // ---------------------------------------------------------------------------

  lemma IssueKeepsBooked(w: World, primed: nat, isRead: bool)
    requires Booked(w.driver, w.rec, primed)
    ensures var w' := IssueNext(w, isRead); Booked(w'.driver, w'.rec, primed + 1)
  {
  }

  lemma IssueKeepsNet(w: World, primed: nat, log: Log, isRead: bool)
    requires Booked(w.driver, w.rec, primed) && EntriesOk(w.driver, w.rec, log) && NetOk(w.net, w.rec, log)
    ensures var w' := IssueNext(w, isRead); NetOk(w'.net, w'.rec, log)
  {
    var w' := IssueNext(w, isRead);
    if w' != w {
      forall m: Message
        ensures w'.net[m] == (if m.id in w'.rec.pending && m == Expected(w'.rec, log, m.id) then 1 else 0)
      {
      }
    }
  }

  lemma IssueKeepsEntries(w: World, primed: nat, log: Log, isRead: bool)
    requires Booked(w.driver, w.rec, primed) && EntriesOk(w.driver, w.rec, log)
    ensures var w' := IssueNext(w, isRead); EntriesOk(w'.driver, w'.rec, log)
  {
    var w' := IssueNext(w, isRead);
    forall id | id in log.entries ensures EntryOk(w'.driver, w'.rec, log, id) {
      assert EntryOk(w.driver, w.rec, log, id);
    }
  }

  lemma IssueKeepsCount(w: World, primed: nat, log: Log, isRead: bool)
    requires Booked(w.driver, w.rec, primed) && EntriesOk(w.driver, w.rec, log) && CountOk(w.driver, log)
    ensures CountOk(IssueNext(w, isRead).driver, log)
  {
    var n := w.driver.nextReq;
    assert forall id :: id in log.entries ==> EntryOk(w.driver, w.rec, log, id);
    assert forall id :: id in w.driver.pending ==> OpBooked(w.driver, w.rec, id);
    CountOneMore(w.driver, log, n, IssueNext(w, isRead).driver);
  }

  lemma CountOneMore(d: Driver, log: Log, n: int, d': Driver)
    requires CountOk(d, log) && n !in log.entries && n !in d.pending
    requires d' == d || (d'.issued == d.issued + 1 && d'.pending.Keys == d.pending.Keys + {n})
    ensures CountOk(d', log)
  {
    Difference(d.pending.Keys, log.entries.Keys, n);
  }

  lemma IssueKeeps(w: World, primed: nat, log: Log, isRead: bool)
    requires Shape(w, primed, log)
    ensures Shape(IssueNext(w, isRead), primed + 1, log)
  {
    hide Booked, NetOk, EntriesOk, HistoryOk, InRealTime, Indexed, CountOk;
    IssueKeepsBooked(w, primed, isRead);
    IssueKeepsNet(w, primed, log, isRead);
    IssueKeepsEntries(w, primed, log, isRead);
    IssueKeepsCount(w, primed, log, isRead);
  }

  // ---------------------------------------------------------------------------
  // The primary applies a request
  // ---------------------------------------------------------------------------

  ghost function Applied(r: Recorder, log: Log, id: int, resp: Response): Log
    requires id in r.pending
  {
    var i := r.pending[id];
    Log(log.order + [id], log.entries[id := Entry(|log.order|, Operation(id, i.input, resp, i.call, 0), false)])
  }

  lemma OwnsMessage(net: multiset<Message>, r: Recorder, log: Log, m: Message)
    requires NetOk(net, r, log) && m in net
    ensures m.id in r.pending && m == Expected(r, log, m.id)
  {
    assert net[m] > 0;
  }

  lemma RequestFacts(w: World, primed: nat, log: Log, id: int, req: Request)
    requires Shape(w, primed, log) && Req(id, req) in w.net
    ensures id in w.rec.pending && id in w.driver.pending && id !in log.entries && OpBooked(w.driver, w.rec, id)
    ensures req == w.rec.pending[id].input
  {
    OwnsMessage(w.net, w.rec, log, Req(id, req));
    assert OpBooked(w.driver, w.rec, id);
  }

  lemma AppliedNet(net: multiset<Message>, r: Recorder, log: Log, id: int, resp: Response)
    requires NetOk(net, r, log) && id in r.pending && id !in log.entries
    ensures NetOk(net - multiset{Req(id, r.pending[id].input)} + multiset{Ack(id, resp)}, r, Applied(r, log, id, resp))
  {
    var log' := Applied(r, log, id, resp);
    var net' := net - multiset{Req(id, r.pending[id].input)} + multiset{Ack(id, resp)};
    forall m: Message
      ensures net'[m] == (if m.id in r.pending && m == Expected(r, log', m.id) then 1 else 0)
    {
    }
  }

  lemma AppliedIndexed(r: Recorder, log: Log, id: int, resp: Response)
    requires id in r.pending && id !in log.entries && Indexed(log)
    ensures Indexed(Applied(r, log, id, resp))
    ensures InRealTime(log) ==> InRealTime(Applied(r, log, id, resp))
  {
  }

  lemma AppliedEntries(d: Driver, r: Recorder, log: Log, id: int, resp: Response)
    requires EntriesOk(d, r, log) && HistoryOk(r.ops, log)
    requires id in r.pending && id in d.pending && id !in log.entries && OpBooked(d, r, id)
    requires r.pending[id].input.Write? <==> resp.WriteAck?
    ensures EntriesOk(d, r, Applied(r, log, id, resp)) && HistoryOk(r.ops, Applied(r, log, id, resp))
  {
    var log' := Applied(r, log, id, resp);
    forall k | k in log'.entries ensures EntryOk(d, r, log', k) {
      if k != id { assert EntryOk(d, r, log, k); }
    }
    forall i | 0 <= i < |r.ops| ensures IsRecorded(log', r.ops[i]) {
      assert IsRecorded(log, r.ops[i]);
    }
  }

  lemma AppliedCount(d: Driver, r: Recorder, log: Log, id: int, resp: Response)
    requires CountOk(d, log) && id in r.pending && id in d.pending && id !in log.entries
    ensures CountOk(d, Applied(r, log, id, resp))
  {
    assert Applied(r, log, id, resp).entries.Keys == log.entries.Keys + {id};
    Difference(d.pending.Keys, log.entries.Keys, id);
  }

  lemma PrimaryKeeps(w: World, primed: nat, log: Log, c: Choice)
    requires Shape(w, primed, log) && c.msg in w.net && c.msg.Req?
    ensures c.msg.id in w.rec.pending
    ensures Shape(Deliver(w, c), primed, Applied(w.rec, log, c.msg.id, Apply(w.primary, c.msg.req).1))
  {
    var id, resp := c.msg.id, Apply(w.primary, c.msg.req).1;
    RequestFacts(w, primed, log, id, c.msg.req);
    hide Booked, NetOk, EntriesOk, HistoryOk, InRealTime, Indexed, CountOk;
    AppliedNet(w.net, w.rec, log, id, resp);
    AppliedIndexed(w.rec, log, id, resp);
    AppliedEntries(w.driver, w.rec, log, id, resp);
    AppliedCount(w.driver, w.rec, log, id, resp);
  }

  lemma AppendFits(s: int, lin: seq<Op>, op: Op)
    requires AllFit(s, lin) && Fits(After(s, lin), op)
    ensures AllFit(s, lin + [op])
    ensures After(s, lin + [op]) == if op.input.Write? then op.input.val else After(s, lin)
  {
    var lin' := lin + [op];
    assert lin'[..|lin|] == lin;
    forall j | 0 <= j < |lin'| ensures FitsAt(s, lin', j) {
      if j < |lin| {
        assert FitsAt(s, lin, j) && lin'[..j] == lin[..j];
      }
    }
  }

  lemma AppliedSound(p: Primary, r: Recorder, log: Log, id: int)
    requires Sound(p, log) && !p.buggy && id in r.pending && id !in log.entries
    ensures var (p', resp) := Apply(p, r.pending[id].input); Sound(p', Applied(r, log, id, resp))
  {
    var (p', resp) := Apply(p, r.pending[id].input);
    var log' := Applied(r, log, id, resp);
    assert Indexed(log');
    assert Lin(log', 0) == Lin(log, 0) + [log'.entries[id].op];
    AppendFits(0, Lin(log, 0), log'.entries[id].op);
  }

  // ---------------------------------------------------------------------------
  // The client records an answer
  // ---------------------------------------------------------------------------

  ghost function Finished(log: Log, id: int, t: int): Log
    requires id in log.entries
  {
    var e := log.entries[id];
    log.(entries := log.entries[id := Entry(e.idx, e.op.(ret := t), true)])
  }

  /** The state in which the driver has recorded the answer but not yet issued again. */
  ghost function Answered(w: World, id: int, resp: Response): World
    requires id in w.driver.pending
  {
    Complete(w.(net := w.net - multiset{Ack(id, resp)}), id, resp)
  }

  lemma AnswerFacts(w: World, primed: nat, log: Log, id: int, resp: Response)
    requires Shape(w, primed, log) && Ack(id, resp) in w.net
    ensures id in w.driver.pending && id in w.rec.pending && OpBooked(w.driver, w.rec, id) && primed >= 1
    ensures id in log.entries && EntryOk(w.driver, w.rec, log, id)
    ensures !log.entries[id].done && log.entries[id].op.output == resp && log.entries[id].op.clientID == id
    ensures Answered(w, id, resp) == World(w.primary, w.driver.(pending := w.driver.pending - {id}),
              Recorder(w.rec.clock + 1, w.rec.ops + [log.entries[id].op.(ret := w.rec.clock + 1)],
                       w.rec.pending - {id}, w.rec.nextTok),
              w.net - multiset{Ack(id, resp)})
  {
    OwnsMessage(w.net, w.rec, log, Ack(id, resp));
    assert EntryOk(w.driver, w.rec, log, id);
    assert OpBooked(w.driver, w.rec, id);
    assert |w.driver.pending| > 0;
  }

  lemma AnswerBooked(w: World, primed: nat, id: int, resp: Response)
    requires Booked(w.driver, w.rec, primed) && primed >= 1 && id in w.driver.pending
    ensures var w' := Answered(w, id, resp); Booked(w'.driver, w'.rec, primed - 1)
  {
    assert OpBooked(w.driver, w.rec, id);
    var w' := Answered(w, id, resp);
    assert w'.driver.pending.Keys == w.driver.pending.Keys - {id};
    assert w'.rec.pending.Keys == w.rec.pending.Keys - {id};
    assert |w'.driver.pending| == |w.driver.pending| - 1;
    forall k | k in w'.driver.pending ensures OpBooked(w'.driver, w'.rec, k) {
      assert OpBooked(w.driver, w.rec, k);
    }
    forall i | 0 <= i < |w'.rec.ops| ensures OpRecorded(w'.driver, w'.rec, w'.rec.ops[i]) {
      if i < |w.rec.ops| { assert OpRecorded(w.driver, w.rec, w.rec.ops[i]); }
    }
  }

  lemma FinishedEntries(d: Driver, r: Recorder, log: Log, id: int, d': Driver, r': Recorder)
    requires EntriesOk(d, r, log) && id in log.entries
    requires d' == d.(pending := d.pending - {id}) && r'.pending == r.pending - {id} && r'.clock == r.clock + 1
    requires r'.ops == r.ops + [log.entries[id].op.(ret := r.clock + 1)]
    ensures EntriesOk(d', r', Finished(log, id, r.clock + 1))
  {
    var log' := Finished(log, id, r.clock + 1);
    forall k | k in log'.entries ensures EntryOk(d', r', log', k) {
      assert EntryOk(d, r, log, k);
    }
  }

  lemma FinishedInRealTime(d: Driver, r: Recorder, log: Log, id: int)
    requires EntriesOk(d, r, log) && InRealTime(log) && Indexed(log) && id in log.entries
    ensures InRealTime(Finished(log, id, r.clock + 1)) && Indexed(Finished(log, id, r.clock + 1))
  {
    var log' := Finished(log, id, r.clock + 1);
    forall a, b | a in log'.entries && b in log'.entries &&
                  log'.entries[a].idx < log'.entries[b].idx && log'.entries[b].done
      ensures log'.entries[a].op.call <= log'.entries[b].op.ret
    {
      assert EntryOk(d, r, log, a);
    }
  }

  lemma FinishedCount(d: Driver, log: Log, id: int, t: int)
    requires CountOk(d, log) && id in log.entries
    ensures CountOk(d.(pending := d.pending - {id}), Finished(log, id, t))
  {
    assert Finished(log, id, t).entries.Keys == log.entries.Keys + {id};
    assert (d.pending - {id}).Keys == d.pending.Keys - {id};
    Difference(d.pending.Keys, log.entries.Keys, id);
  }

  lemma FinishedHistory(ops: seq<Op>, log: Log, id: int, t: int)
    requires HistoryOk(ops, log) && id in log.entries && !log.entries[id].done && log.entries[id].op.clientID == id
    ensures HistoryOk(ops + [log.entries[id].op.(ret := t)], Finished(log, id, t))
  {
    var ops' := ops + [log.entries[id].op.(ret := t)];
    var log' := Finished(log, id, t);
    forall i | 0 <= i < |ops'|
      ensures IsRecorded(log', ops'[i]) && (i < |ops| ==> ops'[i].clientID != id)
    {
      if i < |ops| { assert IsRecorded(log, ops[i]) && ops'[i] == ops[i]; }
    }
  }

  lemma FinishedNet(net: multiset<Message>, r: Recorder, log: Log, id: int, t: int, r': Recorder)
    requires NetOk(net, r, log) && id in r.pending && id in log.entries && r'.pending == r.pending - {id}
    ensures NetOk(net - multiset{Ack(id, log.entries[id].op.output)}, r', Finished(log, id, t))
  {
    var net' := net - multiset{Ack(id, log.entries[id].op.output)};
    var log' := Finished(log, id, t);
    forall m: Message
      ensures net'[m] == (if m.id in r'.pending && m == Expected(r', log', m.id) then 1 else 0)
    {
    }
  }

  lemma AnswerKeeps(w: World, primed: nat, log: Log, id: int, resp: Response)
    requires Shape(w, primed, log) && Ack(id, resp) in w.net
    ensures id in w.driver.pending && id in log.entries && primed >= 1
    ensures Shape(Answered(w, id, resp), primed - 1, Finished(log, id, w.rec.clock + 1))
  {
    hide Booked, NetOk, EntriesOk, HistoryOk, InRealTime, Indexed, CountOk, EntryOk, OpBooked, Answered, Finished;
    AnswerFacts(w, primed, log, id, resp);
    var w' := Answered(w, id, resp);
    AnswerBooked(w, primed, id, resp);
    FinishedEntries(w.driver, w.rec, log, id, w'.driver, w'.rec);
    FinishedInRealTime(w.driver, w.rec, log, id);
    FinishedCount(w.driver, log, id, w.rec.clock + 1);
    FinishedHistory(w.rec.ops, log, id, w.rec.clock + 1);
    FinishedNet(w.net, w.rec, log, id, w.rec.clock + 1, w'.rec);
  }

  lemma {:induction false} SameAnswers(s: int, a: seq<Op>, b: seq<Op>)
    requires |a| == |b| && forall i :: 0 <= i < |a| ==> a[i].input == b[i].input && a[i].output == b[i].output
    ensures After(s, a) == After(s, b)
    ensures AllFit(s, a) ==> AllFit(s, b)
    decreases |a|
  {
    if a != [] {
      var n := |a| - 1;
      SameAnswers(s, a[..n], b[..n]);
      if AllFit(s, a) {
        forall j | 0 <= j < n ensures FitsAt(s, a[..n], j) {
          assert FitsAt(s, a, j) && a[..n][..j] == a[..j];
        }
        assert FitsAt(s, a, n);
        AppendFits(s, b[..n], b[n]);
        assert b == b[..n] + [b[n]];
      }
    }
  }

  lemma FinishedSound(p: Primary, log: Log, id: int, t: int)
    requires Sound(p, log) && id in log.entries
    ensures Sound(p, Finished(log, id, t))
  {
    assert Indexed(Finished(log, id, t));
    SameAnswers(0, Lin(log, 0), Lin(Finished(log, id, t), 0));
  }

  // ---------------------------------------------------------------------------
  // Any step
  // ---------------------------------------------------------------------------

  /** The log after a delivery. */
  ghost function NextLog(w: World, log: Log, c: Choice): Log
  {
    match c.msg
    case Req(id, req) => if id in w.rec.pending then Applied(w.rec, log, id, Apply(w.primary, req).1) else log
    case Ack(id, _) => if id in log.entries then Finished(log, id, w.rec.clock + 1) else log
  }

  /** Each delivery keeps the invariant and adds one to (requests applied) + (answers recorded). */
  lemma StepKeepsShape(w: World, primed: nat, log: Log, c: Choice)
    requires Shape(w, primed, log) && c.msg in w.net
    ensures Shape(Deliver(w, c), primed, NextLog(w, log, c))
    ensures |NextLog(w, log, c).order| + |Deliver(w, c).rec.ops| == |log.order| + |w.rec.ops| + 1
  {
    hide Booked, NetOk, EntriesOk, HistoryOk, InRealTime, Indexed, CountOk, EntryOk, OpBooked;
    match c.msg
    case Req(id, req) =>
      PrimaryKeeps(w, primed, log, c);
    case Ack(id, resp) =>
      AnswerFacts(w, primed, log, id, resp);
      AnswerKeeps(w, primed, log, id, resp);
      IssueKeeps(Answered(w, id, resp), primed - 1, Finished(log, id, w.rec.clock + 1), c.isRead);
  }

  lemma StepKeepsSound(w: World, primed: nat, log: Log, c: Choice)
    requires Shape(w, primed, log) && c.msg in w.net && Sound(w.primary, log) && !w.primary.buggy
    ensures Sound(Deliver(w, c).primary, NextLog(w, log, c))
  {
    hide Booked, NetOk, EntriesOk, HistoryOk, InRealTime, Indexed, CountOk, EntryOk, OpBooked, Sound;
    match c.msg
    case Req(id, req) =>
      RequestFacts(w, primed, log, id, req);
      AppliedSound(w.primary, w.rec, log, id);
    case Ack(id, resp) =>
      AnswerFacts(w, primed, log, id, resp);
      FinishedSound(w.primary, log, id, w.rec.clock + 1);
  }
}
