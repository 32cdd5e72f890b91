/** Concurrent Route calls from one node to another over their shared connection. */
module PairRoute {
  import opened Lists
  import Sets

  const CAP := 16

  /** A call after wiring: about to send, waiting on the inbox, or over. The envelope of call `i`
      is named `i`. */
  datatype Call = Wired | Waiting | Got(envelope: nat) | Refused | Cancelled

  /** `conns` counts the connections registered for the pair; `sent` and `taken` are the envelopes
      the inbox has accepted and handed out, in order. */
  datatype Pair = Pair(conns: nat, inbox: seq<nat>, calls: map<nat, Call>, sent: seq<nat>, taken: seq<nat>)

  const NEW := Pair(0, [], map[], [], [])

  datatype Step = Wire(i: nat) | Send(i: nat) | Take(i: nat) | Cancel(i: nat)

  predicate In(s: Pair, i: nat, c: Call)
  {
    i in s.calls && s.calls[i] == c
  }

  predicate Can(s: Pair, step: Step)
  {
    match step
    case Wire(i) => i !in s.calls
    case Send(i) => In(s, i, Wired)
    case Take(i) => In(s, i, Waiting) && s.inbox != []
    case Cancel(i) => In(s, i, Waiting)
  }

  function Next(s: Pair, step: Step): Pair
    requires Can(s, step)
  {
    match step
    case Wire(i) => s.(conns := if s.conns == 0 then 1 else s.conns, calls := s.calls[i := Wired])
    case Send(i) =>
      if |s.inbox| < CAP then s.(inbox := s.inbox + [i], sent := s.sent + [i], calls := s.calls[i := Waiting])
      else s.(calls := s.calls[i := Refused])
    case Take(i) =>
      s.(inbox := s.inbox[1..], taken := s.taken + [s.inbox[0]], calls := s.calls[i := Got(s.inbox[0])])
    case Cancel(i) => s.(calls := s.calls[i := Cancelled])
  }

  predicate CanRun(s: Pair, run: seq<Step>)
    decreases |run|
  {
    run == [] || (Can(s, run[0]) && CanRun(Next(s, run[0]), run[1..]))
  }

  function After(s: Pair, run: seq<Step>): Pair
    requires CanRun(s, run)
    decreases |run|
  {
    if run == [] then s else After(Next(s, run[0]), run[1..])
  }

  // ---------------------------------------------------------------------------
  // What every interleaving keeps
  // ---------------------------------------------------------------------------

  function InPhase(calls: map<nat, Call>, c: Call): set<nat>
  {
    set i | i in calls && calls[i] == c
  }

  function Finished(calls: map<nat, Call>): set<nat>
  {
    set i | i in calls && calls[i].Got?
  }

  ghost predicate Counted(s: Pair)
  {
    |s.inbox| == |InPhase(s.calls, Waiting)| + |InPhase(s.calls, Cancelled)|
  }

  /** Exactly the calls past their send have an envelope in the log. */
  ghost predicate Logged(sent: seq<nat>, calls: map<nat, Call>)
  {
    NoRepeats(sent) && forall i: nat :: i in sent <==> i in calls && !calls[i].Wired? && !calls[i].Refused?
  }

  /** Every finished call returned an envelope that was handed out, and no two the same one. */
  ghost predicate HandedOut(taken: seq<nat>, calls: map<nat, Call>)
  {
    && (forall i :: i in calls && calls[i].Got? ==> calls[i].envelope in taken)
    && (forall i, j :: i in calls && j in calls && i != j && calls[i].Got? && calls[j].Got? ==>
          calls[i].envelope != calls[j].envelope)
  }

  /** The inbox is first in first out, and every envelope in it is accounted for by a call that
      waits or by one that was cancelled after its send. */
  ghost predicate PairOk(s: Pair)
  {
    && s.conns == (if s.calls == map[] then 0 else 1)
    && |s.inbox| <= CAP
    && s.sent == s.taken + s.inbox
    && Logged(s.sent, s.calls)
    && HandedOut(s.taken, s.calls)
    && Counted(s)
  }

  lemma Moved(calls: map<nat, Call>, i: nat, to: Call, c: Call)
    requires i in calls ==> calls[i] != to
    ensures |InPhase(calls[i := to], c)| ==
            |InPhase(calls, c)| + (if c == to then 1 else 0) - (if i in calls && c == calls[i] then 1 else 0)
  {
    var before, after := InPhase(calls, c), InPhase(calls[i := to], c);
    if c == to {
      OneMore(before, after, i);
    } else if i in calls && c == calls[i] {
      OneMore(after, before, i);
    } else {
      assert after == before;
    }
  }

  lemma OneMore(a: set<nat>, b: set<nat>, i: nat)
    requires i !in a && i in b && forall j: nat :: j != i ==> (j in a <==> j in b)
    ensures |b| == |a| + 1
  {
    assert b == a + {i};
  }

  lemma StepKeepsCount(s: Pair, step: Step)
    requires Counted(s) && Can(s, step)
    ensures Counted(Next(s, step))
  {
    var to := Next(s, step).calls[step.i];
    Moved(s.calls, step.i, to, Waiting);
    Moved(s.calls, step.i, to, Cancelled);
  }

  lemma LogSend(sent: seq<nat>, calls: map<nat, Call>, i: nat)
    requires Logged(sent, calls) && i in calls && calls[i].Wired?
    ensures Logged(sent + [i], calls[i := Waiting])
  {
  }

  lemma LogMove(sent: seq<nat>, calls: map<nat, Call>, i: nat, to: Call)
    requires Logged(sent, calls)
    requires if to.Wired? || to.Refused? then i !in sent else i in sent
    ensures Logged(sent, calls[i := to])
  {
  }

  lemma HandOut(taken: seq<nat>, inbox: seq<nat>, calls: map<nat, Call>, i: nat)
    requires HandedOut(taken, calls) && NoRepeats(taken + inbox) && inbox != []
    ensures HandedOut(taken + [inbox[0]], calls[i := Got(inbox[0])])
    ensures taken + [inbox[0]] + inbox[1..] == taken + inbox
  {
    assert (taken + inbox)[|taken|] == inbox[0];
    assert forall k :: 0 <= k < |taken| ==> (taken + inbox)[k] == taken[k] != inbox[0];
  }

  lemma StepKeepsLog(s: Pair, step: Step)
    requires PairOk(s) && Can(s, step)
    ensures Next(s, step).sent == Next(s, step).taken + Next(s, step).inbox
    ensures Logged(Next(s, step).sent, Next(s, step).calls)
    ensures HandedOut(Next(s, step).taken, Next(s, step).calls)
  {
    var i := step.i;
    if step.Send? && |s.inbox| < CAP {
      LogSend(s.sent, s.calls, i);
    } else {
      LogMove(s.sent, s.calls, i, Next(s, step).calls[i]);
    }
    if step.Take? {
      HandOut(s.taken, s.inbox, s.calls, i);
    }
  }

  lemma StepKeeps(s: Pair, step: Step)
    requires PairOk(s) && Can(s, step)
    ensures PairOk(Next(s, step))
  {
    hide Counted, Logged, HandedOut;
    StepKeepsCount(s, step);
    StepKeepsLog(s, step);
    assert step.i in Next(s, step).calls;
  }

  lemma {:induction false} RunKeeps(s: Pair, run: seq<Step>)
    requires PairOk(s) && CanRun(s, run)
    ensures PairOk(After(s, run))
    decreases |run|
  {
    hide PairOk, Next, Can;
    if run != [] {
      StepKeeps(s, run[0]);
      RunKeeps(Next(s, run[0]), run[1..]);
    }
  }

  ghost predicate Reachable(s: Pair)
  {
    exists run :: CanRun(NEW, run) && After(NEW, run) == s
  }

  lemma NewOk()
    ensures PairOk(NEW)
  {
    assert InPhase(NEW.calls, Waiting) == {} && InPhase(NEW.calls, Cancelled) == {};
  }

  lemma ReachableOk(s: Pair)
    requires Reachable(s)
    ensures PairOk(s)
  {
    NewOk();
    var run :| CanRun(NEW, run) && After(NEW, run) == s;
    RunKeeps(NEW, run);
  }

  /** Over every interleaving: one connection, envelopes come out in the order they went in, the
      inbox holds one per waiting call and one per cancelled call, and without cancellations it is
      empty whenever no call is waiting. */
  lemma InboxBalanced(s: Pair)
    requires Reachable(s)
    ensures s.conns <= 1 && s.sent == s.taken + s.inbox && NoRepeats(s.sent)
    ensures |s.inbox| == |InPhase(s.calls, Waiting)| + |InPhase(s.calls, Cancelled)| <= 16
    ensures InPhase(s.calls, Cancelled) == {} && InPhase(s.calls, Waiting) == {} ==> s.inbox == []
  {
    ReachableOk(s);
  }

  /** No envelope is returned by two calls, and each was sent by some call of the pair. */
  lemma EachReturnedOnce(s: Pair, i: nat, j: nat)
    requires Reachable(s) && i in s.calls && s.calls[i].Got?
    ensures s.calls[i].envelope in s.sent && s.calls[i].envelope in s.calls
    ensures j in s.calls && s.calls[j].Got? && s.calls[j].envelope == s.calls[i].envelope ==> i == j
  {
    ReachableOk(s);
  }

  // ---------------------------------------------------------------------------
  // One call at a time
  // ---------------------------------------------------------------------------

  /** No call sends while another waits. */
  ghost predicate Sequential(s: Pair, run: seq<Step>)
    requires CanRun(s, run)
    decreases |run|
  {
    run == [] ||
    ((run[0].Send? ==> InPhase(s.calls, Waiting) == {}) && Sequential(Next(s, run[0]), run[1..]))
  }

  ghost predicate LastWaits(s: Pair)
  {
    forall i :: In(s, i, Waiting) ==> s.sent != [] && s.sent[|s.sent| - 1] == i
  }

  lemma {:induction false} SequentialLast(s: Pair, run: seq<Step>)
    requires LastWaits(s) && CanRun(s, run) && Sequential(s, run)
    ensures LastWaits(After(s, run))
    decreases |run|
  {
    if run != [] {
      var s' := Next(s, run[0]);
      assert LastWaits(s') by {
        if run[0].Send? {
          assert forall i :: In(s, i, Waiting) ==> i in InPhase(s.calls, Waiting);
        }
        assert forall i :: In(s', i, Waiting) ==> In(s, i, Waiting) || (run[0].Send? && i == run[0].i);
      }
      SequentialLast(s', run[1..]);
    }
  }

  /** A call that runs on its own is about to receive its own envelope exactly when no earlier
      call was cancelled after its send. */
  lemma OwnExactly(run: seq<Step>, i: nat)
    requires CanRun(NEW, run) && Sequential(NEW, run) && In(After(NEW, run), i, Waiting)
    ensures var s := After(NEW, run);
            s.inbox != [] && (s.inbox[0] == i <==> InPhase(s.calls, Cancelled) == {})
  {
    NewOk();
    RunKeeps(NEW, run);
    SequentialLast(NEW, run);
    var s := After(NEW, run);
    assert i in InPhase(s.calls, Waiting);
    assert InPhase(s.calls, Waiting) == {i} by {
      assert forall j :: j in InPhase(s.calls, Waiting) ==> In(s, j, Waiting);
    }
    assert s.inbox[|s.inbox| - 1] == i;
    assert s.sent[|s.taken|] == s.inbox[0];
  }

  /** Two calls at once can receive each other's envelope. */
  lemma SwapPossible() returns (run: seq<Step>)
    ensures CanRun(NEW, run) && After(NEW, run).calls == map[0 := Got(1), 1 := Got(0)]
  {
    var s1 := Next(NEW, Wire(0));
    var s2 := Next(s1, Wire(1));
    var s3 := Next(s2, Send(0));
    var s4 := Next(s3, Send(1));
    var s5 := Next(s4, Take(1));
    var s6 := Next(s5, Take(0));
    Prefix(s5, Take(0), []);
    Prefix(s4, Take(1), [Take(0)]);
    Prefix(s3, Send(1), [Take(1), Take(0)]);
    Prefix(s2, Send(0), [Send(1), Take(1), Take(0)]);
    Prefix(s1, Wire(1), [Send(0), Send(1), Take(1), Take(0)]);
    Prefix(NEW, Wire(0), [Wire(1), Send(0), Send(1), Take(1), Take(0)]);
    run := [Wire(0)] + [Wire(1), Send(0), Send(1), Take(1), Take(0)];
    assert s6.calls == map[0 := Got(1), 1 := Got(0)];
  }

  lemma Prefix(s: Pair, step: Step, rest: seq<Step>)
    requires Can(s, step) && CanRun(Next(s, step), rest)
    ensures CanRun(s, [step] + rest) && After(s, [step] + rest) == After(Next(s, step), rest)
  {
    assert ([step] + rest)[1..] == rest;
  }

  // ---------------------------------------------------------------------------
  // The pair after sixteen cancellations
  // ---------------------------------------------------------------------------

  ghost predicate Stuck(s: Pair)
  {
    InPhase(s.calls, Waiting) == {} && |s.inbox| == CAP
  }

  lemma {:induction false} StuckForever(s: Pair, run: seq<Step>)
    requires Stuck(s) && CanRun(s, run)
    ensures Stuck(After(s, run)) && After(s, run).sent == s.sent && After(s, run).taken == s.taken
    decreases |run|
  {
    if run != [] {
      assert forall i :: In(s, i, Waiting) ==> i in InPhase(s.calls, Waiting);
      var s' := Next(s, run[0]);
      assert InPhase(s'.calls, Waiting) == {};
      StuckForever(s', run[1..]);
    }
  }

  /** With no call waiting, the pair is stuck for good exactly when sixteen calls have been
      cancelled after their send; from then on every call is refused. */
  lemma StuckExactly(s: Pair)
    requires Reachable(s) && InPhase(s.calls, Waiting) == {}
    ensures Stuck(s) <==> |InPhase(s.calls, Cancelled)| == 16
    ensures Stuck(s) <==> forall run :: CanRun(s, run) ==> After(s, run).sent == s.sent
  {
    ReachableOk(s);
    assert |InPhase(s.calls, Waiting)| == 0;
    if Stuck(s) {
      forall run | CanRun(s, run) ensures After(s, run).sent == s.sent {
        StuckForever(s, run);
      }
    } else {
      var i := Sets.Above(s.calls.Keys);
      var s1 := Next(s, Wire(i));
      Prefix(s1, Send(i), []);
      Prefix(s, Wire(i), [Send(i)]);
      var run := [Wire(i)] + [Send(i)];
      assert After(s, run).sent == s.sent + [i];
      assert |After(s, run).sent| != |s.sent|;
    }
  }
}
