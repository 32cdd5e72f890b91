/** When a call to lock waits, and when it comes back without a lock. */
module AdvisoryWaiting {
  import opened Options
  import opened AdvisoryModel
  import opened AdvisoryTheorems

  /** A check on a resource whose lease has not passed its expiry parks the call on a channel
      registered last under that resource; on any other it sends the call back to try again. */
  lemma CheckParksExactly(s: System, id: nat, now: int)
    requires Can(s, Check(id, now))
    ensures var s', r := Next(s, Check(id, now)), s.calls[id].resource;
            var waiting := if r in s.m.queue.waiters then s.m.queue.waiters[r] else [];
            if r in s.m.table.locks && now <= s.m.table.locks[r].expires
            then s'.calls[id].pc == Parked(s.nextCh) &&
                 s'.m == s.m.(queue := s.m.queue.(waiters := s.m.queue.waiters[r := waiting + [s.nextCh]]))
            else s'.calls[id].pc == Retrying && s'.m == s.m
  {
  }

  /** A channel a check has just parked a call on has not been closed. */
  lemma ParkedIsOpen(run: seq<Step>, id: nat, now: int)
    requires CanRun(Initial, run) && Can(After(Initial, run), Check(id, now))
    ensures After(Initial, run).nextCh !in After(Initial, run).m.queue.woken
  {
    Reachable(run);
  }

  /** The step is a check by call `id` at which its resource was absent or past its expiry. */
  ghost predicate SawFree(s: System, step: Step, id: nat)
  {
    step.Check? && step.id == id && id in s.calls &&
    (s.calls[id].resource !in s.m.table.locks || step.now > s.m.table.locks[s.calls[id].resource].expires)
  }

  /** The next attempt of call `id` finds a lease that has not expired. */
  ghost predicate RetryLoses(s: System, run: seq<Step>, id: nat)
    requires CanRun(s, run)
    decreases |run|
  {
    run != [] &&
    if run[0].Try? && run[0].id == id
    then s.calls[id].resource in s.m.table.locks && run[0].t1 < s.m.table.locks[s.calls[id].resource].expires
    else RetryLoses(Next(s, run[0]), run[1..], id)
  }

  /** Call `id` is cancelled while parked, or sees its resource free and then loses its retry. */
  ghost predicate RefusedIn(s: System, run: seq<Step>, id: nat)
    requires CanRun(s, run)
    decreases |run|
  {
    run != [] &&
    (run[0] == Cancel(id) ||
     (SawFree(s, run[0], id) && RetryLoses(Next(s, run[0]), run[1..], id)) ||
     RefusedIn(Next(s, run[0]), run[1..], id))
  }

  /** Where call `id` stands, if it has begun. */
  ghost function PcOf(s: System, id: nat): Option<Pc>
  {
    if id in s.calls then Some(s.calls[id].pc) else None
  }

  ghost predicate Blocks(s: System, id: nat)
  {
    id in s.calls ==> s.calls[id].blocking
  }

  /** What one step does to call `id`. */
  lemma StepMoves(s: System, step: Step, id: nat)
    requires Can(s, step) && Blocks(Next(s, step), id)
    ensures Blocks(s, id) && (id in s.calls ==> id in Next(s, step).calls)
    ensures SawFree(s, step, id) ==> step.Check? && step.id == id
    ensures step == Cancel(id) ==> PcOf(Next(s, step), id) == Some(Returned(None))
    ensures step.Check? && step.id == id ==>
              PcOf(s, id) == Some(Checking) &&
              (SawFree(s, step, id) <==> PcOf(Next(s, step), id) == Some(Retrying)) &&
              PcOf(Next(s, step), id) != Some(Returned(None))
    ensures step.Try? && step.id == id ==>
              PcOf(s, id) in {Some(Trying), Some(Retrying)} && PcOf(Next(s, step), id) != Some(Retrying) &&
              (PcOf(Next(s, step), id) == Some(Returned(None)) <==>
                 PcOf(s, id) == Some(Retrying) && s.calls[id].resource in s.m.table.locks &&
                 step.t1 < s.m.table.locks[s.calls[id].resource].expires)
    ensures step != Cancel(id) && !(step.Check? && step.id == id) && !(step.Try? && step.id == id) ==>
              (PcOf(s, id) == Some(Retrying) <==> PcOf(Next(s, step), id) == Some(Retrying)) &&
              (PcOf(s, id) == Some(Returned(None)) <==> PcOf(Next(s, step), id) == Some(Returned(None)))
  {
    hide Notify, Wake, Sweep, Unlock, Subscribe, Unsubscribe, Receive, Withdraw, Park;
  }

  lemma {:induction false} BlocksBefore(s: System, run: seq<Step>, id: nat)
    requires CanRun(s, run) && Blocks(After(s, run), id)
    ensures Blocks(s, id)
    decreases |run|
  {
    if run != [] {
      BlocksBefore(Next(s, run[0]), run[1..], id);
      StepMoves(s, run[0], id);
    }
  }

  /** From any state: a call is refused by the end exactly when it was refused already, is refused
      along the way, or is about to retry and loses. */
  lemma {:induction false} RunRefuses(s: System, run: seq<Step>, id: nat)
    requires CanRun(s, run) && Blocks(After(s, run), id)
    ensures PcOf(After(s, run), id) == Some(Returned(None)) <==>
              PcOf(s, id) == Some(Returned(None)) || RefusedIn(s, run, id) ||
              (PcOf(s, id) == Some(Retrying) && RetryLoses(s, run, id))
    decreases |run|
  {
    hide Next, Can, SawFree, PcOf, Blocks;
    if run != [] {
      BlocksBefore(Next(s, run[0]), run[1..], id);
      StepMoves(s, run[0], id);
      RunRefuses(Next(s, run[0]), run[1..], id);
    }
  }

  /** On every run a blocking call has come back without a lock exactly when it was cancelled while
      parked or lost a race: at a check its resource was absent or past its expiry, and its next
      attempt found a lease that had not expired. */
  lemma RefusedExactly(run: seq<Step>, id: nat)
    requires CanRun(Initial, run) && id in After(Initial, run).calls && After(Initial, run).calls[id].blocking
    ensures After(Initial, run).calls[id].pc == Returned(None) <==> RefusedIn(Initial, run, id)
  {
    RunRefuses(Initial, run, id);
  }

  /** The second case does happen: a run with no cancellation in which a blocking call is refused. */
  lemma LostRacePossible() returns (run: seq<Step>)
    ensures CanRun(Initial, run) && forall k :: 0 <= k < |run| ==> !run[k].Cancel?
    ensures var s := After(Initial, run); 1 in s.calls && s.calls[1].blocking && s.calls[1].pc == Returned(None)
  {
    hide Notify, Wake;
    var first, second, third := Call("r", "a", 10, true, Trying), Call("r", "b", 10, true, Trying), Call("r", "c", 10, true, Trying);
    var s1 := Next(Initial, Begin(0, first));
    var s2 := Next(s1, Try(0, 0, 0));
    var s3 := Next(s2, Begin(1, second));
    var s4 := Next(s3, Try(1, 1, 1));
    var s5 := Next(s4, Release("r", "a", 2));
    var s6 := Next(s5, Check(1, 3));
    var s7 := Next(s6, Begin(2, third));
    var s8 := Next(s7, Try(2, 4, 4));
    var tail := [Try(1, 5, 5)];
    Prefix(s8, Try(1, 5, 5), []);
    tail := Extend(s7, Try(2, 4, 4), tail);
    tail := Extend(s6, Begin(2, third), tail);
    tail := Extend(s5, Check(1, 3), tail);
    tail := Extend(s4, Release("r", "a", 2), tail);
    tail := Extend(s3, Try(1, 1, 1), tail);
    tail := Extend(s2, Begin(1, second), tail);
    tail := Extend(s1, Try(0, 0, 0), tail);
    run := Extend(Initial, Begin(0, first), tail);
  }

  lemma Prefix(s: System, step: Step, rest: seq<Step>)
    requires Can(s, step) && CanRun(Next(s, step), rest)
    ensures CanRun(s, [step] + rest) && After(s, [step] + rest) == After(Next(s, step), rest)
  {
    assert ([step] + rest)[1..] == rest;
  }

  lemma Extend(s: System, step: Step, rest: seq<Step>) returns (run: seq<Step>)
    requires Can(s, step) && CanRun(Next(s, step), rest) && !step.Cancel?
    requires forall k :: 0 <= k < |rest| ==> !rest[k].Cancel?
    ensures CanRun(s, run) && After(s, run) == After(Next(s, step), rest)
    ensures forall k :: 0 <= k < |run| ==> !run[k].Cancel?
  {
    Prefix(s, step, rest);
    run := [step] + rest;
  }
}
