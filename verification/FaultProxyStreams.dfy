/** What becomes of the bytes and the sockets of each proxied connection, over every interleaving. */
module FaultProxyStreams {
  import opened Bytes
  import opened Lists
  import opened FaultProxy
  import opened FaultProxyTheorems

  // ---------------------------------------------------------------------------
  // The bytes of one direction
  // ---------------------------------------------------------------------------

  /** What a pump has read and not yet disposed of. */
  function Held(k: Conn, dir: Direction): bytes
  {
    if k.h.Piping? && PumpOf(k.h, dir).Holding? then PumpOf(k.h, dir).chunk else []
  }

  /** What has been sent to the peer and what is held for it. */
  function Stream(k: Conn, dir: Direction): bytes
  {
    ToPeer(k, dir) + Held(k, dir)
  }

  function StreamOf(s: Proxy, c: nat, dir: Direction): bytes
  {
    if c in s.conns then Stream(s.conns[c], dir) else []
  }

  /** What an act reads from one direction of its connection. */
  function ReadBy(act: Act, dir: Direction): bytes
  {
    if act.Read? && act.dir == dir && act.result.Data? then act.result.chunk else []
  }

  /** Everything a run reads from one direction of a connection, in order. */
  function ReadOver(run: seq<Step>, c: nat, dir: Direction): bytes
  {
    if run == [] then [] else ReadIn(run[0], c, dir) + ReadOver(run[1..], c, dir)
  }

  function ReadIn(step: Step, c: nat, dir: Direction): bytes
  {
    if step.On? && step.c == c then ReadBy(step.act, dir) else []
  }

  /** The act discards bytes of this direction: a dropped chunk, an interrupted sleep or a failed write. */
  predicate Discards(act: Act, dir: Direction)
  {
    match act
    case DropChunk(d) => d == dir
    case Interrupt(d) => d == dir
    case WriteChunk(d, outcome) => d == dir && outcome.Broken?
    case _ => false
  }

  predicate Loses(step: Step, c: nat, dir: Direction)
  {
    step.On? && step.c == c && Discards(step.act, dir)
  }

  /** A write of a chunk moves it from held to sent; a failed one sends the part accepted. */
  lemma WriteStreams(k: Conn, partitioned: bool, closed: bool, act: Act)
    requires Ready(k, closed, act) && act.WriteChunk?
    ensures var k' := Act1(k, partitioned, closed, act);
            if act.outcome.Sent? then Stream(k', act.dir) == Stream(k, act.dir)
            else Stream(k', act.dir) == Stream(k, act.dir)[..|ToPeer(k, act.dir)| + act.outcome.accepted]
  {
  }

  /** Any other act sends nothing; a read fills what is held, and discarding empties it. */
  lemma OtherActs(k: Conn, partitioned: bool, closed: bool, act: Act, dir: Direction)
    requires Ready(k, closed, act) && !(act.WriteChunk? && act.dir == dir)
    ensures ToPeer(Act1(k, partitioned, closed, act), dir) == ToPeer(k, dir)
    ensures Discards(act, dir) ==> Held(Act1(k, partitioned, closed, act), dir) == [] == ReadBy(act, dir)
    ensures ReadBy(act, dir) != [] ==> Held(Act1(k, partitioned, closed, act), dir) == ReadBy(act, dir) && Held(k, dir) == []
    ensures ReadBy(act, dir) == [] && !Discards(act, dir) ==> Held(Act1(k, partitioned, closed, act), dir) == Held(k, dir)
  {
  }

  lemma ActStreams(k: Conn, partitioned: bool, closed: bool, act: Act, dir: Direction) returns (n: nat)
    requires Ready(k, closed, act)
    ensures n <= |Stream(k, dir)| && (!Discards(act, dir) ==> n == |Stream(k, dir)|)
    ensures Stream(Act1(k, partitioned, closed, act), dir) == Stream(k, dir)[..n] + ReadBy(act, dir)
  {
    n := |Stream(k, dir)|;
    if act.WriteChunk? && act.dir == dir {
      WriteStreams(k, partitioned, closed, act);
      hide Act1, ToPeer;
      if act.outcome.Broken? {
        n := |ToPeer(k, dir)| + act.outcome.accepted;
      }
      assert Stream(k, dir)[..n] + [] == Stream(k, dir)[..n];
    } else {
      OtherActs(k, partitioned, closed, act, dir);
      hide Act1, ToPeer, Held, ReadBy, Discards, Ready;
      if Discards(act, dir) {
        n := |ToPeer(k, dir)|;
      }
      assert Stream(k, dir)[..n] + [] == Stream(k, dir)[..n];
    }
  }

  lemma SeverStreams(k: Conn, dir: Direction)
    ensures Stream(k.(clientClosed := true), dir) == Stream(k, dir) == Stream(k.(serverClosed := true), dir)
    ensures Stream(Conn(Accepted, false, false, [], []), dir) == []
  {
  }

  lemma OtherStreams(s: Proxy, step: Step, c: nat, dir: Direction)
    requires Can(s, step) && !(step.On? && step.c == c)
    ensures StreamOf(Next(s, step), c, dir) == StreamOf(s, c, dir)
  {
    hide Act1, Ready, Stream;
    SeverStreams(if c in s.conns then s.conns[c] else Conn(Accepted, false, false, [], []), dir);
  }

  /** A step extends a stream by what it reads, after taking off at most a tail of what is held. */
  lemma StepStreams(s: Proxy, step: Step, c: nat, dir: Direction) returns (n: nat)
    requires Can(s, step)
    ensures n <= |StreamOf(s, c, dir)| && (!Loses(step, c, dir) ==> n == |StreamOf(s, c, dir)|)
    ensures StreamOf(Next(s, step), c, dir) == StreamOf(s, c, dir)[..n] + ReadIn(step, c, dir)
  {
    hide Act1, Ready, ReadBy, Discards, Stream;
    n := |StreamOf(s, c, dir)|;
    if step.On? && step.c == c {
      n := ActStreams(s.conns[c], s.partitioned, s.closed, step.act, dir);
    } else {
      hide StreamOf, Next;
      OtherStreams(s, step, c, dir);
    }
  }

  /** Over every run each peer is sent a part, in order, of what was read from the other. */
  lemma {:induction false} StreamsInOrder(s: Proxy, run: seq<Step>, c: nat, dir: Direction, read: bytes)
    requires CanRun(s, run) && Subsequence(StreamOf(s, c, dir), read)
    ensures Subsequence(StreamOf(After(s, run), c, dir), read + ReadOver(run, c, dir))
    decreases |run|
  {
    hide Can, Next, Subsequence, StreamOf, ReadIn, Loses;
    if run == [] {
      assert read + [] == read;
    } else {
      var n := StepStreams(s, run[0], c, dir);
      SubsequenceDrop(StreamOf(s, c, dir), read, n);
      SubsequenceAppend(StreamOf(s, c, dir)[..n], read, ReadIn(run[0], c, dir));
      StreamsInOrder(Next(s, run[0]), run[1..], c, dir, read + ReadIn(run[0], c, dir));
      assert read + ReadIn(run[0], c, dir) + ReadOver(run[1..], c, dir) == read + ReadOver(run, c, dir);
    }
  }

  /** When nothing of it is discarded, a stream grows by exactly what is read. */
  lemma {:induction false} StreamsWhole(s: Proxy, run: seq<Step>, c: nat, dir: Direction)
    requires CanRun(s, run) && forall i :: 0 <= i < |run| ==> !Loses(run[i], c, dir)
    ensures StreamOf(After(s, run), c, dir) == StreamOf(s, c, dir) + ReadOver(run, c, dir)
    decreases |run|
  {
    hide Can, Next, Loses, StreamOf, ReadIn;
    if run != [] {
      var n := StepStreams(s, run[0], c, dir);
      assert StreamOf(s, c, dir)[..n] == StreamOf(s, c, dir);
      StreamsWhole(Next(s, run[0]), run[1..], c, dir);
    }
  }

  /** From the start of the proxy: what a peer has been sent is, in order, a part of what was read from
      the other, and all of it but the chunk still held when nothing was discarded. */
  lemma StreamsFaithful(cut: bool, run: seq<Step>, c: nat, dir: Direction)
    requires CanRun(NewProxy(cut), run)
    ensures Subsequence(BytesTo(After(NewProxy(cut), run), c, dir), ReadOver(run, c, dir))
    ensures (forall i :: 0 <= i < |run| ==> !Loses(run[i], c, dir)) ==>
              StreamOf(After(NewProxy(cut), run), c, dir) == ReadOver(run, c, dir)
  {
    hide CanRun, After, Loses;
    var s, s' := NewProxy(cut), After(NewProxy(cut), run);
    StreamsInOrder(s, run, c, dir, []);
    assert [] + ReadOver(run, c, dir) == ReadOver(run, c, dir);
    SubsequenceDrop(StreamOf(s', c, dir), ReadOver(run, c, dir), |BytesTo(s', c, dir)|);
    assert StreamOf(s', c, dir)[..|BytesTo(s', c, dir)|] == BytesTo(s', c, dir);
    if forall i :: 0 <= i < |run| ==> !Loses(run[i], c, dir) {
      StreamsWhole(s, run, c, dir);
    }
  }

  // ---------------------------------------------------------------------------
  // Connections that arrive during a cut
  // ---------------------------------------------------------------------------

  /** Turned away: not admitted yet, or closed without a backend having been dialed. */
  predicate TurnedAway(k: Conn)
  {
    k.h == Accepted || (k.h == Gone && k.clientClosed)
  }

  lemma StepTurnsAway(s: Proxy, step: Step, c: nat)
    requires Can(s, step) && s.partitioned && step != Heal && (c in s.conns ==> TurnedAway(s.conns[c]))
    ensures Next(s, step).partitioned && (c in Next(s, step).conns ==> TurnedAway(Next(s, step).conns[c]))
    ensures step.On? && step.c == c ==> step.act.Admit?
  {
  }

  /** While a cut is in force every new connection is turned away: the backend is never dialed for it. */
  lemma {:induction false} RefusedWhileCut(s: Proxy, run: seq<Step>, c: nat)
    requires CanRun(s, run) && s.partitioned && NoHeal(run) && (c in s.conns ==> TurnedAway(s.conns[c]))
    ensures c in After(s, run).conns ==> TurnedAway(After(s, run).conns[c])
    ensures forall i :: 0 <= i < |run| && run[i].On? && run[i].c == c ==> run[i].act.Admit?
    decreases |run|
  {
    hide Can, Next, TurnedAway;
    if run != [] {
      StepTurnsAway(s, run[0], c);
      RefusedWhileCut(Next(s, run[0]), run[1..], c);
      assert forall i :: 0 < i < |run| ==> run[i] == run[1..][i - 1];
    }
  }

  // ---------------------------------------------------------------------------
  // Sockets of finished connections
  // ---------------------------------------------------------------------------

  /** The sockets a handler has closed by each stage; `dialed` once it has a backend. */
  predicate ClosedInTime(k: Conn, dialed: bool)
  {
    match k.h
    case Accepted => !dialed
    case Dialing => !dialed
    case Ending(stage) => (stage >= 1 ==> k.serverClosed) && (stage >= 2 ==> k.clientClosed)
    case Gone => k.clientClosed && (dialed ==> k.serverClosed)
    case _ => true
  }

  lemma ActClosesInTime(k: Conn, partitioned: bool, closed: bool, act: Act, dialed: bool)
    requires Ready(k, closed, act) && ClosedInTime(k, dialed)
    ensures ClosedInTime(Act1(k, partitioned, closed, act), dialed || act == Dial(true))
  {
  }

  lemma StepClosesInTime(s: Proxy, step: Step, c: nat, dialed: bool)
    requires Can(s, step) && if c in s.conns then ClosedInTime(s.conns[c], dialed) else !dialed
    ensures var s', dialed' := Next(s, step), dialed || step == On(c, Dial(true));
            if c in s'.conns then ClosedInTime(s'.conns[c], dialed') else !dialed'
  {
    hide Act1, Ready;
    if step.On? && step.c == c {
      ActClosesInTime(s.conns[c], s.partitioned, s.closed, step.act, dialed);
    }
  }

  /** Over every run, when the handler of a connection is gone the client's socket is closed, and so
      is the backend's if it was ever dialed. */
  lemma {:induction false} GoneIsClosed(s: Proxy, run: seq<Step>, c: nat, dialed: bool)
    requires CanRun(s, run) && if c in s.conns then ClosedInTime(s.conns[c], dialed) else !dialed
    ensures c in After(s, run).conns ==> ClosedInTime(After(s, run).conns[c], dialed || On(c, Dial(true)) in run)
    decreases |run|
  {
    hide Can, Next, ClosedInTime;
    if run != [] {
      StepClosesInTime(s, run[0], c, dialed);
      GoneIsClosed(Next(s, run[0]), run[1..], c, dialed || run[0] == On(c, Dial(true)));
      assert run == [run[0]] + run[1..];
    }
  }

  // ---------------------------------------------------------------------------
  // Connections that are left alone
  // ---------------------------------------------------------------------------

  /** The step is a reason for this direction to end: a cut, a close, or its own read or write failing. */
  predicate Disturbs(step: Step, c: nat, dir: Direction)
  {
    match step
    case Partition(_) => true
    case Close(_) => true
    case On(k, act) =>
      k == c &&
      (match act
       case Read(d, result) => d == dir && (result.Failed? || (result.Data? && result.last))
       case WriteChunk(d, outcome) => d == dir && outcome.Broken?
       case _ => false)
    case _ => false
  }

  predicate Flows(k: Conn, dir: Direction)
  {
    k.h.Piping? && PumpOf(k.h, dir) != Done && (PumpOf(k.h, dir).Holding? ==> !PumpOf(k.h, dir).last)
  }

  lemma ActGoesOn(k: Conn, c: nat, act: Act, dir: Direction)
    requires Ready(k, false, act) && Flows(k, dir) && !Disturbs(On(c, act), c, dir)
    ensures Flows(Act1(k, false, false, act), dir)
  {
  }

  lemma StepGoesOn(s: Proxy, step: Step, c: nat, dir: Direction)
    requires Can(s, step) && c in s.conns && Flows(s.conns[c], dir) && !s.partitioned && !s.closed
    requires !Disturbs(step, c, dir)
    ensures c in Next(s, step).conns && Flows(Next(s, step).conns[c], dir)
    ensures !Next(s, step).partitioned && !Next(s, step).closed
  {
    hide Act1, Ready;
    if step.On? && step.c == c {
      ActGoesOn(s.conns[c], c, step.act, dir);
    }
  }

  /** A direction of a connection goes on pumping until the proxy is cut or closed or its own read or
      write fails, whatever becomes of the other direction and of other connections. */
  lemma {:induction false} StreamsGoOn(s: Proxy, run: seq<Step>, c: nat, dir: Direction)
    requires CanRun(s, run) && c in s.conns && Flows(s.conns[c], dir) && !s.partitioned && !s.closed
    requires forall i :: 0 <= i < |run| ==> !Disturbs(run[i], c, dir)
    ensures c in After(s, run).conns && Flows(After(s, run).conns[c], dir)
    decreases |run|
  {
    hide Can, Next, Flows, Disturbs;
    if run != [] {
      StepGoesOn(s, run[0], c, dir);
      StreamsGoOn(Next(s, run[0]), run[1..], c, dir);
    }
  }
}
