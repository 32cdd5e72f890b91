/** The copy loop of one direction of a proxied connection, over its reused buffer. */
module FaultPump {
  import opened Bytes
  import opened FaultProxy

  const BUFFER_SIZE := 32 * 1024

  datatype ReadError = NoError | Deadline | Eof | OtherError

  /** What the loop meets in one iteration: the two flags, the read, whether each sleep ran to its
      end, the drop rate with the random draw, and how much of the chunk the peer accepted. */
  datatype Round = Round(
    closed: bool,
    cut: bool,
    data: bytes,
    err: ReadError,
    slept: bool,
    paced: bool,
    rate: real,
    draw: real,
    accepted: nat)

  predicate ShouldDrop(rate: real, draw: real)
  {
    rate > 0.0 && draw < rate
  }

  function Clamp(rate: real): real
  {
    if rate < 0.0 then 0.0 else if rate > 1.0 then 1.0 else rate
  }

  /** A rate set to zero or less never drops, one set to one or more always does, and one in between
      drops exactly the draws below it, for any draw in [0, 1). */
  lemma DropRateLimits(rate: real, draw: real)
    requires 0.0 <= draw < 1.0
    ensures rate <= 0.0 ==> !ShouldDrop(Clamp(rate), draw)
    ensures rate >= 1.0 ==> ShouldDrop(Clamp(rate), draw)
    ensures 0.0 < rate < 1.0 ==> (ShouldDrop(Clamp(rate), draw) <==> draw < rate)
  {
  }

  /** Whether the round gets as far as the read. */
  predicate Reaches(r: Round)
  {
    !r.closed && !r.cut
  }

  /** Whether the loop ends in this round. A dropped chunk goes round again whatever the read
      reported with it. */
  predicate Stops(r: Round)
  {
    || r.closed || r.cut
    || (r.data != [] && (!r.slept || !r.paced))
    || (r.data != [] && !(0.0 < r.rate && r.draw < r.rate) && r.accepted < |r.data|)
    || ((r.err.Eof? || r.err.OtherError?) && !(r.data != [] && 0.0 < r.rate && r.draw < r.rate))
  }

  /** Whether the chunk of a round is written: both sleeps ran and it was not dropped. */
  predicate IsWritten(r: Round)
  {
    r.slept && r.paced && !(0.0 < r.rate && r.draw < r.rate)
  }

  /** What the peer accepts of a chunk that is written. */
  function WrittenOf(r: Round): bytes
  {
    if r.accepted < |r.data| then r.data[..r.accepted] else r.data
  }

  /** What the peer accepts over some rounds. */
  function SentOf(rounds: seq<Round>): bytes
  {
    if rounds == [] then []
    else
      var last := rounds[|rounds| - 1];
      SentOf(rounds[..|rounds| - 1]) +
      if !last.closed && !last.cut && last.data != [] && IsWritten(last) then WrittenOf(last) else []
  }

  /** The chunks read over some rounds. */
  function ReadsOf(rounds: seq<Round>): seq<bytes>
  {
    if rounds == [] then []
    else
      var last := rounds[|rounds| - 1];
      ReadsOf(rounds[..|rounds| - 1]) + if Reaches(last) && last.data != [] then [last.data] else []
  }

  function Flat(chunks: seq<bytes>): bytes
  {
    if chunks == [] then [] else Flat(chunks[..|chunks| - 1]) + chunks[|chunks| - 1]
  }

  /** The chunks at the given positions, in that order. */
  function Pick(chunks: seq<bytes>, at: seq<nat>): seq<bytes>
    requires forall i :: 0 <= i < |at| ==> at[i] < |chunks|
  {
    seq(|at|, i requires 0 <= i < |at| => chunks[at[i]])
  }

  ghost predicate Ascending(at: seq<nat>, bound: nat)
  {
    (forall i :: 0 <= i < |at| ==> at[i] < bound) && forall i, j :: 0 <= i < j < |at| ==> at[i] < at[j]
  }

  /** The last chunk read was kept but only its first `n` bytes went out. */
  ghost predicate CutShort(got: seq<bytes>, kept: seq<nat>, sent: bytes, n: nat)
    requires Ascending(kept, |got|)
  {
    kept != [] && kept[|kept| - 1] == |got| - 1 &&
    var last := got[|got| - 1];
    n < |last| && sent == Flat(Pick(got, kept[..|kept| - 1])) + last[..n]
  }

  /** `sent` is the chunks at `kept` joined, except that the last may be cut short, and then only
      when it is the last chunk read. */
  ghost predicate Selection(got: seq<bytes>, kept: seq<nat>, sent: bytes)
  {
    Ascending(kept, |got|) &&
    (sent == Flat(Pick(got, kept)) || exists n: nat :: CutShort(got, kept, sent, n))
  }

  predicate Faultless(r: Round)
  {
    Reaches(r) && r.slept && r.paced && r.rate <= 0.0 && r.accepted >= |r.data| && (r.err.NoError? || r.err.Deadline?)
  }

  ghost predicate Whole(got: seq<bytes>, kept: seq<nat>, sent: bytes)
  {
    Ascending(kept, |got|) && sent == Flat(Pick(got, kept))
  }

  predicate NeverDrops(script: seq<Round>)
  {
    forall i :: 0 <= i < |script| ==> script[i].rate <= 0.0
  }

  predicate NeverFaults(script: seq<Round>)
  {
    forall i :: 0 <= i < |script| ==> Faultless(script[i])
  }

  predicate AlwaysDrops(script: seq<Round>)
  {
    forall i :: 0 <= i < |script| ==> 0.0 < script[i].rate && script[i].draw < script[i].rate
  }

  lemma PickSnoc(got: seq<bytes>, kept: seq<nat>, chunk: bytes)
    requires Ascending(kept, |got|)
    ensures Ascending(kept, |got + [chunk]|) && Pick(got + [chunk], kept) == Pick(got, kept)
    ensures Ascending(kept + [|got|], |got + [chunk]|)
    ensures Flat(Pick(got + [chunk], kept + [|got|])) == Flat(Pick(got, kept)) + chunk
  {
    var got', kept' := got + [chunk], kept + [|got|];
    assert kept'[..|kept|] == kept;
    assert Pick(got', kept')[..|kept|] == Pick(got, kept);
  }

  /** What one more chunk read can turn into: unsent, sent, or cut short after `n` bytes. */
  lemma ReadMore(got: seq<bytes>, kept: seq<nat>, sent: bytes, chunk: bytes, n: nat)
    requires Whole(got, kept, sent)
    ensures Whole(got + [chunk], kept, sent)
    ensures Whole(got + [chunk], kept + [|got|], sent + chunk)
    ensures n < |chunk| ==> Selection(got + [chunk], kept + [|got|], sent + chunk[..n])
  {
    PickSnoc(got, kept, chunk);
    if n < |chunk| {
      assert (kept + [|got|])[..|kept|] == kept;
      assert CutShort(got + [chunk], kept + [|got|], sent + chunk[..n], n);
    }
  }

  lemma FlatSnoc(chunks: seq<bytes>, chunk: bytes)
    ensures Flat(chunks + [chunk]) == Flat(chunks) + chunk
  {
    assert (chunks + [chunk])[..|chunks|] == chunks;
  }

  lemma ReadsSnoc(script: seq<Round>, i: nat)
    requires i < |script|
    ensures ReadsOf(script[..i + 1]) ==
            ReadsOf(script[..i]) + if Reaches(script[i]) && script[i].data != [] then [script[i].data] else []
    ensures SentOf(script[..i + 1]) ==
            SentOf(script[..i]) +
            if Reaches(script[i]) && script[i].data != [] && IsWritten(script[i]) then WrittenOf(script[i]) else []
  {
    assert script[..i + 1][..i] == script[..i];
  }

  method Fill(buf: array<byte>, data: bytes) returns (chunk: bytes)
    requires |data| <= buf.Length
    modifies buf
    ensures chunk == buf[..|data|] == data
  {
    forall k | 0 <= k < |data| {
      buf[k] := data[k];
    }
    chunk := buf[..|data|];
  }

  /** The rounds that delivered the chunks of `got`, in order. */
  ghost predicate Origins(script: seq<Round>, used: nat, got: seq<bytes>, from: seq<nat>)
    requires used <= |script|
  {
    && |from| == |got| && Ascending(from, used)
    && (forall j :: 0 <= j < |got| ==> got[j] == script[from[j]].data)
    && (forall i :: 0 <= i < used ==> (i in from <==> !script[i].closed && !script[i].cut && script[i].data != []))
  }

  /** A chunk was kept exactly when its round got past its sleeps and its draw was not below its rate. */
  ghost predicate KeptExactly(script: seq<Round>, from: seq<nat>, kept: seq<nat>)
  {
    forall j :: 0 <= j < |from| && from[j] < |script| ==>
      var r := script[from[j]];
      (j in kept <==> r.slept && r.paced && !(0.0 < r.rate && r.draw < r.rate))
  }

  /** When every draw is below its rate nothing is sent, however many rounds there are. */
  lemma {:induction false} AllDropped(script: seq<Round>)
    ensures AlwaysDrops(script) ==> forall k :: 0 <= k <= |script| ==> SentOf(script[..k]) == []
  {
    for n := 0 to |script|
      invariant AlwaysDrops(script) ==> forall k :: 0 <= k <= n ==> SentOf(script[..k]) == []
    {
      ReadsSnoc(script, n);
    }
  }

  /** Copies until a round ends the loop (`running` is false) or the rounds run out. Returns the
      bytes the peer accepted, the chunks read and their rounds, which of them were written, and
      the rounds used. */
  method Pump(script: seq<Round>)
    returns (sent: bytes, got: seq<bytes>, ghost from: seq<nat>, kept: seq<nat>, used: nat, running: bool)
    requires forall i :: 0 <= i < |script| ==> |script[i].data| <= BUFFER_SIZE
    ensures used <= |script| && forall i :: 0 <= i < used - 1 ==> !Stops(script[i])
    ensures if running then used == |script| && (used > 0 ==> !Stops(script[used - 1]))
            else used > 0 && Stops(script[used - 1])
    ensures got == ReadsOf(script[..used])
    ensures Selection(got, kept, sent)
    ensures Origins(script, used, got, from) && KeptExactly(script, from, kept)
    ensures sent == SentOf(script[..used])
    ensures NeverDrops(script) ==> sent <= Flat(got)
    ensures AlwaysDrops(script) ==> sent == []
    ensures NeverFaults(script) ==> running && sent == Flat(ReadsOf(script))
  {
    hide Whole, Flat, ReadsOf, SentOf, Selection, Origins, KeptExactly, AlwaysDrops, Stops, IsWritten, WrittenOf;
    var buf := new byte[BUFFER_SIZE];
    sent, got, from, kept, used, running := [], [], [], [], 0, true;
    Start(script);
    AllDropped(script);
    while used < |script| && running
      invariant used <= |script| && forall i :: 0 <= i < used - 1 ==> !Stops(script[i])
      invariant used > 0 ==> (running <==> !Stops(script[used - 1]))
      invariant used == 0 ==> running
      invariant got == ReadsOf(script[..used]) && sent == SentOf(script[..used])
      invariant Origins(script, used, got, from) && KeptExactly(script, from, kept)
      invariant Selection(got, kept, sent) && (running ==> Whole(got, kept, sent))
      invariant NeverDrops(script) ==> sent <= Flat(got) && (running ==> sent == Flat(got))
      invariant NeverFaults(script) ==> running
      decreases |script| - used
    {
      var r := script[used];
      ReadsSnoc(script, used);
      OriginsSnoc(script, used, got, from);
      KeptSnoc(script, got, from, kept, sent, used);
      RoundKeeps(r, got, kept, sent);
      var read, chunk, wrote, out, stop := OneRound(buf, r);
      if read {
        got, from := got + [chunk], from + [used];
        if wrote { kept := kept + [|got| - 1]; }
      }
      sent := sent + out;
      running := !stop;
      used := used + 1;
    }
    assert used == |script| ==> script[..used] == script;
    assert NeverFaults(script) ==> NeverDrops(script);
  }

  /** One iteration of the loop, over the reused buffer. */
  method OneRound(buf: array<byte>, r: Round) returns (read: bool, chunk: bytes, wrote: bool, out: bytes, stop: bool)
    requires buf.Length == BUFFER_SIZE && |r.data| <= BUFFER_SIZE
    modifies buf
    ensures stop <==> Stops(r)
    ensures read <==> !r.closed && !r.cut && r.data != []
    ensures read ==> chunk == r.data
    ensures wrote <==> read && IsWritten(r)
    ensures out == if wrote then WrittenOf(r) else []
  {
    read, chunk, wrote, out, stop := false, [], false, [], true;
    if r.closed || r.cut { return; }
    var n := |r.data|;
    chunk := Fill(buf, r.data);
    if n > 0 {
      read := true;
      if !r.slept || !r.paced { return; }
      if ShouldDrop(r.rate, r.draw) {
        stop := false;
        return;
      }
      wrote := true;
      if r.accepted < n {
        out := chunk[..r.accepted];
        return;
      }
      out := chunk;
    }
    stop := r.err != NoError && r.err != Deadline;
  }

  /** What one round makes of the chunks read, the chunks written and the bytes sent. */
  lemma RoundKeeps(r: Round, got: seq<bytes>, kept: seq<nat>, sent: bytes)
    requires Whole(got, kept, sent)
    ensures var read := !r.closed && !r.cut && r.data != [];
            var got' := if read then got + [r.data] else got;
            var kept' := if read && IsWritten(r) then kept + [|got|] else kept;
            var sent' := sent + if read && IsWritten(r) then WrittenOf(r) else [];
            && Selection(got', kept', sent') && (!Stops(r) ==> Whole(got', kept', sent'))
            && (r.rate <= 0.0 && sent == Flat(got) ==> sent' <= Flat(got') && (!Stops(r) ==> sent' == Flat(got')))
            && (Faultless(r) ==> !Stops(r))
  {
    hide Whole, Flat, Selection;
    ReadMore(got, kept, sent, r.data, r.accepted);
    FlatSnoc(got, r.data);
    WholeSelects(got, kept, sent);
    WholeSelects(got + [r.data], kept, sent);
    WholeSelects(got + [r.data], kept + [|got|], sent + r.data);
    assert sent + [] == sent;
    assert sent <= sent + r.data;
    assert r.accepted < |r.data| ==> sent + r.data[..r.accepted] <= sent + r.data;
  }

  lemma OriginsSnoc(script: seq<Round>, used: nat, got: seq<bytes>, from: seq<nat>)
    requires used < |script| && Origins(script, used, got, from)
    ensures var r := script[used];
            if !r.closed && !r.cut && r.data != []
            then Origins(script, used + 1, got + [r.data], from + [used])
            else Origins(script, used + 1, got, from)
    ensures |from| == |got|
  {
    forall i | 0 <= i < used + 1 ensures i in from + [used] <==> i in from || i == used {
    }
  }

  lemma KeptSnoc(script: seq<Round>, got: seq<bytes>, from: seq<nat>, kept: seq<nat>, sent: bytes, i: nat)
    requires KeptExactly(script, from, kept) && i < |script| && |from| == |got| && Whole(got, kept, sent)
    ensures IsWritten(script[i]) ==> KeptExactly(script, from + [i], kept + [|got|])
    ensures !IsWritten(script[i]) ==> KeptExactly(script, from + [i], kept)
  {
    forall j ensures j in kept + [|got|] <==> j in kept || j == |got| {
    }
  }

  lemma Start(script: seq<Round>)
    ensures Whole([], [], []) && Flat([]) == [] && ReadsOf(script[..0]) == [] && SentOf(script[..0]) == []
    ensures Selection([], [], []) && Origins(script, 0, [], []) && KeptExactly(script, [], [])
  {
  }

  lemma WholeSelects(got: seq<bytes>, kept: seq<nat>, sent: bytes)
    requires Whole(got, kept, sent)
    ensures Selection(got, kept, sent)
  {
  }
}
