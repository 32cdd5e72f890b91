/** Length-prefixed frames on a byte stream, and the hello-then-envelopes protocol over them. */
module Frames {
  import opened Bytes
  import opened Options
  import opened Topics
  import opened Envelopes

  const MAX_FRAME := 8 * 1024 * 1024

  // ---------------------------------------------------------------------------
  // Raw frames
  // ---------------------------------------------------------------------------

  predicate Framable(b: bytes)
  {
    0 < |b| <= MAX_FRAME
  }

  function Frame(b: bytes): bytes
    requires |b| <= MAX_FRAME
  {
    Put32(|b|) + b
  }

  datatype Parsed<T> = Bad | Good(value: T, rest: bytes)

  /** Takes one frame off the front of the stream. */
  function ParseFrame(s: bytes): Parsed<bytes>
  {
    if |s| < 4 then Bad
    else
      var n := Get32(s[..4]);
      if n == 0 || n > MAX_FRAME || |s| < 4 + n then Bad else Good(s[4..4 + n], s[4 + n..])
  }

  /** A frame is what its four length bytes, most significant first, announce: at least one byte and
      at most eight mebibytes. Anything else parses as no frame. */
  lemma FrameExactly(s: bytes)
    ensures ParseFrame(s).Good? <==>
              |s| >= 4 &&
              var n := s[0] as nat * 0x100_0000 + s[1] as nat * 0x1_0000 + s[2] as nat * 0x100 + s[3] as nat;
              1 <= n <= 8_388_608 && 4 + n <= |s|
    ensures ParseFrame(s).Good? ==> s[4..] == ParseFrame(s).value + ParseFrame(s).rest
    ensures ParseFrame(s).Good? ==>
              |ParseFrame(s).value| == s[0] as nat * 0x100_0000 + s[1] as nat * 0x1_0000 + s[2] as nat * 0x100 + s[3] as nat
  {
    if ParseFrame(s).Good? {
      var n := |ParseFrame(s).value|;
      assert s[4..] == s[4..4 + n] + s[4 + n..];
    }
  }

  /** Parsing yields `b` and `rest` exactly when the stream is the frame of `b` and then `rest`. */
  lemma ParseExactly(s: bytes, b: bytes, rest: bytes)
    ensures ParseFrame(s) == Good(b, rest) <==> Framable(b) && s == Frame(b) + rest
  {
    if ParseFrame(s) == Good(b, rest) {
      Put32Get32(s[..4]);
      assert s == s[..4] + s[4..4 + |b|] + s[4 + |b|..];
    }
    if Framable(b) && s == Frame(b) + rest {
      Get32Put32(|b|);
      assert s[..4] == Put32(|b|) && s[4..4 + |b|] == b && s[4 + |b|..] == rest;
    }
  }

  ghost predicate AllFramable(blocks: seq<bytes>)
  {
    forall i :: 0 <= i < |blocks| ==> Framable(blocks[i])
  }

  function Framed(blocks: seq<bytes>): bytes
    requires AllFramable(blocks)
  {
    if blocks == [] then [] else Frame(blocks[0]) + Framed(blocks[1..])
  }

  lemma FramesHead(blocks: seq<bytes>, rest: bytes)
    requires AllFramable(blocks) && blocks != []
    ensures ParseFrame(Framed(blocks) + rest) == Good(blocks[0], Framed(blocks[1..]) + rest)
  {
    assert Framed(blocks) + rest == Frame(blocks[0]) + (Framed(blocks[1..]) + rest);
    ParseExactly(Framed(blocks) + rest, blocks[0], Framed(blocks[1..]) + rest);
  }

  /** Two lists of frames that give the same bytes, each followed by bytes that start no frame,
      are the same list: the framing is uniquely decodable. */
  lemma {:induction false} UniquelyDecodable(a: seq<bytes>, b: seq<bytes>, restA: bytes, restB: bytes)
    requires AllFramable(a) && AllFramable(b) && ParseFrame(restA).Bad? && ParseFrame(restB).Bad?
    requires Framed(a) + restA == Framed(b) + restB
    ensures a == b && restA == restB
    decreases |a|
  {
    if a != [] {
      FramesHead(a, restA);
    }
    if b != [] {
      FramesHead(b, restB);
    }
    assert Framed([]) + restA == restA && Framed([]) + restB == restB;
    if a != [] && b != [] {
      UniquelyDecodable(a[1..], b[1..], restA, restB);
      assert a == [a[0]] + a[1..] && b == [b[0]] + b[1..];
    }
  }

  // ---------------------------------------------------------------------------
  // Envelopes through an abstract codec
  // ---------------------------------------------------------------------------

  /** The JSON codec. Encoding fails on an envelope whose payload or time has no JSON form. `canon` is
      what an envelope becomes on the wire: the payload's spacing and the time's form may change,
      nothing that routing looks at does. */
  datatype Codec = Codec(
    encode: Envelope -> Option<bytes>,
    decode: bytes -> Option<Envelope>,
    canon: Envelope -> Envelope,
    encodeHello: string -> bytes,
    decodeHello: bytes -> Option<string>)

  predicate SameRouting(a: Envelope, b: Envelope)
  {
    a.id == b.id && a.kind == b.kind && a.source == b.source && a.dest == b.dest && a.topic == b.topic
  }

  /** What encodes also decodes, to an envelope that routes the same. */
  ghost predicate Lawful(k: Codec)
  {
    && (forall e :: WellFormed(e) && k.encode(e).Some? ==> Survives(k, e))
    && (forall id :: k.encodeHello(id) != [] && k.decodeHello(k.encodeHello(id)) == Some(id))
  }

  predicate Survives(k: Codec, e: Envelope)
    requires k.encode(e).Some?
  {
    k.encode(e).value != [] && k.decode(k.encode(e).value) == Some(k.canon(e)) && SameRouting(e, k.canon(e))
  }

  /** What may be written as a frame: well formed, encodable, and not too large. */
  predicate Encodable(k: Codec, e: Envelope)
  {
    WellFormed(e) && k.encode(e).Some? && |k.encode(e).value| <= MAX_FRAME
  }

  function DecodeEnvelope(k: Codec, b: bytes): Option<Envelope>
  {
    var e := k.decode(b);
    if e.None? || !WellFormed(e.value) then None else e
  }

  function DecodeHello(k: Codec, b: bytes): Option<string>
  {
    var id := k.decodeHello(b);
    if id.None? || id.value == "" then None else id
  }

  lemma SurvivesTheWire(k: Codec, e: Envelope)
    requires Lawful(k) && Encodable(k, e)
    ensures DecodeEnvelope(k, k.encode(e).value) == Some(k.canon(e))
    ensures SameRouting(e, k.canon(e)) && Destination(k.canon(e)) == Destination(e)
  {
    assert Survives(k, e);
  }

  ghost predicate AllEncodable(k: Codec, list: seq<Envelope>)
  {
    forall i :: 0 <= i < |list| ==> Encodable(k, list[i])
  }

  function Encoded(k: Codec, list: seq<Envelope>): (blocks: seq<bytes>)
    requires AllEncodable(k, list)
  {
    seq(|list|, i requires 0 <= i < |list| => k.encode(list[i]).value)
  }

  function Canonical(k: Codec, list: seq<Envelope>): seq<Envelope>
  {
    seq(|list|, i requires 0 <= i < |list| => k.canon(list[i]))
  }

  lemma EncodedFramable(k: Codec, list: seq<Envelope>)
    requires Lawful(k) && AllEncodable(k, list)
    ensures AllFramable(Encoded(k, list))
  {
    forall i | 0 <= i < |list| ensures Framable(Encoded(k, list)[i]) {
      assert Survives(k, list[i]);
    }
  }

  /** Takes one envelope off the front of the stream. */
  function ParseEnvelope(k: Codec, s: bytes): (p: Parsed<Envelope>)
    ensures p.Good? ==> |p.rest| < |s|
  {
    match ParseFrame(s)
    case Bad => Bad
    case Good(b, rest) =>
      var e := DecodeEnvelope(k, b);
      if e.None? then Bad else Good(e.value, rest)
  }

  /** The envelopes the read loop takes off the stream before the first frame it rejects. */
  function ReadAll(k: Codec, s: bytes): seq<Envelope>
    decreases |s|
  {
    var p := ParseEnvelope(k, s);
    if p.Bad? then [] else [p.value] + ReadAll(k, p.rest)
  }

  /** What comes back is the list that was written, then whatever the rest of the stream holds. */
  lemma {:induction false} ReadAllWritten(k: Codec, list: seq<Envelope>, rest: bytes)
    requires Lawful(k) && AllEncodable(k, list)
    ensures AllFramable(Encoded(k, list))
    ensures ReadAll(k, Framed(Encoded(k, list)) + rest) == Canonical(k, list) + ReadAll(k, rest)
    decreases |list|
  {
    hide ParseFrame, Frame, DecodeEnvelope, Lawful, Destination, Encodable;
    EncodedFramable(k, list);
    var blocks := Encoded(k, list);
    if list == [] {
      assert Framed(blocks) + rest == rest;
    } else {
      FramesHead(blocks, rest);
      SurvivesTheWire(k, list[0]);
      assert blocks[1..] == Encoded(k, list[1..]);
      ReadAllWritten(k, list[1..], rest);
      assert Canonical(k, list) == [k.canon(list[0])] + Canonical(k, list[1..]);
    }
  }

  /** The bytes of a session: the hello and then one frame per envelope. */
  function Session(k: Codec, id: string, list: seq<Envelope>): bytes
    requires AllEncodable(k, list) && Framable(k.encodeHello(id)) && AllFramable(Encoded(k, list))
  {
    Frame(k.encodeHello(id)) + Framed(Encoded(k, list))
  }

  lemma {:induction false} FramedSnoc(blocks: seq<bytes>, b: bytes)
    requires AllFramable(blocks) && Framable(b)
    ensures AllFramable(blocks + [b]) && Framed(blocks + [b]) == Framed(blocks) + Frame(b)
    decreases |blocks|
  {
    if blocks != [] {
      FramedSnoc(blocks[1..], b);
      assert (blocks + [b])[1..] == blocks[1..] + [b];
    }
  }

  /** Writing one more envelope after a session gives the session of the longer list. */
  lemma SessionGrows(k: Codec, id: string, list: seq<Envelope>, e: Envelope)
    requires Lawful(k) && Framable(k.encodeHello(id)) && AllEncodable(k, list) && Encodable(k, e)
    ensures AllEncodable(k, list + [e]) && AllFramable(Encoded(k, list)) && AllFramable(Encoded(k, list + [e]))
    ensures Session(k, id, list + [e]) == Session(k, id, list) + Frame(k.encode(e).value)
  {
    EncodedFramable(k, list);
    EncodedFramable(k, list + [e]);
    assert Encoded(k, list + [e]) == Encoded(k, list) + [k.encode(e).value];
    FramedSnoc(Encoded(k, list), k.encode(e).value);
  }

  /** Fills in the sender the connection declared where an envelope names none. */
  function Stamp(e: Envelope, id: string): Envelope
  {
    if e.source == "" then e.(source := id) else e
  }

  function Stamped(list: seq<Envelope>, id: string): (r: seq<Envelope>)
    ensures |r| == |list| && forall i :: 0 <= i < |list| ==> r[i] == Stamp(list[i], id)
    ensures forall i :: 0 <= i < |list| ==>
              r[i] == list[i].(source := r[i].source) &&
              r[i].source == if list[i].source != "" then list[i].source else id
  {
    seq(|list|, i requires 0 <= i < |list| => Stamp(list[i], id))
  }

  lemma StampedCons(e: Envelope, rest: seq<Envelope>, id: string)
    ensures Stamped([e] + rest, id) == [Stamp(e, id)] + Stamped(rest, id)
  {
  }

  datatype Served = Served(node: string, routed: seq<Envelope>)

  /** What a server makes of a stream: the declared node and the envelopes it routes, in order. */
  function Serve(k: Codec, s: bytes): Option<Served>
  {
    var f := ParseFrame(s);
    if f.Bad? then None
    else
      var id := DecodeHello(k, f.value);
      if id.None? then None else Some(Served(id.value, Stamped(ReadAll(k, f.rest), id.value)))
  }

  lemma {:induction false} AllReadWellFormed(k: Codec, s: bytes)
    ensures forall i :: 0 <= i < |ReadAll(k, s)| ==> WellFormed(ReadAll(k, s)[i])
    decreases |s|
  {
    hide WellFormed;
    var p := ParseEnvelope(k, s);
    if p.Good? {
      AllReadWellFormed(k, p.rest);
    }
  }

  /** Whatever the bytes, a served node has an id, and every envelope routed for it is well formed
      and carries a source: its own, or that id. */
  lemma ServedWell(k: Codec, s: bytes)
    requires Serve(k, s).Some?
    ensures var served := Serve(k, s).value;
            served.node != "" &&
            forall i :: 0 <= i < |served.routed| ==> WellFormed(served.routed[i]) && served.routed[i].source != ""
  {
    AllReadWellFormed(k, ParseFrame(s).rest);
  }

  /** A session is read back as the node it declared and the envelopes written, in order, with
      the source filled in; bytes after it that start no frame add nothing. */
  lemma SessionRoundTrip(k: Codec, id: string, list: seq<Envelope>, rest: bytes)
    requires Lawful(k) && id != "" && |k.encodeHello(id)| <= MAX_FRAME && AllEncodable(k, list)
    ensures AllFramable(Encoded(k, list)) && Framable(k.encodeHello(id))
    ensures Serve(k, Session(k, id, list) + rest) ==
            Some(Served(id, Stamped(Canonical(k, list) + ReadAll(k, rest), id)))
    ensures ParseFrame(rest).Bad? ==>
              Serve(k, Session(k, id, list) + rest) == Some(Served(id, Stamped(Canonical(k, list), id)))
  {
    HelloReturns(k, id);
    ReadAllWritten(k, list, rest);
    hide *;
    var hello := k.encodeHello(id);
    var tail := Framed(Encoded(k, list)) + rest;
    SessionText(k, id, list, rest);
    ParseExactly(Frame(hello) + tail, hello, tail);
    ServeIs(k, Frame(hello) + tail, hello, tail, id);
    if ParseFrame(rest).Bad? {
      NothingRead(k, rest);
      assert Canonical(k, list) + [] == Canonical(k, list);
    }
  }

  lemma SessionText(k: Codec, id: string, list: seq<Envelope>, rest: bytes)
    requires AllEncodable(k, list) && Framable(k.encodeHello(id)) && AllFramable(Encoded(k, list))
    ensures Session(k, id, list) + rest == Frame(k.encodeHello(id)) + (Framed(Encoded(k, list)) + rest)
  {
    hide Frame, Framed, Encoded, Encodable;
  }

  lemma ServeIs(k: Codec, s: bytes, hello: bytes, tail: bytes, id: string)
    requires ParseFrame(s) == Good(hello, tail) && DecodeHello(k, hello) == Some(id)
    ensures Serve(k, s) == Some(Served(id, Stamped(ReadAll(k, tail), id)))
  {
    hide ParseFrame, DecodeHello, ReadAll, Stamped;
  }

  lemma HelloReturns(k: Codec, id: string)
    requires Lawful(k) && id != "" && |k.encodeHello(id)| <= MAX_FRAME
    ensures Framable(k.encodeHello(id)) && DecodeHello(k, k.encodeHello(id)) == Some(id)
  {
  }

  lemma NothingRead(k: Codec, s: bytes)
    requires ParseFrame(s).Bad?
    ensures ReadAll(k, s) == []
  {
  }
}
