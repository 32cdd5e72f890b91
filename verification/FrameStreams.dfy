/** The frame functions over streams and header buffers. */
module FrameStreams {
  import opened Bytes
  import opened Options
  import opened Topics
  import opened Envelopes
  import opened Frames

  /** A writer that fails once `limit` bytes are out. */
  class Writer {
    var data: bytes
    const limit: nat

    constructor (limit: nat)
      ensures data == [] && this.limit == limit
    {
      data, this.limit := [], limit;
    }

    method Write(b: bytes) returns (ok: bool)
      modifies this
      ensures ok == (old(|data|) + |b| <= limit)
      ensures if ok then data == old(data) + b else old(data) <= data <= old(data) + b
    {
      ok := |data| + |b| <= limit;
      if ok {
        data := data + b;
      } else if |data| < limit {
        data := data + b[..limit - |data|];
      }
    }
  }

  /** A reader over the bytes that will ever arrive. */
  class Reader {
    var data: bytes

    constructor (data: bytes)
      ensures this.data == data
    {
      this.data := data;
    }

    /** Fills the whole buffer or fails, having taken what there was. */
    method ReadFull(buf: array<byte>) returns (ok: bool)
      modifies this, buf
      ensures ok == (old(|data|) >= buf.Length)
      ensures if ok then buf[..] == old(data)[..buf.Length] && data == old(data)[buf.Length..] else data == []
    {
      ok := |data| >= buf.Length;
      if !ok {
        data := [];
        return;
      }
      forall i | 0 <= i < buf.Length {
        buf[i] := data[i];
      }
      data := data[buf.Length..];
    }
  }

  method PutUint32(hdr: array<byte>, n: nat)
    requires hdr.Length == 4 && n < TWO_32
    modifies hdr
    ensures hdr[..] == Put32(n)
  {
    hdr[0] := (n / 0x100_0000) as byte;
    hdr[1] := (n / 0x1_0000 % 256) as byte;
    hdr[2] := (n / 0x100 % 256) as byte;
    hdr[3] := (n % 256) as byte;
  }

  /** Writes one frame. An oversized block writes nothing; a failing writer leaves a proper part
      of the frame. */
  method WriteRawFrame(w: Writer, b: bytes) returns (ok: bool)
    modifies w
    ensures ok == (|b| <= MAX_FRAME && old(|w.data|) + 4 + |b| <= w.limit)
    ensures |b| > MAX_FRAME ==> w.data == old(w.data)
    ensures |b| <= MAX_FRAME ==> old(w.data) <= w.data <= old(w.data) + Frame(b)
    ensures ok ==> w.data == old(w.data) + Frame(b)
  {
    if |b| > MAX_FRAME {
      return false;
    }
    var hdr := new byte[4];
    PutUint32(hdr, |b|);
    ghost var start := w.data;
    assert start + Frame(b) == start + Put32(|b|) + b;
    ok := w.Write(hdr[..]);
    if !ok {
      return;
    }
    ok := w.Write(b);
  }

  /** Writes one envelope. One that is malformed, has no encoding or is too large writes nothing. */
  method WriteFrame(w: Writer, k: Codec, e: Envelope) returns (ok: bool)
    modifies w
    ensures ok <==> Encodable(k, e) && old(|w.data|) + 4 + |k.encode(e).value| <= w.limit
    ensures ok ==> w.data == old(w.data) + Frame(k.encode(e).value)
    ensures !Encodable(k, e) ==> w.data == old(w.data)
    ensures Encodable(k, e) ==> old(w.data) <= w.data <= old(w.data) + Frame(k.encode(e).value)
  {
    if !WellFormed(e) {
      return false;
    }
    var b := k.encode(e);
    if b.None? {
      return false;
    }
    ok := WriteRawFrame(w, b.value);
  }

  method ReadRawFrame(r: Reader) returns (b: Option<bytes>)
    modifies r
    ensures match ParseFrame(old(r.data))
            case Bad => b == None
            case Good(value, rest) => b == Some(value) && r.data == rest
    ensures b.Some? ==> |r.data| < old(|r.data|)
  {
    ghost var s := r.data;
    var hdr := new byte[4];
    var ok := r.ReadFull(hdr);
    if !ok {
      return None;
    }
    var n := Get32(hdr[..]);
    if n == 0 || n > MAX_FRAME {
      return None;
    }
    var buf := new byte[n];
    ok := r.ReadFull(buf);
    if !ok {
      return None;
    }
    assert buf[..] == s[4..4 + n] && r.data == s[4 + n..];
    return Some(buf[..]);
  }

  method ReadFrame(r: Reader, k: Codec) returns (e: Option<Envelope>)
    modifies r
    ensures match ParseEnvelope(k, old(r.data))
            case Bad => e == None
            case Good(value, rest) => e == Some(value) && r.data == rest
  {
    var b := ReadRawFrame(r);
    if b.None? {
      return None;
    }
    return DecodeEnvelope(k, b.value);
  }
}
