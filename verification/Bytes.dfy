/** Octets and big-endian lengths. */
module Bytes {

  newtype byte = x: int | 0 <= x < 256
  type bytes = seq<byte>

  const TWO_32 := 0x1_0000_0000

  function Put32(n: nat): bytes
    requires n < TWO_32
  {
    [(n / 0x100_0000) as byte, (n / 0x1_0000 % 256) as byte, (n / 0x100 % 256) as byte, (n % 256) as byte]
  }

  function Get32(h: bytes): nat
    requires |h| == 4
  {
    h[0] as nat * 0x100_0000 + h[1] as nat * 0x1_0000 + h[2] as nat * 0x100 + h[3] as nat
  }

  lemma Get32Put32(n: nat)
    requires n < TWO_32
    ensures Get32(Put32(n)) == n
  {
    var high := n / 0x100;
    assert n == high * 0x100 + n % 256 && n / 0x1_0000 == high / 0x100 && n / 0x100_0000 == high / 0x1_0000;
    assert high == high / 0x100 * 0x100 + high % 256;
    assert high / 0x100 == high / 0x1_0000 * 0x100 + high / 0x100 % 256;
  }

  lemma Put32Get32(h: bytes)
    requires |h| == 4
    ensures Get32(h) < TWO_32 && Put32(Get32(h)) == h
  {
    var n := Get32(h);
    assert n % 256 == h[3] as nat && n / 0x100 == h[0] as nat * 0x1_0000 + h[1] as nat * 0x100 + h[2] as nat;
    assert n / 0x1_0000 == n / 0x100 / 0x100 == h[0] as nat * 0x100 + h[1] as nat;
    assert n / 0x100_0000 == n / 0x1_0000 / 0x100 == h[0] as nat;
  }

  /** The bytes of a length are compared from the first on: it is the most significant one. */
  lemma MostSignificantFirst(a: bytes, b: bytes)
    requires |a| == |b| == 4
    ensures Get32(a) < Get32(b) <==>
              || a[0] < b[0]
              || (a[0] == b[0] && a[1] < b[1])
              || (a[..2] == b[..2] && a[2] < b[2])
              || (a[..3] == b[..3] && a[3] < b[3])
  {
    assert a[..2] == b[..2] <==> a[0] == b[0] && a[1] == b[1];
    assert a[..3] == b[..3] <==> a[0] == b[0] && a[1] == b[1] && a[2] == b[2];
  }
}
