/** Four-byte little-endian two's-complement integers, as they lie in memory, on disk and on the wire. */
module Int32Bytes {

  predicate IsInt32(v: int) {
    -0x8000_0000 <= v < 0x8000_0000
  }

  predicate IsBytes(bs: seq<int>) {
    forall i :: 0 <= i < |bs| ==> 0 <= bs[i] < 256
  }

  function EncodeInt32(v: int): (r: seq<int>)
    ensures |r| == 4 && IsBytes(r)
  {
    var u := v % 0x1_0000_0000;
    [u % 256, u / 256 % 256, u / 65536 % 256, u / 16777216 % 256]
  }

  function DecodeInt32(bs: seq<int>): int
    requires |bs| == 4
  {
    var u := bs[0] + 256 * bs[1] + 65536 * bs[2] + 16777216 * bs[3];
    if u >= 0x8000_0000 then u - 0x1_0000_0000 else u
  }

  lemma Digits(u: int)
    requires 0 <= u < 0x1_0000_0000
    ensures u == u % 256 + 256 * (u / 256 % 256) + 65536 * (u / 65536 % 256) + 16777216 * (u / 16777216 % 256)
  {
    var a, b := u / 256, u / 65536;
    assert a / 256 == b && b / 256 == u / 16777216;
    assert u == 256 * a + u % 256 && a == 256 * b + a % 256;
  }

  /** Every 32-bit value is read back as written. */
  lemma Int32RoundTrip(v: int)
    requires IsInt32(v)
    ensures DecodeInt32(EncodeInt32(v)) == v
  {
    var u := v % 0x1_0000_0000;
    Digits(u);
    assert u == if v < 0 then v + 0x1_0000_0000 else v;
  }

  /** The lowest byte comes first: byte `i` counts for 256 to the power of `i`, modulo the width. */
  lemma LowestFirst(v: int)
    requires IsInt32(v)
    ensures var b := EncodeInt32(v);
      b[0] + 256 * b[1] + 65536 * b[2] + 16777216 * b[3] == if v < 0 then v + 0x1_0000_0000 else v
  {
    Digits(v % 0x1_0000_0000);
  }
}
