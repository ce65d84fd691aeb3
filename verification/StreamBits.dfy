/** A byte stream as the bit stream of section 3.1.1 of RFC 1951. */
module StreamBits {
  import opened Bits

  function Of(p: seq<byte>): (b: seq<bool>)
    ensures |b| == 8 * |p|
  {
    if p == [] then [] else LsbBits(p[0], 8) + Of(p[1..])
  }
}
