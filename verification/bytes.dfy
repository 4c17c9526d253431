/** Byte-level helpers: little-endian packing of 16- and 32-bit values. */
module Bytes {

  /** Rust's `u16::to_le_bytes`. */
  function Le16(x: bv16): (r: seq<bv8>)
    ensures |r| == 2
    ensures FromLe16(r) == x
  {
    [(x & 0xFF) as bv8, (x >> 8) as bv8]
  }

  function FromLe16(b: seq<bv8>): bv16
    requires |b| == 2
  {
    (b[0] as bv16) | ((b[1] as bv16) << 8)
  }

  /** Rust's `u32::to_le_bytes`. */
  function Le32(x: bv32): (r: seq<bv8>)
    ensures |r| == 4
    ensures FromLe32(r) == x
  {
    [(x & 0xFF) as bv8, ((x >> 8) & 0xFF) as bv8, ((x >> 16) & 0xFF) as bv8, (x >> 24) as bv8]
  }

  function FromLe32(b: seq<bv8>): bv32
    requires |b| == 4
  {
    (b[0] as bv32) | ((b[1] as bv32) << 8) | ((b[2] as bv32) << 16) | ((b[3] as bv32) << 24)
  }

  /** Consecutive 16-bit fields, each little-endian, with no padding between them. */
  function Le16Seq(xs: seq<bv16>): (r: seq<bv8>)
    ensures |r| == 2 * |xs|
    decreases |xs|
  {
    if |xs| == 0 then [] else Le16(xs[0]) + Le16Seq(xs[1..])
  }

  /** Reads consecutive little-endian 16-bit fields back out of an even-length byte string. */
  function FromLe16Seq(b: seq<bv8>): (xs: seq<bv16>)
    requires |b| % 2 == 0
    ensures 2 * |xs| == |b|
    decreases |b|
  {
    if |b| == 0 then [] else [FromLe16(b[..2])] + FromLe16Seq(b[2..])
  }

  /** Field `i` of a packed sequence occupies bytes `2i` and `2i+1`, least significant first. */
  lemma {:induction false} Le16SeqOffsets(xs: seq<bv16>, i: nat)
    requires i < |xs|
    ensures Le16Seq(xs)[2 * i..2 * i + 2] == Le16(xs[i])
    decreases i
  {
    if i > 0 {
      Le16SeqOffsets(xs[1..], i - 1);
      assert Le16Seq(xs) == Le16(xs[0]) + Le16Seq(xs[1..]);
      assert Le16Seq(xs)[2 * i..2 * i + 2] == Le16Seq(xs[1..])[2 * (i - 1)..2 * (i - 1) + 2];
    }
  }

  lemma {:induction false} Le16SeqRoundTrip(xs: seq<bv16>)
    ensures FromLe16Seq(Le16Seq(xs)) == xs
    decreases |xs|
  {
    if |xs| > 0 {
      var b := Le16Seq(xs);
      assert b[..2] == Le16(xs[0]);
      assert b[2..] == Le16Seq(xs[1..]);
      Le16SeqRoundTrip(xs[1..]);
    }
  }
}
