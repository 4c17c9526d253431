/**
 * Bit fields of one-byte registers. A field is a run of `width` bits whose
 * least significant bit is bit `shift` of the byte (bit 0 is the least
 * significant bit). Also the access modes and byte orders registers declare.
 */
module Bitfield {

  /** How a register may be accessed over the bus (`mode` of its declaration). */
  datatype Access = ReadOnly | WriteOnly | ReadWrite

  /** The `default_endianness` a register declares for its multi-byte fields. */
  datatype ByteOrder = BigEndian | LittleEndian

  /** Bytes of a field in bus order: a little-endian field is stored low byte first. */
  function InBusOrder(bytes: seq<bv8>, order: ByteOrder): (r: seq<bv8>)
    ensures |r| == |bytes|
  {
    if order == BigEndian then bytes else seq(|bytes|, i requires 0 <= i < |bytes| => bytes[|bytes| - 1 - i])
  }

  /** Putting bytes in bus order twice gives them back. */
  lemma BusOrderInvolution(bytes: seq<bv8>, order: ByteOrder)
    ensures InBusOrder(InBusOrder(bytes, order), order) == bytes
  {
  }

  /** For a one-byte register the declared byte order makes no difference. */
  lemma OneByteOrderIrrelevant(bytes: seq<bv8>, order: ByteOrder)
    requires |bytes| == 1
    ensures InBusOrder(bytes, order) == bytes
  {
  }

  /** A placed field; `shift` and `width` are bit counts. */
  datatype Field = Field(shift: bv8, width: bv8)

  predicate Fits(f: Field)
  {
    0 < f.width <= 8 && f.shift <= 8 - f.width
  }

  /** The low `w` bits set. */
  function Mask(w: bv8): bv8
    requires w <= 8
  {
    if w == 8 then 0xFF else ((1 as bv8) << w) - 1
  }

  /** The bits of the byte that `f` occupies. */
  function Bits(f: Field): bv8
    requires Fits(f)
  {
    Mask(f.width) << f.shift
  }

  /** Reads field `f` out of `b`, right-aligned. */
  function Get(b: bv8, f: Field): (v: bv8)
    requires Fits(f)
    ensures v & Mask(f.width) == v
  {
    GetAt(b, f.shift, Mask(f.width))
  }

  /**
   * Writes `v` into field `f` of `b` (a generated `write_<field>`): the value is
   * cut to the field's width and every bit outside the field keeps its value.
   */
  function Set(b: bv8, f: Field, v: bv8): (r: bv8)
    requires Fits(f)
    ensures r & !Bits(f) == b & !Bits(f)
  {
    SetAt(b, f.shift, Mask(f.width), v)
  }

  /** Reading a field after writing it gives the value written, cut to the field's width. */
  lemma GetSet(b: bv8, f: Field, v: bv8)
    requires Fits(f)
    ensures Get(Set(b, f, v), f) == v & Mask(f.width)
  {
    MaskFits(f);
    GetAtSetAt(b, f.shift, Mask(f.width), v);
  }

  /** Writing back the value a field holds leaves the byte unchanged. */
  lemma SetGet(b: bv8, f: Field)
    requires Fits(f)
    ensures Set(b, f, Get(b, f)) == b
  {
    MaskFits(f);
    SetAtGetAt(b, f.shift, Mask(f.width));
  }

  /** A fitting field loses none of its mask's bits when shifted into place. */
  lemma MaskFits(f: Field)
    requires Fits(f)
    ensures f.shift < 8 && (Mask(f.width) << f.shift) >> f.shift == Mask(f.width)
  {
  }

  /** The bits under mask `m` once shifted right by `s`. */
  function GetAt(b: bv8, s: bv8, m: bv8): bv8
    requires s < 8
  {
    (b >> s) & m
  }

  /** `b` with the bits under `m << s` replaced by `v` cut to `m`. */
  function SetAt(b: bv8, s: bv8, m: bv8, v: bv8): bv8
    requires s < 8
  {
    (b & !(m << s)) | ((v & m) << s)
  }

  lemma GetAtSetAt(b: bv8, s: bv8, m: bv8, v: bv8)
    requires s < 8 && (m << s) >> s == m
    ensures GetAt(SetAt(b, s, m, v), s, m) == v & m
  {
  }

  lemma SetAtGetAt(b: bv8, s: bv8, m: bv8)
    requires s < 8 && (m << s) >> s == m
    ensures SetAt(b, s, m, GetAt(b, s, m)) == b
  {
  }

  /** A one-bit field as a `bool`, the way the `bool` register fields are stored. */
  function BoolBit(x: bool): (v: bv8)
    ensures v & 1 == v && (v == 1 <==> x)
  {
    if x then 1 else 0
  }
}
