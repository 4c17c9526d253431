/**
 * The CRC-32 frame check sequence of IEEE 802.3 clause 3.2.9, as computed by
 * `crc32fast::hash`: reflected polynomial 0xEDB88320, register preset to
 * 0xFFFFFFFF, result complemented. Written bit by bit; the table-driven
 * implementation of the crate is not part of this model.
 */
module Crc32 {

  const Polynomial: bv32 := 0xEDB8_8320
  const Preset: bv32 := 0xFFFF_FFFF

  /** One shift of the reflected register: shift right, fold the polynomial back in when a one drops out. */
  function ShiftBit(c: bv32): bv32
  {
    if c & 1 == 1 then (c >> 1) ^ Polynomial else c >> 1
  }

  /** Feeds one byte, least significant bit first. */
  function FeedByte(c: bv32, b: bv8): bv32
  {
    var x := c ^ (b as bv32);
    ShiftBit(ShiftBit(ShiftBit(ShiftBit(ShiftBit(ShiftBit(ShiftBit(ShiftBit(x))))))))
  }

  /** The register after feeding `data` in order, starting from `c`. */
  function Update(c: bv32, data: seq<bv8>): bv32
    decreases |data|
  {
    if |data| == 0 then c else FeedByte(Update(c, data[..|data| - 1]), data[|data| - 1])
  }

  /** `crc32fast::hash(data)`. */
  function Hash(data: seq<bv8>): bv32
  {
    Update(Preset, data) ^ Preset
  }

  /**
   * The register is a left fold over the message: feeding it in two pieces
   * gives the register feeding it whole.
   */
  lemma {:induction false} UpdateConcat(c: bv32, a: seq<bv8>, b: seq<bv8>)
    ensures Update(c, a + b) == Update(Update(c, a), b)
    decreases |b|
  {
    if |b| == 0 {
      assert a + b == a;
    } else {
      var ab := a + b;
      assert ab[..|ab| - 1] == a + b[..|b| - 1];
      assert ab[|ab| - 1] == b[|b| - 1];
      UpdateConcat(c, a, b[..|b| - 1]);
    }
  }

  /** The checksum of the empty message is zero. */
  lemma HashEmpty()
    ensures Hash([]) == 0
  {
  }

  /** The register after each byte of "123456789". */
  lemma CheckValueRegisters()
    ensures FeedByte(Preset, 0x31) == 0x7C23_1048
    ensures FeedByte(0x7C23_1048, 0x32) == 0xB0AC_BB32
    ensures FeedByte(0xB0AC_BB32, 0x33) == 0x77B7_9C2D
    ensures FeedByte(0x77B7_9C2D, 0x34) == 0x641C_1F5C
    ensures FeedByte(0x641C_1F5C, 0x35) == 0x340A_C5E3
    ensures FeedByte(0x340A_C5E3, 0x36) == 0xF68D_2C9E
    ensures FeedByte(0xF68D_2C9E, 0x37) == 0xAFFC_9660
    ensures FeedByte(0xAFFC_9660, 0x38) == 0x651F_2550
    ensures FeedByte(0x651F_2550, 0x39) == 0x340B_C6D9
  {
  }

  /** The standard check value: the CRC-32 of the ASCII string "123456789" is 0xCBF43926. */
  lemma CheckValue()
    ensures Hash([0x31, 0x32, 0x33, 0x34, 0x35, 0x36, 0x37, 0x38, 0x39]) == 0xCBF4_3926
  {
    CheckValueRegisters();
    var s: seq<bv8> := [];
    UpdateSnoc(Preset, s, 0x31);
    s := s + [0x31];
    assert Update(Preset, s) == 0x7C23_1048;
    UpdateSnoc(Preset, s, 0x32);
    s := s + [0x32];
    assert Update(Preset, s) == 0xB0AC_BB32;
    UpdateSnoc(Preset, s, 0x33);
    s := s + [0x33];
    assert Update(Preset, s) == 0x77B7_9C2D;
    UpdateSnoc(Preset, s, 0x34);
    s := s + [0x34];
    assert Update(Preset, s) == 0x641C_1F5C;
    UpdateSnoc(Preset, s, 0x35);
    s := s + [0x35];
    assert Update(Preset, s) == 0x340A_C5E3;
    UpdateSnoc(Preset, s, 0x36);
    s := s + [0x36];
    assert Update(Preset, s) == 0xF68D_2C9E;
    UpdateSnoc(Preset, s, 0x37);
    s := s + [0x37];
    assert Update(Preset, s) == 0xAFFC_9660;
    UpdateSnoc(Preset, s, 0x38);
    s := s + [0x38];
    assert Update(Preset, s) == 0x651F_2550;
    UpdateSnoc(Preset, s, 0x39);
    s := s + [0x39];
    assert Update(Preset, s) == 0x340B_C6D9;
    assert s == [0x31, 0x32, 0x33, 0x34, 0x35, 0x36, 0x37, 0x38, 0x39];
  }

  /** Appending one byte feeds it to the register. */
  lemma UpdateSnoc(c: bv32, a: seq<bv8>, x: bv8)
    ensures Update(c, a + [x]) == FeedByte(Update(c, a), x)
  {
    assert (a + [x])[..|a|] == a;
  }

  /** Computes the checksum with a loop over the bytes and a loop over each byte's bits. */
  method ComputeHash(data: seq<bv8>) returns (h: bv32)
    ensures h == Hash(data)
  {
    var c := Preset;
    var i := 0;
    while i < |data|
      invariant 0 <= i <= |data|
      invariant c == Update(Preset, data[..i])
    {
      var x := c ^ (data[i] as bv32);
      var k := 0;
      while k < 8
        invariant 0 <= k <= 8
        invariant FeedByte(c, data[i]) == ShiftTimes(x, 8 - k)
      {
        x := ShiftBit(x);
        k := k + 1;
      }
      assert data[..i + 1][..i] == data[..i];
      c := x;
      i := i + 1;
    }
    assert data[..|data|] == data;
    h := c ^ Preset;
  }

  /** `n` register shifts in a row. */
  function ShiftTimes(c: bv32, n: nat): bv32
    decreases n
  {
    if n == 0 then c else ShiftTimes(ShiftBit(c), n - 1)
  }
}
