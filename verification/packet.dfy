/**
 * The telemetry packet framer: fixed-layout payloads, their type
 * discriminator, and the frame `serialize` builds around them.
 *
 * Frame layout: begin marker `B0 0B`, the CRC-32 of the payload as four
 * little-endian bytes, the type byte, a one-byte length, the payload, end
 * marker `A0 0A`.
 */
module Packet {
  import opened Results
  import opened Bytes
  import Crc32

  /** The telemetry kinds. */
  datatype PacketType = Accelerometer | Test

  /** `packet_type as u8` on the `#[repr(u8)]` enum: the byte `serialize` writes. */
  function ReprByte(t: PacketType): (b: bv8)
    ensures TypeOfReprByte(b) == Some(t)
  {
    match t
    case Accelerometer => 0x01
    case Test => 0xFF
  }

  /** The packet type whose `repr` discriminant is `b`, if any. */
  function TypeOfReprByte(b: bv8): (t: Option<PacketType>)
    ensures t.Some? <==> b == 0x01 || b == 0xFF
  {
    if b == 0x01 then Some(Accelerometer)
    else if b == 0xFF then Some(Test)
    else None
  }

  /** The separate `From<PacketType> for u8` conversion, which no frame uses. */
  function IntoU8(t: PacketType): (b: bv8)
    ensures t == Test <==> b == 0xFF
  {
    match t
    case Accelerometer => 0x00
    case Test => 0xFF
  }

  /**
   * The two discriminant mappings disagree on Accelerometer (0x01 in frames,
   * 0x00 through `From`) and agree on Test.
   */
  lemma DiscriminantMappingsDisagree(t: PacketType)
    ensures ReprByte(Accelerometer) == 0x01 && IntoU8(Accelerometer) == 0x00
    ensures ReprByte(t) == IntoU8(t) <==> t == Test
  {
  }

  const BeginPacket: seq<bv8> := [0xB0, 0x0B]
  const EndPacket: seq<bv8> := [0xA0, 0x0A]

  /** Number of bytes a frame adds around its payload: markers, checksum, type and length. */
  const Overhead: nat := 10

  /** The payload types that implement `DataPacket`. */
  datatype DataPacket =
    | SixAxisImu(accX: bv16, accY: bv16, accZ: bv16, gyrX: bv16, gyrY: bv16, gyrZ: bv16)
    | TestPacket(test: bv16)

  /** `get_type`: the discriminator each payload type is registered with. */
  function GetType(p: DataPacket): PacketType
  {
    match p
    case SixAxisImu(_, _, _, _, _, _) => Accelerometer
    case TestPacket(_) => Test
  }

  /** The payload's u16 fields in declaration order. */
  function Fields(p: DataPacket): seq<bv16>
  {
    match p
    case SixAxisImu(ax, ay, az, gx, gy, gz) => [ax, ay, az, gx, gy, gz]
    case TestPacket(t) => [t]
  }

  /** Number of u16 fields each payload type declares. */
  function FieldCount(t: PacketType): nat
  {
    match t
    case Accelerometer => 6
    case Test => 1
  }

  /**
   * `into_bytes`: every field little-endian, in declaration order, with no
   * padding, so field `i` sits at bytes `2i` and `2i+1`.
   */
  function IntoBytes(p: DataPacket): (data: seq<bv8>)
    ensures |data| == 2 * FieldCount(GetType(p))
    ensures forall i :: 0 <= i < |Fields(p)| ==> FromLe16(data[2 * i..2 * i + 2]) == Fields(p)[i]
  {
    var data := Le16Seq(Fields(p));
    forall i | 0 <= i < |Fields(p)|
      ensures FromLe16(data[2 * i..2 * i + 2]) == Fields(p)[i]
    {
      Le16SeqOffsets(Fields(p), i);
    }
    data
  }

  /** Rebuilds a payload of type `t` from its packed bytes: the inverse of `IntoBytes`. */
  function FromBytes(t: PacketType, data: seq<bv8>): Option<DataPacket>
  {
    if |data| != 2 * FieldCount(t) then None
    else
      var xs := FromLe16Seq(data);
      match t
      case Accelerometer => Some(SixAxisImu(xs[0], xs[1], xs[2], xs[3], xs[4], xs[5]))
      case Test => Some(TestPacket(xs[0]))
  }

  lemma FromBytesIntoBytes(p: DataPacket)
    ensures FromBytes(GetType(p), IntoBytes(p)) == Some(p)
  {
    Le16SeqRoundTrip(Fields(p));
  }

  /**
   * The frame the `impl_packet!` `serialize` builds around packed bytes `data`
   * with type byte `tag`. The length byte is `data.len() as u8`: the length
   * modulo 256.
   */
  function Frame(tag: bv8, data: seq<bv8>): (f: seq<bv8>)
    ensures |f| == |data| + Overhead
    ensures f[..2] == BeginPacket && f[|f| - 2..] == EndPacket
    ensures FromLe32(f[2..6]) == Crc32.Hash(f[8..|f| - 2])
    ensures f[6] == tag
    ensures f[7] == (|data| % 256) as bv8
    ensures f[8..|f| - 2] == data
  {
    var crc := Le32(Crc32.Hash(data));
    var f := BeginPacket + crc + [tag] + [(|data| % 256) as bv8] + data + EndPacket;
    assert f[2..6] == crc;
    assert f[8..|f| - 2] == data;
    f
  }

  /** `serialize` on a payload. */
  function Serialize(p: DataPacket): (f: seq<bv8>)
    ensures |f| == 2 * FieldCount(GetType(p)) + Overhead
    ensures f[6] == ReprByte(GetType(p))
    ensures f[7] == (2 * FieldCount(GetType(p))) as bv8
    ensures f[8..|f| - 2] == IntoBytes(p)
  {
    var data := IntoBytes(p);
    var f := Frame(ReprByte(GetType(p)), data);
    assert |data| < 256;
    f
  }

  /**
   * The `Vec::with_capacity(data.len() + 11)` reservation is one byte larger
   * than the frame ever gets.
   */
  lemma CapacityHintOneSpare(tag: bv8, data: seq<bv8>)
    ensures |Frame(tag, data)| + 1 == |data| + 11
  {
  }

  /**
   * Reference reading of a frame: check both markers, that the length byte
   * matches the payload, and that the checksum matches; return the type byte
   * and payload.
   */
  function ParseFrame(f: seq<bv8>): Option<(bv8, seq<bv8>)>
  {
    if |f| < Overhead then None
    else if f[..2] != BeginPacket || f[|f| - 2..] != EndPacket then None
    else if |f| - Overhead > 255 || f[7] != (|f| - Overhead) as bv8 then None
    else if FromLe32(f[2..6]) != Crc32.Hash(f[8..|f| - 2]) then None
    else Some((f[6], f[8..|f| - 2]))
  }

  /**
   * A frame reads back as its type byte and payload exactly when the payload
   * fits the one-byte length field; from 256 bytes on the length byte
   * truncates and no longer describes the payload.
   */
  lemma FrameRoundTrip(tag: bv8, data: seq<bv8>)
    ensures ParseFrame(Frame(tag, data)) == Some((tag, data)) <==> |data| <= 255
  {
  }

  /** Reads a frame back to a payload. */
  function Decode(f: seq<bv8>): Option<DataPacket>
  {
    match ParseFrame(f)
    case None => None
    case Some((tag, data)) =>
      match TypeOfReprByte(tag)
      case None => None
      case Some(t) => FromBytes(t, data)
  }

  /** Every serialized payload decodes back to itself. */
  lemma SerializeRoundTrip(p: DataPacket)
    ensures Decode(Serialize(p)) == Some(p)
  {
    FrameRoundTrip(ReprByte(GetType(p)), IntoBytes(p));
    FromBytesIntoBytes(p);
  }

  /** Frames differ whenever payloads differ: `serialize` is injective. */
  lemma SerializeInjective(p: DataPacket, q: DataPacket)
    ensures Serialize(p) == Serialize(q) ==> p == q
  {
    SerializeRoundTrip(p);
    SerializeRoundTrip(q);
  }

  /**
   * A six-axis frame is 22 bytes: type 0x01, length 12; a test frame is 12
   * bytes: type 0xFF, length 2. Neither length byte truncates.
   */
  lemma SixAxisFrameShape(p: DataPacket)
    requires p.SixAxisImu?
    ensures |Serialize(p)| == 22 && Serialize(p)[6] == 0x01 && Serialize(p)[7] == 12
  {
  }

  lemma TestFrameShape(t: bv16)
    ensures |Serialize(TestPacket(t))| == 12 && Serialize(TestPacket(t))[6] == 0xFF && Serialize(TestPacket(t))[7] == 2
  {
  }

  /** `TestPacket { test: 0x080F }` packs to `0F 08`. */
  lemma TestPacketBytes()
    ensures IntoBytes(TestPacket(0x080F)) == [0x0F, 0x08]
  {
  }

  /** The complete frame for `TestPacket { test: 0x080F }`; its checksum is 0xC89A8602. */
  lemma TestPacketFrame()
    ensures Serialize(TestPacket(0x080F))
         == [0xB0, 0x0B, 0x02, 0x86, 0x9A, 0xC8, 0xFF, 0x02, 0x0F, 0x08, 0xA0, 0x0A]
  {
    var data: seq<bv8> := [0x0F, 0x08];
    assert IntoBytes(TestPacket(0x080F)) == data;
    assert Crc32.FeedByte(Crc32.Preset, 0x0F) == 0xBD42_0DE3;
    assert Crc32.FeedByte(0xBD42_0DE3, 0x08) == 0x3765_79FD;
    Crc32.UpdateSnoc(Crc32.Preset, [], 0x0F);
    Crc32.UpdateSnoc(Crc32.Preset, [0x0F], 0x08);
    assert [0x0F] + [0x08] == data;
    assert Crc32.Hash(data) == 0xC89A_8602;
  }

  /**
   * The bytes the unit test expects (old markers `1F 2F` / `3F 4F`, no
   * checksum) are not the frame `serialize` produces; only the type, length and
   * payload bytes still agree with it.
   */
  lemma StaleTestVector(t: bv16)
    ensures var expected: seq<bv8> := [0x1F, 0x2F, 0xFF, 0x02, 0x0F, 0x08, 0x3F, 0x4F];
            && Serialize(TestPacket(t)) != expected
            && (t == 0x080F ==> Serialize(TestPacket(t))[6..10] == expected[2..6])
  {
    var f := Serialize(TestPacket(t));
    assert |f| == 12;
    if t == 0x080F {
      TestPacketBytes();
      assert f[6..10] == [f[6], f[7]] + f[8..10];
    }
  }
}
