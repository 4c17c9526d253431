/**
 * The four one-byte registers of the PCA9557 8-bit IO expander. Each holds
 * an array of eight one-bit pin fields read msb0: `pins[0]` is bit 7 of the
 * register byte and `pins[7]` is bit 0.
 */
module Pca9557Registers {
  import opened Results
  import opened Bitfield
  import opened Layout
  import opened CommonEnums

  /** Whether a pin's input is inverted. */
  datatype Polarity = Inverted | Original

  /** The `#[default]` polarity. */
  const DefaultPolarity: Polarity := Inverted

  /** Inverted = 1, Original = 0. */
  function PolarityBit(p: Polarity): (b: bv1)
    ensures PolarityOfBit(b) == p
  {
    match p
    case Inverted => 1
    case Original => 0
  }

  /** Both bit values name a polarity, so decoding never fails. */
  function PolarityOfBit(b: bv1): (p: Polarity)
    ensures p == Inverted <==> b == 1
  {
    if b == 1 then Inverted else Original
  }

  /** Whether a pin is an input or an output. */
  datatype IoDirection = Input | Output

  /** The `#[default]` direction. */
  const DefaultDirection: IoDirection := Input

  /** Input = 1, Output = 0. */
  function DirectionBit(d: IoDirection): (b: bv1)
    ensures DirectionOfBit(b) == d
  {
    match d
    case Input => 1
    case Output => 0
  }

  /** Both bit values name a direction, so decoding never fails. */
  function DirectionOfBit(b: bv1): (d: IoDirection)
    ensures d == Input <==> b == 1
  {
    if b == 1 then Input else Output
  }

  /** Every bit decodes to a polarity and a direction that encode back to it. */
  lemma PinEncodingsBijective(b: bv1)
    ensures PolarityBit(PolarityOfBit(b)) == b
    ensures DirectionBit(DirectionOfBit(b)) == b
  {
  }

  datatype Register = InputPort | OutputPort | PolarityInversion | Configuration

  function Address(r: Register): bv8
  {
    match r
    case InputPort => 0x00
    case OutputPort => 0x01
    case PolarityInversion => 0x02
    case Configuration => 0x03
  }

  function AccessOf(r: Register): Access
  {
    if r == InputPort then ReadOnly else ReadWrite
  }

  /** The declared `default_endianness`: only the polarity register says "le". */
  function DeclaredOrder(r: Register): ByteOrder
  {
    if r == PolarityInversion then LittleEndian else BigEndian
  }

  /** The register, if any, at a bus address. */
  function RegisterAt(a: bv8): (r: Option<Register>)
    ensures r.Some? <==> a <= 3
    ensures r.Some? ==> Address(r.value) == a
  {
    if a == 0x00 then Some(InputPort)
    else if a == 0x01 then Some(OutputPort)
    else if a == 0x02 then Some(PolarityInversion)
    else if a == 0x03 then Some(Configuration)
    else None
  }

  /** Addresses 0x00 to 0x03 name distinct registers, and only the input port is read-only. */
  lemma RegisterTable(r: Register)
    ensures RegisterAt(Address(r)) == Some(r)
    ensures AccessOf(r) == ReadOnly <==> r == InputPort
  {
  }

  /** Pin array field: eight one-bit fields, msb0, filling the byte. */
  const PinWidths: seq<nat> := [1, 1, 1, 1, 1, 1, 1, 1]

  /** Pin `i` of the msb0 layout is the one-bit field at bit `7 - i`. */
  lemma PinLayout()
    ensures Sum(PinWidths) == 8
    ensures forall i :: 0 <= i < 8 ==> Msb0Layout(PinWidths, 8)[i] == Span(7 - i, 1)
  {
    OnesLayout(PinWidths);
  }

  /** The one-bit field of each pin in array order: `pins[i]` is bit `7 - i`. */
  const PinFields: seq<Field> :=
    [Field(7, 1), Field(6, 1), Field(5, 1), Field(4, 1), Field(3, 1), Field(2, 1), Field(1, 1), Field(0, 1)]

  /** Bit `i` of a byte, bit 0 least significant. */
  function BitOf(b: bv8, i: bv8): bv1
    requires i < 8
  {
    ((b >> i) & 1) as bv1
  }

  /** `read_pins`: the pin bits in array order, `pins[0]` from bit 7. */
  function ReadPins(b: bv8): (pins: seq<bv1>)
    ensures |pins| == 8
    ensures pins[0] == BitOf(b, 7) && pins[7] == BitOf(b, 0)
  {
    [BitOf(b, 7), BitOf(b, 6), BitOf(b, 5), BitOf(b, 4), BitOf(b, 3), BitOf(b, 2), BitOf(b, 1), BitOf(b, 0)]
  }

  /**
   * `write_pins`: the eight fields cover the whole byte, so the result does not
   * depend on the previous contents; reading the pins back gives the array.
   */
  function WritePins(pins: seq<bv1>): (b: bv8)
    requires |pins| == 8
    ensures ReadPins(b) == pins
  {
    (pins[0] as bv8 << 7) | (pins[1] as bv8 << 6) | (pins[2] as bv8 << 5) | (pins[3] as bv8 << 4)
    | (pins[4] as bv8 << 3) | (pins[5] as bv8 << 2) | (pins[6] as bv8 << 1) | (pins[7] as bv8)
  }

  /** Pin field `i` sits where the msb0 layout places declared pin `i`. */
  lemma PinFieldsPlaced()
    ensures |PinFields| == 8
    ensures forall i :: 0 <= i < 8 ==> Msb0Layout(PinWidths, 8)[i] == SpanOf(PinFields[i])
  {
    PinLayout();
  }

  /** `ReadPins` reads, at index `i`, pin field `i`. */
  lemma PinFieldsRead(b: bv8)
    ensures forall i :: 0 <= i < 8 ==> Fits(PinFields[i]) && ReadPins(b)[i] as bv8 == Get(b, PinFields[i])
  {
    forall i | 0 <= i < 8
      ensures Fits(PinFields[i]) && ReadPins(b)[i] as bv8 == Get(b, PinFields[i])
    {
      PinFieldRead(b, i);
    }
  }

  /** One pin of `PinFieldsRead`: pin `i` sits at bit `7 - i`. */
  lemma PinFieldRead(b: bv8, i: int)
    requires 0 <= i < 8
    ensures Fits(PinFields[i]) && ReadPins(b)[i] as bv8 == Get(b, PinFields[i])
  {
    var k := (7 - i) as bv8;
    assert PinFields[i] == Field(k, 1);
    assert ReadPins(b)[i] == BitOf(b, k);
    BitOfIsField(b, k);
  }

  /** Bit `i` is the one-bit field at shift `i`. */
  lemma BitOfIsField(b: bv8, i: bv8)
    requires i < 8
    ensures Fits(Field(i, 1)) && BitOf(b, i) as bv8 == Get(b, Field(i, 1))
  {
  }

  /**
   * The declared byte order, the polarity register's "le" included, leaves a
   * one-byte register as it is, so all four registers share one pin mapping.
   */
  lemma DeclaredOrderKeepsPins(r: Register, b: bv8)
    ensures InBusOrder([b], DeclaredOrder(r)) == [b]
    ensures ReadPins(InBusOrder([b], DeclaredOrder(r))[0]) == ReadPins(b)
  {
    OneByteOrderIrrelevant([b], DeclaredOrder(r));
  }

  /** Every byte is written by the pins read out of it: the pin array and the byte are in bijection. */
  lemma WriteReadPins(b: bv8)
    ensures WritePins(ReadPins(b)) == b
  {
  }

  /** `InputPort` / `OutputPort` pins as logic levels. */
  function ReadLevels(b: bv8): (pins: seq<LogicLevel>)
    ensures |pins| == 8
    ensures forall i :: 0 <= i < 8 ==> LevelBit(pins[i]) == ReadPins(b)[i]
  {
    var bits := ReadPins(b);
    seq(8, i requires 0 <= i < 8 => LevelOfBit(bits[i]))
  }

  function WriteLevels(pins: seq<LogicLevel>): (b: bv8)
    requires |pins| == 8
    ensures ReadLevels(b) == pins
  {
    var bits := seq(8, i requires 0 <= i < 8 => LevelBit(pins[i]));
    assert ReadPins(WritePins(bits)) == bits;
    WritePins(bits)
  }

  /** `PolarityInversion` pins. */
  function ReadPolarities(b: bv8): (pins: seq<Polarity>)
    ensures |pins| == 8
    ensures forall i :: 0 <= i < 8 ==> PolarityBit(pins[i]) == ReadPins(b)[i]
  {
    var bits := ReadPins(b);
    seq(8, i requires 0 <= i < 8 => PolarityOfBit(bits[i]))
  }

  function WritePolarities(pins: seq<Polarity>): (b: bv8)
    requires |pins| == 8
    ensures ReadPolarities(b) == pins
  {
    var bits := seq(8, i requires 0 <= i < 8 => PolarityBit(pins[i]));
    assert ReadPins(WritePins(bits)) == bits;
    WritePins(bits)
  }

  /** `Configuration` pins. */
  function ReadDirections(b: bv8): (pins: seq<IoDirection>)
    ensures |pins| == 8
    ensures forall i :: 0 <= i < 8 ==> DirectionBit(pins[i]) == ReadPins(b)[i]
  {
    var bits := ReadPins(b);
    seq(8, i requires 0 <= i < 8 => DirectionOfBit(bits[i]))
  }

  function WriteDirections(pins: seq<IoDirection>): (b: bv8)
    requires |pins| == 8
    ensures ReadDirections(b) == pins
  {
    var bits := seq(8, i requires 0 <= i < 8 => DirectionBit(pins[i]));
    assert ReadPins(WritePins(bits)) == bits;
    WritePins(bits)
  }

  /**
   * The register value built from every pin's `#[default]` variant, as
   * `default()` produces it: levels Low, polarities Inverted, directions Input.
   */
  function DefaultByte(r: Register): (b: bv8)
    ensures r == PolarityInversion ==> ReadPolarities(b) == seq(8, _ => DefaultPolarity)
    ensures r == Configuration ==> ReadDirections(b) == seq(8, _ => DefaultDirection)
    ensures r in {InputPort, OutputPort} ==> ReadLevels(b) == seq(8, _ => DefaultLevel)
  {
    match r
    case InputPort => WriteLevels(seq(8, _ => DefaultLevel))
    case OutputPort => WriteLevels(seq(8, _ => DefaultLevel))
    case PolarityInversion => WritePolarities(seq(8, _ => DefaultPolarity))
    case Configuration => WriteDirections(seq(8, _ => DefaultDirection))
  }
}
