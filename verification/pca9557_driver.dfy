/**
 * The pure half of the PCA9557 driver. A getter turns the register byte it
 * read into a pin array as is; a setter reverses the caller's array (so
 * that caller index `i` is chip pin `i`, the register's bit `i`), reads the
 * register, overwrites all eight pins and writes the byte back. Bus
 * transfers are abstract: reads come from a `RegisterFile`, and a setter's
 * effect is a `Step` that `Apply` performs on it.
 */
module Pca9557Driver {
  import opened Results
  import opened CommonEnums
  import opened Pca9557Registers

  /** `<[T]>::reverse`. */
  function Reverse<T>(s: seq<T>): (r: seq<T>)
    ensures |r| == |s|
    ensures forall i :: 0 <= i < |s| ==> r[i] == s[|s| - 1 - i]
    decreases |s|
  {
    if |s| == 0 then [] else Reverse(s[1..]) + [s[0]]
  }

  lemma ReverseEight<T>(a0: T, a1: T, a2: T, a3: T, a4: T, a5: T, a6: T, a7: T)
    ensures Reverse([a0, a1, a2, a3, a4, a5, a6, a7]) == [a7, a6, a5, a4, a3, a2, a1, a0]
  {
    var s := [a0, a1, a2, a3, a4, a5, a6, a7];
    var r := Reverse(s);
    assert r[0] == a7 && r[1] == a6 && r[2] == a5 && r[3] == a4;
    assert r[4] == a3 && r[5] == a2 && r[6] == a1 && r[7] == a0;
  }

  /** The register's bits by chip pin number: entry `i` is bit `i`, pin 0 the least significant bit. */
  function ChipBits(b: bv8): (bits: seq<bv1>)
    ensures |bits| == 8 && bits == Reverse(ReadPins(b))
  {
    var bits := [BitOf(b, 0), BitOf(b, 1), BitOf(b, 2), BitOf(b, 3), BitOf(b, 4), BitOf(b, 5), BitOf(b, 6), BitOf(b, 7)];
    ReverseEight(BitOf(b, 7), BitOf(b, 6), BitOf(b, 5), BitOf(b, 4), BitOf(b, 3), BitOf(b, 2), BitOf(b, 1), BitOf(b, 0));
    var reversed := Reverse(ReadPins(b));
    assert bits == reversed;
    bits
  }

  /** The byte that puts caller pin `i` in chip bit `i`: the array reversed, then `write_pins`. */
  function ChipLevels(input: seq<LogicLevel>): (b: bv8)
    requires |input| == 8
    ensures forall i :: 0 <= i < 8 ==> ChipBits(b)[i] == LevelBit(input[i])
  {
    var b := WriteLevels(Reverse(input));
    assert ReadLevels(b) == Reverse(input);
    b
  }

  function ChipPolarities(input: seq<Polarity>): (b: bv8)
    requires |input| == 8
    ensures forall i :: 0 <= i < 8 ==> ChipBits(b)[i] == PolarityBit(input[i])
  {
    var b := WritePolarities(Reverse(input));
    assert ReadPolarities(b) == Reverse(input);
    b
  }

  function ChipDirections(input: seq<IoDirection>): (b: bv8)
    requires |input| == 8
    ensures forall i :: 0 <= i < 8 ==> ChipBits(b)[i] == DirectionBit(input[i])
  {
    var b := WriteDirections(Reverse(input));
    assert ReadDirections(b) == Reverse(input);
    b
  }

  /** `get_input_port`: reads address 0x00. */
  function GetInputPort(regs: RegisterFile): (r: Result<seq<LogicLevel>>)
    ensures regs(Address(InputPort)).Err? ==> r == Err(regs(Address(InputPort)).error)
    ensures regs(Address(InputPort)).Ok? ==> r.Ok? && |r.value| == 8 && WriteLevels(r.value) == regs(Address(InputPort)).value
  {
    match regs(Address(InputPort))
    case Err(e) => Err(e)
    case Ok(b) => Ok(ReadLevels(b))
  }

  /** `get_output_port`: reads address 0x01. */
  function GetOutputPort(regs: RegisterFile): (r: Result<seq<LogicLevel>>)
    ensures regs(Address(OutputPort)).Err? ==> r == Err(regs(Address(OutputPort)).error)
    ensures regs(Address(OutputPort)).Ok? ==> r.Ok? && |r.value| == 8 && WriteLevels(r.value) == regs(Address(OutputPort)).value
  {
    match regs(Address(OutputPort))
    case Err(e) => Err(e)
    case Ok(b) => Ok(ReadLevels(b))
  }

  /** `get_polarity`: reads address 0x02. */
  function GetPolarity(regs: RegisterFile): (r: Result<seq<Polarity>>)
    ensures regs(Address(PolarityInversion)).Err? ==> r == Err(regs(Address(PolarityInversion)).error)
    ensures regs(Address(PolarityInversion)).Ok? ==> r.Ok? && |r.value| == 8 && WritePolarities(r.value) == regs(Address(PolarityInversion)).value
  {
    match regs(Address(PolarityInversion))
    case Err(e) => Err(e)
    case Ok(b) => Ok(ReadPolarities(b))
  }

  /** `get_configuration`: reads address 0x03. */
  function GetConfiguration(regs: RegisterFile): (r: Result<seq<IoDirection>>)
    ensures regs(Address(Configuration)).Err? ==> r == Err(regs(Address(Configuration)).error)
    ensures regs(Address(Configuration)).Ok? ==> r.Ok? && |r.value| == 8 && WriteDirections(r.value) == regs(Address(Configuration)).value
  {
    match regs(Address(Configuration))
    case Err(e) => Err(e)
    case Ok(b) => Ok(ReadDirections(b))
  }

  /**
   * `set_output_port`: reads the output port at 0x01; a failed read issues no
   * write; otherwise 0x01 is written with caller pin `i` in bit `i`.
   */
  function SetOutputPort(regs: RegisterFile, input: seq<LogicLevel>): (s: Step)
    requires |input| == 8
    ensures regs(Address(OutputPort)).Err? ==> s == Abort(regs(Address(OutputPort)).error)
    ensures regs(Address(OutputPort)).Ok? ==> s.Write? && s.address == Address(OutputPort)
    ensures s.Write? ==> forall i :: 0 <= i < 8 ==> ChipBits(s.value)[i] == LevelBit(input[i])
  {
    match regs(Address(OutputPort))
    case Err(e) => Abort(e)
    case Ok(_) => Write(Address(OutputPort), ChipLevels(input))
  }

  /** `set_polarity`: reads and writes the polarity inversion register at 0x02. */
  function SetPolarity(regs: RegisterFile, input: seq<Polarity>): (s: Step)
    requires |input| == 8
    ensures regs(Address(PolarityInversion)).Err? ==> s == Abort(regs(Address(PolarityInversion)).error)
    ensures regs(Address(PolarityInversion)).Ok? ==> s.Write? && s.address == Address(PolarityInversion)
    ensures s.Write? ==> forall i :: 0 <= i < 8 ==> ChipBits(s.value)[i] == PolarityBit(input[i])
  {
    match regs(Address(PolarityInversion))
    case Err(e) => Abort(e)
    case Ok(_) => Write(Address(PolarityInversion), ChipPolarities(input))
  }

  /** `set_configuration`: reads and writes the configuration register at 0x03. */
  function SetConfiguration(regs: RegisterFile, input: seq<IoDirection>): (s: Step)
    requires |input| == 8
    ensures regs(Address(Configuration)).Err? ==> s == Abort(regs(Address(Configuration)).error)
    ensures regs(Address(Configuration)).Ok? ==> s.Write? && s.address == Address(Configuration)
    ensures s.Write? ==> forall i :: 0 <= i < 8 ==> ChipBits(s.value)[i] == DirectionBit(input[i])
  {
    match regs(Address(Configuration))
    case Err(e) => Abort(e)
    case Ok(_) => Write(Address(Configuration), ChipDirections(input))
  }

  /**
   * The byte a setter writes does not depend on the byte it read: any two
   * register files whose read succeeds give the same step.
   */
  lemma SettersOverwriteAllPins(regs1: RegisterFile, regs2: RegisterFile, levels: seq<LogicLevel>,
                                polarities: seq<Polarity>, directions: seq<IoDirection>)
    requires |levels| == 8 && |polarities| == 8 && |directions| == 8
    ensures regs1(Address(OutputPort)).Ok? && regs2(Address(OutputPort)).Ok? ==> SetOutputPort(regs1, levels) == SetOutputPort(regs2, levels)
    ensures regs1(Address(PolarityInversion)).Ok? && regs2(Address(PolarityInversion)).Ok? ==> SetPolarity(regs1, polarities) == SetPolarity(regs2, polarities)
    ensures regs1(Address(Configuration)).Ok? && regs2(Address(Configuration)).Ok? ==> SetConfiguration(regs1, directions) == SetConfiguration(regs2, directions)
  {
  }

  /**
   * Getters do not undo the setters' reversal: after a setter's step, the
   * matching getter returns the caller's array reversed, and every other
   * address reads as before.
   */
  lemma GetAfterSet(regs: RegisterFile, levels: seq<LogicLevel>, polarities: seq<Polarity>, directions: seq<IoDirection>)
    requires |levels| == 8 && |polarities| == 8 && |directions| == 8
    ensures regs(Address(OutputPort)).Ok? ==> GetOutputPort(Apply(regs, SetOutputPort(regs, levels))) == Ok(Reverse(levels))
    ensures regs(Address(PolarityInversion)).Ok? ==> GetPolarity(Apply(regs, SetPolarity(regs, polarities))) == Ok(Reverse(polarities))
    ensures regs(Address(Configuration)).Ok? ==> GetConfiguration(Apply(regs, SetConfiguration(regs, directions))) == Ok(Reverse(directions))
    ensures forall a: bv8 :: a != 0x01 ==> Apply(regs, SetOutputPort(regs, levels))(a) == regs(a)
  {
  }

  /**
   * The driver's unit test: start from the default polarity register, set
   * pins 0 to 3 to Original, reverse and write; the byte is 0b1111_0000.
   */
  lemma InversionRegisterTest(regs: RegisterFile)
    ensures var pins := ReadPolarities(DefaultByte(PolarityInversion));
            var edited := pins[0 := Original][1 := Original][2 := Original][3 := Original];
            && edited == [Original, Original, Original, Original, Inverted, Inverted, Inverted, Inverted]
            && WritePolarities(Reverse(edited)) == 0xF0
            && (regs(Address(PolarityInversion)).Ok? ==> SetPolarity(regs, edited) == Write(0x02, 0xF0))
  {
    var pins := ReadPolarities(DefaultByte(PolarityInversion));
    var edited := pins[0 := Original][1 := Original][2 := Original][3 := Original];
    assert edited == [Original, Original, Original, Original, Inverted, Inverted, Inverted, Inverted];
    var reversed := Reverse(edited);
    assert reversed == [Inverted, Inverted, Inverted, Inverted, Original, Original, Original, Original];
    assert ReadPolarities(0xF0) == reversed;
    assert WritePolarities(ReadPolarities(0xF0)) == 0xF0 by {
      WriteReadPins(0xF0);
    }
  }
}
