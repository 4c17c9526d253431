/**
 * Field encodings of the BMP390 registers. Decoding returns `None` for a
 * field value that no variant declares.
 */
module Bmp390Enums {
  import opened Results

  /** Whether the interrupt pin is open drain or push-pull (one bit). */
  datatype InterruptOutput = OpenDrain | PushPull

  const DefaultInterruptOutput: InterruptOutput := PushPull

  /** OpenDrain = 1, PushPull = 0. */
  function InterruptOutputBits(o: InterruptOutput): (v: bv8)
    ensures InterruptOutputOf(v) == Some(o)
  {
    match o
    case OpenDrain => 1
    case PushPull => 0
  }

  /** Both values of the one-bit field are declared, so decoding a bit never fails. */
  function InterruptOutputOf(v: bv8): (o: Option<InterruptOutput>)
    ensures o.Some? <==> v <= 1
  {
    if v == 1 then Some(OpenDrain) else if v == 0 then Some(PushPull) else None
  }

  /** Sensor power mode (two-bit `mode` field). */
  datatype PowerMode = Sleep | Forced | Normal

  const DefaultPowerMode: PowerMode := Normal

  /** Sleep = 0b00, Forced = 0b01, Normal = 0b11. */
  function PowerModeBits(m: PowerMode): (v: bv8)
    ensures v < 4
    ensures PowerModeOf(v) == Some(m)
  {
    match m
    case Sleep => 0
    case Forced => 1
    case Normal => 3
  }

  /** No variant is declared for 0b10: decoding the two-bit field is partial. */
  function PowerModeOf(v: bv8): (m: Option<PowerMode>)
    ensures v < 4 ==> (m.None? <==> v == 2)
    ensures m.Some? ==> v < 4
  {
    if v == 0 then Some(Sleep)
    else if v == 1 then Some(Forced)
    else if v == 3 then Some(Normal)
    else None
  }

  /** Oversampling factor (three-bit fields). */
  datatype OversamplingSetting = X1 | X2 | X4 | X8 | X16 | X32

  const DefaultOversampling: OversamplingSetting := X1

  /** X1 .. X32 are 0 .. 5. */
  function OversamplingBits(s: OversamplingSetting): (v: bv8)
    ensures v < 6
    ensures OversamplingOf(v) == Some(s)
  {
    match s
    case X1 => 0
    case X2 => 1
    case X4 => 2
    case X8 => 3
    case X16 => 4
    case X32 => 5
  }

  /** 6 and 7 fit the three-bit field but have no variant. */
  function OversamplingOf(v: bv8): (s: Option<OversamplingSetting>)
    ensures v < 8 ==> (s.None? <==> v == 6 || v == 7)
    ensures s.Some? ==> v < 6
  {
    if v == 0 then Some(X1)
    else if v == 1 then Some(X2)
    else if v == 2 then Some(X4)
    else if v == 3 then Some(X8)
    else if v == 4 then Some(X16)
    else if v == 5 then Some(X32)
    else None
  }

  /** IIR filter coefficient (three-bit field). */
  datatype IirFilter = Coeff0 | Coeff1 | Coeff3 | Coeff7 | Coeff15 | Coeff31 | Coeff63 | Coeff127

  const DefaultIirFilter: IirFilter := Coeff0

  /** Coeff0 .. Coeff127 are 0 .. 7. */
  function IirFilterBits(c: IirFilter): (v: bv8)
    ensures v < 8
    ensures IirFilterOf(v) == Some(c)
  {
    match c
    case Coeff0 => 0
    case Coeff1 => 1
    case Coeff3 => 2
    case Coeff7 => 3
    case Coeff15 => 4
    case Coeff31 => 5
    case Coeff63 => 6
    case Coeff127 => 7
  }

  /** All eight three-bit values are declared: the encoding is a bijection onto 0 .. 7. */
  function IirFilterOf(v: bv8): (c: Option<IirFilter>)
    ensures c.Some? <==> v < 8
  {
    if v == 0 then Some(Coeff0)
    else if v == 1 then Some(Coeff1)
    else if v == 2 then Some(Coeff3)
    else if v == 3 then Some(Coeff7)
    else if v == 4 then Some(Coeff15)
    else if v == 5 then Some(Coeff31)
    else if v == 6 then Some(Coeff63)
    else if v == 7 then Some(Coeff127)
    else None
  }

  /** Every declared field value decodes to the variant that encodes to it. */
  lemma DecodeThenEncode(v: bv8)
    ensures InterruptOutputOf(v).Some? ==> InterruptOutputBits(InterruptOutputOf(v).value) == v
    ensures PowerModeOf(v).Some? ==> PowerModeBits(PowerModeOf(v).value) == v
    ensures OversamplingOf(v).Some? ==> OversamplingBits(OversamplingOf(v).value) == v
    ensures IirFilterOf(v).Some? ==> IirFilterBits(IirFilterOf(v).value) == v
  {
  }

  /** The `#[default]` variants and their encodings. */
  lemma Defaults()
    ensures DefaultPowerMode == Normal && PowerModeBits(DefaultPowerMode) == 3
    ensures DefaultOversampling == X1 && OversamplingBits(DefaultOversampling) == 0
    ensures DefaultIirFilter == Coeff0 && IirFilterBits(DefaultIirFilter) == 0
    ensures DefaultInterruptOutput == PushPull && InterruptOutputBits(DefaultInterruptOutput) == 0
  {
  }
}
