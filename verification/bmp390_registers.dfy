/**
 * The BMP390 register map: address, access mode, size, and the widths of
 * the declared fields (reserved fields included) in declaration order. For
 * the one-byte registers the driver writes, the msb0 placement of each field.
 */
module Bmp390Registers {
  import opened Results
  import opened Bitfield
  import opened Layout

  datatype Register =
    | ChipId | Revision | Error | Status | Pressure | Temperature | BurstRead | SensorTime
    | Event | InterruptStatus | FifoLength | FifoData | FifoWatermark | FifoConfig1 | FifoConfig2
    | InterruptControl | IfConf | PowerControl | Oversampling | OutputDataRate
    | IirFilterConfiguration | Command | CalibrationCoefficients

  /** The address each register is declared at; `Status` repeats the address of `Error`. */
  function DeclaredAddress(r: Register): bv8
  {
    match r
    case ChipId => 0x00
    case Revision => 0x01
    case Error => 0x02
    case Status => 0x02
    case Pressure => 0x04
    case Temperature => 0x07
    case BurstRead => 0x04
    case SensorTime => 0x0C
    case Event => 0x10
    case InterruptStatus => 0x11
    case FifoLength => 0x12
    case FifoData => 0x14
    case FifoWatermark => 0x15
    case FifoConfig1 => 0x17
    case FifoConfig2 => 0x18
    case InterruptControl => 0x19
    case IfConf => 0x1A
    case PowerControl => 0x1B
    case Oversampling => 0x1C
    case OutputDataRate => 0x1D
    case IirFilterConfiguration => 0x1F
    case Command => 0x7E
    case CalibrationCoefficients => 0x31
  }

  /** Reading `Status` reads the byte at 0x02, which the same map declares as `Error`. */
  lemma StatusSharesErrorAddress()
    ensures Status != Error && DeclaredAddress(Status) == DeclaredAddress(Error)
  {
  }

  /** The register map with `Status` at 0x03, the free address after `Error`. */
  function Address(r: Register): (a: bv8)
    ensures r != BurstRead ==> RegisterAt(a) == Some(r)
    ensures r == BurstRead ==> a == 0x04 && RegisterAt(a) == Some(Pressure)
  {
    if r == Status then 0x03 else DeclaredAddress(r)
  }

  /** The register starting at an address; the burst read starts at the pressure register. */
  function RegisterAt(a: bv8): Option<Register>
  {
    if a == 0x00 then Some(ChipId)
    else if a == 0x01 then Some(Revision)
    else if a == 0x02 then Some(Error)
    else if a == 0x03 then Some(Status)
    else if a == 0x04 then Some(Pressure)
    else if a == 0x07 then Some(Temperature)
    else if a == 0x0C then Some(SensorTime)
    else if a == 0x10 then Some(Event)
    else if a == 0x11 then Some(InterruptStatus)
    else if a == 0x12 then Some(FifoLength)
    else if a == 0x14 then Some(FifoData)
    else if a == 0x15 then Some(FifoWatermark)
    else if a == 0x17 then Some(FifoConfig1)
    else if a == 0x18 then Some(FifoConfig2)
    else if a == 0x19 then Some(InterruptControl)
    else if a == 0x1A then Some(IfConf)
    else if a == 0x1B then Some(PowerControl)
    else if a == 0x1C then Some(Oversampling)
    else if a == 0x1D then Some(OutputDataRate)
    else if a == 0x1F then Some(IirFilterConfiguration)
    else if a == 0x31 then Some(CalibrationCoefficients)
    else if a == 0x7E then Some(Command)
    else None
  }

  /** With `Status` moved, no two registers other than the burst read share an address. */
  lemma AddressesDistinct(r1: Register, r2: Register)
    requires r1 != BurstRead && r2 != BurstRead
    ensures Address(r1) == Address(r2) ==> r1 == r2
  {
  }

  function AccessOf(r: Register): Access
  {
    match r
    case FifoWatermark => ReadWrite
    case FifoConfig1 => ReadWrite
    case FifoConfig2 => ReadWrite
    case InterruptControl => ReadWrite
    case IfConf => ReadWrite
    case PowerControl => ReadWrite
    case Oversampling => ReadWrite
    case OutputDataRate => ReadWrite
    case IirFilterConfiguration => ReadWrite
    case Command => WriteOnly
    case _ => ReadOnly
  }

  /** `enforce_bytes`: the register's size in bytes. */
  function EnforceBytes(r: Register): nat
  {
    match r
    case Pressure => 3
    case Temperature => 3
    case SensorTime => 3
    case BurstRead => 6
    case FifoLength => 2
    case FifoWatermark => 2
    case CalibrationCoefficients => 21
    case _ => 1
  }

  /** Bit widths of the declared fields, reserved ones included, in declaration order. */
  function FieldWidths(r: Register): seq<nat>
  {
    match r
    case ChipId => [8]
    case Revision => [8]
    case Error => [5, 1, 1, 1]
    case Status => [1, 1, 1, 1, 4]
    case Pressure => [24]
    case Temperature => [24]
    case BurstRead => [24, 24]
    case SensorTime => [24]
    case Event => [6, 1, 1]
    case InterruptStatus => [4, 1, 1, 1, 1]
    case FifoLength => [16]
    case FifoData => [8]
    case FifoWatermark => [9, 7]
    case FifoConfig1 => [3, 1, 1, 1, 1, 1]
    case FifoConfig2 => [3, 2, 3]
    case InterruptControl => [1, 1, 1, 1, 1, 1, 1, 1]
    case IfConf => [5, 1, 1, 1]
    case PowerControl => [2, 2, 2, 1, 1]
    case Oversampling => [2, 3, 3]
    case OutputDataRate => [3, 5]
    case IirFilterConfiguration => [4, 3, 1]
    case Command => [8]
    case CalibrationCoefficients => TemperatureCoefficientWidths + PressureCoefficientWidths
  }

  /** `par_t1` u16, `par_t2` u16, `par_t3` i8. */
  const TemperatureCoefficientWidths: seq<nat> := [16, 16, 8]

  /** `par_p1` i16 to `par_p11` i8, in declaration order. */
  const PressureCoefficientWidths: seq<nat> := [16, 16, 8, 8, 16, 16, 8, 8, 16, 8, 8]

  /** Every register's fields exactly fill its `enforce_bytes`. */
  lemma WidthsFillRegister(r: Register)
    ensures Sum(FieldWidths(r)) == 8 * EnforceBytes(r)
  {
    match r {
      case ChipId =>
        assert Sum([8]) == 8;
      case Revision =>
        assert Sum([8]) == 8;
      case Error =>
        assert Sum([5, 1, 1, 1]) == 8;
      case Status =>
        assert Sum([1, 1, 1, 1, 4]) == 8;
      case Pressure =>
        assert Sum([24]) == 24;
      case Temperature =>
        assert Sum([24]) == 24;
      case BurstRead =>
        assert Sum([24, 24]) == 48;
      case SensorTime =>
        assert Sum([24]) == 24;
      case Event =>
        assert Sum([6, 1, 1]) == 8;
      case InterruptStatus =>
        assert Sum([4, 1, 1, 1, 1]) == 8;
      case FifoLength =>
        assert Sum([16]) == 16;
      case FifoData =>
        assert Sum([8]) == 8;
      case FifoWatermark =>
        assert Sum([9, 7]) == 16;
      case FifoConfig1 =>
        assert Sum([3, 1, 1, 1, 1, 1]) == 8;
      case FifoConfig2 =>
        assert Sum([3, 2, 3]) == 8;
      case InterruptControl =>
        OnesSum([1, 1, 1, 1, 1, 1, 1, 1], 0);
      case IfConf =>
        assert Sum([5, 1, 1, 1]) == 8;
      case PowerControl =>
        assert Sum([2, 2, 2, 1, 1]) == 8;
      case Oversampling =>
        assert Sum([2, 3, 3]) == 8;
      case OutputDataRate =>
        assert Sum([3, 5]) == 8;
      case IirFilterConfiguration =>
        assert Sum([4, 3, 1]) == 8;
      case Command =>
        assert Sum([8]) == 8;
      case CalibrationCoefficients =>
        CalibrationWidths();
    }
  }

  /** The fourteen calibration coefficients take 21 bytes. */
  lemma {:induction false} CalibrationWidths()
    ensures Sum(FieldWidths(CalibrationCoefficients)) == 168
  {
    SumFromConcat(TemperatureCoefficientWidths, PressureCoefficientWidths, 0);
    assert Sum([16, 16, 8]) == 40;
    assert Sum([16, 16, 8, 8, 16, 16, 8, 8, 16, 8, 8]) == 128;
  }

  /** Placement of the fields of a one-byte register. */
  function OneByteLayout(r: Register): (spans: seq<Span>)
    requires EnforceBytes(r) == 1
    ensures |spans| == |FieldWidths(r)|
  {
    WidthsFillRegister(r);
    Msb0Layout(FieldWidths(r), 8)
  }

  // Fields the driver writes, as placed by the msb0 layouts below.
  const ModeField: Field := Field(4, 2)
  const TempEnField: Field := Field(1, 1)
  const PressEnField: Field := Field(0, 1)
  const OsrTempField: Field := Field(3, 3)
  const OsrPressField: Field := Field(0, 3)
  const SubdivisionField: Field := Field(0, 5)
  const IirFilterField: Field := Field(1, 3)
  const ShortInField: Field := Field(0, 1)
  const DataReadyIntField: Field := Field(6, 1)
  const IntDsField: Field := Field(5, 1)
  const FifoFullIntField: Field := Field(4, 1)
  const FifoWatermarkIntField: Field := Field(3, 1)
  const IntLatchField: Field := Field(2, 1)
  const IntLevelField: Field := Field(1, 1)
  const IntOdField: Field := Field(0, 1)

  /** `PowerControl`: reserved 7-6, mode 5-4, reserved 3-2, temp_en 1, press_en 0. */
  lemma PowerControlLayout()
    ensures var l := OneByteLayout(PowerControl);
            && l[0] == Span(6, 2) && l[1] == SpanOf(ModeField) && l[2] == Span(2, 2)
            && l[3] == SpanOf(TempEnField) && l[4] == SpanOf(PressEnField)
  {
  }

  /** `Oversampling`: reserved 7-6, oversampling_temp 5-3, over_sampling_press 2-0. */
  lemma OversamplingLayout()
    ensures var l := OneByteLayout(Oversampling);
            && l[0] == Span(6, 2) && l[1] == SpanOf(OsrTempField) && l[2] == SpanOf(OsrPressField)
  {
  }

  /** `OutputDataRate`: reserved 7-5, subdivision_factor 4-0. */
  lemma OutputDataRateLayout()
    ensures var l := OneByteLayout(OutputDataRate);
            && l[0] == Span(5, 3) && l[1] == SpanOf(SubdivisionField)
  {
  }

  /** `IIRFilterConfiguration`: reserved 7-4, iir_filter 3-1, short_in 0. */
  lemma IirFilterConfigurationLayout()
    ensures var l := OneByteLayout(IirFilterConfiguration);
            && l[0] == Span(4, 4) && l[1] == SpanOf(IirFilterField) && l[2] == SpanOf(ShortInField)
  {
  }

  /**
   * `InteruptControl`: reserved 7, data_ready_int 6, int_ds 5, fifo_full_int 4,
   * fifo_watermark_int 3, int_latch 2, int_active_level 1, int_od 0.
   */
  lemma InterruptControlLayout()
    ensures var l := OneByteLayout(InterruptControl);
            && l[0] == Span(7, 1)
            && l[1] == SpanOf(DataReadyIntField) && l[2] == SpanOf(IntDsField)
            && l[3] == SpanOf(FifoFullIntField) && l[4] == SpanOf(FifoWatermarkIntField)
            && l[5] == SpanOf(IntLatchField) && l[6] == SpanOf(IntLevelField) && l[7] == SpanOf(IntOdField)
  {
    OnesLayout(FieldWidths(InterruptControl));
  }

  /** The 5-bit `subdivision_factor` holds 0 to 31; its doc comment gives 0 to 17 as the range. */
  const DocumentedMaxSubdivision: nat := 17

  lemma SubdivisionFieldRange()
    ensures FieldWidths(OutputDataRate)[1] == 5
    ensures forall v: bv8 :: v < 32 ==> Get(v, SubdivisionField) == v
    ensures Get(18, SubdivisionField) as int > DocumentedMaxSubdivision
  {
  }

  /**
   * A 24-bit reading (pressure, temperature, sensor time) from its three
   * bytes, least significant first: whatever the bytes, it stays below 2^24.
   */
  function Reading24(lo: bv8, mid: bv8, hi: bv8): (v: bv32)
    ensures v < 0x100_0000
    ensures (v & 0xFF) as bv8 == lo && ((v >> 8) & 0xFF) as bv8 == mid && (v >> 16) as bv8 == hi
  {
    (hi as bv32 << 16) | (mid as bv32 << 8) | lo as bv32
  }

  /** The 24-bit readings each fill their three-byte register. */
  lemma ReadingsAre24Bit()
    ensures FieldWidths(Pressure) == [24] && EnforceBytes(Pressure) == 3
    ensures FieldWidths(Temperature) == [24] && EnforceBytes(Temperature) == 3
    ensures FieldWidths(SensorTime) == [24] && EnforceBytes(SensorTime) == 3
  {
  }
}
