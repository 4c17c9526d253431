/**
 * The pure half of the BMP390 driver. Four setters read a configuration
 * register, rewrite some of its fields with the generated `write_<field>`
 * accessors and write the byte back; `set_interrupt` starts from the
 * register's default value instead of reading it. Bus transfers are
 * abstract: reads come from a `RegisterFile`, and a setter's effect is a
 * `Step` that `Apply` performs on it.
 */
module Bmp390Driver {
  import opened Results
  import opened Bitfield
  import opened CommonEnums
  import opened Bmp390Enums
  import opened Bmp390Registers

  /** `write_mode`, `write_press_en`, `write_temp_en` on a `PowerControl` byte. */
  function PowerControlByte(reg: bv8, mode: PowerMode, enablePress: bool, enableTemp: bool): (r: bv8)
    ensures PowerModeOf(Get(r, ModeField)) == Some(mode)
    ensures Get(r, PressEnField) == BoolBit(enablePress)
    ensures Get(r, TempEnField) == BoolBit(enableTemp)
    ensures r & 0xCC == reg & 0xCC
  {
    var withMode := Set(reg, ModeField, PowerModeBits(mode));
    var withPress := Set(withMode, PressEnField, BoolBit(enablePress));
    Set(withPress, TempEnField, BoolBit(enableTemp))
  }

  /** `write_oversampling_temp`, `write_over_sampling_press` on an `Oversampling` byte. */
  function OversamplingByte(reg: bv8, temp: OversamplingSetting, press: OversamplingSetting): (r: bv8)
    ensures OversamplingOf(Get(r, OsrTempField)) == Some(temp)
    ensures OversamplingOf(Get(r, OsrPressField)) == Some(press)
    ensures r & 0xC0 == reg & 0xC0
  {
    Set(Set(reg, OsrTempField, OversamplingBits(temp)), OsrPressField, OversamplingBits(press))
  }

  /**
   * `write_subdivision_factor` on an `OutputDataRate` byte: the `u8` argument
   * is cut to the field's five bits, with no check against the documented range.
   */
  function OutputDataRateByte(reg: bv8, outputDataRate: bv8): (r: bv8)
    ensures Get(r, SubdivisionField) == outputDataRate % 32
    ensures r & 0xE0 == reg & 0xE0
  {
    Set(reg, SubdivisionField, outputDataRate)
  }

  /** `write_iir_filter`, `write_short_in(false)` on an `IIRFilterConfiguration` byte. */
  function IirFilterByte(reg: bv8, coef: IirFilter): (r: bv8)
    ensures IirFilterOf(Get(r, IirFilterField)) == Some(coef)
    ensures Get(r, ShortInField) == 0
    ensures r & 0xF0 == reg & 0xF0
  {
    Set(Set(reg, IirFilterField, IirFilterBits(coef)), ShortInField, BoolBit(false))
  }

  /**
   * `InteruptControl::default()`: every field at its default, the enums at
   * `LogicLevel::Low` and `InteruptOutput::PushPull`, the rest zero.
   */
  function DefaultInterruptControl(): (r: bv8)
    ensures LevelOfBit(Get(r, IntLevelField) as bv1) == DefaultLevel
    ensures InterruptOutputOf(Get(r, IntOdField)) == Some(DefaultInterruptOutput)
    ensures Get(r, DataReadyIntField) == 0 && Get(r, IntDsField) == 0
    ensures Get(r, FifoFullIntField) == 0 && Get(r, FifoWatermarkIntField) == 0 && Get(r, IntLatchField) == 0
  {
    var level := Set(0, IntLevelField, LevelBit(DefaultLevel) as bv8);
    Set(level, IntOdField, InterruptOutputBits(DefaultInterruptOutput))
  }

  /** The six writes `set_interrupt` makes to the default `InteruptControl`. */
  function InterruptControlByte(dataReady: bool, fifoFull: bool, fifoWatermark: bool, intLatch: bool,
                                intActiveLevel: LogicLevel, intOd: InterruptOutput): (r: bv8)
    ensures Get(r, DataReadyIntField) == BoolBit(dataReady)
    ensures Get(r, FifoFullIntField) == BoolBit(fifoFull)
    ensures Get(r, FifoWatermarkIntField) == BoolBit(fifoWatermark)
    ensures Get(r, IntLatchField) == BoolBit(intLatch)
    ensures LevelOfBit(Get(r, IntLevelField) as bv1) == intActiveLevel
    ensures InterruptOutputOf(Get(r, IntOdField)) == Some(intOd)
    ensures r & 0xA0 == 0
  {
    var b0 := DefaultInterruptControl();
    var b1 := Set(b0, DataReadyIntField, BoolBit(dataReady));
    var b2 := Set(b1, FifoFullIntField, BoolBit(fifoFull));
    var b3 := Set(b2, FifoWatermarkIntField, BoolBit(fifoWatermark));
    var b4 := Set(b3, IntLatchField, BoolBit(intLatch));
    var b5 := Set(b4, IntLevelField, LevelBit(intActiveLevel) as bv8);
    Set(b5, IntOdField, InterruptOutputBits(intOd))
  }

  /**
   * `set_power_mode`: reads `PowerControl` at 0x1B; a failed read issues no
   * write; otherwise the register is written back with the new mode and
   * enables, the reserved bits as read.
   */
  function SetPowerMode(regs: RegisterFile, mode: PowerMode, enablePress: bool, enableTemp: bool): (s: Step)
    ensures regs(0x1B).Err? ==> s == Abort(regs(0x1B).error)
    ensures regs(0x1B).Ok? ==> s.Write? && s.address == 0x1B
    ensures s.Write? ==>
              && PowerModeOf(Get(s.value, ModeField)) == Some(mode)
              && Get(s.value, PressEnField) == BoolBit(enablePress)
              && Get(s.value, TempEnField) == BoolBit(enableTemp)
              && s.value & 0xCC == regs(0x1B).value & 0xCC
  {
    match regs(Address(PowerControl))
    case Err(e) => Abort(e)
    case Ok(b) => Write(Address(PowerControl), PowerControlByte(b, mode, enablePress, enableTemp))
  }

  /** `set_oversample`: read-modify-write of `Oversampling` at 0x1C. */
  function SetOversample(regs: RegisterFile, temp: OversamplingSetting, press: OversamplingSetting): (s: Step)
    ensures regs(0x1C).Err? ==> s == Abort(regs(0x1C).error)
    ensures regs(0x1C).Ok? ==> s.Write? && s.address == 0x1C
    ensures s.Write? ==>
              && OversamplingOf(Get(s.value, OsrTempField)) == Some(temp)
              && OversamplingOf(Get(s.value, OsrPressField)) == Some(press)
              && s.value & 0xC0 == regs(0x1C).value & 0xC0
  {
    match regs(Address(Oversampling))
    case Err(e) => Abort(e)
    case Ok(b) => Write(Address(Oversampling), OversamplingByte(b, temp, press))
  }

  /** `set_output_data_rate`: read-modify-write of `OutputDataRate` at 0x1D. */
  function SetOutputDataRate(regs: RegisterFile, outputDataRate: bv8): (s: Step)
    ensures regs(0x1D).Err? ==> s == Abort(regs(0x1D).error)
    ensures regs(0x1D).Ok? ==> s.Write? && s.address == 0x1D
    ensures s.Write? ==>
              && Get(s.value, SubdivisionField) == outputDataRate % 32
              && s.value & 0xE0 == regs(0x1D).value & 0xE0
  {
    match regs(Address(OutputDataRate))
    case Err(e) => Abort(e)
    case Ok(b) => Write(Address(OutputDataRate), OutputDataRateByte(b, outputDataRate))
  }

  /** `set_iir_filter`: read-modify-write of `IIRFilterConfiguration` at 0x1F; also clears `short_in`. */
  function SetIirFilter(regs: RegisterFile, coef: IirFilter): (s: Step)
    ensures regs(0x1F).Err? ==> s == Abort(regs(0x1F).error)
    ensures regs(0x1F).Ok? ==> s.Write? && s.address == 0x1F
    ensures s.Write? ==>
              && IirFilterOf(Get(s.value, IirFilterField)) == Some(coef)
              && Get(s.value, ShortInField) == 0
              && s.value & 0xF0 == regs(0x1F).value & 0xF0
  {
    match regs(Address(IirFilterConfiguration))
    case Err(e) => Abort(e)
    case Ok(b) => Write(Address(IirFilterConfiguration), IirFilterByte(b, coef))
  }

  /**
   * `set_interrupt` reads nothing, so it always writes; `int_ds` and the
   * reserved bit keep their default of zero.
   */
  function SetInterrupt(dataReady: bool, fifoFull: bool, fifoWatermark: bool, intLatch: bool,
                        intActiveLevel: LogicLevel, intOd: InterruptOutput): (s: Step)
    ensures s.Write? && s.address == 0x19
    ensures Get(s.value, DataReadyIntField) == BoolBit(dataReady)
    ensures Get(s.value, FifoFullIntField) == BoolBit(fifoFull)
    ensures Get(s.value, FifoWatermarkIntField) == BoolBit(fifoWatermark)
    ensures Get(s.value, IntLatchField) == BoolBit(intLatch)
    ensures LevelOfBit(Get(s.value, IntLevelField) as bv1) == intActiveLevel
    ensures InterruptOutputOf(Get(s.value, IntOdField)) == Some(intOd)
    ensures Get(s.value, IntDsField) == 0 && s.value & 0x80 == 0
  {
    Write(Address(InterruptControl),
          InterruptControlByte(dataReady, fifoFull, fifoWatermark, intLatch, intActiveLevel, intOd))
  }

  /** Each setter writes the register it names, after a successful read of that same register. */
  lemma SettersWriteWhatTheyRead(regs: RegisterFile, mode: PowerMode, osr: OversamplingSetting, odr: bv8,
                                 coef: IirFilter, level: LogicLevel, od: InterruptOutput)
    ensures var s := SetPowerMode(regs, mode, true, true);
            s.Write? ==> RegisterAt(s.address) == Some(PowerControl) && regs(s.address).Ok?
    ensures var s := SetOversample(regs, osr, osr);
            s.Write? ==> RegisterAt(s.address) == Some(Oversampling) && regs(s.address).Ok?
    ensures var s := SetOutputDataRate(regs, odr);
            s.Write? ==> RegisterAt(s.address) == Some(OutputDataRate) && regs(s.address).Ok?
    ensures var s := SetIirFilter(regs, coef);
            s.Write? ==> RegisterAt(s.address) == Some(IirFilterConfiguration) && regs(s.address).Ok?
    ensures RegisterAt(SetInterrupt(true, true, true, true, level, od).address) == Some(InterruptControl)
  {
    WritableRegisters();
  }

  /** The registers the setters write are declared read-write, at the addresses the setters use. */
  lemma WritableRegisters()
    ensures AccessOf(PowerControl) == AccessOf(Oversampling) == AccessOf(OutputDataRate) == ReadWrite
    ensures AccessOf(IirFilterConfiguration) == AccessOf(InterruptControl) == ReadWrite
    ensures RegisterAt(0x1B) == Some(PowerControl) && RegisterAt(0x1C) == Some(Oversampling)
    ensures RegisterAt(0x1D) == Some(OutputDataRate) && RegisterAt(0x1F) == Some(IirFilterConfiguration)
    ensures RegisterAt(0x19) == Some(InterruptControl)
  {
  }

  /**
   * Setting the same values again changes nothing: after a setter's step, the
   * same call reads back the byte it wrote and writes it unchanged.
   */
  lemma PowerControlIdempotent(regs: RegisterFile, mode: PowerMode, enablePress: bool, enableTemp: bool)
    ensures var s := SetPowerMode(regs, mode, enablePress, enableTemp);
            SetPowerMode(Apply(regs, s), mode, enablePress, enableTemp) == s
  {
  }

  lemma OversamplingIdempotent(regs: RegisterFile, temp: OversamplingSetting, press: OversamplingSetting)
    ensures var s := SetOversample(regs, temp, press);
            SetOversample(Apply(regs, s), temp, press) == s
  {
  }

  lemma OutputDataRateIdempotent(regs: RegisterFile, odr: bv8)
    ensures var s := SetOutputDataRate(regs, odr);
            SetOutputDataRate(Apply(regs, s), odr) == s
  {
  }

  lemma IirFilterIdempotent(regs: RegisterFile, coef: IirFilter)
    ensures var s := SetIirFilter(regs, coef);
            SetIirFilter(Apply(regs, s), coef) == s
  {
  }

  /**
   * The subdivision factor is not checked against its documented range 0 to
   * 17: 18 is written as is, and 32 wraps to 0.
   */
  lemma OutputDataRateUnchecked(regs: RegisterFile)
    ensures regs(0x1D).Ok? ==> Get(SetOutputDataRate(regs, 18).value, SubdivisionField) as int > DocumentedMaxSubdivision
    ensures regs(0x1D).Ok? ==> Get(SetOutputDataRate(regs, 32).value, SubdivisionField) == 0
  {
  }
}
