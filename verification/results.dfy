/** Option and bus-result wrappers shared by the model. */
module Results {

  /** A value that may be absent: an undeclared enum discriminant, a frame that does not parse. */
  datatype Option<+T> = None | Some(value: T)

  /** The error a register interface reports; its contents are opaque to the drivers. */
  datatype BusError = BusError(code: nat)

  /** The outcome of one register read on the bus. */
  datatype Result<+T> = Ok(value: T) | Err(error: BusError)

  /**
   * What a driver setter does after its (optional) read: either it stops and
   * returns the read's error, or it issues one register write.
   */
  datatype Step = Abort(error: BusError) | Write(address: bv8, value: bv8)

  /** What a one-byte register read at each bus address returns. */
  type RegisterFile = bv8 -> Result<bv8>

  /**
   * The register file after a setter's step: a write replaces the byte at its
   * address and nothing else; an abort changes nothing.
   */
  function Apply(regs: RegisterFile, s: Step): (after: RegisterFile)
    ensures s.Write? ==> after(s.address) == Ok(s.value)
    ensures forall a: bv8 :: !(s.Write? && a == s.address) ==> after(a) == regs(a)
  {
    match s
    case Abort(_) => regs
    case Write(address, value) => (a: bv8) => if a == address then Ok(value) else regs(a)
  }
}
