/** Bus address selection for the PCA9557. */
module Pca9557Address {

  /** Address with A0, A1 and A2 tied to ground. */
  const PrimaryAddress: bv8 := 0x18

  /** The address its doc comment gives for `Primary`. */
  const DocumentedPrimary: bv8 := 0x24

  datatype Address = Primary | Custom(value: bv8)

  /** An I2C seven-bit address. */
  predicate IsSevenBit(a: bv8)
  {
    a < 0x80
  }

  /** `From<Address> for u8`. */
  function ToByte(a: Address): (b: bv8)
    ensures a.Custom? ==> b == a.value
    ensures a.Primary? ==> b == 0x18 && b != DocumentedPrimary
  {
    match a
    case Primary => PrimaryAddress
    case Custom(x) => x
  }

  /** Every byte is reachable through `Custom`. */
  lemma EveryByteReachable(b: bv8)
    ensures exists a :: ToByte(a) == b
  {
    assert ToByte(Custom(b)) == b;
  }

  /** The address a byte names, preferring the named variant. */
  function AddressOf(b: bv8): (a: Address)
    ensures ToByte(a) == b
  {
    if b == PrimaryAddress then Primary else Custom(b)
  }

  /** Converting to a byte and back loses only the difference between `Primary` and `Custom(0x18)`. */
  lemma AddressOfToByte(a: Address)
    ensures AddressOf(ToByte(a)) == a <==> a != Custom(0x18)
  {
  }

  /** `Primary` and `Custom(0x18)` convert to the same byte, so the conversion is not injective. */
  lemma NotInjective()
    ensures Primary != Custom(0x18) && ToByte(Primary) == ToByte(Custom(0x18))
  {
  }

  /** `Custom` is not limited to seven bits: its value is used as a seven-bit address unchecked. */
  lemma CustomMayExceedSevenBits()
    ensures exists a :: !IsSevenBit(ToByte(a))
  {
    assert !IsSevenBit(ToByte(Custom(0x80)));
  }
}
