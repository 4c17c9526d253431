/** Bus address selection for the BMP390. */
module Bmp390Address {

  /** Address with SDO pulled low. */
  const PrimaryAddress: bv8 := 0x76
  /** Address with SDO pulled high. */
  const SecondaryAddress: bv8 := 0x77

  /** The addresses the doc comments give for `Primary` and `Secondary`. */
  const DocumentedPrimary: bv8 := 0x77
  const DocumentedSecondary: bv8 := 0x78

  datatype Address = Primary | Secondary | Custom(value: bv8)

  /** An I2C seven-bit address. */
  predicate IsSevenBit(a: bv8)
  {
    a < 0x80
  }

  /** `From<Address> for u8`. */
  function ToByte(a: Address): (b: bv8)
    ensures a.Custom? ==> b == a.value
    ensures a.Primary? ==> b == 0x76 && b != DocumentedPrimary
    ensures a.Secondary? ==> b == 0x77 && b != DocumentedSecondary
  {
    match a
    case Primary => PrimaryAddress
    case Secondary => SecondaryAddress
    case Custom(x) => x
  }

  /** The two fixed addresses differ, and each is one below what its doc comment says. */
  lemma FixedAddressesDistinct()
    ensures ToByte(Primary) != ToByte(Secondary)
    ensures ToByte(Primary) as int + 1 == DocumentedPrimary as int
    ensures ToByte(Secondary) as int + 1 == DocumentedSecondary as int
  {
  }

  /** Every byte is reachable through `Custom`. */
  lemma EveryByteReachable(b: bv8)
    ensures exists a :: ToByte(a) == b
  {
    assert ToByte(Custom(b)) == b;
  }

  /** The address a byte names, preferring the named variants. */
  function AddressOf(b: bv8): (a: Address)
    ensures ToByte(a) == b
  {
    if b == PrimaryAddress then Primary
    else if b == SecondaryAddress then Secondary
    else Custom(b)
  }

  /**
   * Converting to a byte and back loses only the difference between a named
   * variant and `Custom` of the same byte.
   */
  lemma AddressOfToByte(a: Address)
    ensures AddressOf(ToByte(a)) == a <==> a != Custom(0x76) && a != Custom(0x77)
  {
  }

  /** `Custom` is not limited to seven bits: its value is used as a seven-bit address unchecked. */
  lemma CustomMayExceedSevenBits()
    ensures exists a :: !IsSevenBit(ToByte(a))
  {
    assert !IsSevenBit(ToByte(Custom(0x80)));
  }
}
