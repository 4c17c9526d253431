/** Enumerations shared by the drivers. */
module CommonEnums {

  /** Logic level of a pin or bus line, stored as one bit. */
  datatype LogicLevel = High | Low

  /** The `#[default]` level. */
  const DefaultLevel: LogicLevel := Low

  /** High = 1, Low = 0. */
  function LevelBit(l: LogicLevel): (b: bv1)
    ensures LevelOfBit(b) == l
  {
    match l
    case High => 1
    case Low => 0
  }

  /** Decoding a one-bit field: both bit values name a level. */
  function LevelOfBit(b: bv1): (l: LogicLevel)
    ensures l == High <==> b == 1
  {
    if b == 1 then High else Low
  }

  /** Every bit decodes to a level that encodes back to it. */
  lemma LevelBitOfLevel(b: bv1)
    ensures LevelBit(LevelOfBit(b)) == b
  {
  }

  /** The default level is stored as a zero bit. */
  lemma DefaultLevelIsZero()
    ensures DefaultLevel == Low && LevelBit(DefaultLevel) == 0
  {
  }
}
