// The words the hardware and the wire are made of.

module Words {
  /** A 32-bit register, or a longer mask, as the set of its bits that are 1. */
  type Word = set<nat>

  type Byte = bv8
}
