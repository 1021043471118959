/** The ranges of 64-bit integers. */
module MachineInts {
  const TWO64 := 0x1_0000_0000_0000_0000
  const TWO63 := 0x8000_0000_0000_0000

  predicate IsInt64(x: int) {
    -TWO63 <= x < TWO63
  }
}
