/** Small integer helpers shared by the partition, store and limit models. */
module Numbers {
  /** Python's `min` on two integers. */
  function Min(a: int, b: int): int {
    if a <= b then a else b
  }
}
