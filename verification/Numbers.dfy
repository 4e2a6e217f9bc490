/** The larger and the smaller of two numbers. */
module Numbers {

  function MaxInt(a: int, b: int): (r: int)
    ensures r >= a && r >= b
  {
    if a >= b then a else b
  }

  function MinInt(a: int, b: int): int { if a <= b then a else b }

  function MaxReal(a: real, b: real): real { if a >= b then a else b }

  function MinReal(a: real, b: real): real { if a <= b then a else b }
}
