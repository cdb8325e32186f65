/** Bounds shared by the other modules. */
module MathUtils {

  function Min(a: int, b: int): int { if a < b then a else b }

  function Max(a: int, b: int): int { if a < b then b else a }

  /** The value nearest to val in the range between a and b, in whichever order they come. */
  function Clamp(val: int, a: int, b: int): (r: int)
    ensures Min(a, b) <= r <= Max(a, b)
    ensures Min(a, b) <= val <= Max(a, b) ==> r == val
    ensures val < Min(a, b) ==> r == Min(a, b)
    ensures val > Max(a, b) ==> r == Max(a, b)
  {
    Min(Max(val, Min(a, b)), Max(a, b))
  }
}
