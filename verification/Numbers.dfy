/** Arithmetic both halves of the model use. */
module Numbers {
  function Min(x: int, y: int): int {
    if y < x then y else x
  }

  function Max(x: int, y: int): int {
    if x > y then x else y
  }
}
