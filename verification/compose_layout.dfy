/** The few Compose layout values the custom layouts compute with: constraints,
    sizes, offsets and the layout direction, all in integer pixels at density
    1, and Kotlin's truncating integer division by two. */
module ComposeLayout {

  datatype LayoutDirection = Ltr | Rtl

  /** `Constraints`: the smallest and largest width and height a child may take. */
  datatype Constraints = Constraints(minWidth: int, maxWidth: int, minHeight: int, maxHeight: int)

  /** `IntSize`: a measured size. */
  datatype Size = Size(width: int, height: int)

  /** `IntOffset` / a window position truncated to `Int`. */
  datatype Offset = Offset(x: int, y: int)

  /** A child of a custom layout: the constraints it is measured with and the
      offset it is placed at. */
  datatype Slot = Slot(constraints: Constraints, x: int, y: int)

  /** Kotlin's `min` on `Int`. */
  function Min(a: int, b: int): (m: int)
    ensures m <= a && m <= b && (m == a || m == b)
  {
    if a <= b then a else b
  }

  /** Kotlin's `max` on `Int`. */
  function Max(a: int, b: int): (m: int)
    ensures m >= a && m >= b && (m == a || m == b)
  {
    if a >= b then a else b
  }

  /** Kotlin's `x / 2` on `Int`, which truncates toward zero (Dafny's `/` is
      Euclidean and rounds negative odd numbers down). */
  function Half(x: int): (h: int)
    ensures 0 <= x ==> 0 <= h && x - 2 * h in {0, 1}
    ensures x < 0 ==> h <= 0 && 2 * h - x in {0, 1}
  {
    if x >= 0 then x / 2 else -((-x) / 2)
  }

  /** On a negative odd number the truncating half differs from Dafny's `/`. */
  lemma HalfTruncates()
    ensures Half(-3) == -1 && -3 / 2 == -2
  {
  }
}
