/** The shared record of internal/domain/product.go and the width of Go's `int`. */
module Domain {

  /** Bounds of Go's 64-bit `int`. */
  const MinInt64: int := -0x8000_0000_0000_0000
  const MaxInt64: int := 0x7FFF_FFFF_FFFF_FFFF

  /** A product. `price` is a whole number of cents. */
  datatype Product = Product(id: int, name: string, price: int, amount: int, description: string)

  /** Go's zero value `domain.Product{}`. */
  const ZeroProduct := Product(0, "", 0, 0, "")

  /** Two's-complement wrap-around of a mathematical integer into Go's `int`. */
  function Wrap64(x: int): (r: int)
    ensures MinInt64 <= r <= MaxInt64
    ensures (r - x) % 0x1_0000_0000_0000_0000 == 0
    ensures MinInt64 <= x <= MaxInt64 ==> r == x
  {
    (x - MinInt64) % 0x1_0000_0000_0000_0000 + MinInt64
  }
}
