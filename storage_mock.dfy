/**
 * The in-memory test double of the repository (internal/storage/repository_mock.go).
 * Its `FindAll` keeps the stale signature it is written with: no page, no limit,
 * no total.
 */
module StorageMock {
  import opened Wrappers
  import opened Domain

  class MockProductRepository {
    var products: seq<Product>
    /** The injected error every method reports; None is Go's nil. */
    var error: Option<string>

    constructor (products: seq<Product>, error: Option<string>)
      ensures this.products == products && this.error == error
    {
      this.products := products;
      this.error := error;
    }

    /**
     * Assigns `len(Products) + 1` to `product.ID` and appends a copy; with an
     * injected error, neither the slice nor the product is touched.
     */
    method Save(product: Product) returns (saved: Product, err: Option<string>)
      modifies this
      ensures error == old(error) && err == error
      ensures err.Some? ==> saved == product && products == old(products)
      ensures err.None? ==> saved == product.(id := |old(products)| + 1)
      ensures err.None? ==> products == old(products) + [saved]
      ensures err.None? ==> 1 <= saved.id == |products| && products[saved.id - 1] == saved
    {
      if error.Some? {
        return product, error;
      }
      saved := product.(id := |products| + 1);
      products := products + [saved];
      err := None;
    }

    /** Every product, or nil and the injected error. */
    method FindAll() returns (all: seq<Product>, err: Option<string>)
      ensures err == error
      ensures err.Some? ==> all == []
      ensures err.None? ==> all == products
    {
      if error.Some? {
        return [], error;
      }
      return products, None;
    }

    /** Ignores `id`: always the zero product with the injected error (nil included). */
    method FindByID(id: int) returns (p: Product, err: Option<string>)
      ensures p == ZeroProduct && err == error
    {
      return ZeroProduct, error;
    }

    /** Ignores the product and changes nothing; reports the injected error. */
    method Update(product: Product) returns (err: Option<string>)
      ensures err == error
    {
      return error;
    }

    /** Ignores `id` and changes nothing; reports the injected error. */
    method Delete(id: int) returns (err: Option<string>)
      ensures err == error
    {
      return error;
    }
  }

  /** Two successful saves in a row: the second id is the next one after the first. */
  method SaveTwice(m: MockProductRepository, a: Product, b: Product) returns (first: Product, second: Product)
    requires m.error.None?
    modifies m
    ensures first.id < second.id && second.id == first.id + 1
    ensures m.products == old(m.products) + [first, second]
    ensures first == a.(id := |old(m.products)| + 1) && second == b.(id := |old(m.products)| + 2)
  {
    var err;
    first, err := m.Save(a);
    second, err := m.Save(b);
  }
}
