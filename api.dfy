/**
 * The handlers served by the PostgreSQL repository, as main.go wires them:
 * request sequences of the end-to-end tests (e2e_test.go), with the handler
 * making exactly the repository call its decision names, and the pagination
 * arithmetic of handler and repository taken together.
 */
module Api {
  import opened Wrappers
  import opened Domain
  import opened Storage
  import opened HttpHandler

  /** A Go `(value, error)` pair as a Result. */
  function AsResult<T>(value: T, err: Option<string>): (r: Result<T>)
    ensures err.None? <==> r.Success?
    ensures r.Success? ==> r.value == value
    ensures r.Failure? ==> r.error == err.value
  {
    match err
    case None => Success(value)
    case Some(e) => Failure(e)
  }

  /** POST /products then GET /products/{id} with the id returned: 201, then 200 with the same product. */
  method CreateThenGet(repo: PgProductRepository, p: Product) returns (created: Response, fetched: Response)
    requires repo.Valid() && ValidForCreate(p) && repo.nextId <= MaxSerial
    modifies repo
    ensures repo.Valid()
    ensures created.Created? && created.Status() == 201
    ensures created.product.id != 0 && created.product == p.(id := created.product.id)
    ensures Find(old(repo.rows), created.product.id).None?
    ensures repo.rows == old(repo.rows) + [created.product]
    ensures fetched == Found(created.product) && fetched.Status() == 200
  {
    var saved, err := repo.Save(p, None);
    var create := CreateProduct(Some(p), AsResult(saved.id, err));
    assert create.call == Some(SaveCall(p));
    created := create.response;

    FindAppend(old(repo.rows), saved, saved.id);
    var row, err2 := repo.FindByID(saved.id, None);
    var get := GetProduct(Some(saved.id), AsResult(row, err2));
    assert get.call == Some(FindByIDCall(saved.id));
    fetched := get.response;
  }

  /**
   * PUT /products/{id} on an existing product then GET: both answer the payload
   * under the path id, and every other row is as it was.
   */
  method UpdateThenGet(repo: PgProductRepository, id: int, p: Product) returns (updated: Response, fetched: Response)
    requires repo.Valid() && MinInt64 <= id <= MaxInt64 && Find(repo.rows, id).Some?
    modifies repo
    ensures repo.Valid()
    ensures updated == Found(p.(id := id)) && fetched == updated
    ensures forall other :: other != id ==> Find(repo.rows, other) == Find(old(repo.rows), other)
  {
    assert MinInteger <= id <= MaxInteger by {
      assert Find(repo.rows, id).value in repo.rows;
    }
    var q := p.(id := id);
    var err := repo.Update(q, None);
    var put := UpdateProduct(Some(id), Some(p), err);
    assert put.call == Some(UpdateCall(q));
    updated := put.response;

    FindReplace(old(repo.rows), q, id);
    var row, err2 := repo.FindByID(id, None);
    fetched := GetProduct(Some(id), AsResult(row, err2)).response;
    forall other | other != id ensures Find(repo.rows, other) == Find(old(repo.rows), other) {
      FindReplace(old(repo.rows), q, other);
    }
  }

  /** DELETE /products/{id} on an existing product then GET: 200, then 404. */
  method DeleteThenGet(repo: PgProductRepository, id: int) returns (deleted: Response, fetched: Response)
    requires repo.Valid() && MinInt64 <= id <= MaxInt64 && Find(repo.rows, id).Some?
    modifies repo
    ensures repo.Valid()
    ensures deleted == Deleted(DeletedMessage) && deleted.Status() == 200
    ensures fetched == NotFound(ErrNotFound) && fetched.Status() == 404
    ensures forall other :: other != id ==> Find(repo.rows, other) == Find(old(repo.rows), other)
  {
    assert MinInteger <= id <= MaxInteger by {
      assert Find(repo.rows, id).value in repo.rows;
    }
    var err := repo.Delete(id, None);
    var del := DeleteProduct(Some(id), err);
    assert del.call == Some(DeleteCall(id));
    deleted := del.response;

    FindRemove(old(repo.rows), id, id);
    var row, err2 := repo.FindByID(id, None);
    fetched := GetProduct(Some(id), AsResult(row, err2)).response;
    forall other | other != id ensures Find(repo.rows, other) == Find(old(repo.rows), other) {
      FindRemove(old(repo.rows), id, other);
    }
  }

  /** Three products saved into an empty table; `GET /products?limit=1&page=2` serves the second, of 3 pages. */
  method ListSecondOfThree(a: Product, b: Product, c: Product) returns (listed: Response)
    ensures listed == Listed([b.(id := 2)], 3, 2)
  {
    var repo := SaveThree(a, b, c);
    assert ListProducts(Some(2), Some(1), Failure("")).call == Some(FindAllCall(2, 1));
    var products, total, err := repo.FindAll(2, 1, None);
    SecondPageOfThree(repo.rows);
    listed := ListProducts(Some(2), Some(1), Success((products, total))).response;
  }

  /** Three saves into a new, empty table: they receive ids 1, 2 and 3. */
  method SaveThree(a: Product, b: Product, c: Product) returns (repo: PgProductRepository)
    ensures fresh(repo) && repo.Valid()
    ensures repo.rows == [a.(id := 1), b.(id := 2), c.(id := 3)]
  {
    repo := new PgProductRepository();
    var sa, ea := repo.Save(a, None);
    var sb, eb := repo.Save(b, None);
    var sc, ec := repo.Save(c, None);
  }

  lemma SecondPageOfThree(rows: seq<Product>)
    requires |rows| == 3
    ensures Window(rows, Offset(2, 1), 1) == [rows[1]] && TotalPages(|rows|, 1) == 3
  {
  }

  lemma MulMonotone(a: int, b: int, c: nat)
    requires a <= b
    ensures a * c <= b * c
  {
  }

  /**
   * With the offset computed without overflow, a page the handler can ask for
   * holds rows exactly when it is no further than the last page.
   */
  lemma PastLastPageIsEmpty(rows: seq<Product>, page: int, limit: int)
    requires page >= 1 && 1 <= limit
    ensures Window(rows, Offset(page, limit), limit) == [] <==> page > TotalPages(|rows|, limit)
  {
    var pages := TotalPages(|rows|, limit);
    if page > pages {
      MulMonotone(pages, page - 1, limit);
    } else {
      MulMonotone(page - 1, pages - 1, limit);
    }
  }

  /** Go's `int` wraps: page 2^62 + 1 with limit 4 gives offset 0. */
  const OverflowPage := 0x4000_0000_0000_0001

  /**
   * As written, `GET /products?page=4611686018427387905&limit=4` on a table of
   * one to four rows is past the last page, yet the wrapped offset is 0 and the
   * first page's rows are served under that page number.
   */
  lemma OverflowedOffsetServesFirstPage(rows: seq<Product>)
    requires 1 <= |rows| <= 4
    ensures NormalizePage(Some(OverflowPage)) == OverflowPage && NormalizeLimit(Some(4)) == 4
    ensures OverflowPage > TotalPages(|rows|, 4)
    ensures OffsetAsWritten(OverflowPage, 4) == 0 && Window(rows, OffsetAsWritten(OverflowPage, 4), 4) == rows
    ensures Window(rows, Offset(OverflowPage, 4), 4) == []
  {
  }

  /** Go's `int` wraps: page 2^61 + 1 with limit 4 gives offset -2^63. */
  const NegativeOverflowPage := 0x2000_0000_0000_0001

  /**
   * As written, `GET /products?page=2305843009213693953&limit=4` wraps the
   * offset to -2^63; PostgreSQL refuses the negative OFFSET and the list
   * answers 500. With the offset computed without overflow the query runs and
   * the page, past the last one of any table of up to 2^63 rows, is empty.
   */
  lemma OverflowedOffsetIsRejected(rows: seq<Product>)
    requires |rows| <= 0x8000_0000_0000_0000
    ensures NormalizePage(Some(NegativeOverflowPage)) == NegativeOverflowPage && NormalizeLimit(Some(4)) == 4
    ensures OffsetAsWritten(NegativeOverflowPage, 4) == MinInt64
    ensures PageQueryError(OffsetAsWritten(NegativeOverflowPage, 4), 4) == Some(ErrNegativeOffset)
    ensures ListProducts(Some(NegativeOverflowPage), Some(4), Failure(ErrNegativeOffset)).response
      == StorageFailure(ListFailed)
    ensures PageQueryError(Offset(NegativeOverflowPage, 4), 4).None?
    ensures Window(rows, Offset(NegativeOverflowPage, 4), 4) == []
  {
  }

  /**
   * A path id that fits Go's `int` but not the `integer` id column is refused
   * by PostgreSQL when bound, and Get, Update and Delete answer 500, not 404.
   */
  lemma OutOfRangeIdIsServerError(id: int, payload: Product)
    requires PathId(Some(id)).Some? && !(MinInteger <= id <= MaxInteger)
    ensures GetProduct(Some(id), Failure(ErrIdOutOfRange(id))).response == StorageFailure(GetFailed)
    ensures UpdateProduct(Some(id), Some(payload), Some(ErrIdOutOfRange(id))).response == StorageFailure(UpdateFailed)
    ensures DeleteProduct(Some(id), Some(ErrIdOutOfRange(id))).response == StorageFailure(DeleteFailed)
  {
  }
}
