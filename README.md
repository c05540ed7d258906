# Product store and request handling of go-ecommerce-base

A Dafny model of the core of a Go CRUD API for products:

- **Storage** (`storage.dfy`) models the PostgreSQL repository `pgProductRepository` as the class
  `PgProductRepository`. It holds the `products` table as a sequence of rows in ascending id order and
  the SERIAL id sequence as `nextId`. `Save`, `FindAll`, `FindByID`, `Update` and `Delete` change or read
  that table as their SQL statements do. The one exception is `FindAll`'s offset, which the model computes
  without Go's 64-bit overflow (see Findings). The pure functions `Find`, `Replace`, `Remove` and
  `Window` give the meaning of the `WHERE id`, `UPDATE`, `DELETE` and `LIMIT/OFFSET` clauses, and lemmas
  relate them.
- **StorageMock** (`storage_mock.dfy`) models `MockProductRepository`, the in-memory test double, with
  its `Products` slice and injectable `Error`. Its `FindAll` keeps its stale signature: no page, no limit,
  no total.
- **HttpHandler** (`handler.dfy`) models the five handlers of `ProductHandler`. Each is a function from
  the decoded request and what the repository returned to an `Exchange`: the one repository call the
  handler makes (or none, when it answers first) and the response (status and body) it writes. Page and
  limit normalisation, `totalPages`, create validation and the not-found text → 404 mapping are their own
  functions.
- **Api** (`api.dfy`) runs the handlers against `PgProductRepository` in the request sequences of the
  end-to-end test: create then fetch, update then fetch, delete then fetch, and paging through three rows.
  It also holds the pagination lemmas that need both handler and repository.

Modelling choices:

- `Price` is a whole number of cents; only its sign is ever tested.
- `totalPages` is integer ceiling division instead of `math.Ceil` over `float64`.
- A request body is `Some(product)` or `None` when it does not decode. A path or query parameter is
  `Some(v)` when its text is a decimal integer of value `v`, or `None` when it is absent or not an integer.
  `strconv.Atoi` is modelled on that input, including its clamping of out-of-range values to Go's `int`
  range, which `ListProducts` keeps when it discards the error.
- Every repository method takes `fault`: the error text the driver reports when a statement fails (lost
  connection, violated constraint, failed scan), or `None`. Errors are their `Error()` text, because the
  handlers compare that text.
- `Save(&p)` writes the new id through the pointer. The model returns the caller's product after that
  write as `saved`. The handler's local `p` after `Save(&p)` and after `p.ID = id` is the payload with its
  `id` field replaced.
- The id sequence is SERIAL: it starts at 1, grows by one per insert, and is never reused after a delete.
  It ends at 2^31 - 1, where PostgreSQL refuses `nextval`.
- PostgreSQL rejects a negative OFFSET before a negative LIMIT. The handler always passes a limit in
  [1, 50]. As written, a huge page can wrap the offset negative (see Findings).
- The `id` column is a 32-bit `integer`, so PostgreSQL types the id parameter of `FindByID`, `Update` and
  `Delete` as `integer`. It refuses an id outside [-2^31, 2^31 - 1] with an out-of-range error, which the
  handlers answer with 500.
- A nil `[]Product` is the empty sequence.
- The handler test `internal/handler/http/product_test.go:44` expects a bare JSON array, but `ListProducts`
  writes a `PaginatedResponse`. The test also runs against the mock, whose `FindAll` does not match the
  `ProductRepository` interface. The model follows the handler's code.

## Model

| member | source | states |
|---|---|---|
| Storage.Find | internal/storage/repository.go:66-69 | the row found is in the table and has the id asked for; none is found exactly when no row has that id |
| Storage.Replace | internal/storage/repository.go:79-81 | UPDATE keeps every id and the row order; rows with the product's id take its name, price, amount and description; all other rows are unchanged |
| Storage.Remove | internal/storage/repository.go:95-96 | DELETE keeps exactly the rows whose id differs; when no row has the id, the table is unchanged |
| Storage.Window | internal/storage/repository.go:36-39 | LIMIT/OFFSET returns at most `limit` rows: the rows from position `offset` on, in table order, as many as remain |
| Domain.Wrap64 | internal/storage/repository.go:36 | Go's 64-bit `int` wrap-around: the result is in `int` range, is congruent to the input modulo 2^64, and is the input itself when that fits |
| Storage.Offset | internal/storage/repository.go:36 | the offset of the first row of a page; it is non-negative for page ≥ 1 and zero for page 1 (computed without overflow, see Findings) |
| Storage.OffsetAsWritten | internal/storage/repository.go:36 | the offset as Go computes it in 64-bit `int`; it always lies in `int` range and equals the true offset when the product fits |
| Storage.FindAppend | internal/storage/repository.go:21-23 | after appending a row, a lookup finds what it found before; otherwise it finds the new row for the new row's id and nothing for any other id |
| Storage.FindReplace | internal/storage/repository.go:79-92 | after UPDATE, the updated id finds the new product when it existed (and nothing otherwise); every other id finds what it found before |
| Storage.FindRemove | internal/storage/repository.go:95-107 | after DELETE, the deleted id finds nothing; every other id finds what it found before |
| Storage.RemoveKeepsAscending | internal/storage/repository.go:95-96 | DELETE keeps the rows strictly ascending in id |
| Storage.WindowAscending | internal/storage/repository.go:39 | a page of an id-ordered table is itself strictly ascending in id |
| Storage.PageQueryError | internal/storage/repository.go:39-42 | the page query fails exactly when the bound offset or limit is negative: the offset is refused first, then the limit |
| Storage.ErrIdOutOfRange | internal/storage/repository.go:66-74 | the error PostgreSQL reports for an id outside the `integer` range; it is never one of the three not-found texts |
| Storage.PgProductRepository.constructor | main.go:86-89 | a freshly created table is empty and its id sequence starts at 1 |
| Storage.PgProductRepository.Save | internal/storage/repository.go:21-24 | on success, `saved` is the given product with a fresh id of at least 1 that no row had, written back as `product.ID`; the table gains exactly that row; on failure, product and table are unchanged and the error is returned |
| Storage.PgProductRepository.FindAll | internal/storage/repository.go:27-64 | total is the row count whatever the page; the rows are the window at offset (page-1)·limit, strictly ascending in id, at most `limit`; any failure (driver error, or PostgreSQL refusing a negative offset or limit) gives no rows, total 0 and the error |
| Storage.PgProductRepository.FindByID | internal/storage/repository.go:66-77 | the row with that id; if there is none, the zero product and "product not found"; an id outside the `integer` range, or a driver error, gives the zero product and that error |
| Storage.PgProductRepository.Update | internal/storage/repository.go:79-93 | an existing id gets the new fields and nothing else changes; an absent id fails with "product not found for update", and an id outside the `integer` range fails with the out-of-range error; both leave the table as it was |
| Storage.PgProductRepository.Delete | internal/storage/repository.go:95-108 | an existing id's row is removed and nothing else changes; an absent id fails with "product not found for deletion", and an id outside the `integer` range fails with the out-of-range error; both leave the table as it was |
| StorageMock.MockProductRepository.constructor | internal/storage/repository_mock.go:6-9 | the mock holds the given products and injected error |
| StorageMock.MockProductRepository.Save | internal/storage/repository_mock.go:11-18 | with an injected error, returns it and changes neither the slice nor the product; otherwise the id is the old length + 1, the slice grows by exactly that product, and the product sits at index id - 1 |
| StorageMock.MockProductRepository.FindAll | internal/storage/repository_mock.go:20-25 | every product unchanged, or nothing and the injected error |
| StorageMock.MockProductRepository.FindByID | internal/storage/repository_mock.go:26-28 | whatever the id, the zero product and the injected error |
| StorageMock.MockProductRepository.Update | internal/storage/repository_mock.go:29 | returns the injected error and modifies nothing |
| StorageMock.MockProductRepository.Delete | internal/storage/repository_mock.go:30 | returns the injected error and modifies nothing |
| StorageMock.SaveTwice | internal/storage/repository_mock.go:15-16 | two successful saves assign consecutive, strictly increasing ids and append both products in order |
| HttpHandler.AtoiValue | internal/handler/http/product.go:94 | `strconv.Atoi` with its error discarded: 0 for a missing or malformed text, the value when it fits in `int`, the nearest `int` bound otherwise |
| HttpHandler.PathId | internal/handler/http/product.go:135-139 | a path id is accepted exactly when it is an integer that fits in `int`, and then keeps its value |
| HttpHandler.NormalizePage | internal/handler/http/product.go:94-97 | the page passed on is ≥ 1; a page ≥ 1 is kept, a missing, malformed or smaller one becomes 1 |
| HttpHandler.NormalizeLimit | internal/handler/http/product.go:99-102 | the limit passed on is in [1, 50]; it is the requested one exactly when that lies in [1, 50], otherwise 50 |
| HttpHandler.TotalPages | internal/handler/http/product.go:111 | 0 pages exactly for an empty table; otherwise (pages-1)·limit < total ≤ pages·limit, i.e. the ceiling of total/limit |
| HttpHandler.ValidForCreate | internal/handler/http/product.go:68 | create accepts a product exactly when its name is non-empty and neither price nor amount is negative |
| HttpHandler.MapError | internal/handler/http/product.go:142-148 | 404 with the error text exactly when the text is the handler's not-found text; any other text gives 500 with the handler's failure message |
| HttpHandler.CreateProduct | internal/handler/http/product.go:61-80 | Save is called, with the payload, exactly when the body decodes and the name is non-empty and price and amount are non-negative; a bad body or bad data gives 400; a failed Save gives 500; otherwise 201 with the payload under the id Save assigned |
| HttpHandler.ListProducts | internal/handler/http/product.go:93-120 | FindAll is always called, with the normalised page and limit; a failure gives 500; otherwise 200 with the rows, the ceiling page count and the normalised page, unclamped |
| HttpHandler.GetProduct | internal/handler/http/product.go:134-152 | a bad id gives 400 and no call; otherwise FindByID(id); 404 exactly for "product not found", 500 for any other error, 200 with the row on success |
| HttpHandler.UpdateProduct | internal/handler/http/product.go:167-192 | a bad id or body gives 400 and no call; otherwise Update is called, with no validation, on the payload with its id replaced by the path id; 404 exactly for "product not found for update", 500 for any other error, 200 with that product on success |
| HttpHandler.DeleteProduct | internal/handler/http/product.go:206-224 | a bad id gives 400 and no call; otherwise Delete(id); 404 exactly for "product not found for deletion", 500 for any other error, 200 with the confirmation message on success |
| HttpHandler.CreateRejectionIgnoresRepository | internal/handler/http/product.go:62-71 | a create request with a bad body or bad data gets the same 400 whatever Save would return |
| HttpHandler.BadIdIgnoresRepository | internal/handler/http/product.go:135-139 | Get, Update and Delete with a bad path id get the same 400 whatever the repository would return |
| HttpHandler.CurrentPageNotClamped | internal/handler/http/product.go:113-117 | a valid requested page is reported as the current page even past the last page |
| Api.CreateThenGet | e2e_test.go:87-143 | creating a valid product gives 201 with a fresh non-zero id and the submitted fields; fetching that id then gives 200 with the same product |
| Api.UpdateThenGet | e2e_test.go:146-174 | updating an existing product gives 200 with the payload under the path id; fetching it returns the same; every other id fetches what it did before |
| Api.DeleteThenGet | e2e_test.go:177-211 | deleting an existing product gives 200 with the confirmation message; fetching it then gives 404 "product not found"; every other row is untouched |
| Api.SaveThree | internal/storage/repository.go:21-23 | three saves into a new, empty table store the three products, in order, under ids 1, 2 and 3 |
| Api.ListSecondOfThree | internal/handler/http/product.go:93-120 | with three products saved into an empty table, `limit=1&page=2` returns exactly the second product, total_pages 3 and current_page 2 |
| Api.PastLastPageIsEmpty | internal/storage/repository.go:36-39 | for page ≥ 1 and limit ≥ 1, the page served is empty exactly when the page is past the last page |
| Api.OverflowedOffsetServesFirstPage | internal/storage/repository.go:36 | as written, page 2^62+1 with limit 4 is past the last page of a table of 1 to 4 rows, yet the offset wraps to 0 and the whole table is served |
| Api.OverflowedOffsetIsRejected | internal/storage/repository.go:36-41 | as written, page 2^61+1 with limit 4 wraps the offset to -2^63; PostgreSQL refuses it and the list answers 500; the corrected offset gives an empty page instead |
| Api.OutOfRangeIdIsServerError | internal/handler/http/product.go:141-148 | an id that fits Go's `int` but not the `integer` column makes Get, Update and Delete answer 500, not 404 |

## Left out

- main.go: router wiring, `.env` loading, the connection, CORS, logging middleware and the listener are
  composition and I/O. Only the table's schema (SERIAL id) is used.
- JSON encoding and decoding, response headers and `respondWithJSON`'s marshalling failure: requests are
  modelled already decoded, and a response is its status and body value.
- Logging of errors: it has no effect on the response.
- Floating point: `Price` is integer cents. PostgreSQL's rounding of `NUMERIC(10, 2)` and its
  precision overflow are not modelled; an overflow reaches the model as a `fault`.
- Column limits on saved values: `amount INTEGER` overflowing 32 bits is likewise a `fault`, in `Save` and
  `Update`. The id parameter's range is modelled (see `Storage.ErrIdOutOfRange`).
- HttpHandler.TotalPages: computed exactly; the `float64` division of product.go:111 is exact only for totals
  below 2^53.
- Storage.PgProductRepository.Update, Storage.PgProductRepository.Delete: a failure of `RowsAffected`
  after the statement ran is folded into `fault`, which the model applies before the statement. lib/pq
  never fails there.
- Storage.PgProductRepository.Save: a failed insert leaves the id sequence where it was. PostgreSQL may
  consume a sequence value on failure; only fresh, increasing ids are claimed.
- Storage.PgProductRepository.FindAll: computes the offset with `Storage.Offset`, without overflow. The
  Go code wraps it in 64-bit `int` (repository.go:36), so a huge page there serves the first page or
  answers 500 (see Findings); the model serves an empty page.
- Storage.PgProductRepository.FindAll: the count and the page are two statements; the model reads them
  from one table state, so no concurrent change between them is modelled.
- Concurrent requests: each call is modelled as sequential; the database provides atomicity.
- The handlers are not run against the mock: without interfaces, the composition in Api binds the
  handlers to `PgProductRepository`, as main.go does.
- The React frontend and its axios client are not part of this model.

## Findings

| source | as written | input that shows it | evidently intended | confidence | as-written member | corrected member |
|---|---|---|---|---|---|---|
| internal/storage/repository.go:36 | `offset := (page - 1) * limit` is computed in Go's 64-bit `int` and wraps around | `GET /products?page=4611686018427387905&limit=4` on a table of 1 to 4 rows: the offset wraps to 0, so the first page's rows are returned with `current_page` 4611686018427387905 | a page past the last page is empty (proved for the corrected offset by Api.PastLastPageIsEmpty) | not executed | Api.OverflowedOffsetServesFirstPage | Storage.Offset |
| internal/storage/repository.go:36 | the same wrap-around can make the offset negative | `GET /products?page=2305843009213693953&limit=4`: the offset wraps to -2^63, PostgreSQL refuses the negative OFFSET and the list answers 500 | the page past the last page is served empty with 200 (Api.OverflowedOffsetIsRejected, last two clauses) | not executed | Api.OverflowedOffsetIsRejected | Storage.Offset |
