/**
 * The decisions of the HTTP handlers (internal/handler/http/product.go).
 *
 * Each handler is a function from the already-decoded request and what the
 * repository returned to an `Exchange`: the one repository call the handler
 * makes (None when it answers before touching the repository) and the response
 * it writes. Decoding is abstract: a JSON body is `Some(product)` or None when
 * malformed; a path or query parameter is `Some(v)` when its text is a decimal
 * integer of value v (of any size), None when it is absent or not an integer.
 */
module HttpHandler {
  import opened Wrappers
  import opened Domain

  const MaxLimit := 50

  const InvalidPayload := "Invalid request payload"
  const InvalidProductData := "Invalid product data: name, price, and amount are required and must be valid"
  const InvalidProductId := "Invalid product ID"
  const CreateFailed := "Failed to create product"
  const ListFailed := "Failed to retrieve products"
  const GetFailed := "Failed to retrieve product"
  const UpdateFailed := "Failed to update product"
  const DeleteFailed := "Failed to delete product"
  const DeletedMessage := "Product deleted successfully"

  /** The repository error texts each handler answers with 404. */
  const GetNotFound := "product not found"
  const UpdateNotFound := "product not found for update"
  const DeleteNotFound := "product not found for deletion"

  /** A response: its status code and JSON body. */
  datatype Response =
    | Created(product: Product)                                  // 201, the product
    | Found(product: Product)                                    // 200, the product
    | Listed(data: seq<Product>, totalPages: int, currentPage: int)  // 200, PaginatedResponse
    | Deleted(message: string)                                   // 200, {"message": ...}
    | BadRequest(message: string)                                // 400, {"error": ...}
    | NotFound(message: string)                                  // 404, {"error": ...}
    | StorageFailure(message: string)                            // 500, {"error": ...}
  {
    function Status(): int
    {
      match this
      case Created(_) => 201
      case Found(_) => 200
      case Listed(_, _, _) => 200
      case Deleted(_) => 200
      case BadRequest(_) => 400
      case NotFound(_) => 404
      case StorageFailure(_) => 500
    }
  }

  /** A call of the repository interface, with its arguments. */
  datatype Call =
    | SaveCall(product: Product)
    | FindAllCall(page: int, limit: int)
    | FindByIDCall(id: int)
    | UpdateCall(product: Product)
    | DeleteCall(id: int)

  datatype Exchange = Exchange(call: Option<Call>, response: Response)

  /** What `strconv.Atoi` returns when its error is discarded: 0 for a malformed text, the nearest `int` when out of range. */
  function AtoiValue(param: Option<int>): (v: int)
    ensures MinInt64 <= v <= MaxInt64
    ensures param.None? ==> v == 0
    ensures param.Some? && MinInt64 <= param.value <= MaxInt64 ==> v == param.value
    ensures param.Some? && param.value > MaxInt64 ==> v == MaxInt64
    ensures param.Some? && param.value < MinInt64 ==> v == MinInt64
  {
    match param
    case None => 0
    case Some(x) => if x > MaxInt64 then MaxInt64 else if x < MinInt64 then MinInt64 else x
  }

  /** `strconv.Atoi` with its error checked: a path id must be an integer that fits in `int`. */
  function PathId(param: Option<int>): (id: Option<int>)
    ensures id.Some? <==> param.Some? && MinInt64 <= param.value <= MaxInt64
    ensures id.Some? ==> id.value == param.value
  {
    if param.Some? && MinInt64 <= param.value <= MaxInt64 then param else None
  }

  /** The page passed to FindAll: at least 1, and the requested page whenever that is a valid one. */
  function NormalizePage(param: Option<int>): (page: int)
    ensures 1 <= page <= MaxInt64
    ensures param.Some? && 1 <= param.value <= MaxInt64 ==> page == param.value
    ensures param.None? || param.value < 1 ==> page == 1
    ensures param.Some? && param.value > MaxInt64 ==> page == MaxInt64
  {
    var page := AtoiValue(param);
    if page < 1 then 1 else page
  }

  /** The limit passed to FindAll: the requested one when it lies in [1, 50], otherwise 50. */
  function NormalizeLimit(param: Option<int>): (limit: int)
    ensures 1 <= limit <= MaxLimit
    ensures param.Some? && 1 <= param.value <= MaxLimit ==> limit == param.value
    ensures !(param.Some? && 1 <= param.value <= MaxLimit) ==> limit == MaxLimit
  {
    var limit := AtoiValue(param);
    if limit < 1 || limit > MaxLimit then MaxLimit else limit
  }

  /** The number of pages of `limit` rows needed for `total` rows: the ceiling of total / limit. */
  function TotalPages(total: nat, limit: int): (pages: nat)
    requires limit >= 1
    ensures pages == 0 <==> total == 0
    ensures total > 0 ==> (pages - 1) * limit < total <= pages * limit
  {
    var q := (total + limit - 1) / limit;
    var r := (total + limit - 1) % limit;
    assert total + limit - 1 == q * limit + r && 0 <= r < limit;
    assert (q - 1) * limit == q * limit - limit;
    q
  }

  /** The create handler's acceptance test: a non-empty name and no negative price or amount. */
  predicate ValidForCreate(p: Product)
  {
    p.name != "" && p.price >= 0 && p.amount >= 0
  }

  /** The response for a failed Get, Update or Delete: 404 exactly for the one not-found text. */
  function MapError(err: string, notFoundText: string, failureText: string): (r: Response)
    ensures r.NotFound? <==> err == notFoundText
    ensures r.StorageFailure? <==> err != notFoundText
    ensures r.NotFound? ==> r.message == err
    ensures r.StorageFailure? ==> r.message == failureText
  {
    if err == notFoundText then NotFound(err) else StorageFailure(failureText)
  }

  /**
   * POST /products. `saved` is what `Save(&p)` did: the id it wrote into `p.ID`,
   * or its error.
   */
  function CreateProduct(payload: Option<Product>, saved: Result<int>): (x: Exchange)
    ensures x.call.Some? <==> payload.Some? && ValidForCreate(payload.value)
    ensures payload.None? ==> x.response == BadRequest(InvalidPayload)
    ensures payload.Some? && !ValidForCreate(payload.value) ==> x.response == BadRequest(InvalidProductData)
    ensures x.call.Some? ==> x.call.value == SaveCall(payload.value)
    ensures x.call.Some? && saved.Failure? ==> x.response == StorageFailure(CreateFailed)
    ensures x.call.Some? && saved.Success? ==> x.response == Created(payload.value.(id := saved.value))
  {
    match payload
    case None => Exchange(None, BadRequest(InvalidPayload))
    case Some(p) =>
      if p.name == "" || p.price < 0 || p.amount < 0 then
        Exchange(None, BadRequest(InvalidProductData))
      else
        match saved
        case Failure(_) => Exchange(Some(SaveCall(p)), StorageFailure(CreateFailed))
        case Success(id) => Exchange(Some(SaveCall(p)), Created(p.(id := id)))
  }

  /**
   * GET /products?page=&limit=. `found` is what `FindAll(page, limit)` returned:
   * the page's rows and the row count, or its error.
   */
  function ListProducts(pageParam: Option<int>, limitParam: Option<int>, found: Result<(seq<Product>, nat)>): (x: Exchange)
    ensures x.call == Some(FindAllCall(NormalizePage(pageParam), NormalizeLimit(limitParam)))
    ensures found.Failure? ==> x.response == StorageFailure(ListFailed)
    ensures found.Success? ==> x.response.Listed? && x.response.data == found.value.0
    ensures found.Success? ==> x.response.totalPages == TotalPages(found.value.1, NormalizeLimit(limitParam))
    ensures found.Success? ==> x.response.currentPage == NormalizePage(pageParam)
  {
    var page := NormalizePage(pageParam);
    var limit := NormalizeLimit(limitParam);
    var call := Some(FindAllCall(page, limit));
    match found
    case Failure(_) => Exchange(call, StorageFailure(ListFailed))
    case Success((products, total)) => Exchange(call, Listed(products, TotalPages(total, limit), page))
  }

  /** GET /products/{id}. `found` is what `FindByID(id)` returned. */
  function GetProduct(idParam: Option<int>, found: Result<Product>): (x: Exchange)
    ensures x.call.None? <==> PathId(idParam).None?
    ensures x.call.None? ==> x.response == BadRequest(InvalidProductId)
    ensures x.call.Some? ==> x.call.value == FindByIDCall(PathId(idParam).value)
    ensures x.call.Some? && found.Success? ==> x.response == Found(found.value)
    ensures x.call.Some? ==> (x.response.NotFound? <==> found == Failure(GetNotFound))
    ensures x.call.Some? ==> (x.response.StorageFailure? <==> found.Failure? && found.error != GetNotFound)
  {
    match PathId(idParam)
    case None => Exchange(None, BadRequest(InvalidProductId))
    case Some(id) =>
      var call := Some(FindByIDCall(id));
      match found
      case Failure(e) => Exchange(call, MapError(e, GetNotFound, GetFailed))
      case Success(p) => Exchange(call, Found(p))
  }

  /**
   * PUT /products/{id}. No validation: the payload, with its id overwritten by
   * the path id, goes to `Update`; `updated` is the error it returned, if any.
   */
  function UpdateProduct(idParam: Option<int>, payload: Option<Product>, updated: Option<string>): (x: Exchange)
    ensures x.call.None? <==> PathId(idParam).None? || payload.None?
    ensures PathId(idParam).None? ==> x.response == BadRequest(InvalidProductId)
    ensures PathId(idParam).Some? && payload.None? ==> x.response == BadRequest(InvalidPayload)
    ensures x.call.Some? ==> x.call.value == UpdateCall(payload.value.(id := PathId(idParam).value))
    ensures x.call.Some? && updated.None? ==> x.response == Found(x.call.value.product)
    ensures x.call.Some? ==> (x.response.NotFound? <==> updated == Some(UpdateNotFound))
    ensures x.call.Some? ==> (x.response.StorageFailure? <==> updated.Some? && updated.value != UpdateNotFound)
  {
    match PathId(idParam)
    case None => Exchange(None, BadRequest(InvalidProductId))
    case Some(id) =>
      match payload
      case None => Exchange(None, BadRequest(InvalidPayload))
      case Some(p) =>
        var q := p.(id := id);
        match updated
        case Some(e) => Exchange(Some(UpdateCall(q)), MapError(e, UpdateNotFound, UpdateFailed))
        case None => Exchange(Some(UpdateCall(q)), Found(q))
  }

  /** DELETE /products/{id}. `deleted` is the error `Delete(id)` returned, if any. */
  function DeleteProduct(idParam: Option<int>, deleted: Option<string>): (x: Exchange)
    ensures x.call.None? <==> PathId(idParam).None?
    ensures x.call.None? ==> x.response == BadRequest(InvalidProductId)
    ensures x.call.Some? ==> x.call.value == DeleteCall(PathId(idParam).value)
    ensures x.call.Some? && deleted.None? ==> x.response == Deleted(DeletedMessage)
    ensures x.call.Some? ==> (x.response.NotFound? <==> deleted == Some(DeleteNotFound))
    ensures x.call.Some? ==> (x.response.StorageFailure? <==> deleted.Some? && deleted.value != DeleteNotFound)
  {
    match PathId(idParam)
    case None => Exchange(None, BadRequest(InvalidProductId))
    case Some(id) =>
      var call := Some(DeleteCall(id));
      match deleted
      case Some(e) => Exchange(call, MapError(e, DeleteNotFound, DeleteFailed))
      case None => Exchange(call, Deleted(DeletedMessage))
  }

  /** A rejected create answers 400 whatever the repository would have done: Save is never consulted. */
  lemma CreateRejectionIgnoresRepository(payload: Option<Product>, s1: Result<int>, s2: Result<int>)
    requires !(payload.Some? && ValidForCreate(payload.value))
    ensures CreateProduct(payload, s1) == CreateProduct(payload, s2)
    ensures CreateProduct(payload, s1).response.Status() == 400
  {
  }

  /** A bad path id answers 400 whatever the repository would have done. */
  lemma BadIdIgnoresRepository(idParam: Option<int>, payload: Option<Product>, e1: Option<string>, e2: Option<string>, f1: Result<Product>, f2: Result<Product>)
    requires PathId(idParam).None?
    ensures GetProduct(idParam, f1) == GetProduct(idParam, f2)
    ensures UpdateProduct(idParam, payload, e1) == UpdateProduct(idParam, payload, e2)
    ensures DeleteProduct(idParam, e1) == DeleteProduct(idParam, e2)
    ensures GetProduct(idParam, f1).response.Status() == 400
  {
  }

  /** The page served is reported as asked, even past the last page. */
  lemma CurrentPageNotClamped(pageParam: Option<int>, limitParam: Option<int>, products: seq<Product>, total: nat)
    requires pageParam.Some? && 1 <= pageParam.value <= MaxInt64
    ensures ListProducts(pageParam, limitParam, Success((products, total))).response.currentPage == pageParam.value
  {
  }
}
