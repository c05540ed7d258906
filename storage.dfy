/**
 * The PostgreSQL product repository (internal/storage/repository.go).
 *
 * The `products` table is a sequence of rows in ascending `id` order, so that
 * `ORDER BY id ASC` is the table itself; `id SERIAL PRIMARY KEY` is the field
 * `nextId`, the next value of the id sequence. Each method takes `fault`, the
 * error the driver reports when a statement fails (connection loss, a constraint
 * violated, a scan failure), or None when the statements run.
 */
module Storage {
  import opened Wrappers
  import opened Domain

  const ErrNotFound := "product not found"
  const ErrNotFoundForUpdate := "product not found for update"
  const ErrNotFoundForDeletion := "product not found for deletion"
  /** PostgreSQL's rejections of a negative OFFSET and LIMIT, as lib/pq reports them. */
  const ErrNegativeOffset := "pq: OFFSET must not be negative"
  const ErrNegativeLimit := "pq: LIMIT must not be negative"
  /** Bounds of PostgreSQL's 32-bit `integer`, the type of the SERIAL column `id`. */
  const MinInteger := -0x8000_0000
  const MaxInteger := 0x7FFF_FFFF
  /** A SERIAL column draws from an `integer` sequence, which ends at 2^31 - 1. */
  const MaxSerial := MaxInteger
  const ErrSequenceExhausted := "pq: nextval: reached maximum value of sequence \"products_id_seq\" (2147483647)"

  /** Rows strictly increasing in id: the primary-key order. */
  predicate Ascending(rows: seq<Product>)
  {
    forall i, j :: 0 <= i < j < |rows| ==> rows[i].id < rows[j].id
  }

  /** The decimal text of an integer, as Go formats an `int` parameter for the driver. */
  function DecimalText(n: int): (t: string)
    ensures |t| >= 1
    decreases if n < 0 then 1 - n else n
  {
    if n < 0 then "-" + DecimalText(-n)
    else if n < 10 then [['0','1','2','3','4','5','6','7','8','9'][n]]
    else DecimalText(n / 10) + DecimalText(n % 10)
  }

  /**
   * PostgreSQL types the `$1` of `WHERE id = $1` as `integer`, the column's
   * type, and refuses to bind an id outside its range with this error.
   */
  function ErrIdOutOfRange(id: int): (e: string)
    ensures |e| >= 4 && e[..4] == "pq: "
    ensures e != ErrNotFound && e != ErrNotFoundForUpdate && e != ErrNotFoundForDeletion
  {
    var e := "pq: value \"" + DecimalText(id) + "\" is out of range for type integer";
    assert e[1] == 'q' && ErrNotFound[1] == 'r';
    e
  }

  /**
   * PostgreSQL's check of the bound OFFSET and LIMIT values: a negative offset
   * is refused first, then a negative limit.
   */
  function PageQueryError(offset: int, limit: int): (err: Option<string>)
    ensures err.None? <==> offset >= 0 && limit >= 0
    ensures offset < 0 ==> err == Some(ErrNegativeOffset)
    ensures offset >= 0 && limit < 0 ==> err == Some(ErrNegativeLimit)
  {
    if offset < 0 then Some(ErrNegativeOffset)
    else if limit < 0 then Some(ErrNegativeLimit)
    else None
  }

  /** `SELECT ... FROM products WHERE id = $1`: the row with that id, if any. */
  function Find(rows: seq<Product>, id: int): (r: Option<Product>)
    ensures r.Some? ==> r.value in rows && r.value.id == id
    ensures r.None? <==> forall q :: q in rows ==> q.id != id
  {
    if rows == [] then None
    else if rows[0].id == id then Some(rows[0])
    else Find(rows[1..], id)
  }

  /** The columns `UPDATE products SET name=$1, price=$2, amount=$3, description=$4` writes. */
  function Overwrite(row: Product, p: Product): Product
  {
    row.(name := p.name, price := p.price, amount := p.amount, description := p.description)
  }

  /** The table after `UPDATE ... WHERE id=$5` with `$5 = p.id`. */
  function Replace(rows: seq<Product>, p: Product): (r: seq<Product>)
    ensures |r| == |rows|
    ensures forall i :: 0 <= i < |rows| ==> r[i].id == rows[i].id
    ensures forall i :: 0 <= i < |rows| && rows[i].id == p.id ==> r[i] == p
    ensures forall i :: 0 <= i < |rows| && rows[i].id != p.id ==> r[i] == rows[i]
  {
    if rows == [] then []
    else [if rows[0].id == p.id then Overwrite(rows[0], p) else rows[0]] + Replace(rows[1..], p)
  }

  /** The table after `DELETE FROM products WHERE id = $1`. */
  function Remove(rows: seq<Product>, id: int): (r: seq<Product>)
    ensures forall q :: q in r <==> q in rows && q.id != id
    ensures |r| <= |rows|
    ensures (forall q :: q in rows ==> q.id != id) ==> r == rows
  {
    if rows == [] then []
    else if rows[0].id == id then Remove(rows[1..], id)
    else [rows[0]] + Remove(rows[1..], id)
  }

  /** `LIMIT limit OFFSET offset` over the rows in id order. */
  function Window(rows: seq<Product>, offset: nat, limit: nat): (w: seq<Product>)
    ensures |w| <= limit
    ensures |w| == if offset >= |rows| then 0 else if |rows| - offset < limit then |rows| - offset else limit
    ensures forall k :: 0 <= k < |w| ==> w[k] == rows[offset + k]
  {
    if offset >= |rows| then []
    else if |rows| - offset < limit then rows[offset..]
    else rows[offset..offset + limit]
  }

  /**
   * The offset `(page - 1) * limit` of the first row of a page, computed without
   * overflow. repository.go computes it in Go's `int`: see OffsetAsWritten.
   */
  function Offset(page: int, limit: int): (offset: int)
    ensures page >= 1 && limit >= 0 ==> offset >= 0
    ensures page == 1 ==> offset == 0
  {
    (page - 1) * limit
  }

  /** `offset := (page - 1) * limit` as repository.go computes it, wrapping in Go's 64-bit `int`. */
  function OffsetAsWritten(page: int, limit: int): (offset: int)
    ensures MinInt64 <= offset <= MaxInt64
    ensures MinInt64 <= (page - 1) * limit <= MaxInt64 ==> offset == Offset(page, limit)
  {
    Wrap64((page - 1) * limit)
  }

  lemma {:induction false} FindAppend(rows: seq<Product>, p: Product, id: int)
    ensures Find(rows + [p], id) ==
      if Find(rows, id).Some? then Find(rows, id) else if p.id == id then Some(p) else None
  {
    if rows == [] {
      assert rows + [p] == [p];
    } else {
      assert (rows + [p])[1..] == rows[1..] + [p];
      FindAppend(rows[1..], p, id);
    }
  }

  lemma {:induction false} FindReplace(rows: seq<Product>, p: Product, id: int)
    ensures id != p.id ==> Find(Replace(rows, p), id) == Find(rows, id)
    ensures id == p.id ==> Find(Replace(rows, p), id) == if Find(rows, id).Some? then Some(p) else None
  {
    if rows != [] {
      assert Replace(rows, p)[1..] == Replace(rows[1..], p);
      FindReplace(rows[1..], p, id);
    }
  }

  lemma {:induction false} FindRemove(rows: seq<Product>, id: int, other: int)
    ensures Find(Remove(rows, id), other) == if other == id then None else Find(rows, other)
  {
    if rows != [] && other != id {
      FindRemove(rows[1..], id, other);
      if rows[0].id != id {
        assert ([rows[0]] + Remove(rows[1..], id))[1..] == Remove(rows[1..], id);
      }
    }
  }

  lemma AscendingTail(rows: seq<Product>)
    requires Ascending(rows) && rows != []
    ensures Ascending(rows[1..])
    ensures forall q :: q in rows[1..] ==> rows[0].id < q.id
  {
  }

  lemma AscendingCons(x: Product, rows: seq<Product>)
    requires Ascending(rows)
    requires forall q :: q in rows ==> x.id < q.id
    ensures Ascending([x] + rows)
  {
  }

  lemma {:induction false} RemoveKeepsAscending(rows: seq<Product>, id: int)
    requires Ascending(rows)
    ensures Ascending(Remove(rows, id))
  {
    if rows != [] {
      AscendingTail(rows);
      RemoveKeepsAscending(rows[1..], id);
      if rows[0].id != id {
        AscendingCons(rows[0], Remove(rows[1..], id));
      }
    }
  }

  lemma WindowAscending(rows: seq<Product>, offset: nat, limit: nat)
    requires Ascending(rows)
    ensures Ascending(Window(rows, offset, limit))
  {
  }

  class PgProductRepository {
    /** The rows of table `products`, in ascending id order. */
    var rows: seq<Product>
    /** The next value of the SERIAL sequence behind `id`. */
    var nextId: int

    ghost predicate Valid()
      reads this
    {
      1 <= nextId <= MaxSerial + 1 && Ascending(rows) && (forall q :: q in rows ==> 1 <= q.id < nextId)
    }

    /** An empty table whose id sequence starts at 1. */
    constructor ()
      ensures Valid() && rows == [] && nextId == 1
    {
      rows := [];
      nextId := 1;
    }

    /**
     * `INSERT ... RETURNING id`, scanned into `product.ID`: `saved` is the caller's
     * product after that write through the pointer.
     */
    method Save(product: Product, fault: Option<string>) returns (saved: Product, err: Option<string>)
      requires Valid()
      modifies this
      ensures Valid()
      ensures fault.Some? ==> err == fault
      ensures fault.None? && old(nextId) > MaxSerial ==> err == Some(ErrSequenceExhausted)
      ensures fault.None? && old(nextId) <= MaxSerial ==> err.None?
      ensures err.Some? ==> saved == product && rows == old(rows) && nextId == old(nextId)
      ensures err.None? ==> saved == product.(id := old(nextId)) && saved.id <= MaxSerial
      ensures err.None? ==> rows == old(rows) + [saved] && nextId == old(nextId) + 1
      ensures err.None? ==> saved.id >= 1 && Find(old(rows), saved.id).None?
    {
      if fault.Some? {
        return product, fault;
      }
      if nextId > MaxSerial {
        return product, Some(ErrSequenceExhausted);
      }
      saved := product.(id := nextId);
      forall i | 0 <= i < |rows| ensures rows[i].id < saved.id {
        assert rows[i] in rows;
      }
      rows := rows + [saved];
      nextId := nextId + 1;
      err := None;
    }

    /**
     * The row count, then the page `ORDER BY id ASC LIMIT limit OFFSET offset`
     * read row by row; any failure yields no rows, a zero total and the error.
     */
    method FindAll(page: int, limit: int, fault: Option<string>)
      returns (products: seq<Product>, total: int, err: Option<string>)
      requires Valid()
      ensures fault.Some? ==> err == fault
      ensures fault.None? ==> err == PageQueryError(Offset(page, limit), limit)
      ensures err.Some? ==> products == [] && total == 0
      ensures err.None? ==> total == |rows|
      ensures err.None? ==> products == Window(rows, Offset(page, limit), limit)
      ensures err.None? ==> Ascending(products) && |products| <= limit
    {
      if fault.Some? {
        return [], 0, fault;
      }
      total := |rows|;
      var offset := Offset(page, limit);
      var rejected := PageQueryError(offset, limit);
      if rejected.Some? {
        return [], 0, rejected;
      }
      // The cursor walks the table in id order from the offset and stops after `limit` rows.
      products := [];
      while offset + |products| < |rows| && |products| < limit
        invariant |products| <= limit
        invariant products != [] ==> offset + |products| <= |rows|
        invariant forall k :: 0 <= k < |products| ==> products[k] == rows[offset + k]
        decreases limit - |products|
      {
        products := products + [rows[offset + |products|]];
      }
      WindowAscending(rows, offset, limit);
      err := None;
    }

    method FindByID(id: int, fault: Option<string>) returns (p: Product, err: Option<string>)
      ensures fault.Some? ==> err == fault && p == ZeroProduct
      ensures fault.None? && !(MinInteger <= id <= MaxInteger) ==> err == Some(ErrIdOutOfRange(id)) && p == ZeroProduct
      ensures fault.None? && MinInteger <= id <= MaxInteger && Find(rows, id).Some? ==>
        err.None? && p == Find(rows, id).value
      ensures fault.None? && MinInteger <= id <= MaxInteger && Find(rows, id).None? ==>
        err == Some(ErrNotFound) && p == ZeroProduct
    {
      if fault.Some? {
        return ZeroProduct, fault;
      }
      if !(MinInteger <= id <= MaxInteger) {
        return ZeroProduct, Some(ErrIdOutOfRange(id));
      }
      var row := Find(rows, id);
      if row.None? {
        return ZeroProduct, Some(ErrNotFound);
      }
      return row.value, None;
    }

    method Update(product: Product, fault: Option<string>) returns (err: Option<string>)
      requires Valid()
      modifies this
      ensures Valid() && nextId == old(nextId)
      ensures fault.Some? ==> err == fault && rows == old(rows)
      ensures fault.None? && !(MinInteger <= product.id <= MaxInteger) ==>
        err == Some(ErrIdOutOfRange(product.id)) && rows == old(rows)
      ensures fault.None? && MinInteger <= product.id <= MaxInteger && Find(old(rows), product.id).None? ==>
        err == Some(ErrNotFoundForUpdate) && rows == old(rows)
      ensures fault.None? && MinInteger <= product.id <= MaxInteger && Find(old(rows), product.id).Some? ==>
        err.None? && rows == Replace(old(rows), product)
    {
      if fault.Some? {
        return fault;
      }
      if !(MinInteger <= product.id <= MaxInteger) {
        return Some(ErrIdOutOfRange(product.id));
      }
      // `id` is the primary key, so at most one row is affected.
      var rowsAffected := if Find(rows, product.id).Some? then 1 else 0;
      rows := Replace(rows, product);
      if rowsAffected == 0 {
        return Some(ErrNotFoundForUpdate);
      }
      err := None;
    }

    method Delete(id: int, fault: Option<string>) returns (err: Option<string>)
      requires Valid()
      modifies this
      ensures Valid() && nextId == old(nextId)
      ensures fault.Some? ==> err == fault && rows == old(rows)
      ensures fault.None? && !(MinInteger <= id <= MaxInteger) ==>
        err == Some(ErrIdOutOfRange(id)) && rows == old(rows)
      ensures fault.None? && MinInteger <= id <= MaxInteger && Find(old(rows), id).None? ==>
        err == Some(ErrNotFoundForDeletion) && rows == old(rows)
      ensures fault.None? && MinInteger <= id <= MaxInteger && Find(old(rows), id).Some? ==>
        err.None? && rows == Remove(old(rows), id)
    {
      if fault.Some? {
        return fault;
      }
      if !(MinInteger <= id <= MaxInteger) {
        return Some(ErrIdOutOfRange(id));
      }
      var rowsAffected := if Find(rows, id).Some? then 1 else 0;
      RemoveKeepsAscending(rows, id);
      rows := Remove(rows, id);
      if rowsAffected == 0 {
        return Some(ErrNotFoundForDeletion);
      }
      err := None;
    }
  }
}
