/** The PostgreSQL tables that the serverless handlers share, seen as rows in
    insertion order: `products` and `sales` are held by the `Store` class;
    the rows of `users`, which no handler here writes, are passed to the
    login as a sequence. The `id` columns are
    SERIAL keys and `created_at` defaults to the time of the insert; both are
    modelled by counters that only grow, so a table's rows are ordered by id
    and by creation time at once. */
module ApiStore {
  import opened Http

  datatype Product = Product(id: int, name: string, price: int, stock: int, createdAt: int)

  datatype Sale = Sale(id: int, productId: int, quantity: int, total: int, createdAt: int)

  datatype User = User(id: int, username: string, passwordHash: string)

  /** Rows in insertion order: ids and creation times strictly increase. */
  ghost predicate ProductsOrdered(rows: seq<Product>)
  {
    forall i, j :: 0 <= i < j < |rows| ==> rows[i].id < rows[j].id && rows[i].createdAt < rows[j].createdAt
  }

  ghost predicate SalesOrdered(rows: seq<Sale>)
  {
    forall i, j :: 0 <= i < j < |rows| ==> rows[i].id < rows[j].id && rows[i].createdAt < rows[j].createdAt
  }

  lemma ProductsOrderedTail(rows: seq<Product>)
    requires ProductsOrdered(rows) && rows != []
    ensures ProductsOrdered(rows[1..])
  {
    var tail := rows[1..];
    forall a, b | 0 <= a < b < |tail|
      ensures tail[a].id < tail[b].id && tail[a].createdAt < tail[b].createdAt
    {
      assert tail[a] == rows[a + 1] && tail[b] == rows[b + 1];
    }
  }

  /** A row older than every row of an ordered table may go in front of it. */
  lemma PrependKeepsProductOrder(x: Product, rest: seq<Product>)
    requires ProductsOrdered(rest)
    requires forall j :: 0 <= j < |rest| ==> x.id < rest[j].id && x.createdAt < rest[j].createdAt
    ensures ProductsOrdered([x] + rest)
  {
    var r := [x] + rest;
    forall a, b | 0 <= a < b < |r|
      ensures r[a].id < r[b].id && r[a].createdAt < r[b].createdAt
    {
      assert r[b] == rest[b - 1];
      if a > 0 {
        assert r[a] == rest[a - 1];
      }
    }
  }

  lemma SalesOrderedTail(rows: seq<Sale>)
    requires SalesOrdered(rows) && rows != []
    ensures SalesOrdered(rows[1..])
  {
    var tail := rows[1..];
    forall a, b | 0 <= a < b < |tail|
      ensures tail[a].id < tail[b].id && tail[a].createdAt < tail[b].createdAt
    {
      assert tail[a] == rows[a + 1] && tail[b] == rows[b + 1];
    }
  }

  /** A sale older than every sale of an ordered table may go in front of it. */
  lemma PrependKeepsSaleOrder(x: Sale, rest: seq<Sale>)
    requires SalesOrdered(rest)
    requires forall j :: 0 <= j < |rest| ==> x.id < rest[j].id && x.createdAt < rest[j].createdAt
    ensures SalesOrdered([x] + rest)
  {
    var r := [x] + rest;
    forall a, b | 0 <= a < b < |r|
      ensures r[a].id < r[b].id && r[a].createdAt < r[b].createdAt
    {
      assert r[b] == rest[b - 1];
      if a > 0 {
        assert r[a] == rest[a - 1];
      }
    }
  }

  /** The primary-key constraint: no two rows share an id. */
  ghost predicate UniqueIds(rows: seq<Product>)
  {
    forall i, j :: 0 <= i < j < |rows| ==> rows[i].id != rows[j].id
  }

  /** Position of the row `WHERE id = $1`, if any. */
  function FindProduct(rows: seq<Product>, id: int): (r: Option<nat>)
    ensures r.Some? ==> r.value < |rows| && rows[r.value].id == id
    ensures r.Some? ==> forall k :: 0 <= k < r.value ==> rows[k].id != id
    ensures r.None? ==> forall k :: 0 <= k < |rows| ==> rows[k].id != id
  {
    if rows == [] then None
    else if rows[0].id == id then Some(0)
    else match FindProduct(rows[1..], id)
      case None => None
      case Some(k) => Some(k + 1)
  }

  /** `SELECT * FROM products WHERE id = $1`, first row. */
  function Lookup(rows: seq<Product>, id: int): Option<Product>
  {
    match FindProduct(rows, id)
    case None => None
    case Some(k) => Some(rows[k])
  }

  /** In a keyed table, the row at position i is what a lookup of its id finds. */
  lemma LookupAt(rows: seq<Product>, i: nat)
    requires UniqueIds(rows) && i < |rows|
    ensures Lookup(rows, rows[i].id) == Some(rows[i])
    ensures FindProduct(rows, rows[i].id) == Some(i)
  {
  }

  /** INSERT of a row with a fresh key: that key now finds the new row and
      every other key finds what it found before. */
  lemma {:induction false} LookupAppend(rows: seq<Product>, p: Product, id: int)
    requires forall k :: 0 <= k < |rows| ==> rows[k].id != p.id
    ensures Lookup(rows + [p], id) == if id == p.id then Some(p) else Lookup(rows, id)
  {
    var r := FindProduct(rows, id);
    var r' := FindProduct(rows + [p], id);
    if r.Some? {
      assert (rows + [p])[r.value] == rows[r.value];
      assert r' == r;
    } else if id == p.id {
      assert (rows + [p])[|rows|] == p;
      assert r' == Some(|rows|);
    } else {
      assert r'.None?;
    }
  }

  /** UPDATE of the row at position i, keeping its key: that key now finds
      the new row and every other key finds what it found before. */
  lemma {:induction false} LookupReplace(rows: seq<Product>, i: nat, p: Product, id: int)
    requires UniqueIds(rows) && i < |rows| && p.id == rows[i].id
    ensures UniqueIds(rows[i := p])
    ensures Lookup(rows[i := p], id) == if id == p.id then Some(p) else Lookup(rows, id)
  {
    var rows' := rows[i := p];
    assert forall k :: 0 <= k < |rows'| ==> rows'[k].id == rows[k].id;
    var r := FindProduct(rows, id);
    var r' := FindProduct(rows', id);
    if r.Some? {
      assert rows'[r.value].id == id;
      assert r' == r;
    } else {
      assert r'.None?;
    }
  }

  /** The table without its row at position i. */
  function RemoveAt(rows: seq<Product>, i: nat): (r: seq<Product>)
    requires i < |rows|
    ensures |r| == |rows| - 1
    ensures forall k :: 0 <= k < |r| ==> r[k] == if k < i then rows[k] else rows[k + 1]
  {
    rows[..i] + rows[i + 1..]
  }

  lemma RemoveAtKeepsOrder(rows: seq<Product>, i: nat)
    requires ProductsOrdered(rows) && i < |rows|
    ensures ProductsOrdered(RemoveAt(rows, i))
  {
    var r := RemoveAt(rows, i);
    forall a, b | 0 <= a < b < |r|
      ensures r[a].id < r[b].id && r[a].createdAt < r[b].createdAt
    {
      var a' := if a < i then a else a + 1;
      var b' := if b < i then b else b + 1;
      assert r[a] == rows[a'] && r[b] == rows[b'];
    }
  }

  /** DELETE of the row at position i: its key no longer finds a row and
      every other key finds what it found before. */
  lemma {:induction false} LookupRemove(rows: seq<Product>, i: nat, id: int)
    requires UniqueIds(rows) && i < |rows|
    ensures Lookup(RemoveAt(rows, i), id) == if id == rows[i].id then None else Lookup(rows, id)
  {
    var rows' := RemoveAt(rows, i);
    var r := FindProduct(rows, id);
    var r' := FindProduct(rows', id);
    if id == rows[i].id {
      assert r'.None?;
    } else if r.Some? {
      if r.value < i {
        assert rows'[r.value].id == id;
        assert r' == r;
      } else {
        assert rows'[r.value - 1] == rows[r.value];
        assert r' == Some(r.value - 1);
      }
    } else {
      assert r'.None?;
    }
  }

  /** The rows of a result set read back to front, as `ORDER BY ... DESC`
      lists rows that are stored in ascending order. */
  function Reversed<T>(s: seq<T>): (r: seq<T>)
    ensures |r| == |s|
    ensures forall k :: 0 <= k < |s| ==> r[k] == s[|s| - 1 - k]
  {
    if s == [] then [] else Reversed(s[1..]) + [s[0]]
  }

  /** Rows stored in insertion order, read back to front, come newest first. */
  lemma ReversedNewestFirst(rows: seq<Product>, i: nat, j: nat)
    requires ProductsOrdered(rows) && i < j < |rows|
    ensures Reversed(rows)[i].createdAt > Reversed(rows)[j].createdAt
  {
    assert Reversed(rows)[i] == rows[|rows| - 1 - i];
    assert Reversed(rows)[j] == rows[|rows| - 1 - j];
  }

  /** Stock on hand of a product; an absent product holds nothing. */
  function StockOf(rows: seq<Product>, id: int): int
  {
    match Lookup(rows, id)
    case None => 0
    case Some(p) => p.stock
  }

  /** `SUM(quantity) ... WHERE product_id = id`, 0 when there is no such sale. */
  function QuantitySold(sales: seq<Sale>, id: int): int
  {
    if sales == [] then 0
    else (if sales[0].productId == id then sales[0].quantity else 0) + QuantitySold(sales[1..], id)
  }

  /** `SUM(total) ... WHERE product_id = id`, 0 when there is no such sale. */
  function Revenue(sales: seq<Sale>, id: int): int
  {
    if sales == [] then 0
    else (if sales[0].productId == id then sales[0].total else 0) + Revenue(sales[1..], id)
  }

  /** Appending a sale adds its quantity to its own product's sold count and
      to no other product's. */
  lemma {:induction false} QuantitySoldAppend(sales: seq<Sale>, s: Sale, id: int)
    ensures QuantitySold(sales + [s], id) == QuantitySold(sales, id) + (if s.productId == id then s.quantity else 0)
  {
    if sales != [] {
      assert (sales + [s])[1..] == sales[1..] + [s];
      QuantitySoldAppend(sales[1..], s, id);
    }
  }

  lemma {:induction false} RevenueAppend(sales: seq<Sale>, s: Sale, id: int)
    ensures Revenue(sales + [s], id) == Revenue(sales, id) + (if s.productId == id then s.total else 0)
  {
    if sales != [] {
      assert (sales + [s])[1..] == sales[1..] + [s];
      RevenueAppend(sales[1..], s, id);
    }
  }

  /** The database the handlers share. The three counters stand for the two
      SERIAL sequences and the clock behind `DEFAULT NOW()`. */
  class Store {
    var products: seq<Product>
    var sales: seq<Sale>
    var nextProductId: int
    var nextSaleId: int
    var clock: int

    ghost predicate Valid()
      reads this
    {
      && ProductsOrdered(products)
      && SalesOrdered(sales)
      && (forall k :: 0 <= k < |products| ==> products[k].id < nextProductId && products[k].createdAt < clock)
      && (forall k :: 0 <= k < |sales| ==> sales[k].id < nextSaleId && sales[k].createdAt < clock)
    }

    constructor ()
      ensures Valid()
      ensures products == [] && sales == []
      ensures nextProductId == 1 && nextSaleId == 1 && clock == 0
    {
      products, sales := [], [];
      nextProductId, nextSaleId, clock := 1, 1, 0;
    }
  }

  lemma OrderedUnique(rows: seq<Product>)
    requires ProductsOrdered(rows)
    ensures UniqueIds(rows)
  {
  }
}
