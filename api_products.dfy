/** The /api/products handler: listing with an optional name search, and
    create, update and delete on the `products` table, each refusing an
    incomplete request with 400 and an unknown id with 404. */
module ApiProducts {
  import opened Http
  import opened Text
  import opened ApiStore
  import ApiAuth

  /** The JSON body of POST and PUT. A field the client left out is None. */
  datatype ProductBody = ProductBody(id: Option<int>, name: Option<string>, price: Option<int>, stock: Option<int>)

  const MissingProduct := "Thiếu thông tin sản phẩm"
  const MissingUpdate := "Thiếu thông tin cập nhật"
  const MissingId := "Thiếu ID sản phẩm"
  const ProductNotFound := "Không tìm thấy sản phẩm"
  const ProductDeleted := "Xóa sản phẩm thành công"

  /** `!name || !price || stock === undefined` is false: a price of 0 is
      refused, a stock of 0 is accepted. */
  predicate CreateComplete(b: ProductBody)
  {
    TruthyString(b.name) && TruthyInt(b.price) && b.stock.Some?
  }

  /** PUT additionally needs a truthy id. */
  predicate UpdateComplete(b: ProductBody)
  {
    TruthyInt(b.id) && CreateComplete(b)
  }

  lemma ZeroPriceRefusedZeroStockAccepted(name: string)
    requires name != ""
    ensures !CreateComplete(ProductBody(None, Some(name), Some(0), Some(5)))
    ensures CreateComplete(ProductBody(None, Some(name), Some(100), Some(0)))
  {
  }

  /** The rows whose name contains `needle` regardless of case, in table order. */
  function NameMatches(rows: seq<Product>, needle: string): (r: seq<Product>)
    ensures forall p :: p in r <==> p in rows && ContainsIgnoringCase(p.name, needle)
  {
    if rows == [] then []
    else if ContainsIgnoringCase(rows[0].name, needle) then [rows[0]] + NameMatches(rows[1..], needle)
    else NameMatches(rows[1..], needle)
  }

  /** Filtering keeps the table's order. */
  lemma {:induction false} NameMatchesOrdered(rows: seq<Product>, needle: string)
    requires ProductsOrdered(rows)
    ensures ProductsOrdered(NameMatches(rows, needle))
  {
    if rows != [] {
      var tail := rows[1..];
      ProductsOrderedTail(rows);
      NameMatchesOrdered(tail, needle);
      var rest := NameMatches(tail, needle);
      if ContainsIgnoringCase(rows[0].name, needle) {
        forall j | 0 <= j < |rest|
          ensures rows[0].id < rest[j].id && rows[0].createdAt < rest[j].createdAt
        {
          assert rest[j] in tail;
          var k :| 0 <= k < |tail| && tail[k] == rest[j];
          assert rows[k + 1] == rest[j];
        }
        PrependKeepsProductOrder(rows[0], rest);
      }
    }
  }

  /** The rows the listing shows, in table order. */
  function Matching(rows: seq<Product>, search: Option<string>): (r: seq<Product>)
    ensures !TruthyString(search) ==> r == rows
    ensures forall p :: p in r <==> p in rows && (TruthyString(search) ==> ContainsIgnoringCase(p.name, search.value))
  {
    if TruthyString(search) then NameMatches(rows, search.value) else rows
  }

  /** GET /api/products: every product, or with a non-empty search only those
      whose name contains it case-insensitively, newest first. */
  function ListProducts(rows: seq<Product>, search: Option<string>): (r: seq<Product>)
    ensures !TruthyString(search) ==> |r| == |rows|
    ensures forall p :: p in r <==> p in rows && (TruthyString(search) ==> ContainsIgnoringCase(p.name, search.value))
  {
    var kept := Matching(rows, search);
    var r := Reversed(kept);
    assert forall p :: p in r <==> p in kept by {
      forall p ensures p in r <==> p in kept {
        if p in kept {
          var k :| 0 <= k < |kept| && kept[k] == p;
          assert r[|kept| - 1 - k] == p;
        }
      }
    }
    r
  }

  /** On a table in insertion order the listing comes newest first. */
  lemma ListProductsNewestFirst(rows: seq<Product>, search: Option<string>, i: nat, j: nat)
    requires ProductsOrdered(rows)
    requires i < j < |ListProducts(rows, search)|
    ensures ListProducts(rows, search)[i].createdAt > ListProducts(rows, search)[j].createdAt
  {
    var kept := Matching(rows, search);
    assert ProductsOrdered(kept) by {
      if TruthyString(search) {
        NameMatchesOrdered(rows, search.value);
      }
    }
    ReversedNewestFirst(kept, i, j);
  }

  /** POST /api/products. `fails` stands for a storage error on the INSERT. */
  method CreateProduct(db: Store, b: ProductBody, fails: bool) returns (reply: Reply<Product>)
    requires db.Valid()
    modifies db
    ensures db.Valid()
    ensures !CreateComplete(b) ==> reply == Failure(400, MissingProduct) && unchanged(db)
    ensures CreateComplete(b) && fails ==> reply == Failure(500, ServerError) && unchanged(db)
    ensures reply.Success? <==> CreateComplete(b) && !fails
    ensures reply.Success? ==>
              var p := Product(old(db.nextProductId), b.name.value, b.price.value, b.stock.value, old(db.clock));
              && reply == Success(201, p)
              && db.products == old(db.products) + [p]
              && db.sales == old(db.sales)
              && db.nextProductId == old(db.nextProductId) + 1 && db.clock == old(db.clock) + 1
              && db.nextSaleId == old(db.nextSaleId)
              && Lookup(db.products, p.id) == Some(p)
              && (forall id :: id != p.id ==> Lookup(db.products, id) == Lookup(old(db.products), id))
  {
    if !CreateComplete(b) {
      return Failure(400, MissingProduct);
    }
    if fails {
      return Failure(500, ServerError);
    }
    var p := Product(db.nextProductId, b.name.value, b.price.value, b.stock.value, db.clock);
    forall id ensures Lookup(db.products + [p], id) == if id == p.id then Some(p) else Lookup(db.products, id) {
      LookupAppend(db.products, p, id);
    }
    db.products := db.products + [p];
    db.nextProductId := db.nextProductId + 1;
    db.clock := db.clock + 1;
    reply := Success(201, p);
  }

  /** PUT /api/products: `UPDATE products SET name, price, stock WHERE id`. */
  method UpdateProduct(db: Store, b: ProductBody, fails: bool) returns (reply: Reply<Product>)
    requires db.Valid()
    modifies db
    ensures db.Valid()
    ensures db.sales == old(db.sales)
    ensures !UpdateComplete(b) ==> reply == Failure(400, MissingUpdate) && unchanged(db)
    ensures UpdateComplete(b) && fails ==> reply == Failure(500, ServerError) && unchanged(db)
    ensures UpdateComplete(b) && !fails && Lookup(old(db.products), b.id.value).None? ==>
              reply == Failure(404, ProductNotFound) && unchanged(db)
    ensures reply.Success? <==> UpdateComplete(b) && !fails && Lookup(old(db.products), b.id.value).Some?
    ensures reply.Success? ==>
              var i := FindProduct(old(db.products), b.id.value).value;
              var p := old(db.products)[i].(name := b.name.value, price := b.price.value, stock := b.stock.value);
              && reply == Success(200, p)
              && db.products == old(db.products)[i := p]
              && db.nextProductId == old(db.nextProductId) && db.nextSaleId == old(db.nextSaleId) && db.clock == old(db.clock)
              && Lookup(db.products, b.id.value) == Some(p)
              && (forall id :: id != b.id.value ==> Lookup(db.products, id) == Lookup(old(db.products), id))
  {
    if !UpdateComplete(b) {
      return Failure(400, MissingUpdate);
    }
    if fails {
      return Failure(500, ServerError);
    }
    var found := FindProduct(db.products, b.id.value);
    if found.None? {
      return Failure(404, ProductNotFound);
    }
    var i := found.value;
    var p := db.products[i].(name := b.name.value, price := b.price.value, stock := b.stock.value);
    OrderedUnique(db.products);
    forall id ensures Lookup(db.products[i := p], id) == if id == p.id then Some(p) else Lookup(db.products, id) {
      LookupReplace(db.products, i, p, id);
    }
    db.products := db.products[i := p];
    reply := Success(200, p);
  }

  /** DELETE /api/products?id=...: the id comes from the query string, so
      only an absent or empty one is refused with 400. */
  method DeleteProduct(db: Store, id: Option<int>, fails: bool) returns (reply: Reply<string>)
    requires db.Valid()
    modifies db
    ensures db.Valid()
    ensures db.sales == old(db.sales)
    ensures id.None? ==> reply == Failure(400, MissingId) && unchanged(db)
    ensures id.Some? && fails ==> reply == Failure(500, ServerError) && unchanged(db)
    ensures id.Some? && !fails && Lookup(old(db.products), id.value).None? ==>
              reply == Failure(404, ProductNotFound) && unchanged(db)
    ensures reply.Success? <==> id.Some? && !fails && Lookup(old(db.products), id.value).Some?
    ensures reply.Success? ==>
              var i := FindProduct(old(db.products), id.value).value;
              && reply == Success(200, ProductDeleted)
              && db.products == RemoveAt(old(db.products), i)
              && db.nextProductId == old(db.nextProductId) && db.nextSaleId == old(db.nextSaleId) && db.clock == old(db.clock)
              && Lookup(db.products, id.value).None?
              && (forall other :: other != id.value ==> Lookup(db.products, other) == Lookup(old(db.products), other))
  {
    if id.None? {
      return Failure(400, MissingId);
    }
    if fails {
      return Failure(500, ServerError);
    }
    var found := FindProduct(db.products, id.value);
    if found.None? {
      return Failure(404, ProductNotFound);
    }
    var i := found.value;
    OrderedUnique(db.products);
    RemoveAtKeepsOrder(db.products, i);
    forall other ensures Lookup(RemoveAt(db.products, i), other) ==
                         if other == db.products[i].id then None else Lookup(db.products, other) {
      LookupRemove(db.products, i, other);
    }
    db.products := RemoveAt(db.products, i);
    reply := Success(200, ProductDeleted);
  }

  datatype ProductsPayload = Preflighted | Listed(products: seq<Product>) | One(product: Product) | Message(text: string)

  /** A request to /api/products. */
  datatype ProductsRequest = ProductsRequest(m: Method, authorization: Option<string>,
                                             search: Option<string>, queryId: Option<int>, body: ProductBody)

  const Supported: set<Method> := {Get, Post, Put, Delete}

  /** The whole handler: OPTIONS, then the gate, then the method. A request
      the gate refuses, or with an unsupported method, changes nothing. */
  method HandleProducts(db: Store, req: ProductsRequest, verify: string -> Option<ApiAuth.Claim>, fails: bool)
    returns (reply: Reply<ProductsPayload>)
    requires db.Valid()
    modifies db
    ensures db.Valid()
    ensures db.sales == old(db.sales)
    ensures req.m == Options ==> reply == Success(200, Preflighted) && unchanged(db)
    ensures ApiAuth.Dispatch(req.m, Supported, req.authorization, verify) == ApiAuth.Denied ==>
              reply == Failure(401, UnauthorizedMessage) && unchanged(db)
    ensures ApiAuth.Dispatch(req.m, Supported, req.authorization, verify) == ApiAuth.NotAllowed ==>
              reply == Failure(405, MethodNotAllowed) && unchanged(db)
    ensures ApiAuth.Dispatch(req.m, Supported, req.authorization, verify) == ApiAuth.Handle(Get) ==>
              unchanged(db) &&
              reply == if fails then Failure(500, ServerError)
                       else Success(200, Listed(ListProducts(db.products, req.search)))
    ensures ApiAuth.Dispatch(req.m, Supported, req.authorization, verify) == ApiAuth.Handle(Post) ==>
              var b := req.body;
              && (!CreateComplete(b) ==> reply == Failure(400, MissingProduct) && unchanged(db))
              && (CreateComplete(b) && fails ==> reply == Failure(500, ServerError) && unchanged(db))
              && (CreateComplete(b) && !fails ==>
                    var p := Product(old(db.nextProductId), b.name.value, b.price.value, b.stock.value, old(db.clock));
                    reply == Success(201, One(p)) && db.products == old(db.products) + [p])
    ensures ApiAuth.Dispatch(req.m, Supported, req.authorization, verify) == ApiAuth.Handle(Put) ==>
              var b := req.body;
              && (!UpdateComplete(b) ==> reply == Failure(400, MissingUpdate) && unchanged(db))
              && (UpdateComplete(b) && fails ==> reply == Failure(500, ServerError) && unchanged(db))
              && (UpdateComplete(b) && !fails && Lookup(old(db.products), b.id.value).None? ==>
                    reply == Failure(404, ProductNotFound) && unchanged(db))
              && (UpdateComplete(b) && !fails && Lookup(old(db.products), b.id.value).Some? ==>
                    var i := FindProduct(old(db.products), b.id.value).value;
                    var p := old(db.products)[i].(name := b.name.value, price := b.price.value, stock := b.stock.value);
                    reply == Success(200, One(p)) && db.products == old(db.products)[i := p])
    ensures ApiAuth.Dispatch(req.m, Supported, req.authorization, verify) == ApiAuth.Handle(Delete) ==>
              var id := req.queryId;
              && (id.None? ==> reply == Failure(400, MissingId) && unchanged(db))
              && (id.Some? && fails ==> reply == Failure(500, ServerError) && unchanged(db))
              && (id.Some? && !fails && Lookup(old(db.products), id.value).None? ==>
                    reply == Failure(404, ProductNotFound) && unchanged(db))
              && (id.Some? && !fails && Lookup(old(db.products), id.value).Some? ==>
                    reply == Success(200, Message(ProductDeleted))
                    && db.products == RemoveAt(old(db.products), FindProduct(old(db.products), id.value).value))
  {
    var route := ApiAuth.Dispatch(req.m, Supported, req.authorization, verify);
    match route {
      case Preflight =>
        reply := Success(200, Preflighted);
      case Denied =>
        reply := Failure(401, UnauthorizedMessage);
      case NotAllowed =>
        reply := Failure(405, MethodNotAllowed);
      case Handle(m) =>
        if m == Get {
          reply := if fails then Failure(500, ServerError) else Success(200, Listed(ListProducts(db.products, req.search)));
        } else if m == Post {
          var r := CreateProduct(db, req.body, fails);
          reply := if r.Success? then Success(r.status, One(r.value)) else Failure(r.status, r.error);
        } else if m == Put {
          var r := UpdateProduct(db, req.body, fails);
          reply := if r.Success? then Success(r.status, One(r.value)) else Failure(r.status, r.error);
        } else {
          var r := DeleteProduct(db, req.queryId, fails);
          reply := if r.Success? then Success(r.status, Message(r.value)) else Failure(r.status, r.error);
        }
    }
  }
}
