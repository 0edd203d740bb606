/** The /api/sales handler: recording a sale inside a transaction (insert the
    sale, take its quantity off the product's stock) and building the filtered
    listing query. */
module ApiSales {
  import opened Http
  import opened Text
  import opened ApiStore
  import ApiAuth
  import ApiProducts

  /** The JSON body of POST /api/sales; an absent or null field is None. */
  datatype SaleRequest = SaleRequest(productId: Option<int>, quantity: Option<int>)

  /** Which storage call fails, if any: the product SELECT, BEGIN, the sale
      INSERT, the stock UPDATE or COMMIT. */
  datatype Fault = NoFault | AtSelect | AtBegin | AtInsert | AtUpdate | AtCommit

  /** The 201 reply: the inserted row, the product's name and the stock the
      handler computed from the row it read. */
  datatype Receipt = Receipt(sale: Sale, productName: string, remainingStock: int)

  const MissingOrder := "Thiếu thông tin đơn hàng"
  const ProductNotFound := "Không tìm thấy sản phẩm"

  function InsufficientStock(stock: int): string
  {
    "Không đủ hàng! Chỉ còn " + IntToString(stock) + " sản phẩm trong kho"
  }

  /** `!product_id || !quantity || quantity <= 0` refuses the order. */
  predicate ValidOrder(req: SaleRequest)
  {
    TruthyInt(req.productId) && req.quantity.Some? && req.quantity.value > 0
  }

  /** The order passed every check before BEGIN. */
  predicate Accepted(products: seq<Product>, req: SaleRequest, fault: Fault)
  {
    && ValidOrder(req)
    && fault != AtSelect
    && Lookup(products, req.productId.value).Some?
    && Lookup(products, req.productId.value).value.stock >= req.quantity.value
  }

  /** The INSERT ran, so the sales sequence and the clock moved on, whether or
      not the transaction then committed (sequences are not rolled back). */
  predicate Inserted(products: seq<Product>, req: SaleRequest, fault: Fault)
  {
    Accepted(products, req, fault) && fault != AtBegin && fault != AtInsert
  }

  /** Units a product holds plus units sold of it: a sale moves units from
      one side to the other. */
  function Ledger(products: seq<Product>, sales: seq<Sale>, id: int): int
  {
    StockOf(products, id) + QuantitySold(sales, id)
  }

  /** Every product's ledger is the same in the second pair of tables as in
      the first. */
  ghost predicate LedgerKept(products: seq<Product>, sales: seq<Sale>, products': seq<Product>, sales': seq<Sale>)
  {
    forall id :: Ledger(products', sales', id) == Ledger(products, sales, id)
  }

  /** Taking a sale's quantity off its product's stock while appending the
      sale leaves every product's ledger as it was. */
  lemma SaleKeepsLedger(products: seq<Product>, sales: seq<Sale>, i: nat, row: Sale)
    requires ProductsOrdered(products) && i < |products| && row.productId == products[i].id
    ensures LedgerKept(products, sales, products[i := products[i].(stock := products[i].stock - row.quantity)], sales + [row])
  {
    var updated := products[i].(stock := products[i].stock - row.quantity);
    OrderedUnique(products);
    forall id
      ensures Ledger(products[i := updated], sales + [row], id) == Ledger(products, sales, id)
    {
      LookupReplace(products, i, updated, id);
      QuantitySoldAppend(sales, row, id);
    }
  }

  /** `INSERT INTO sales ... RETURNING *`: the new row takes the next id and
      the current time. */
  method InsertSale(db: Store, productId: int, q: int, price: int) returns (row: Sale)
    requires db.Valid()
    modifies db
    ensures db.Valid()
    ensures row == Sale(old(db.nextSaleId), productId, q, price * q, old(db.clock))
    ensures db.sales == old(db.sales) + [row] && db.products == old(db.products)
    ensures db.nextSaleId == old(db.nextSaleId) + 1 && db.clock == old(db.clock) + 1
    ensures db.nextProductId == old(db.nextProductId)
  {
    row := Sale(db.nextSaleId, productId, q, price * q, db.clock);
    db.sales := db.sales + [row];
    db.nextSaleId := db.nextSaleId + 1;
    db.clock := db.clock + 1;
  }

  /** `UPDATE products SET stock = stock - $1 WHERE id = $2`. */
  method TakeStock(db: Store, i: nat, q: int)
    requires db.Valid() && i < |db.products|
    modifies db
    ensures db.Valid()
    ensures db.products == old(db.products)[i := old(db.products)[i].(stock := old(db.products)[i].stock - q)]
    ensures db.sales == old(db.sales)
    ensures db.nextProductId == old(db.nextProductId) && db.nextSaleId == old(db.nextSaleId) && db.clock == old(db.clock)
  {
    var product := db.products[i];
    db.products := db.products[i := product.(stock := product.stock - q)];
  }

  /** ROLLBACK: both tables go back to what they were at BEGIN; the counters
      keep the values they reached. */
  method Rollback(db: Store, products: seq<Product>, sales: seq<Sale>)
    requires db.Valid()
    requires ProductsOrdered(products) && SalesOrdered(sales)
    requires forall k :: 0 <= k < |products| ==> products[k].id < db.nextProductId && products[k].createdAt < db.clock
    requires forall k :: 0 <= k < |sales| ==> sales[k].id < db.nextSaleId && sales[k].createdAt < db.clock
    modifies db
    ensures db.Valid()
    ensures db.products == products && db.sales == sales
    ensures db.nextProductId == old(db.nextProductId) && db.nextSaleId == old(db.nextSaleId) && db.clock == old(db.clock)
  {
    db.products, db.sales := products, sales;
  }

  /** The statements inside the transaction: the INSERT, then the UPDATE
      unless that is the call that fails. */
  method InsertAndTake(db: Store, i: nat, q: int, fault: Fault) returns (row: Sale)
    requires db.Valid() && i < |db.products|
    modifies db
    ensures db.Valid()
    ensures var p := old(db.products)[i];
            && row == Sale(old(db.nextSaleId), p.id, q, p.price * q, old(db.clock))
            && db.sales == old(db.sales) + [row]
            && db.products == if fault == AtUpdate then old(db.products) else old(db.products)[i := p.(stock := p.stock - q)]
    ensures db.nextProductId == old(db.nextProductId)
    ensures db.nextSaleId == old(db.nextSaleId) + 1 && db.clock == old(db.clock) + 1
  {
    var product := db.products[i];
    row := InsertSale(db, product.id, q, product.price);
    if fault != AtUpdate {
      TakeStock(db, i, q);
    }
  }

  /** The transaction: BEGIN, INSERT the sale, UPDATE the stock, COMMIT; when
      any of them fails, ROLLBACK puts both tables back. */
  method RecordSale(db: Store, i: nat, q: int, fault: Fault) returns (sale: Option<Sale>)
    requires db.Valid() && i < |db.products| && fault != AtSelect
    modifies db
    ensures db.Valid()
    ensures LedgerKept(old(db.products), old(db.sales), db.products, db.sales)
    ensures sale.Some? <==> fault == NoFault
    ensures sale.None? ==> db.products == old(db.products) && db.sales == old(db.sales)
    ensures sale.Some? ==>
              var p := old(db.products)[i];
              && sale.value == Sale(old(db.nextSaleId), p.id, q, p.price * q, old(db.clock))
              && db.sales == old(db.sales) + [sale.value]
              && db.products == old(db.products)[i := p.(stock := p.stock - q)]
    ensures db.nextProductId == old(db.nextProductId)
    ensures db.nextSaleId == old(db.nextSaleId) + (if fault == AtBegin || fault == AtInsert then 0 else 1)
    ensures db.clock == old(db.clock) + (if fault == AtBegin || fault == AtInsert then 0 else 1)
  {
    sale := None;
    if fault != AtBegin && fault != AtInsert {
      var savedProducts, savedSales := db.products, db.sales;
      var row := InsertAndTake(db, i, q, fault);
      if fault == NoFault {
        SaleKeepsLedger(savedProducts, savedSales, i, row);
        assert db.products == savedProducts[i := savedProducts[i].(stock := savedProducts[i].stock - row.quantity)];
        assert db.sales == savedSales + [row];
        sale := Some(row);
      } else {
        Rollback(db, savedProducts, savedSales);
      }
    }
  }

  /** POST /api/sales. On success the new sale row is appended and the
      product's stock drops by its quantity; on every failure both tables are
      as they were, the partial work of a failed transaction rolled back. */
  method CreateSale(db: Store, req: SaleRequest, fault: Fault) returns (r: Reply<Receipt>)
    requires db.Valid()
    modifies db
    ensures db.Valid()
    ensures LedgerKept(old(db.products), old(db.sales), db.products, db.sales)
    ensures !ValidOrder(req) ==> r == Failure(400, MissingOrder)
    ensures ValidOrder(req) && fault == AtSelect ==> r == Failure(500, ServerError)
    ensures ValidOrder(req) && fault != AtSelect && Lookup(old(db.products), req.productId.value).None? ==>
              r == Failure(404, ProductNotFound)
    ensures ValidOrder(req) && fault != AtSelect && Lookup(old(db.products), req.productId.value).Some? ==>
              var stock := Lookup(old(db.products), req.productId.value).value.stock;
              stock < req.quantity.value ==> r == Failure(400, InsufficientStock(stock))
    ensures Accepted(old(db.products), req, fault) && fault != NoFault ==> r == Failure(500, ServerError)
    ensures r.Success? <==> Accepted(old(db.products), req, fault) && fault == NoFault
    ensures r.Failure? ==> db.products == old(db.products) && db.sales == old(db.sales)
    ensures r.Success? ==>
              var pid := req.productId.value;
              var q := req.quantity.value;
              var i := FindProduct(old(db.products), pid).value;
              var p := old(db.products)[i];
              var sale := Sale(old(db.nextSaleId), pid, q, p.price * q, old(db.clock));
              && r == Success(201, Receipt(sale, p.name, p.stock - q))
              && r.value.remainingStock >= 0
              && db.sales == old(db.sales) + [sale]
              && db.products == old(db.products)[i := p.(stock := p.stock - q)]
    ensures db.nextProductId == old(db.nextProductId)
    ensures db.nextSaleId == old(db.nextSaleId) + (if Inserted(old(db.products), req, fault) then 1 else 0)
    ensures db.clock == old(db.clock) + (if Inserted(old(db.products), req, fault) then 1 else 0)
  {
    if !ValidOrder(req) {
      return Failure(400, MissingOrder);
    }
    var pid, q := req.productId.value, req.quantity.value;
    if fault == AtSelect {
      return Failure(500, ServerError);
    }
    var found := FindProduct(db.products, pid);
    if found.None? {
      return Failure(404, ProductNotFound);
    }
    var product := db.products[found.value];
    if product.stock < q {
      return Failure(400, InsufficientStock(product.stock));
    }
    var sale := RecordSale(db, found.value, q, fault);
    if sale.None? {
      return Failure(500, ServerError);
    }
    r := Success(201, Receipt(sale.value, product.name, product.stock - q));
  }

  /** What a successful sale does to the products a caller can look up: the
      sold product's stock drops by the quantity, every other product is as
      it was. */
  lemma SaleLookups(products: seq<Product>, i: nat, q: int, id: int)
    requires ProductsOrdered(products) && i < |products|
    ensures var p := products[i];
            Lookup(products[i := p.(stock := p.stock - q)], id) ==
              if id == p.id then Some(p.(stock := p.stock - q)) else Lookup(products, id)
  {
    OrderedUnique(products);
    LookupReplace(products, i, products[i].(stock := products[i].stock - q), id);
  }

  /** The query-string filters of GET /api/sales; an absent or empty one is
      not applied. */
  datatype SalesQuery = SalesQuery(productId: Option<string>, dateFrom: Option<string>,
                                   dateTo: Option<string>, search: Option<string>)

  /** One `AND` condition of the WHERE clause and the value bound to it. */
  datatype Filter = Filter(condition: string, value: string)

  const ByProduct := "s.product_id ="
  const FromDate := "s.created_at >="
  const ToDate := "s.created_at <="
  const NameLike := "p.name ILIKE"
  const SelectSales := "SELECT s.id, s.product_id, s.quantity, s.total, s.created_at, p.name as product_name, p.price as product_price FROM sales s LEFT JOIN products p ON s.product_id = p.id WHERE 1=1"
  const NewestFirst := " ORDER BY s.created_at DESC"

  /** The filters in force, in the fixed order product, from, to, name. */
  function ActiveFilters(q: SalesQuery): seq<Filter>
  {
    Optional(q.productId, Filter(ByProduct, OrEmpty(q.productId)))
    + Optional(q.dateFrom, Filter(FromDate, OrEmpty(q.dateFrom)))
    + Optional(q.dateTo, Filter(ToDate, OrEmpty(q.dateTo) + " 23:59:59"))
    + Optional(q.search, Filter(NameLike, "%" + OrEmpty(q.search) + "%"))
  }

  /** One filter per non-empty parameter, each at its own position: the
      product filter, then the lower date bound, then the upper one, then the
      name search, so the placeholders are numbered in that order. The upper
      date bound covers the whole day and the name search is a substring
      pattern. */
  lemma ActiveFiltersShape(q: SalesQuery)
    ensures var fs := ActiveFilters(q);
            var fromAt := if TruthyString(q.productId) then 1 else 0;
            var toAt := fromAt + (if TruthyString(q.dateFrom) then 1 else 0);
            var searchAt := toAt + (if TruthyString(q.dateTo) then 1 else 0);
            && |fs| == searchAt + (if TruthyString(q.search) then 1 else 0)
            && (TruthyString(q.productId) ==> fs[0] == Filter(ByProduct, q.productId.value))
            && (TruthyString(q.dateFrom) ==> fs[fromAt] == Filter(FromDate, q.dateFrom.value))
            && (TruthyString(q.dateTo) ==> fs[toAt] == Filter(ToDate, q.dateTo.value + " 23:59:59"))
            && (TruthyString(q.search) ==> fs[searchAt] == Filter(NameLike, "%" + q.search.value + "%"))
  {
  }

  /** The filter when its query parameter is present and not empty. */
  function Optional(param: Option<string>, f: Filter): seq<Filter>
  {
    if TruthyString(param) then [f] else []
  }

  function OrEmpty(param: Option<string>): string
  {
    if param.Some? then param.value else ""
  }

  /** The condition for filter f bound to placeholder $n. */
  function Clause(f: Filter, n: nat): string
  {
    " AND " + f.condition + " $" + NatToString(n)
  }

  /** The conditions of fs, numbered from placeholder $first on. */
  function Conditions(fs: seq<Filter>, first: nat): string
  {
    if fs == [] then "" else Clause(fs[0], first) + Conditions(fs[1..], first + 1)
  }

  function Values(fs: seq<Filter>): (vs: seq<string>)
    ensures |vs| == |fs|
    ensures forall k :: 0 <= k < |fs| ==> vs[k] == fs[k].value
  {
    if fs == [] then [] else [fs[0].value] + Values(fs[1..])
  }

  /** Adding a filter at the end adds its value at the end. */
  lemma ValuesSnoc(fs: seq<Filter>, f: Filter)
    ensures Values(fs + [f]) == Values(fs) + [f.value]
  {
    assert forall k :: 0 <= k < |fs| ==> (fs + [f])[k] == fs[k];
  }

  /** The conditions of two runs of filters, one after the other, are the
      conditions of the first followed by those of the second, numbered on
      from where the first stopped. */
  lemma {:induction false} ConditionsAppend(a: seq<Filter>, b: seq<Filter>, first: nat)
    ensures Conditions(a + b, first) == Conditions(a, first) + Conditions(b, first + |a|)
  {
    if a == [] {
      assert a + b == b;
    } else {
      assert (a + b)[1..] == a[1..] + b;
      ConditionsAppend(a[1..], b, first + 1);
    }
  }

  /** Adding a filter at the end adds its clause at the end, numbered after
      all those before it. */
  lemma ConditionsSnoc(fs: seq<Filter>, f: Filter, first: nat)
    ensures Conditions(fs + [f], first) == Conditions(fs, first) + Clause(f, first + |fs|)
  {
    ConditionsAppend(fs, [f], first);
    assert Conditions([f], first + |fs|) == Clause(f, first + |fs|) + "";
  }

  /** Placeholders and parameters line up: the k-th condition (from 0) is
      bound to $first+k, between the conditions before and after it. */
  lemma PlaceholderAt(fs: seq<Filter>, k: nat, first: nat)
    requires k < |fs|
    ensures Conditions(fs, first) == Conditions(fs[..k], first) + Clause(fs[k], first + k) + Conditions(fs[k + 1..], first + k + 1)
  {
    var before, rest := fs[..k], fs[k..];
    assert fs == before + rest;
    ConditionsAppend(before, rest, first);
    assert rest[1..] == fs[k + 1..];
    var a, b, c := Conditions(before, first), Clause(fs[k], first + k), Conditions(fs[k + 1..], first + k + 1);
    assert Conditions(rest, first + k) == b + c;
    assert a + (b + c) == a + b + c;
  }

  /** The text, the values and the counter agree with the filters taken so
      far: the statement so far is `base` followed by one condition per
      filter, there is one value per filter, and the counter names the next
      placeholder. */
  predicate Built(base: string, sql: string, params: seq<string>, paramCount: nat, fs: seq<Filter>)
  {
    sql == base + Conditions(fs, 1) && params == Values(fs) && paramCount == |fs| + 1
  }

  /** One step `sql += " AND <condition> $<n>"; params.push(value); paramCount++`. */
  method AddFilter(ghost base: string, sql: string, params: seq<string>, paramCount: nat, ghost fs: seq<Filter>, f: Filter)
    returns (sql': string, params': seq<string>, paramCount': nat)
    requires Built(base, sql, params, paramCount, fs)
    ensures Built(base, sql', params', paramCount', fs + [f])
  {
    ConditionsSnoc(fs, f, 1);
    ValuesSnoc(fs, f);
    sql' := sql + Clause(f, paramCount);
    params' := params + [f.value];
    paramCount' := paramCount + 1;
  }

  /** One `if (param) { ... }` block of the handler: the filter is added
      when its parameter is present and not empty, and skipped otherwise. */
  method AddIfGiven(ghost base: string, sql: string, params: seq<string>, paramCount: nat, ghost fs: seq<Filter>,
                    param: Option<string>, f: Filter)
    returns (sql': string, params': seq<string>, paramCount': nat)
    requires Built(base, sql, params, paramCount, fs)
    ensures Built(base, sql', params', paramCount', fs + Optional(param, f))
  {
    if TruthyString(param) {
      sql', params', paramCount' := AddFilter(base, sql, params, paramCount, fs, f);
    } else {
      assert fs + [] == fs;
      sql', params', paramCount' := sql, params, paramCount;
    }
  }

  /** The GET query built step by step, as the handler appends each condition
      and pushes each value while counting placeholders. */
  method BuildSalesQuery(q: SalesQuery) returns (sql: string, params: seq<string>)
    ensures sql == SelectSales + Conditions(ActiveFilters(q), 1) + NewestFirst
    ensures params == Values(ActiveFilters(q))
    ensures EndsWith(sql, NewestFirst)
  {
    sql, params := SelectSales, [];
    ghost var base := sql;
    var paramCount: nat := 1;
    var byProduct := Filter(ByProduct, OrEmpty(q.productId));
    sql, params, paramCount := AddIfGiven(base, sql, params, paramCount, [], q.productId, byProduct);
    ghost var fs := [] + Optional(q.productId, byProduct);
    var fromDate := Filter(FromDate, OrEmpty(q.dateFrom));
    sql, params, paramCount := AddIfGiven(base, sql, params, paramCount, fs, q.dateFrom, fromDate);
    fs := fs + Optional(q.dateFrom, fromDate);
    var toDate := Filter(ToDate, OrEmpty(q.dateTo) + " 23:59:59");
    sql, params, paramCount := AddIfGiven(base, sql, params, paramCount, fs, q.dateTo, toDate);
    fs := fs + Optional(q.dateTo, toDate);
    var nameLike := Filter(NameLike, "%" + OrEmpty(q.search) + "%");
    sql, params, paramCount := AddIfGiven(base, sql, params, paramCount, fs, q.search, nameLike);
    fs := fs + Optional(q.search, nameLike);
    assert [] + Optional(q.productId, byProduct) == Optional(q.productId, byProduct);
    assert fs == ActiveFilters(q);
    EndsWithAppend(sql, NewestFirst);
    sql := sql + NewestFirst;
  }

  datatype SalesPayload = Preflighted | Statement(sql: string, params: seq<string>) | Created(receipt: Receipt)

  /** A request to /api/sales. */
  datatype SalesRequest = SalesRequest(m: Method, authorization: Option<string>, query: SalesQuery, body: SaleRequest)

  const Supported: set<Method> := {Get, Post}

  /** The whole handler. GET answers with the statement it hands to the
      database (its rows are the database's business); `queryFails` is a
      storage error on that statement, `fault` the failing call of a POST. */
  method HandleSales(db: Store, req: SalesRequest, verify: string -> Option<ApiAuth.Claim>,
                     queryFails: bool, fault: Fault) returns (reply: Reply<SalesPayload>)
    requires db.Valid()
    modifies db
    ensures db.Valid()
    ensures LedgerKept(old(db.products), old(db.sales), db.products, db.sales)
    ensures req.m == Options ==> reply == Success(200, Preflighted) && unchanged(db)
    ensures ApiAuth.Dispatch(req.m, Supported, req.authorization, verify) == ApiAuth.Denied ==>
              reply == Failure(401, UnauthorizedMessage) && unchanged(db)
    ensures ApiAuth.Dispatch(req.m, Supported, req.authorization, verify) == ApiAuth.NotAllowed ==>
              reply == Failure(405, MethodNotAllowed) && unchanged(db)
    ensures ApiAuth.Dispatch(req.m, Supported, req.authorization, verify) == ApiAuth.Handle(Get) ==>
              unchanged(db) &&
              reply == if queryFails then Failure(500, ServerError)
                       else Success(200, Statement(SelectSales + Conditions(ActiveFilters(req.query), 1) + NewestFirst,
                                                   Values(ActiveFilters(req.query))))
    ensures ApiAuth.Dispatch(req.m, Supported, req.authorization, verify) == ApiAuth.Handle(Post) ==>
              var b := req.body;
              var found := if ValidOrder(b) then Lookup(old(db.products), b.productId.value) else None;
              && (!ValidOrder(b) ==> reply == Failure(400, MissingOrder))
              && (ValidOrder(b) && fault == AtSelect ==> reply == Failure(500, ServerError))
              && (ValidOrder(b) && fault != AtSelect && found.None? ==> reply == Failure(404, ProductNotFound))
              && (ValidOrder(b) && fault != AtSelect && found.Some? && found.value.stock < b.quantity.value ==>
                    reply == Failure(400, InsufficientStock(found.value.stock)))
              && (Accepted(old(db.products), b, fault) && fault != NoFault ==> reply == Failure(500, ServerError))
              && (reply.Failure? ==> db.products == old(db.products) && db.sales == old(db.sales))
              && (Accepted(old(db.products), b, fault) && fault == NoFault ==>
                    var q := b.quantity.value;
                    var i := FindProduct(old(db.products), b.productId.value).value;
                    var p := old(db.products)[i];
                    var sale := Sale(old(db.nextSaleId), b.productId.value, q, p.price * q, old(db.clock));
                    && reply == Success(201, Created(Receipt(sale, p.name, p.stock - q)))
                    && db.sales == old(db.sales) + [sale]
                    && db.products == old(db.products)[i := p.(stock := p.stock - q)])
    ensures reply.Success? && reply.value.Created? ==>
              ApiAuth.Authorize(req.authorization, verify).Pass? && req.m == Post && reply.status == 201
  {
    var route := ApiAuth.Dispatch(req.m, Supported, req.authorization, verify);
    match route {
      case Preflight =>
        reply := Success(200, Preflighted);
      case Denied =>
        reply := Failure(401, UnauthorizedMessage);
      case NotAllowed =>
        reply := Failure(405, MethodNotAllowed);
      case Handle(m) =>
        if m == Get {
          var sql, params := BuildSalesQuery(req.query);
          reply := if queryFails then Failure(500, ServerError) else Success(200, Statement(sql, params));
        } else {
          var r := CreateSale(db, req.body, fault);
          reply := if r.Success? then Success(r.status, Created(r.value)) else Failure(r.status, r.error);
        }
    }
  }

  /** A worked case: a product priced 1000 with 5 in stock; selling 3 leaves
      2, and a second order for 3 is refused with the remaining count. */
  /** A fresh store holding one product, "Widget" at 1000 cents with 5 in stock, created through the products handler. */
  method WidgetStore() returns (db: Store, widget: Product)
    ensures fresh(db) && db.Valid()
    ensures widget == Product(1, "Widget", 1000, 5, 0)
    ensures db.products == [widget] && db.sales == []
  {
    db := new Store();
    var created := ApiProducts.CreateProduct(db, ApiProducts.ProductBody(None, Some("Widget"), Some(1000), Some(5)), false);
    widget := Product(1, "Widget", 1000, 5, 0);
  }

  method WidgetScenario() returns (first: Reply<Receipt>, second: Reply<Receipt>, stockAfter: int)
    ensures first.Success? && first.status == 201
    ensures first.value.sale.quantity == 3 && first.value.sale.total == 3000 && first.value.remainingStock == 2
    ensures second == Failure(400, InsufficientStock(2))
    ensures stockAfter == 2
  {
    var db, widget := WidgetStore();
    assert Lookup(db.products, 1) == Some(widget);
    first := CreateSale(db, SaleRequest(Some(1), Some(3)), NoFault);
    assert db.products == [widget.(stock := 2)];
    assert Lookup(db.products, 1) == Some(widget.(stock := 2));
    second := CreateSale(db, SaleRequest(Some(1), Some(3)), NoFault);
    stockAfter := StockOf(db.products, 1);
  }
}
