/** The /api/product-detail handler: one product with its sales statistics,
    its ten most recent sales and a stock label. It only reads. */
module ProductDetail {
  import opened Http
  import opened ApiStore
  import ApiAuth

  datatype StockStatus = OutOfStock | LowStock | StockOk

  const OutOfStockAlert := "⚠️ HẾT HÀNG - Cần nhập thêm ngay!"
  const LowStockAlert := "⚠️ SẮP HẾT - Tồn kho thấp!"
  const MissingId := "Thiếu ID sản phẩm"
  const ProductNotFound := "Không tìm thấy sản phẩm"

  /** `stock_status`: out of stock at exactly 0, low below 10 (negative stock
      included), fine from 10 up. */
  function Classify(stock: int): (s: StockStatus)
    ensures s == OutOfStock <==> stock == 0
    ensures s == LowStock <==> stock != 0 && stock < 10
    ensures s == StockOk <==> stock >= 10
  {
    if stock == 0 then OutOfStock else if stock < 10 then LowStock else StockOk
  }

  /** `stock_alert`: null exactly when the status is OK. */
  function Alert(stock: int): (a: Option<string>)
    ensures a.None? <==> Classify(stock) == StockOk
    ensures Classify(stock) == OutOfStock ==> a == Some(OutOfStockAlert)
    ensures Classify(stock) == LowStock ==> a == Some(LowStockAlert)
  {
    match Classify(stock)
    case OutOfStock => Some(OutOfStockAlert)
    case LowStock => Some(LowStockAlert)
    case StockOk => None
  }

  lemma ClassifyBoundaries()
    ensures Classify(0) == OutOfStock && Classify(9) == LowStock && Classify(10) == StockOk
    ensures Classify(-1) == LowStock && Alert(10).None? && Alert(9).Some?
  {
  }

  /** The sales of one product, in table order. */
  function ForProduct(sales: seq<Sale>, id: int): (r: seq<Sale>)
    ensures |r| <= |sales|
    ensures forall s :: s in r <==> s in sales && s.productId == id
  {
    if sales == [] then []
    else if sales[0].productId == id then [sales[0]] + ForProduct(sales[1..], id)
    else ForProduct(sales[1..], id)
  }

  lemma {:induction false} ForProductOrdered(sales: seq<Sale>, id: int)
    requires SalesOrdered(sales)
    ensures SalesOrdered(ForProduct(sales, id))
  {
    if sales != [] {
      var tail := sales[1..];
      SalesOrderedTail(sales);
      ForProductOrdered(tail, id);
      var rest := ForProduct(tail, id);
      if sales[0].productId == id {
        forall j | 0 <= j < |rest|
          ensures sales[0].id < rest[j].id && sales[0].createdAt < rest[j].createdAt
        {
          assert rest[j] in tail;
          var k :| 0 <= k < |tail| && tail[k] == rest[j];
          assert sales[k + 1] == rest[j];
        }
        PrependKeepsSaleOrder(sales[0], rest);
      }
    }
  }

  /** `SELECT * FROM sales WHERE product_id = $1 ORDER BY created_at DESC LIMIT 10`. */
  function RecentSales(sales: seq<Sale>, id: int): (r: seq<Sale>)
    ensures |r| == if |ForProduct(sales, id)| < 10 then |ForProduct(sales, id)| else 10
    ensures forall k :: 0 <= k < |r| ==> r[k] == ForProduct(sales, id)[|ForProduct(sales, id)| - 1 - k]
    ensures forall s :: s in r ==> s in sales && s.productId == id
  {
    var f := ForProduct(sales, id);
    var newest := Reversed(f);
    var r := newest[..if |newest| < 10 then |newest| else 10];
    assert forall s :: s in r ==> s in f by {
      forall s | s in r ensures s in f {
        var k :| 0 <= k < |r| && r[k] == s;
        assert f[|f| - 1 - k] == s;
      }
    }
    r
  }

  /** On a table in insertion order, the recent sales come newest first. */
  lemma RecentSalesNewestFirst(sales: seq<Sale>, id: int, i: nat, j: nat)
    requires SalesOrdered(sales)
    requires i < j < |RecentSales(sales, id)|
    ensures RecentSales(sales, id)[i].createdAt > RecentSales(sales, id)[j].createdAt
  {
    var f := ForProduct(sales, id);
    assert RecentSales(sales, id)[i] == f[|f| - 1 - i];
    assert RecentSales(sales, id)[j] == f[|f| - 1 - j];
    assert f[|f| - 1 - j].createdAt < f[|f| - 1 - i].createdAt by {
      ForProductOrdered(sales, id);
    }
  }

  /** On a table in insertion order, no sale of the product that the limit
      left out is newer than a sale that was kept. */
  lemma RecentSalesKeepNewest(sales: seq<Sale>, id: int, s: Sale, x: Sale)
    requires SalesOrdered(sales)
    requires s in sales && s.productId == id && s !in RecentSales(sales, id)
    requires x in RecentSales(sales, id)
    ensures s.createdAt < x.createdAt
  {
    var f, r := ForProduct(sales, id), RecentSales(sales, id);
    ForProductOrdered(sales, id);
    assert s in f;
    LastOnesAreNewest(f, r, s, x);
  }

  /** When r holds the last rows of an ordered table, latest first, a row of
      the table that r left out is older than every row of r. */
  lemma LastOnesAreNewest(f: seq<Sale>, r: seq<Sale>, s: Sale, x: Sale)
    requires SalesOrdered(f) && |r| <= |f|
    requires forall k :: 0 <= k < |r| ==> r[k] == f[|f| - 1 - k]
    requires s in f && s !in r && x in r
    ensures s.createdAt < x.createdAt
  {
    var k :| 0 <= k < |f| && f[k] == s;
    var j :| 0 <= j < |r| && r[j] == x;
    var m := |f| - 1 - j;
    forall i | |f| - |r| <= i < |f|
      ensures f[i] != s
    {
      assert f[i] == r[|f| - 1 - i];
    }
    assert k < m;
  }

  datatype Statistics = Statistics(totalSold: int, totalRevenue: int, stockStatus: StockStatus, stockAlert: Option<string>)

  datatype Detail = Detail(product: Product, statistics: Statistics, recentSales: seq<Sale>)

  /** A product nobody bought has sold nothing and earned nothing. */
  lemma {:induction false} NoSalesNoStatistics(sales: seq<Sale>, id: int)
    requires forall s :: s in sales ==> s.productId != id
    ensures QuantitySold(sales, id) == 0 && Revenue(sales, id) == 0
  {
    if sales != [] {
      NoSalesNoStatistics(sales[1..], id);
    }
  }

  /** GET /api/product-detail?id=...: 400 without an id and 404 for an unknown
      one, both decided before any statistic is read; `fails` stands for a
      storage error on any of the reads. */
  function GetProductDetail(products: seq<Product>, sales: seq<Sale>, id: Option<int>, fails: bool): (r: Reply<Detail>)
    ensures id.None? ==> r == Failure(400, MissingId)
    ensures id.Some? && fails ==> r == Failure(500, ServerError)
    ensures id.Some? && !fails && Lookup(products, id.value).None? ==> r == Failure(404, ProductNotFound)
    ensures r.Success? <==> id.Some? && !fails && Lookup(products, id.value).Some?
    ensures r.Success? ==>
              && r.status == 200
              && Lookup(products, id.value) == Some(r.value.product)
              && r.value.statistics.totalSold == QuantitySold(sales, id.value)
              && r.value.statistics.totalRevenue == Revenue(sales, id.value)
              && r.value.statistics.stockStatus == Classify(r.value.product.stock)
              && r.value.statistics.stockAlert == Alert(r.value.product.stock)
              && r.value.recentSales == RecentSales(sales, id.value)
  {
    if id.None? then Failure(400, MissingId)
    else if fails then Failure(500, ServerError)
    else match Lookup(products, id.value)
      case None => Failure(404, ProductNotFound)
      case Some(p) =>
        Success(200, Detail(p, Statistics(QuantitySold(sales, id.value), Revenue(sales, id.value),
                                          Classify(p.stock), Alert(p.stock)),
                            RecentSales(sales, id.value)))
  }

  datatype DetailPayload = Preflighted | Found(detail: Detail)

  /** The whole handler: OPTIONS first, then the token gate, then GET, and
      405 for any other method. */
  function HandleProductDetail(m: Method, header: Option<string>, verify: string -> Option<ApiAuth.Claim>,
                               products: seq<Product>, sales: seq<Sale>, id: Option<int>, fails: bool): (r: Reply<DetailPayload>)
    ensures m == Options ==> r == Success(200, Preflighted)
    ensures ApiAuth.Dispatch(m, {Get}, header, verify) == ApiAuth.Denied ==> r == Failure(401, UnauthorizedMessage)
    ensures ApiAuth.Dispatch(m, {Get}, header, verify) == ApiAuth.NotAllowed ==> r == Failure(405, MethodNotAllowed)
    ensures ApiAuth.Dispatch(m, {Get}, header, verify) == ApiAuth.Handle(Get) ==>
              var detail := GetProductDetail(products, sales, id, fails);
              && r.status == detail.status
              && (r.Success? <==> detail.Success?)
              && (r.Success? ==> r.value == Found(detail.value))
              && (r.Failure? ==> r.error == detail.error)
  {
    match ApiAuth.Dispatch(m, {Get}, header, verify)
    case Preflight => Success(200, Preflighted)
    case Denied => Failure(401, UnauthorizedMessage)
    case NotAllowed => Failure(405, MethodNotAllowed)
    case Handle(_) =>
      match GetProductDetail(products, sales, id, fails)
      case Success(s, v) => Success(s, Found(v))
      case Failure(s, e) => Failure(s, e)
  }
}
