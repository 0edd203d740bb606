/** The Flask app's stock ledger: manual stock adjustments, recording a sale
    line by line, cancelling and completing a sale, and the inventory export.
    Every change of a product's stock is written to the inventory log, and the
    log explains the stock: a product's stock is its opening stock plus the
    changes logged for it. */
module Inventory {
  import opened Http
  import opened Text

  datatype Product = Product(name: string, sku: string, category: string, price: int, stock: int, minStock: int)

  datatype Status = Pending | Completed | Cancelled

  datatype SaleItem = SaleItem(productId: int, quantity: int, unitPrice: int, totalPrice: int)

  datatype Sale = Sale(code: string, customerId: Option<int>, userId: int, totalAmount: int, discount: int, tax: int,
                       paymentMethod: Option<string>, notes: Option<string>, status: Status, items: seq<SaleItem>)

  datatype LogEntry = LogEntry(productId: int, changeType: Option<string>, quantityChange: int, previousQuantity: int,
                               newQuantity: int, reason: string, reference: Option<string>, userId: int)

  /** The real-time notifications the routes emit. */
  datatype Event =
    | InventoryUpdate(productId: int, productName: string, sku: string, change: int, newQuantity: int,
                      previousQuantity: int, reason: string, user: string)
    | LowStock(productId: int, productName: string, quantity: int, minStock: int)
    | SaleUpdate(saleCode: string, status: Status, user: string)

  const NotFoundPage := "Not Found"
  const NotEnoughStock := "Số lượng trong kho không đủ"
  const StockUpdated := "Đã cập nhật tồn kho thành công"
  const AlreadyCancelled := "Đơn hàng đã bị hủy trước đó"
  const SaleCancelled := "Đơn hàng đã được hủy"
  const AlreadyCompleted := "Đơn hàng đã hoàn thành trước đó"
  const SaleCompleted := "Đơn hàng đã được xác nhận hoàn thành"

  /** A log entry's change is the difference of the quantities it records. */
  predicate Consistent(e: LogEntry)
  {
    e.quantityChange == e.newQuantity - e.previousQuantity
  }

  /** The sum of the changes logged for one product. */
  function LoggedChange(logs: seq<LogEntry>, pid: int): int
  {
    if logs == [] then 0
    else LoggedChange(logs[..|logs| - 1], pid)
         + (if logs[|logs| - 1].productId == pid then logs[|logs| - 1].quantityChange else 0)
  }

  lemma LoggedChangeAppend(logs: seq<LogEntry>, e: LogEntry, pid: int)
    ensures LoggedChange(logs + [e], pid) == LoggedChange(logs, pid) + (if e.productId == pid then e.quantityChange else 0)
  {
    assert (logs + [e])[..|logs|] == logs;
  }

  lemma {:induction false} LoggedChangeConcat(a: seq<LogEntry>, b: seq<LogEntry>, pid: int)
    ensures LoggedChange(a + b, pid) == LoggedChange(a, pid) + LoggedChange(b, pid)
    decreases |b|
  {
    if b == [] {
      assert a + b == a;
    } else {
      var init := b[..|b| - 1];
      assert a + b == (a + init) + [b[|b| - 1]];
      LoggedChangeAppend(a + init, b[|b| - 1], pid);
      LoggedChangeConcat(a, init, pid);
    }
  }

  /** Every product's stock is its opening stock plus its logged changes. */
  ghost predicate Explained(products: map<int, Product>, opening: map<int, int>, logs: seq<LogEntry>)
  {
    && products.Keys == opening.Keys
    && forall pid :: pid in products ==> products[pid].stock == opening[pid] + LoggedChange(logs, pid)
  }

  /** Setting one product's stock and logging that change keeps the log
      explaining the stock. */
  lemma RecordChange(products: map<int, Product>, opening: map<int, int>, logs: seq<LogEntry>, pid: int, n: int, e: LogEntry)
    requires Explained(products, opening, logs) && pid in products
    requires e.productId == pid && e.quantityChange == n - products[pid].stock
    ensures Explained(products[pid := products[pid].(stock := n)], opening, logs + [e])
  {
    forall q | q in products
      ensures LoggedChange(logs + [e], q) == LoggedChange(logs, q) + (if q == pid then n - products[pid].stock else 0)
    {
      LoggedChangeAppend(logs, e, q);
    }
  }

  // ---------------------------------------------------------------------
  // adjust_inventory

  /** The new stock for an adjustment of `quantity` of the given type, or None
      when a decrease asks for more than is in stock. An absent or unknown type
      overwrites the stock. */
  function Adjusted(previous: int, changeType: Option<string>, quantity: int): (r: Option<int>)
    ensures changeType == Some("increase") || changeType == Some("return") ==> r == Some(previous + quantity)
    ensures changeType == Some("decrease") ==> (r.None? <==> previous < quantity)
    ensures changeType == Some("decrease") && r.Some? ==> r.value == previous - quantity && r.value >= 0
    ensures changeType !in {Some("increase"), Some("return"), Some("decrease")} ==> r == Some(quantity)
  {
    if changeType == Some("increase") || changeType == Some("return") then Some(previous + quantity)
    else if changeType == Some("decrease") then
      if previous < quantity then None else Some(previous - quantity)
    else Some(quantity)
  }

  /** A decrease that was allowed is undone by an increase of the same size. */
  lemma DecreaseThenIncrease(previous: int, quantity: int)
    requires Adjusted(previous, Some("decrease"), quantity).Some?
    ensures Adjusted(Adjusted(previous, Some("decrease"), quantity).value, Some("increase"), quantity) == Some(previous)
  {
  }

  /** An overwrite does not depend on the stock before it, so repeating it
      changes nothing. */
  lemma AdjustmentIdempotent(previous: int, quantity: int)
    ensures Adjusted(Adjusted(previous, Some("adjustment"), quantity).value, Some("adjustment"), quantity)
            == Adjusted(previous, Some("adjustment"), quantity)
  {
  }

  // ---------------------------------------------------------------------
  // stock moved by the lines of a sale

  /** The stock of line's product moved by dir * quantity; a line whose
      product no longer exists moves nothing. */
  function ShiftOne(products: map<int, Product>, item: SaleItem, dir: int): map<int, Product>
  {
    if item.productId in products then
      products[item.productId := products[item.productId].(stock := products[item.productId].stock + dir * item.quantity)]
    else products
  }

  /** The stock after moving every line of a sale in turn: dir -1 when the
      sale is made, +1 when it is cancelled. */
  function StockShift(products: map<int, Product>, items: seq<SaleItem>, dir: int): (r: map<int, Product>)
    ensures r.Keys == products.Keys
  {
    if items == [] then products
    else ShiftOne(StockShift(products, items[..|items| - 1], dir), items[|items| - 1], dir)
  }

  /** Units of one product across the lines of a sale. */
  function QuantityOf(items: seq<SaleItem>, pid: int): int
  {
    if items == [] then 0
    else QuantityOf(items[..|items| - 1], pid) + (if items[|items| - 1].productId == pid then items[|items| - 1].quantity else 0)
  }

  /** Moving the lines changes each product's stock by dir times its units
      on the sale, and nothing else about it. */
  lemma {:induction false} StockShiftEffect(products: map<int, Product>, items: seq<SaleItem>, dir: int, pid: int)
    requires pid in products
    ensures StockShift(products, items, dir)[pid] ==
            products[pid].(stock := products[pid].stock + dir * QuantityOf(items, pid))
  {
    if items != [] {
      StockShiftEffect(products, items[..|items| - 1], dir, pid);
    }
  }

  /** Cancelling puts back exactly what the sale took: moving the same lines
      back restores every product. */
  lemma CancelUndoesSale(products: map<int, Product>, items: seq<SaleItem>)
    ensures StockShift(StockShift(products, items, -1), items, 1) == products
  {
    var taken := StockShift(products, items, -1);
    var back := StockShift(taken, items, 1);
    forall pid | pid in products
      ensures back[pid] == products[pid]
    {
      StockShiftEffect(products, items, -1, pid);
      StockShiftEffect(taken, items, 1, pid);
    }
  }

  /** The log entries written while moving the lines, one per line whose
      product exists, each recording the stock just before and after it. */
  function ShiftLogs(products: map<int, Product>, items: seq<SaleItem>, dir: int, changeType: string,
                     reason: string, reference: Option<string>, userId: int): (r: seq<LogEntry>)
    ensures |r| <= |items|
    ensures forall k :: 0 <= k < |r| ==> Consistent(r[k]) && r[k].changeType == Some(changeType) && r[k].reason == reason
  {
    if items == [] then []
    else
      var init := items[..|items| - 1];
      var item := items[|items| - 1];
      var before := StockShift(products, init, dir);
      ShiftLogs(products, init, dir, changeType, reason, reference, userId)
      + if item.productId in before then
          [LogEntry(item.productId, Some(changeType), dir * item.quantity, before[item.productId].stock,
                    before[item.productId].stock + dir * item.quantity, reason, reference, userId)]
        else []
  }

  /** The log written while moving the lines accounts for each product's
      change of stock. */
  lemma {:induction false} ShiftLogsExplainStock(products: map<int, Product>, items: seq<SaleItem>, dir: int,
                                                 changeType: string, reason: string, reference: Option<string>,
                                                 userId: int, pid: int)
    requires pid in products
    ensures StockShift(products, items, dir)[pid].stock ==
            products[pid].stock + LoggedChange(ShiftLogs(products, items, dir, changeType, reason, reference, userId), pid)
  {
    if items != [] {
      var init := items[..|items| - 1];
      var item := items[|items| - 1];
      var before := StockShift(products, init, dir);
      var logs := ShiftLogs(products, init, dir, changeType, reason, reference, userId);
      ShiftLogsExplainStock(products, init, dir, changeType, reason, reference, userId, pid);
      if item.productId in before {
        var e := LogEntry(item.productId, Some(changeType), dir * item.quantity, before[item.productId].stock,
                          before[item.productId].stock + dir * item.quantity, reason, reference, userId);
        LoggedChangeAppend(logs, e, pid);
      } else {
        assert logs + [] == logs;
      }
    }
  }

  /** Moving one more line: the definitions of StockShift and ShiftLogs
      unfolded at the end of the lines. */
  lemma ShiftStep(products: map<int, Product>, lines: seq<SaleItem>, line: SaleItem, dir: int, changeType: string,
                  reason: string, reference: Option<string>, userId: int)
    ensures var before := StockShift(products, lines, dir);
            && StockShift(products, lines + [line], dir) == ShiftOne(before, line, dir)
            && ShiftLogs(products, lines + [line], dir, changeType, reason, reference, userId) ==
               ShiftLogs(products, lines, dir, changeType, reason, reference, userId)
               + if line.productId in before then
                   [LogEntry(line.productId, Some(changeType), dir * line.quantity, before[line.productId].stock,
                             before[line.productId].stock + dir * line.quantity, reason, reference, userId)]
                 else []
  {
    assert (lines + [line])[..|lines|] == lines;
  }

  /** Moving a sale's lines and appending their log keeps the log explaining
      the stock, and keeps every entry consistent. */
  lemma ShiftKeepsLedger(products: map<int, Product>, opening: map<int, int>, logs: seq<LogEntry>, lines: seq<SaleItem>,
                         dir: int, changeType: string, reason: string, reference: Option<string>, userId: int)
    requires Explained(products, opening, logs)
    requires forall k :: 0 <= k < |logs| ==> Consistent(logs[k])
    ensures var added := ShiftLogs(products, lines, dir, changeType, reason, reference, userId);
            && Explained(StockShift(products, lines, dir), opening, logs + added)
            && forall k :: 0 <= k < |logs + added| ==> Consistent((logs + added)[k])
  {
    var added := ShiftLogs(products, lines, dir, changeType, reason, reference, userId);
    forall pid | pid in products
      ensures StockShift(products, lines, dir)[pid].stock == opening[pid] + LoggedChange(logs + added, pid)
    {
      ShiftLogsExplainStock(products, lines, dir, changeType, reason, reference, userId, pid);
      LoggedChangeConcat(logs, added, pid);
    }
    forall k | 0 <= k < |logs + added|
      ensures Consistent((logs + added)[k])
    {
      if k >= |logs| {
        assert (logs + added)[k] == added[k - |logs|];
      }
    }
  }

  // ---------------------------------------------------------------------
  // the status machine of cancel_sale and complete_sale

  datatype Op = Cancel | Complete

  /** One request as the routes are written: (new status, stock restored?).
      A refused request leaves the status as it was. */
  function StepAsWritten(s: Status, op: Op): (r: (Status, bool))
    ensures r.1 <==> op == Cancel && s != Cancelled
    ensures op == Complete ==> r.0 == Completed
  {
    match op
    case Cancel => if s == Cancelled then (s, false) else (Cancelled, true)
    case Complete => if s == Completed then (s, false) else (Completed, false)
  }

  /** One request with completion of a cancelled sale refused as well. */
  function Step(s: Status, op: Op): (r: (Status, bool))
    ensures r.1 <==> op == Cancel && s != Cancelled
    ensures s == Cancelled ==> r.0 == Cancelled
  {
    match op
    case Cancel => if s == Cancelled then (s, false) else (Cancelled, true)
    case Complete => if s == Completed || s == Cancelled then (s, false) else (Completed, false)
  }

  /** How many times a run of requests puts the sale's stock back. */
  function RestocksAsWritten(s: Status, ops: seq<Op>): nat
    decreases |ops|
  {
    if ops == [] then 0
    else var (t, restocked) := StepAsWritten(s, ops[0]); (if restocked then 1 else 0) + RestocksAsWritten(t, ops[1..])
  }

  function Restocks(s: Status, ops: seq<Op>): nat
    decreases |ops|
  {
    if ops == [] then 0
    else var (t, restocked) := Step(s, ops[0]); (if restocked then 1 else 0) + Restocks(t, ops[1..])
  }

  /** As written, cancel, complete, cancel puts a sale's stock back twice. */
  lemma CancelCompleteCancelRestocksTwice()
    ensures RestocksAsWritten(Completed, [Cancel, Complete, Cancel]) == 2
  {
    assert [Cancel, Complete, Cancel][1..] == [Complete, Cancel];
    assert [Complete, Cancel][1..] == [Cancel];
  }

  /** With the corrected completion, a cancelled sale stays cancelled. */
  lemma {:induction false} CancelledStaysCancelled(ops: seq<Op>)
    ensures Restocks(Cancelled, ops) == 0
    decreases |ops|
  {
    if ops != [] {
      CancelledStaysCancelled(ops[1..]);
    }
  }

  /** With the corrected completion, no run of requests puts a sale's stock
      back more than once. */
  lemma {:induction false} RestockedAtMostOnce(s: Status, ops: seq<Op>)
    ensures Restocks(s, ops) <= 1
    ensures s == Cancelled ==> Restocks(s, ops) == 0
    decreases |ops|
  {
    if ops != [] {
      var (t, restocked) := Step(s, ops[0]);
      if restocked {
        CancelledStaysCancelled(ops[1..]);
      } else {
        RestockedAtMostOnce(t, ops[1..]);
      }
    }
  }

  // ---------------------------------------------------------------------
  // new_sale

  /** One line of the submitted cart. */
  datatype ItemInput = ItemInput(productId: int, quantity: int, unitPrice: int)

  /** The stored line: its total is quantity times unit price. */
  function Line(i: ItemInput): (s: SaleItem)
    ensures s.productId == i.productId && s.quantity == i.quantity && s.unitPrice == i.unitPrice
    ensures s.totalPrice == i.quantity * i.unitPrice
  {
    SaleItem(i.productId, i.quantity, i.unitPrice, i.quantity * i.unitPrice)
  }

  predicate Priced(items: seq<SaleItem>)
  {
    forall k :: 0 <= k < |items| ==> items[k].totalPrice == items[k].quantity * items[k].unitPrice
  }

  /** The stored lines of a submitted cart, in order. */
  function Lines(items: seq<ItemInput>): (r: seq<SaleItem>)
    ensures |r| == |items|
  {
    if items == [] then [] else Lines(items[..|items| - 1]) + [Line(items[|items| - 1])]
  }

  /** Line k of the stored sale is submitted line k, priced. */
  lemma {:induction false} LinesPriced(items: seq<ItemInput>)
    ensures forall k :: 0 <= k < |items| ==> Lines(items)[k] == Line(items[k])
    ensures Priced(Lines(items))
  {
    if items != [] {
      LinesPriced(items[..|items| - 1]);
    }
  }

  // ---------------------------------------------------------------------
  // export_inventory

  const OutOfStock := "Hết hàng"
  const RunningLow := "Sắp hết"
  const InStock := "Đủ hàng"

  /** The status column: out of stock at exactly zero, running low at or
      below the product's minimum, otherwise in stock. */
  function StockLabel(p: Product): (status: string)
    ensures status == OutOfStock <==> p.stock == 0
    ensures status == RunningLow <==> p.stock != 0 && p.stock <= p.minStock
    ensures status == InStock <==> p.stock != 0 && p.stock > p.minStock
  {
    assert OutOfStock[0] != RunningLow[0] && OutOfStock[0] != InStock[0] && RunningLow[0] != InStock[0];
    if p.stock == 0 then OutOfStock else if p.stock <= p.minStock then RunningLow else InStock
  }

  /** An empty product is out of stock even when its minimum is negative,
      and a negative stock at or below the minimum counts as running low. */
  lemma StockLabelBoundaries(p: Product)
    ensures StockLabel(p.(stock := 0, minStock := -1)) == OutOfStock
    ensures StockLabel(p.(stock := -3, minStock := 0)) == RunningLow
    ensures StockLabel(p.(stock := 5, minStock := 5)) == RunningLow
    ensures StockLabel(p.(stock := 6, minStock := 5)) == InStock
  {
  }

  datatype ExportRow = ExportRow(name: string, sku: string, category: string, price: int, stock: int, minStock: int,
                                 status: string, value: int)

  /** One row of the export: the product's columns, its status and the value
      of its stock. */
  function Row(p: Product): (r: ExportRow)
    ensures r.name == p.name && r.sku == p.sku && r.category == p.category
    ensures r.price == p.price && r.stock == p.stock && r.minStock == p.minStock
    ensures r.status == StockLabel(p)
    ensures r.value == p.stock * p.price
  {
    ExportRow(p.name, p.sku, p.category, p.price, p.stock, p.minStock, StockLabel(p), p.stock * p.price)
  }

  /** The rows of the export, one per product in the order given. */
  function Rows(products: seq<Product>): (r: seq<ExportRow>)
    ensures |r| == |products|
  {
    if products == [] then [] else [Row(products[0])] + Rows(products[1..])
  }

  lemma {:induction false} RowsInOrder(products: seq<Product>)
    ensures forall k :: 0 <= k < |products| ==> Rows(products)[k] == Row(products[k])
  {
    if products != [] {
      RowsInOrder(products[1..]);
    }
  }

  /** `sum(p.stock_quantity * p.price for p in products)`. */
  function TotalValue(products: seq<Product>): int
  {
    if products == [] then 0 else products[0].stock * products[0].price + TotalValue(products[1..])
  }

  /** The sum of the value column. */
  function SumValues(rows: seq<ExportRow>): int
  {
    if rows == [] then 0 else rows[0].value + SumValues(rows[1..])
  }

  /** The reported total is the sum of the rows shown. */
  lemma {:induction false} TotalValueIsSumOfRows(products: seq<Product>)
    ensures TotalValue(products) == SumValues(Rows(products))
  {
    if products != [] {
      TotalValueIsSumOfRows(products[1..]);
    }
  }

  /** With no negative stock or price, the total is at least the value of
      any one product. */
  lemma {:induction false} TotalValueBoundsEachProduct(products: seq<Product>, k: nat)
    requires forall j :: 0 <= j < |products| ==> products[j].stock >= 0 && products[j].price >= 0
    requires k < |products|
    ensures TotalValue(products) >= products[k].stock * products[k].price
    ensures TotalValue(products) >= 0
  {
    if k == 0 {
      TotalValueNonNegative(products[1..]);
    } else {
      TotalValueBoundsEachProduct(products[1..], k - 1);
    }
  }

  lemma {:induction false} TotalValueNonNegative(products: seq<Product>)
    requires forall j :: 0 <= j < |products| ==> products[j].stock >= 0 && products[j].price >= 0
    ensures TotalValue(products) >= 0
  {
    if products != [] {
      TotalValueNonNegative(products[1..]);
    }
  }

  datatype InventoryExport = InventoryExport(data: seq<ExportRow>, totalProducts: int, totalValue: int)

  /** GET /api/inventory/export over the products as the query lists them
      (by name): one row per product, their count and their total value. */
  function ExportInventory(products: seq<Product>): (r: InventoryExport)
    ensures |r.data| == r.totalProducts == |products|
    ensures forall k :: 0 <= k < |products| ==> r.data[k] == Row(products[k])
    ensures r.totalValue == SumValues(r.data)
  {
    RowsInOrder(products);
    TotalValueIsSumOfRows(products);
    InventoryExport(Rows(products), |products|, TotalValue(products))
  }

  /** `order` names every product of the catalogue exactly once: the order
      the query lists the table in. */
  predicate ListsEachOnce(order: seq<int>, catalogue: map<int, Product>)
  {
    && (forall k :: 0 <= k < |order| ==> order[k] in catalogue)
    && (forall i, j :: 0 <= i < j < |order| ==> order[i] != order[j])
    && (forall id :: id in catalogue ==> id in order)
  }

  /** The products of the catalogue in the order given. */
  function Listed(order: seq<int>, catalogue: map<int, Product>): (r: seq<Product>)
    requires forall k :: 0 <= k < |order| ==> order[k] in catalogue
    ensures |r| == |order|
    ensures forall k :: 0 <= k < |order| ==> r[k] == catalogue[order[k]]
  {
    if order == [] then [] else [catalogue[order[0]]] + Listed(order[1..], catalogue)
  }

  /** A listing that names each product once has as many entries as the
      catalogue has products. */
  lemma {:induction false} ListingCount(order: seq<int>, catalogue: map<int, Product>)
    requires ListsEachOnce(order, catalogue)
    ensures |order| == |catalogue|
  {
    if order == [] {
      assert forall id :: id !in catalogue;
      assert catalogue.Keys == {};
    } else {
      var first, rest := order[0], catalogue - {order[0]};
      assert rest.Keys == catalogue.Keys - {first};
      forall id | id in rest ensures id in order[1..] {
        assert id in order && id != first;
        var k :| 0 <= k < |order| && order[k] == id;
        assert order[1..][k - 1] == id;
      }
      ListingCount(order[1..], rest);
    }
  }

  /** The export over a listing of the whole catalogue counts the
      catalogue's products. */
  lemma ExportCountsCatalogue(order: seq<int>, catalogue: map<int, Product>)
    requires ListsEachOnce(order, catalogue)
    ensures ExportInventory(Listed(order, catalogue)).totalProducts == |catalogue|
  {
    ListingCount(order, catalogue);
  }

  /** The export over a listing of the whole catalogue has a row for every
      product, found at that product's place in the listing, and no other. */
  lemma ExportCoversCatalogue(order: seq<int>, catalogue: map<int, Product>)
    requires ListsEachOnce(order, catalogue)
    ensures var data := ExportInventory(Listed(order, catalogue)).data;
            && |data| == |order|
            && (forall k :: 0 <= k < |data| ==> data[k] == Row(catalogue[order[k]]))
            && (forall id :: id in catalogue ==> exists k :: 0 <= k < |data| && order[k] == id && data[k] == Row(catalogue[id]))
  {
    var data := ExportInventory(Listed(order, catalogue)).data;
    forall id | id in catalogue
      ensures exists k :: 0 <= k < |data| && order[k] == id && data[k] == Row(catalogue[id])
    {
      var k :| 0 <= k < |order| && order[k] == id;
      assert data[k] == Row(catalogue[order[k]]);
    }
  }

  // ---------------------------------------------------------------------
  // the shop

  class Shop {
    var products: map<int, Product>
    var sales: map<int, Sale>
    var logs: seq<LogEntry>
    var events: seq<Event>
    var nextSaleId: int
    /** Each product's stock when the shop was opened. */
    ghost var opening: map<int, int>

    ghost predicate Valid()
      reads this
    {
      && Explained(products, opening, logs)
      && (forall k :: 0 <= k < |logs| ==> Consistent(logs[k]))
      && (forall id :: id in sales ==> id < nextSaleId && Priced(sales[id].items))
    }

    constructor (catalogue: map<int, Product>)
      ensures Valid()
      ensures products == catalogue && sales == map[] && logs == [] && events == [] && nextSaleId == 1
    {
      products := catalogue;
      sales := map[];
      logs := [];
      events := [];
      nextSaleId := 1;
      opening := map pid | pid in catalogue :: catalogue[pid].stock;
    }

    /** GET /api/inventory/export over the shop's own products, `order`
        being the order the query returns them in: one row for each product
        of the shop, their count and their total value. */
    function Export(order: seq<int>): (r: InventoryExport)
      reads this
      requires ListsEachOnce(order, products)
      ensures r.totalProducts == |products| && |r.data| == |order|
      ensures r.totalValue == SumValues(r.data)
      ensures forall id :: id in products ==> exists k :: 0 <= k < |r.data| && order[k] == id && r.data[k] == Row(products[id])
    {
      ExportCountsCatalogue(order, products);
      ExportCoversCatalogue(order, products);
      ExportInventory(Listed(order, products))
    }

    /** POST /api/inventory/adjust. An unknown product is a 404 and a
        decrease beyond the stock a 400, both changing nothing; otherwise the
        stock is set, the change logged, an update event emitted, and a
        low-stock event as well exactly when the new stock is at or below the
        product's minimum. */
    method AdjustInventory(productId: Option<int>, changeType: Option<string>, quantity: int, reason: string,
                           userId: int, username: string) returns (r: Reply<int>)
      requires Valid()
      modifies this
      ensures Valid()
      ensures sales == old(sales) && nextSaleId == old(nextSaleId)
      ensures productId.None? || productId.value !in old(products) ==> r == Failure(404, NotFoundPage) && unchanged(this)
      ensures productId.Some? && productId.value in old(products) &&
              Adjusted(old(products)[productId.value].stock, changeType, quantity).None? ==>
                r == Failure(400, NotEnoughStock) && unchanged(this)
      ensures r.Success? ==>
                var pid := productId.value;
                var p := old(products)[pid];
                var n := Adjusted(p.stock, changeType, quantity).value;
                && r == Success(200, n)
                && products == old(products)[pid := p.(stock := n)]
                && logs == old(logs) + [LogEntry(pid, changeType, n - p.stock, p.stock, n, reason, None, userId)]
                && events == old(events) + [InventoryUpdate(pid, p.name, p.sku, n - p.stock, n, p.stock, reason, username)]
                                         + (if n <= p.minStock then [LowStock(pid, p.name, n, p.minStock)] else [])
      ensures r.Success? <==> productId.Some? && productId.value in old(products) &&
                              Adjusted(old(products)[productId.value].stock, changeType, quantity).Some?
    {
      if productId.None? || productId.value !in products {
        return Failure(404, NotFoundPage);
      }
      var pid := productId.value;
      var p := products[pid];
      var previous := p.stock;
      var newQuantity;
      if changeType == Some("increase") || changeType == Some("return") {
        newQuantity := previous + quantity;
      } else if changeType == Some("decrease") {
        if previous < quantity {
          return Failure(400, NotEnoughStock);
        }
        newQuantity := previous - quantity;
      } else {
        newQuantity := quantity;
      }
      SetStock(pid, newQuantity, changeType, reason, userId, username);
      r := Success(200, newQuantity);
    }

    /** The effect of an accepted adjustment: the stock is set, the change
        logged, and the update event emitted, followed by the low-stock event
        when the new stock is at or below the product's minimum. */
    method SetStock(pid: int, n: int, changeType: Option<string>, reason: string, userId: int, username: string)
      requires Valid() && pid in products
      modifies this
      ensures Valid()
      ensures sales == old(sales) && nextSaleId == old(nextSaleId)
      ensures var p := old(products)[pid];
              && products == old(products)[pid := p.(stock := n)]
              && logs == old(logs) + [LogEntry(pid, changeType, n - p.stock, p.stock, n, reason, None, userId)]
              && events == old(events) + [InventoryUpdate(pid, p.name, p.sku, n - p.stock, n, p.stock, reason, username)]
                                       + (if n <= p.minStock then [LowStock(pid, p.name, n, p.minStock)] else [])
    {
      var p := products[pid];
      var entry := LogEntry(pid, changeType, n - p.stock, p.stock, n, reason, None, userId);
      RecordChange(products, opening, logs, pid, n, entry);
      var update := InventoryUpdate(pid, p.name, p.sku, n - p.stock, n, p.stock, reason, username);
      var warning := if n <= p.minStock then [LowStock(pid, p.name, n, p.minStock)] else [];
      products, logs, events := products[pid := p.(stock := n)], logs + [entry], events + [update] + warning;
    }

    /** POST /api/sale/<id>/cancel. An unknown sale is a 404 and a sale
        already cancelled a 400, both changing nothing; otherwise every line
        whose product still exists puts its quantity back and is logged as a
        return, and the sale becomes cancelled. */
    method CancelSale(id: int, userId: int, username: string) returns (r: Reply<string>)
      requires Valid()
      modifies this
      ensures Valid()
      ensures nextSaleId == old(nextSaleId)
      ensures id !in old(sales) ==> r == Failure(404, NotFoundPage) && unchanged(this)
      ensures id in old(sales) && old(sales)[id].status == Cancelled ==> r == Failure(400, AlreadyCancelled) && unchanged(this)
      ensures id in old(sales) ==> (r.Success? <==> Step(old(sales)[id].status, Cancel).1)
      ensures r.Success? ==>
                var s := old(sales)[id];
                && r == Success(200, SaleCancelled)
                && sales == old(sales)[id := s.(status := Step(s.status, Cancel).0)]
                && products == StockShift(old(products), s.items, 1)
                && logs == old(logs) + ShiftLogs(old(products), s.items, 1, "return", "Hủy đơn hàng #" + s.code,
                                                 Some(IntToString(id)), userId)
                && events == old(events) + [SaleUpdate(s.code, Cancelled, username)]
    {
      if id !in sales {
        return Failure(404, NotFoundPage);
      }
      var sale := sales[id];
      if sale.status == Cancelled {
        return Failure(400, AlreadyCancelled);
      }
      var reason := "Hủy đơn hàng #" + sale.code;
      var reference := Some(IntToString(id));
      ShiftKeepsLedger(products, opening, logs, sale.items, 1, "return", reason, reference, userId);
      RestoreLines(sale.items, reason, reference, userId);
      sales := sales[id := sale.(status := Cancelled)];
      events := events + [SaleUpdate(sale.code, Cancelled, username)];
      r := Success(200, SaleCancelled);
    }

    /** POST /api/sale/<id>/complete, refusing a sale that is already
        completed and, unlike the route as written, one that was cancelled. */
    method CompleteSale(id: int) returns (r: Reply<string>)
      requires Valid()
      modifies this
      ensures Valid()
      ensures products == old(products) && logs == old(logs) && events == old(events) && nextSaleId == old(nextSaleId)
      ensures id !in old(sales) ==> r == Failure(404, NotFoundPage) && unchanged(this)
      ensures id in old(sales) && old(sales)[id].status == Completed ==> r == Failure(400, AlreadyCompleted) && unchanged(this)
      ensures id in old(sales) && old(sales)[id].status == Cancelled ==> r == Failure(400, AlreadyCancelled) && unchanged(this)
      ensures id in old(sales) && old(sales)[id].status == Pending ==>
                r == Success(200, SaleCompleted) && sales == old(sales)[id := old(sales)[id].(status := Completed)]
      ensures id in old(sales) ==> id in sales && sales[id].status == Step(old(sales)[id].status, Complete).0
    {
      if id !in sales {
        return Failure(404, NotFoundPage);
      }
      var sale := sales[id];
      if sale.status == Completed {
        return Failure(400, AlreadyCompleted);
      }
      if sale.status == Cancelled {
        return Failure(400, AlreadyCancelled);
      }
      sales := sales[id := sale.(status := Completed)];
      r := Success(200, SaleCompleted);
    }

    /** The completion route as written: only an already completed sale is
        refused, so a cancelled sale is marked completed again while its
        stock stays restored. */
    method CompleteSaleAsWritten(id: int) returns (r: Reply<string>)
      requires Valid()
      modifies this
      ensures Valid()
      ensures products == old(products) && logs == old(logs) && events == old(events) && nextSaleId == old(nextSaleId)
      ensures id !in old(sales) ==> r == Failure(404, NotFoundPage) && unchanged(this)
      ensures id in old(sales) && old(sales)[id].status == Completed ==> r == Failure(400, AlreadyCompleted) && unchanged(this)
      ensures id in old(sales) && old(sales)[id].status != Completed ==>
                r == Success(200, SaleCompleted) && sales == old(sales)[id := old(sales)[id].(status := Completed)]
      ensures id in old(sales) ==> id in sales && sales[id].status == StepAsWritten(old(sales)[id].status, Complete).0
    {
      if id !in sales {
        return Failure(404, NotFoundPage);
      }
      var sale := sales[id];
      if sale.status == Completed {
        return Failure(400, AlreadyCompleted);
      }
      sales := sales[id := sale.(status := Completed)];
      r := Success(200, SaleCompleted);
    }

    /** POST /sale/new. The sale is stored with status completed and the
        submitted totals; each line is stored with total quantity times unit
        price, and each line whose product exists takes its quantity off the
        stock, with no check that the stock suffices, and is logged as
        stock out. `code` stands for the generated sale code. */
    method NewSale(code: string, customerId: Option<int>, userId: int, totalAmount: int, discount: int, tax: int,
                   paymentMethod: Option<string>, notes: Option<string>, items: seq<ItemInput>) returns (saleId: int)
      requires Valid()
      modifies this
      ensures Valid()
      ensures saleId == old(nextSaleId) && saleId !in old(sales) && nextSaleId == old(nextSaleId) + 1
      ensures sales == old(sales)[saleId := Sale(code, customerId, userId, totalAmount, discount, tax, paymentMethod, notes,
                                                 Completed, Lines(items))]
      ensures products == StockShift(old(products), Lines(items), -1)
      ensures logs == old(logs) + ShiftLogs(old(products), Lines(items), -1, "stock_out", "Sale #" + code,
                                            Some(IntToString(saleId)), userId)
      ensures events == old(events)
    {
      saleId := nextSaleId;
      nextSaleId := nextSaleId + 1;
      var sale := Sale(code, customerId, userId, totalAmount, discount, tax, paymentMethod, notes, Completed, []);
      sales := sales[saleId := sale];
      var reason := "Sale #" + code;
      var reference := Some(IntToString(saleId));
      ShiftKeepsLedger(products, opening, logs, Lines(items), -1, "stock_out", reason, reference, userId);
      var lines := RecordLines(items, reason, reference, userId);
      LinesPriced(items);
      sales := sales[saleId := sale.(items := lines)];
    }

    /** One pass of the line loops: when the line's product exists, its
        stock moves by dir times the quantity and the move is logged. */
    method MoveLine(ghost base: map<int, Product>, ghost baseLogs: seq<LogEntry>, ghost done: seq<SaleItem>,
                    line: SaleItem, dir: int, changeType: string, reason: string, reference: Option<string>, userId: int)
      requires products == StockShift(base, done, dir)
      requires logs == baseLogs + ShiftLogs(base, done, dir, changeType, reason, reference, userId)
      modifies this
      ensures products == StockShift(base, done + [line], dir)
      ensures logs == baseLogs + ShiftLogs(base, done + [line], dir, changeType, reason, reference, userId)
      ensures sales == old(sales) && events == old(events) && nextSaleId == old(nextSaleId) && opening == old(opening)
    {
      ShiftStep(base, done, line, dir, changeType, reason, reference, userId);
      ghost var written := ShiftLogs(base, done, dir, changeType, reason, reference, userId);
      if line.productId in products {
        var p := products[line.productId];
        var e := LogEntry(line.productId, Some(changeType), dir * line.quantity, p.stock, p.stock + dir * line.quantity,
                          reason, reference, userId);
        products := products[line.productId := p.(stock := p.stock + dir * line.quantity)];
        logs := logs + [e];
        assert logs == baseLogs + (written + [e]);
      } else {
        assert written + [] == written;
      }
    }

    /** The loop of the cancellation: each line whose product exists puts
        its quantity back and is logged as a return. */
    method RestoreLines(items: seq<SaleItem>, reason: string, reference: Option<string>, userId: int)
      modifies this
      ensures products == StockShift(old(products), items, 1)
      ensures logs == old(logs) + ShiftLogs(old(products), items, 1, "return", reason, reference, userId)
      ensures sales == old(sales) && events == old(events) && nextSaleId == old(nextSaleId) && opening == old(opening)
    {
      var i := 0;
      while i < |items|
        invariant 0 <= i <= |items|
        invariant products == StockShift(old(products), items[..i], 1)
        invariant logs == old(logs) + ShiftLogs(old(products), items[..i], 1, "return", reason, reference, userId)
        invariant sales == old(sales) && events == old(events) && nextSaleId == old(nextSaleId) && opening == old(opening)
      {
        MoveLine(old(products), old(logs), items[..i], items[i], 1, "return", reason, reference, userId);
        assert items[..i + 1] == items[..i] + [items[i]];
        i := i + 1;
      }
      assert items[..i] == items;
    }

    /** The loop of the new sale: each submitted line is stored, and each
        whose product exists takes its quantity off the stock and is logged
        as stock out. */
    method RecordLines(items: seq<ItemInput>, reason: string, reference: Option<string>, userId: int)
      returns (lines: seq<SaleItem>)
      modifies this
      ensures lines == Lines(items)
      ensures products == StockShift(old(products), lines, -1)
      ensures logs == old(logs) + ShiftLogs(old(products), lines, -1, "stock_out", reason, reference, userId)
      ensures sales == old(sales) && events == old(events) && nextSaleId == old(nextSaleId) && opening == old(opening)
    {
      lines := [];
      var i := 0;
      while i < |items|
        invariant 0 <= i <= |items|
        invariant lines == Lines(items[..i])
        invariant products == StockShift(old(products), lines, -1)
        invariant logs == old(logs) + ShiftLogs(old(products), lines, -1, "stock_out", reason, reference, userId)
        invariant sales == old(sales) && events == old(events) && nextSaleId == old(nextSaleId) && opening == old(opening)
      {
        var line := Line(items[i]);
        MoveLine(old(products), old(logs), lines, line, -1, "stock_out", reason, reference, userId);
        assert items[..i + 1][..i] == items[..i];
        lines := lines + [line];
        i := i + 1;
      }
      assert items[..i] == items;
    }
  }
}
