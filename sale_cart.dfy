/** The cart of the new-sale form in the browser: a list of lines, at most
    one per product, each carrying its quantity, unit price and line total,
    and the sale total shown under it. Every change to the cart recomputes
    the total and the JSON copy of the lines that the form submits.

    Numbers typed into the form are read with `parseInt` and `parseFloat`;
    here they arrive already read, None standing for NaN. Money is in whole
    cents. */
module SaleCart {
  import opened Http

  datatype CartItem = CartItem(productId: int, name: string, quantity: int, unitPrice: int, totalPrice: int)

  /** `saleItems.find(item => item.product_id === productId)`: the first line
      for the product. */
  function IndexOf(items: seq<CartItem>, pid: int): (r: Option<nat>)
    ensures r.Some? ==> r.value < |items| && items[r.value].productId == pid
    ensures r.Some? ==> forall k :: 0 <= k < r.value ==> items[k].productId != pid
    ensures r.None? ==> forall k :: 0 <= k < |items| ==> items[k].productId != pid
  {
    if items == [] then None
    else if items[0].productId == pid then Some(0)
    else match IndexOf(items[1..], pid)
      case None => None
      case Some(k) => Some(k + 1)
  }

  /** At most one line per product. */
  ghost predicate OnePerProduct(items: seq<CartItem>)
  {
    forall i, j :: 0 <= i < j < |items| ==> items[i].productId != items[j].productId
  }

  /** Every line total is its quantity times its unit price. */
  ghost predicate Priced(items: seq<CartItem>)
  {
    forall k :: 0 <= k < |items| ==> items[k].totalPrice == items[k].quantity * items[k].unitPrice
  }

  /** `saleItems.reduce((sum, item) => sum + item.total_price, 0)`. */
  function LinesTotal(items: seq<CartItem>): int
  {
    if items == [] then 0 else LinesTotal(items[..|items| - 1]) + items[|items| - 1].totalPrice
  }

  /** The amount the form submits: lines, less the discount, plus the tax. */
  function SaleTotal(items: seq<CartItem>, discount: int, tax: int): int
  {
    LinesTotal(items) - discount + tax
  }

  lemma {:induction false} LinesTotalConcat(a: seq<CartItem>, b: seq<CartItem>)
    ensures LinesTotal(a + b) == LinesTotal(a) + LinesTotal(b)
    decreases |b|
  {
    if b == [] {
      assert a + b == a;
    } else {
      var init := b[..|b| - 1];
      assert (a + b)[..|a + b| - 1] == a + init;
      LinesTotalConcat(a, init);
    }
  }

  /** The sum of the lines is the sum of those before line k, plus line k,
      plus the sum of those after it. */
  lemma LinesTotalAround(items: seq<CartItem>, k: nat)
    requires k < |items|
    ensures LinesTotal(items) == LinesTotal(items[..k]) + items[k].totalPrice + LinesTotal(items[k + 1..])
  {
    var upTo, after := items[..k + 1], items[k + 1..];
    assert items == upTo + after;
    LinesTotalConcat(upTo, after);
    assert upTo[..k] == items[..k];
  }

  /** Replacing one line changes the total by the difference of the two
      line totals. */
  lemma LinesTotalReplace(items: seq<CartItem>, k: nat, x: CartItem)
    requires k < |items|
    ensures LinesTotal(items[k := x]) == LinesTotal(items) - items[k].totalPrice + x.totalPrice
  {
    var changed := items[k := x];
    LinesTotalAround(items, k);
    LinesTotalAround(changed, k);
    assert changed[..k] == items[..k] && changed[k + 1..] == items[k + 1..];
  }

  /** `saleItems.filter(item => item.product_id !== productId)`. */
  function Without(items: seq<CartItem>, pid: int): (r: seq<CartItem>)
    ensures |r| <= |items|
  {
    if items == [] then []
    else (if items[0].productId != pid then [items[0]] else []) + Without(items[1..], pid)
  }

  /** Removing a product that has no line changes nothing. */
  lemma {:induction false} WithoutAbsent(items: seq<CartItem>, pid: int)
    requires forall k :: 0 <= k < |items| ==> items[k].productId != pid
    ensures Without(items, pid) == items
  {
    if items != [] {
      WithoutAbsent(items[1..], pid);
      assert [items[0]] + items[1..] == items;
    }
  }

  lemma OnePerProductTail(items: seq<CartItem>)
    requires OnePerProduct(items) && items != []
    ensures OnePerProduct(items[1..])
    ensures forall k :: 0 <= k < |items| - 1 ==> items[1..][k].productId != items[0].productId
  {
    var tail := items[1..];
    forall i, j | 0 <= i < j < |tail| ensures tail[i].productId != tail[j].productId {
      assert tail[i] == items[i + 1] && tail[j] == items[j + 1];
    }
    forall k | 0 <= k < |tail| ensures tail[k].productId != items[0].productId {
      assert tail[k] == items[k + 1];
    }
  }

  /** In a cart with one line per product, removing the product of line k
      drops exactly that line and keeps the others in order. */
  lemma {:induction false} WithoutDropsTheLine(items: seq<CartItem>, k: nat)
    requires OnePerProduct(items) && k < |items|
    ensures Without(items, items[k].productId) == items[..k] + items[k + 1..]
  {
    var pid := items[k].productId;
    var tail := items[1..];
    OnePerProductTail(items);
    if k == 0 {
      WithoutAbsent(tail, pid);
      assert Without(items, pid) == [] + tail;
      assert items[..k] + items[k + 1..] == tail;
    } else {
      assert items[0].productId != pid;
      assert tail[k - 1] == items[k];
      WithoutDropsTheLine(tail, k - 1);
      assert Without(items, pid) == [items[0]] + (tail[..k - 1] + tail[k..]);
      assert items[..k] == [items[0]] + tail[..k - 1];
      assert items[k + 1..] == tail[k..];
      assert [items[0]] + (tail[..k - 1] + tail[k..]) == ([items[0]] + tail[..k - 1]) + tail[k..];
    }
  }

  /** Removing the line at k lowers the total by that line's total. */
  lemma LinesTotalRemove(items: seq<CartItem>, k: nat)
    requires k < |items|
    ensures LinesTotal(items[..k] + items[k + 1..]) == LinesTotal(items) - items[k].totalPrice
  {
    LinesTotalAround(items, k);
    LinesTotalConcat(items[..k], items[k + 1..]);
  }

  /** One more unit on a priced line adds its unit price to its total. */
  lemma OneMoreUnit(line: CartItem)
    requires line.totalPrice == line.quantity * line.unitPrice
    ensures (line.quantity + 1) * line.unitPrice == line.totalPrice + line.unitPrice
  {
  }

  /** Repricing a line, keeping its product, keeps one priced line per
      product. */
  lemma ReplaceKeepsCart(items: seq<CartItem>, k: nat, x: CartItem)
    requires OnePerProduct(items) && Priced(items) && k < |items|
    requires x.productId == items[k].productId && x.totalPrice == x.quantity * x.unitPrice
    ensures OnePerProduct(items[k := x]) && Priced(items[k := x])
  {
  }

  /** A priced line for a product not yet in the cart can go at the end. */
  lemma AppendKeepsCart(items: seq<CartItem>, x: CartItem)
    requires OnePerProduct(items) && Priced(items)
    requires forall k :: 0 <= k < |items| ==> items[k].productId != x.productId
    requires x.totalPrice == x.quantity * x.unitPrice
    ensures OnePerProduct(items + [x]) && Priced(items + [x])
  {
  }

  /** Dropping a line keeps one priced line per product. */
  lemma DropKeepsCart(items: seq<CartItem>, k: nat)
    requires OnePerProduct(items) && Priced(items) && k < |items|
    ensures OnePerProduct(items[..k] + items[k + 1..]) && Priced(items[..k] + items[k + 1..])
  {
    var rest := items[..k] + items[k + 1..];
    forall i | 0 <= i < |rest|
      ensures rest[i] == items[if i < k then i else i + 1]
    {
    }
  }

  /** The cart of one new-sale page. */
  class Cart {
    var items: seq<CartItem>
    /** The discount and tax fields, as read. */
    var discount: int
    var tax: int
    /** The hidden total field and the hidden JSON copy of the lines. */
    var totalAmount: int
    var itemsInput: seq<CartItem>

    ghost predicate Valid()
      reads this
    {
      OnePerProduct(items) && Priced(items)
    }

    constructor (discount: int, tax: int)
      ensures Valid()
      ensures items == [] && this.discount == discount && this.tax == tax
    {
      items := [];
      this.discount := discount;
      this.tax := tax;
      totalAmount := 0;
      itemsInput := [];
    }

    /** `updateSaleTotal`: sums the line totals and writes the sale total
        and the copy of the lines into the form. */
    method UpdateSaleTotal()
      modifies this
      ensures totalAmount == SaleTotal(items, discount, tax) && itemsInput == items
      ensures items == old(items) && discount == old(discount) && tax == old(tax)
    {
      var total := 0;
      var i := 0;
      while i < |items|
        invariant 0 <= i <= |items|
        invariant total == LinesTotal(items[..i])
      {
        assert items[..i + 1][..i] == items[..i];
        total := total + items[i].totalPrice;
        i := i + 1;
      }
      assert items[..i] == items;
      totalAmount := total - discount + tax;
      itemsInput := items;
    }

    /** `addSaleItem`: a product already in the cart gets one more unit on
        its line, keeping the line's name and unit price; any other product
        gets a new last line of one unit at the given price. */
    method AddSaleItem(productId: int, name: string, price: int)
      requires Valid()
      modifies this
      ensures Valid()
      ensures discount == old(discount) && tax == old(tax)
      ensures IndexOf(old(items), productId).Some? ==>
                var k := IndexOf(old(items), productId).value;
                var line := old(items)[k];
                && items == old(items)[k := line.(quantity := line.quantity + 1,
                                                  totalPrice := (line.quantity + 1) * line.unitPrice)]
                && LinesTotal(items) == LinesTotal(old(items)) + line.unitPrice
      ensures IndexOf(old(items), productId).None? ==>
                && items == old(items) + [CartItem(productId, name, 1, price, price)]
                && LinesTotal(items) == LinesTotal(old(items)) + price
      ensures totalAmount == SaleTotal(items, discount, tax) && itemsInput == items
    {
      var found := IndexOf(items, productId);
      if found.Some? {
        var k := found.value;
        var line := items[k];
        var updated := line.(quantity := line.quantity + 1, totalPrice := (line.quantity + 1) * line.unitPrice);
        OneMoreUnit(line);
        LinesTotalReplace(items, k, updated);
        ReplaceKeepsCart(items, k, updated);
        items := items[k := updated];
      } else {
        var line := CartItem(productId, name, 1, price, price);
        LinesTotalConcat(items, [line]);
        AppendKeepsCart(items, line);
        assert LinesTotal([line]) == price;
        items := items + [line];
      }
      UpdateSaleTotal();
    }

    /** `updateItemQuantity`: a quantity that reads as 0 or as NaN becomes 1.
        An unknown product changes nothing, the total included. */
    method UpdateItemQuantity(productId: int, parsed: Option<int>)
      requires Valid()
      modifies this
      ensures Valid()
      ensures IndexOf(old(items), productId).None? ==> unchanged(this)
      ensures IndexOf(old(items), productId).Some? ==>
                var k := IndexOf(old(items), productId).value;
                var q := if parsed.None? || parsed.value == 0 then 1 else parsed.value;
                && items == old(items)[k := old(items)[k].(quantity := q, totalPrice := q * old(items)[k].unitPrice)]
                && totalAmount == SaleTotal(items, discount, tax) && itemsInput == items
                && discount == old(discount) && tax == old(tax)
    {
      var found := IndexOf(items, productId);
      if found.Some? {
        var k := found.value;
        var q := if parsed.None? || parsed.value == 0 then 1 else parsed.value;
        items := items[k := items[k].(quantity := q, totalPrice := q * items[k].unitPrice)];
        UpdateSaleTotal();
      }
    }

    /** `updateItemPrice`: a price that reads as NaN becomes 0. An unknown
        product changes nothing, the total included. */
    method UpdateItemPrice(productId: int, parsed: Option<int>)
      requires Valid()
      modifies this
      ensures Valid()
      ensures IndexOf(old(items), productId).None? ==> unchanged(this)
      ensures IndexOf(old(items), productId).Some? ==>
                var k := IndexOf(old(items), productId).value;
                var p := if parsed.None? then 0 else parsed.value;
                && items == old(items)[k := old(items)[k].(unitPrice := p, totalPrice := old(items)[k].quantity * p)]
                && totalAmount == SaleTotal(items, discount, tax) && itemsInput == items
                && discount == old(discount) && tax == old(tax)
    {
      var found := IndexOf(items, productId);
      if found.Some? {
        var k := found.value;
        var p := if parsed.None? then 0 else parsed.value;
        items := items[k := items[k].(unitPrice := p, totalPrice := items[k].quantity * p)];
        UpdateSaleTotal();
      }
    }

    /** `removeSaleItem`: the product's line goes, the others keep their
        order, and the total drops by that line's total. */
    method RemoveSaleItem(productId: int)
      requires Valid()
      modifies this
      ensures Valid()
      ensures discount == old(discount) && tax == old(tax)
      ensures IndexOf(old(items), productId).None? ==> items == old(items)
      ensures IndexOf(old(items), productId).Some? ==>
                var k := IndexOf(old(items), productId).value;
                && items == old(items)[..k] + old(items)[k + 1..]
                && LinesTotal(items) == LinesTotal(old(items)) - old(items)[k].totalPrice
      ensures totalAmount == SaleTotal(items, discount, tax) && itemsInput == items
    {
      var found := IndexOf(items, productId);
      if found.Some? {
        WithoutDropsTheLine(items, found.value);
        LinesTotalRemove(items, found.value);
        DropKeepsCart(items, found.value);
      } else {
        WithoutAbsent(items, productId);
      }
      items := Without(items, productId);
      UpdateSaleTotal();
    }

    /** The discount and tax fields' input listener: the new values are read
        and the total recomputed. */
    method EditAdjustments(discount: int, tax: int)
      requires Valid()
      modifies this
      ensures Valid()
      ensures items == old(items) && this.discount == discount && this.tax == tax
      ensures totalAmount == SaleTotal(items, discount, tax) && itemsInput == items
    {
      this.discount := discount;
      this.tax := tax;
      UpdateSaleTotal();
    }
  }
}
