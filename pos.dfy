/** The point-of-sale cart (pages/POS.tsx). Each cart rule is a pure
    previous-cart to next-cart function; the `Register` class holds the cart
    and replaces it with the rule's result, as the page does with `setCart`. */
module Pos {
  import opened Types

  // ---------------------------------------------------------------- lookups

  /** The first cart line for `productId`, as `Array.prototype.find` returns it. */
  function FindLine(cart: seq<SaleItem>, productId: string): (r: Option<SaleItem>)
    ensures r.None? <==> forall k :: 0 <= k < |cart| ==> cart[k].productId != productId
    ensures r.Some? ==> exists k :: 0 <= k < |cart| && cart[k] == r.value && FirstLineAt(cart, productId, k)
  {
    if cart == [] then None
    else if cart[0].productId == productId then
      assert FirstLineAt(cart, productId, 0);
      Some(cart[0])
    else
      var rest := FindLine(cart[1..], productId);
      assert rest.Some? ==> exists k :: 0 <= k < |cart[1..]| && cart[1..][k] == rest.value && FirstLineAt(cart[1..], productId, k);
      assert forall k :: 0 <= k < |cart[1..]| && FirstLineAt(cart[1..], productId, k) ==> FirstLineAt(cart, productId, k + 1);
      rest
  }

  /** Index `k` holds the first line of `cart` for `productId`. */
  predicate FirstLineAt(cart: seq<SaleItem>, productId: string, k: int)
  {
    0 <= k < |cart| && cart[k].productId == productId
    && forall j :: 0 <= j < k ==> cart[j].productId != productId
  }

  /** The first catalog product with id `id` (`products.find(p => p.id === id)`). */
  function FindProduct(products: seq<Product>, id: string): (r: Option<Product>)
    ensures r.None? <==> forall k :: 0 <= k < |products| ==> products[k].id != id
    ensures r.Some? ==> exists k :: 0 <= k < |products| && products[k] == r.value && FirstProductAt(products, id, k)
  {
    if products == [] then None
    else if products[0].id == id then
      assert FirstProductAt(products, id, 0);
      Some(products[0])
    else
      var rest := FindProduct(products[1..], id);
      assert rest.Some? ==> exists k :: 0 <= k < |products[1..]| && products[1..][k] == rest.value && FirstProductAt(products[1..], id, k);
      assert forall k :: 0 <= k < |products[1..]| && FirstProductAt(products[1..], id, k) ==> FirstProductAt(products, id, k + 1);
      rest
  }

  /** Index `k` holds the first product of `products` with id `id`. */
  predicate FirstProductAt(products: seq<Product>, id: string, k: int)
  {
    0 <= k < |products| && products[k].id == id
    && forall j :: 0 <= j < k ==> products[j].id != id
  }

  // ------------------------------------------------------------- invariants

  /** At most one line per product id. */
  predicate UniqueLines(cart: seq<SaleItem>)
  {
    forall i, j :: 0 <= i < j < |cart| ==> cart[i].productId != cart[j].productId
  }

  /** Every line has a positive quantity and subtotal == quantity * price. */
  predicate AllConsistent(cart: seq<SaleItem>)
  {
    forall k :: 0 <= k < |cart| ==> Consistent(cart[k])
  }

  /** No line asks for more than the stock of its product, wherever the catalog still has it. */
  predicate WithinStock(cart: seq<SaleItem>, products: seq<Product>)
  {
    forall k :: 0 <= k < |cart| && FindProduct(products, cart[k].productId).Some? ==>
      cart[k].quantity <= FindProduct(products, cart[k].productId).value.stock
  }

  /** `after` is the same line as `before` with only quantity and subtotal possibly changed:
      the id, name and the price and cost snapshots are kept. */
  predicate SameSnapshot(after: SaleItem, before: SaleItem)
  {
    after == before.(quantity := after.quantity, subtotal := after.subtotal)
  }

  // ------------------------------------------------------------ addToCart

  /** The line a first click on `product` creates. */
  function NewLine(product: Product): SaleItem
  {
    SaleItem(product.id, product.name, 1, product.sellingPrice, product.costPrice, product.sellingPrice)
  }

  /** One more unit on a line, its subtotal recomputed from the line's own price. */
  function Bump(line: SaleItem): SaleItem
  {
    line.(quantity := line.quantity + 1, subtotal := (line.quantity + 1) * line.price)
  }

  /** Every line for `productId` bumped by one, the others as they were. */
  function Increment(cart: seq<SaleItem>, productId: string): seq<SaleItem>
  {
    seq(|cart|, k requires 0 <= k < |cart| => if cart[k].productId == productId then Bump(cart[k]) else cart[k])
  }

  /** addToCart: the cart after one click on `product`. */
  function CartAfterAdd(cart: seq<SaleItem>, product: Product): (r: seq<SaleItem>)
    ensures |r| == |cart| + 1 <==> product.stock > 0 && forall k :: 0 <= k < |cart| ==> cart[k].productId != product.id
    ensures |r| != |cart| + 1 ==> |r| == |cart|
    ensures |r| == |cart| + 1 ==> r == cart + [NewLine(product)]
    ensures forall k :: 0 <= k < |cart| ==> SameSnapshot(r[k], cart[k])
    ensures UniqueLines(cart) ==> UniqueLines(r)
    ensures AllConsistent(cart) ==> AllConsistent(r)
  {
    if product.stock <= 0 then cart
    else match FindLine(cart, product.id)
      case Some(existing) =>
        if existing.quantity >= product.stock then cart else Increment(cart, product.id)
      case None => cart + [NewLine(product)]
  }

  /** A product that is out of stock is refused and the cart stays as it was. */
  lemma CartAfterAddOutOfStock(cart: seq<SaleItem>, product: Product)
    requires product.stock <= 0
    ensures CartAfterAdd(cart, product) == cart
  {
  }

  /** With a line for the product already present, a click either is refused
      (the line already holds the whole stock) or raises exactly that line by one. */
  lemma CartAfterAddExisting(cart: seq<SaleItem>, product: Product, k: int)
    requires UniqueLines(cart) && 0 <= k < |cart| && cart[k].productId == product.id
    requires product.stock > 0
    ensures cart[k].quantity >= product.stock ==> CartAfterAdd(cart, product) == cart
    ensures cart[k].quantity < product.stock ==>
      CartAfterAdd(cart, product) == cart[k := cart[k].(quantity := cart[k].quantity + 1,
                                                        subtotal := (cart[k].quantity + 1) * cart[k].price)]
  {
    var found := FindLine(cart, product.id);
    assert found == Some(cart[k]) by {
      var i :| 0 <= i < |cart| && cart[i] == found.value && FirstLineAt(cart, product.id, i);
      assert i == k;
    }
    if cart[k].quantity < product.stock {
      var r := CartAfterAdd(cart, product);
      assert r == Increment(cart, product.id);
      assert forall j :: 0 <= j < |cart| && j != k ==> cart[j].productId != product.id;
    }
  }

  /** A click keeps every line within the stock of its product, given that the
      clicked product is the catalog's entry for its id. */
  lemma CartAfterAddWithinStock(cart: seq<SaleItem>, products: seq<Product>, product: Product)
    requires FindProduct(products, product.id) == Some(product)
    requires UniqueLines(cart) && WithinStock(cart, products)
    ensures WithinStock(CartAfterAdd(cart, product), products)
  {
    var r := CartAfterAdd(cart, product);
    if product.stock > 0 && r != cart {
      match FindLine(cart, product.id)
      case Some(existing) =>
        var i :| 0 <= i < |cart| && cart[i] == existing && FirstLineAt(cart, product.id, i);
        assert existing.quantity < product.stock;
        forall k | 0 <= k < |r| && FindProduct(products, r[k].productId).Some?
          ensures r[k].quantity <= FindProduct(products, r[k].productId).value.stock
        {
          if k != i {
            assert cart[k].productId != product.id;
          }
        }
      case None =>
    }
  }

  // ------------------------------------------------------- removeFromCart

  /** removeFromCart: every line for `productId` dropped, the rest kept in order. */
  function CartAfterRemove(cart: seq<SaleItem>, productId: string): (r: seq<SaleItem>)
    ensures forall k :: 0 <= k < |r| ==> r[k].productId != productId
    ensures forall line :: line in cart && line.productId != productId ==> line in r
    ensures forall line :: line in r ==> line in cart
    ensures (forall k :: 0 <= k < |cart| ==> cart[k].productId != productId) ==> r == cart
    ensures UniqueLines(cart) ==> UniqueLines(r)
    ensures AllConsistent(cart) ==> AllConsistent(r)
  {
    if cart == [] then []
    else if cart[0].productId == productId then CartAfterRemove(cart[1..], productId)
    else [cart[0]] + CartAfterRemove(cart[1..], productId)
  }

  /** Removal works piecewise: it keeps the order of the surviving lines. */
  lemma {:induction false} CartAfterRemoveConcat(a: seq<SaleItem>, b: seq<SaleItem>, productId: string)
    ensures CartAfterRemove(a + b, productId) == CartAfterRemove(a, productId) + CartAfterRemove(b, productId)
  {
    if a == [] {
      assert a + b == b;
    } else {
      assert (a + b)[1..] == a[1..] + b;
      CartAfterRemoveConcat(a[1..], b, productId);
    }
  }

  /** Removal keeps every remaining line within stock. */
  lemma CartAfterRemoveWithinStock(cart: seq<SaleItem>, products: seq<Product>, productId: string)
    requires WithinStock(cart, products)
    ensures WithinStock(CartAfterRemove(cart, productId), products)
  {
    var r := CartAfterRemove(cart, productId);
    forall k | 0 <= k < |r| && FindProduct(products, r[k].productId).Some?
      ensures r[k].quantity <= FindProduct(products, r[k].productId).value.stock
    {
      assert r[k] in cart;
    }
  }

  // ------------------------------------------------------- updateQuantity

  function Max(a: int, b: int): int
  {
    if a >= b then a else b
  }

  /** The quantity a +/- button asks for: never below 1. */
  function RequestedQuantity(line: SaleItem, delta: int): (q: int)
    ensures q >= 1 && q >= line.quantity + delta
    ensures q == 1 || q == line.quantity + delta
  {
    Max(1, line.quantity + delta)
  }

  /** One matching line after the button: kept as it was when the catalog has
      the product and the requested quantity exceeds its stock, otherwise set
      to the requested quantity with the subtotal recomputed. */
  function Adjusted(line: SaleItem, prod: Option<Product>, delta: int): SaleItem
  {
    var newQty := RequestedQuantity(line, delta);
    if prod.Some? && newQty > prod.value.stock then line
    else line.(quantity := newQty, subtotal := newQty * line.price)
  }

  /** updateQuantity: every line for `productId` adjusted by `delta`. */
  function CartAfterUpdate(cart: seq<SaleItem>, products: seq<Product>, productId: string, delta: int): (r: seq<SaleItem>)
    ensures |r| == |cart|
    ensures forall k :: 0 <= k < |cart| ==> SameSnapshot(r[k], cart[k])
    ensures forall k :: 0 <= k < |cart| && cart[k].productId != productId ==> r[k] == cart[k]
    ensures UniqueLines(cart) ==> UniqueLines(r)
    ensures AllConsistent(cart) ==> AllConsistent(r)
    ensures WithinStock(cart, products) ==> WithinStock(r, products)
  {
    var prod := FindProduct(products, productId);
    seq(|cart|, k requires 0 <= k < |cart| =>
      if cart[k].productId == productId then Adjusted(cart[k], prod, delta) else cart[k])
  }

  /** What the button does to the line for `productId`: the floor of 1, the
      stock check when the catalog has the product, and no check when it does not. */
  lemma CartAfterUpdateLine(cart: seq<SaleItem>, products: seq<Product>, productId: string, delta: int, k: int)
    requires 0 <= k < |cart| && cart[k].productId == productId
    ensures var q := Max(1, cart[k].quantity + delta);
            var line := CartAfterUpdate(cart, products, productId, delta)[k];
            var prod := FindProduct(products, productId);
            && (prod.Some? && q > prod.value.stock ==> line == cart[k])
            && (prod.None? || q <= prod.value.stock ==> line.quantity == q && line.subtotal == q * line.price)
  {
  }

  // --------------------------------------------------------------- totals

  /** The cart total on screen: the sum of the line subtotals. For consistent
      lines it is the snapshot value, the sum of quantity * price. */
  function CartTotal(cart: seq<SaleItem>): (r: int)
    ensures AllConsistent(cart) ==> r == GrossValue(cart)
  {
    if cart == [] then 0 else cart[0].subtotal + CartTotal(cart[1..])
  }

  /** The cost of the cart: the sum of cost * quantity. For consistent lines,
      total minus cost is the snapshot margin. */
  function CartCost(cart: seq<SaleItem>): (r: int)
    ensures AllConsistent(cart) ==> CartTotal(cart) - r == Margin(cart)
  {
    if cart == [] then 0
    else
      var l := cart[0];
      assert l.quantity * (l.price - l.cost) == l.quantity * l.price - l.cost * l.quantity;
      l.cost * l.quantity + CartCost(cart[1..])
  }

  /** Appending a line adds its subtotal to the total and its cost * quantity to the cost. */
  lemma {:induction false} CartTotalsAppend(cart: seq<SaleItem>, line: SaleItem)
    ensures CartTotal(cart + [line]) == CartTotal(cart) + line.subtotal
    ensures CartCost(cart + [line]) == CartCost(cart) + line.cost * line.quantity
  {
    if cart == [] {
      assert cart + [line] == [line];
    } else {
      assert (cart + [line])[1..] == cart[1..] + [line];
      CartTotalsAppend(cart[1..], line);
    }
  }

  /** Sum of quantity * price from the price snapshots, independent of stored subtotals. */
  function GrossValue(cart: seq<SaleItem>): int
  {
    if cart == [] then 0 else cart[0].quantity * cart[0].price + GrossValue(cart[1..])
  }

  /** Sum of quantity * (price - cost): the margin the snapshots promise. */
  function Margin(cart: seq<SaleItem>): int
  {
    if cart == [] then 0 else cart[0].quantity * (cart[0].price - cart[0].cost) + Margin(cart[1..])
  }

  // ---------------------------------------------------------- handleCheckout

  /** The sale handleCheckout builds from the cart; `None` for an empty cart,
      where the page returns without doing anything. */
  function SaleOf(cart: seq<SaleItem>, id: string, timestamp: int): (r: Option<Sale>)
    ensures r.None? <==> cart == []
    ensures r.Some? ==> r.value.items == cart && r.value.id == id && r.value.timestamp == timestamp
    ensures r.Some? ==> r.value.totalAmount == CartTotal(cart) && r.value.totalCost == CartCost(cart)
    ensures r.Some? ==> ProfitIdentity(r.value)
  {
    if |cart| == 0 then None
    else
      var totalAmount := CartTotal(cart);
      var totalCost := CartCost(cart);
      Some(Sale(id, timestamp, cart, totalAmount, totalCost, totalAmount - totalCost))
  }

  /** With consistent lines, a sale's amount is the snapshot value of its lines
      and its profit is their snapshot margin. */
  lemma SaleTotalsFromSnapshots(cart: seq<SaleItem>, id: string, timestamp: int)
    requires AllConsistent(cart) && cart != []
    ensures SaleOf(cart, id, timestamp).value.totalAmount == GrossValue(cart)
    ensures SaleOf(cart, id, timestamp).value.totalProfit == Margin(cart)
  {
  }

  /** Adding a product the cart does not hold yet raises the total by its
      selling price and the cost by its cost price. */
  lemma CartTotalAfterAddNew(cart: seq<SaleItem>, product: Product)
    requires product.stock > 0 && FindLine(cart, product.id).None?
    ensures CartTotal(CartAfterAdd(cart, product)) == CartTotal(cart) + product.sellingPrice
    ensures CartCost(CartAfterAdd(cart, product)) == CartCost(cart) + product.costPrice
  {
    CartTotalsAppend(cart, NewLine(product));
  }

  /** Every click changes the cart total by the price snapshot of the line it
      touches, or not at all when it is refused. */
  lemma CartTotalAfterAdd(cart: seq<SaleItem>, product: Product, k: int)
    requires UniqueLines(cart) && AllConsistent(cart)
    requires 0 <= k < |cart| && cart[k].productId == product.id && product.stock > 0
    ensures cart[k].quantity >= product.stock ==> CartTotal(CartAfterAdd(cart, product)) == CartTotal(cart)
    ensures cart[k].quantity < product.stock ==>
      CartTotal(CartAfterAdd(cart, product)) == CartTotal(cart) + cart[k].price
  {
    CartAfterAddExisting(cart, product, k);
    if cart[k].quantity < product.stock {
      var line := cart[k];
      var bumped := Bump(line);
      CartTotalUpdate(cart, k, bumped);
      BumpAddsPrice(line);
    }
  }

  /** A bump raises a consistent line's subtotal by exactly its price. */
  lemma BumpAddsPrice(line: SaleItem)
    requires Consistent(line)
    ensures Bump(line).subtotal == line.subtotal + line.price
  {
    assert (line.quantity + 1) * line.price == line.quantity * line.price + line.price;
  }

  /** Replacing one line changes the cart total by the difference of the subtotals. */
  lemma {:induction false} CartTotalUpdate(cart: seq<SaleItem>, k: int, line: SaleItem)
    requires 0 <= k < |cart|
    ensures CartTotal(cart[k := line]) == CartTotal(cart) - cart[k].subtotal + line.subtotal
  {
    if k > 0 {
      assert cart[k := line][1..] == cart[1..][k - 1 := line];
      CartTotalUpdate(cart[1..], k - 1, line);
    } else {
      assert cart[k := line][1..] == cart[1..];
    }
  }

  // ------------------------------------------------------------ the page

  /** The POS page's cart state; `products` is the catalog the page receives. */
  class Register {
    var cart: seq<SaleItem>

    ghost predicate Valid()
      reads this
    {
      UniqueLines(cart) && AllConsistent(cart)
    }

    constructor ()
      ensures Valid() && cart == []
    {
      cart := [];
    }

    method AddToCart(product: Product)
      requires Valid()
      modifies this
      ensures Valid()
      ensures cart == CartAfterAdd(old(cart), product)
    {
      cart := CartAfterAdd(cart, product);
    }

    method RemoveFromCart(productId: string)
      requires Valid()
      modifies this
      ensures Valid()
      ensures cart == CartAfterRemove(old(cart), productId)
    {
      cart := CartAfterRemove(cart, productId);
    }

    method UpdateQuantity(products: seq<Product>, productId: string, delta: int)
      requires Valid()
      modifies this
      ensures Valid()
      ensures cart == CartAfterUpdate(old(cart), products, productId, delta)
    {
      cart := CartAfterUpdate(cart, products, productId, delta);
    }

    /** Builds the sale (id and timestamp come from the caller) and empties the cart. */
    method HandleCheckout(id: string, timestamp: int) returns (sale: Option<Sale>)
      requires Valid()
      modifies this
      ensures Valid() && cart == []
      ensures sale == SaleOf(old(cart), id, timestamp)
    {
      if |cart| == 0 {
        return None;
      }
      sale := SaleOf(cart, id, timestamp);
      cart := [];
    }
  }
}
