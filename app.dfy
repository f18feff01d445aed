/** The catalog and the sales ledger the application holds (App.tsx), the
    transitions that replace them, and the wiring of the POS page's checkout
    into `addSale`. */
module App {
  import opened Types
  import Pos
  import Ledger

  /** The catalog used when storage holds none: every product sells above its
      cost and starts above its low-stock threshold. */
  function InitialProducts(): (r: seq<Product>)
    ensures |r| == 4
    ensures forall k :: 0 <= k < |r| ==> r[k].costPrice < r[k].sellingPrice && r[k].minStock < r[k].stock
  {
    [ Product("1", "Minyak Goreng 1L", "MG001", "Sembako", 14000, 18000, 50, 10),
      Product("2", "Beras Pandan Wangi 5kg", "BR002", "Sembako", 65000, 75000, 20, 5),
      Product("3", "Gula Pasir 1kg", "GL003", "Sembako", 12500, 16000, 100, 20),
      Product("4", "Susu UHT 1L", "SS004", "Minuman", 15000, 21000, 15, 5) ]
  }

  /** No two products share an id. */
  predicate UniqueIds(products: seq<Product>)
  {
    forall i, j :: 0 <= i < j < |products| ==> products[i].id != products[j].id
  }

  /** No product has negative stock. */
  predicate StocksNonNegative(products: seq<Product>)
  {
    forall k :: 0 <= k < |products| ==> products[k].stock >= 0
  }

  /** The seed holds four products with ids "1" to "4", distinct, none of them
      short of stock. */
  lemma SeedCatalog()
    ensures |InitialProducts()| == 4
    ensures forall k :: 0 <= k < 4 ==> InitialProducts()[k].id == ["1", "2", "3", "4"][k]
    ensures UniqueIds(InitialProducts()) && StocksNonNegative(InitialProducts())
  {
  }

  /** With distinct ids, `find` on a product's id returns that product. */
  lemma {:induction false} FindProductUnique(products: seq<Product>, k: int)
    requires UniqueIds(products) && 0 <= k < |products|
    ensures Pos.FindProduct(products, products[k].id) == Some(products[k])
  {
    var found := Pos.FindProduct(products, products[k].id);
    var i :| 0 <= i < |products| && products[i] == found.value && Pos.FirstProductAt(products, products[k].id, i);
  }

  // ---------------------------------------------------------------- addSale

  /** A product after a sale: its stock lowered by the quantity of the sale's
      first line for it, if there is one. */
  function Decremented(product: Product, item: Option<SaleItem>): Product
  {
    match item
    case Some(line) => product.(stock := product.stock - line.quantity)
    case None => product
  }

  /** The catalog after `addSale`: each product decremented by its first
      matching sale line. No stock check is made. */
  function StockAfterSale(products: seq<Product>, items: seq<SaleItem>): (r: seq<Product>)
    ensures |r| == |products|
    ensures forall k :: 0 <= k < |r| ==> r[k] == products[k].(stock := r[k].stock)
    ensures forall k :: 0 <= k < |r| && (forall j :: 0 <= j < |items| ==> items[j].productId != products[k].id) ==>
      r[k] == products[k]
    ensures forall k, j :: 0 <= k < |r| && Pos.FirstLineAt(items, products[k].id, j) ==>
      r[k].stock == products[k].stock - items[j].quantity
  {
    seq(|products|, k requires 0 <= k < |products| => Decremented(products[k], Pos.FindLine(items, products[k].id)))
  }

  /** Nothing in `addSale` guards the stock: a line asking for more than the
      product holds drives its stock below zero. */
  lemma AddSaleHasNoStockCheck()
    ensures var product := Product("1", "Minyak Goreng 1L", "MG001", "Sembako", 14000, 18000, 2, 10);
            var line := SaleItem("1", "Minyak Goreng 1L", 5, 18000, 14000, 90000);
            StockAfterSale([product], [line])[0].stock == -3
  {
    var product := Product("1", "Minyak Goreng 1L", "MG001", "Sembako", 14000, 18000, 2, 10);
    var line := SaleItem("1", "Minyak Goreng 1L", 5, 18000, 14000, 90000);
    assert Pos.FirstLineAt([line], product.id, 0);
  }

  /** A sale built from a cart that is within stock never drives stock below
      zero, provided product ids are distinct (the cart's bound is checked
      against the first product with each id). */
  lemma CheckoutKeepsStockNonNegative(products: seq<Product>, cart: seq<SaleItem>)
    requires UniqueIds(products) && StocksNonNegative(products)
    requires Pos.WithinStock(cart, products)
    ensures StocksNonNegative(StockAfterSale(products, cart))
  {
    var r := StockAfterSale(products, cart);
    forall k | 0 <= k < |r|
      ensures r[k].stock >= 0
    {
      var found := Pos.FindLine(cart, products[k].id);
      if found.Some? {
        var j :| 0 <= j < |cart| && cart[j] == found.value && Pos.FirstLineAt(cart, products[k].id, j);
        FindProductUnique(products, k);
        assert cart[j].quantity <= products[k].stock;
      }
    }
  }

  /** The sale lines that name a product of the catalog. */
  function KnownItems(products: seq<Product>, items: seq<SaleItem>): (r: seq<SaleItem>)
    ensures forall line :: line in r ==> line in items && Pos.FindProduct(products, line.productId).Some?
  {
    if items == [] then []
    else if Pos.FindProduct(products, items[0].productId).Some? then [items[0]] + KnownItems(products, items[1..])
    else KnownItems(products, items[1..])
  }

  /** For an id of the catalog, dropping unknown lines does not change which
      line `find` returns. */
  lemma {:induction false} FindLineKnown(products: seq<Product>, items: seq<SaleItem>, id: string)
    requires Pos.FindProduct(products, id).Some?
    ensures Pos.FindLine(KnownItems(products, items), id) == Pos.FindLine(items, id)
  {
    if items != [] {
      FindLineKnown(products, items[1..], id);
      if Pos.FindProduct(products, items[0].productId).Some? {
        assert ([items[0]] + KnownItems(products, items[1..]))[1..] == KnownItems(products, items[1..]);
      }
    }
  }

  /** Sale lines for products not in the catalog have no effect on it. */
  lemma UnknownItemsIgnored(products: seq<Product>, items: seq<SaleItem>)
    ensures StockAfterSale(products, KnownItems(products, items)) == StockAfterSale(products, items)
  {
    forall k | 0 <= k < |products|
      ensures Pos.FindLine(KnownItems(products, items), products[k].id) == Pos.FindLine(items, products[k].id)
    {
      assert Pos.FindProduct(products, products[k].id).Some?;
      FindLineKnown(products, items, products[k].id);
    }
  }

  // ---------------------------------------------------------- updateProduct

  /** updateProduct: every product with the edited product's id replaced by it. */
  function CatalogAfterUpdate(products: seq<Product>, updated: Product): (r: seq<Product>)
    ensures |r| == |products|
    ensures forall k :: 0 <= k < |r| ==> r[k].id == products[k].id
    ensures forall k :: 0 <= k < |r| && products[k].id == updated.id ==> r[k] == updated
    ensures forall k :: 0 <= k < |r| && products[k].id != updated.id ==> r[k] == products[k]
    ensures Pos.FindProduct(products, updated.id).None? ==> r == products
    ensures UniqueIds(products) ==> UniqueIds(r)
  {
    seq(|products|, k requires 0 <= k < |products| => if products[k].id == updated.id then updated else products[k])
  }

  // ------------------------------------------------------------- addProduct

  /** addProduct: the new product appended at the end. */
  function CatalogAfterAdd(products: seq<Product>, added: Product): (r: seq<Product>)
    ensures |r| == |products| + 1 && r[..|products|] == products && r[|products|] == added
    ensures UniqueIds(products) && Pos.FindProduct(products, added.id).None? ==> UniqueIds(r)
  {
    products + [added]
  }

  /** No duplicate check: adding a product whose id is taken breaks distinctness of ids. */
  lemma CatalogAfterAddDuplicate(products: seq<Product>, added: Product)
    requires Pos.FindProduct(products, added.id).Some?
    ensures !UniqueIds(CatalogAfterAdd(products, added))
  {
    var r := CatalogAfterAdd(products, added);
    var i :| 0 <= i < |products| && products[i] == Pos.FindProduct(products, added.id).value
                                 && Pos.FirstProductAt(products, added.id, i);
    assert r[i].id == r[|products|].id;
  }

  // ---------------------------------------------------------- deleteProduct

  /** deleteProduct: every product with id `id` dropped, the rest kept in order. */
  function CatalogAfterDelete(products: seq<Product>, id: string): (r: seq<Product>)
    ensures forall k :: 0 <= k < |r| ==> r[k].id != id
    ensures forall p :: p in products && p.id != id ==> p in r
    ensures forall p :: p in r ==> p in products
    ensures Pos.FindProduct(products, id).None? ==> r == products
    ensures UniqueIds(products) ==> UniqueIds(r)
    ensures StocksNonNegative(products) ==> StocksNonNegative(r)
  {
    if products == [] then []
    else if products[0].id == id then CatalogAfterDelete(products[1..], id)
    else [products[0]] + CatalogAfterDelete(products[1..], id)
  }

  /** Deletion works piecewise: it keeps the order of the surviving products. */
  lemma {:induction false} CatalogAfterDeleteConcat(a: seq<Product>, b: seq<Product>, id: string)
    ensures CatalogAfterDelete(a + b, id) == CatalogAfterDelete(a, id) + CatalogAfterDelete(b, id)
  {
    if a == [] {
      assert a + b == b;
    } else {
      assert (a + b)[1..] == a[1..] + b;
      CatalogAfterDeleteConcat(a[1..], b, id);
    }
  }

  // --------------------------------------------------------- the application

  /** The application's state: the catalog and the ledger, newest sale first. */
  class Shop {
    var products: seq<Product>
    var sales: seq<Sale>

    /** Fresh storage: the seed catalog and an empty ledger. */
    constructor ()
      ensures products == InitialProducts() && sales == []
    {
      products := InitialProducts();
      sales := [];
    }

    /** addSale: the sale goes to the front of the ledger and the stock is decremented. */
    method AddSale(sale: Sale)
      modifies this
      ensures sales == [sale] + old(sales)
      ensures products == StockAfterSale(old(products), sale.items)
    {
      sales := [sale] + sales;
      products := StockAfterSale(products, sale.items);
    }

    /** updateProduct: only the catalog changes, so committed sales keep their totals. */
    method UpdateProduct(updated: Product)
      modifies this
      ensures products == CatalogAfterUpdate(old(products), updated)
      ensures sales == old(sales)
    {
      products := CatalogAfterUpdate(products, updated);
    }

    method AddProduct(added: Product)
      modifies this
      ensures products == CatalogAfterAdd(old(products), added)
      ensures sales == old(sales)
    {
      products := CatalogAfterAdd(products, added);
    }

    /** deleteProduct: the ledger keeps its sales, whose lines hold their own snapshots. */
    method DeleteProduct(id: string)
      modifies this
      ensures products == CatalogAfterDelete(old(products), id)
      ensures sales == old(sales)
    {
      products := CatalogAfterDelete(products, id);
    }
  }

  /** The POS page's checkout handed to `addSale`: an empty cart changes
      nothing; otherwise the sale is recorded, the stock decremented and the
      cart emptied. A cart within stock keeps all stock non-negative. */
  method Checkout(register: Pos.Register, shop: Shop, id: string, timestamp: int) returns (sale: Option<Sale>)
    requires register.Valid()
    modifies register, shop
    ensures register.Valid() && register.cart == []
    ensures sale == Pos.SaleOf(old(register.cart), id, timestamp)
    ensures sale.None? ==> shop.sales == old(shop.sales) && shop.products == old(shop.products)
    ensures sale.Some? ==>
      shop.sales == [sale.value] + old(shop.sales) &&
      shop.products == StockAfterSale(old(shop.products), old(register.cart))
    ensures (UniqueIds(old(shop.products)) && StocksNonNegative(old(shop.products)) &&
             Pos.WithinStock(old(register.cart), old(shop.products))) ==>
      StocksNonNegative(shop.products)
    ensures Ledger.AllProfitIdentity(old(shop.sales)) ==> Ledger.AllProfitIdentity(shop.sales)
  {
    ghost var cart := register.cart;
    sale := register.HandleCheckout(id, timestamp);
    if sale.Some? {
      shop.AddSale(sale.value);
      if UniqueIds(old(shop.products)) && StocksNonNegative(old(shop.products)) && Pos.WithinStock(cart, old(shop.products)) {
        CheckoutKeepsStockNonNegative(old(shop.products), cart);
      }
    }
  }

  /** Recording a checkout's sale raises the ledger's revenue by the cart total,
      its cost by the cart cost, and its summed profit by their difference. */
  lemma LedgerAfterCheckout(cart: seq<SaleItem>, sales: seq<Sale>, id: string, timestamp: int)
    requires cart != []
    ensures var ledger := [Pos.SaleOf(cart, id, timestamp).value] + sales;
            && Ledger.SumAmount(ledger) == Pos.CartTotal(cart) + Ledger.SumAmount(sales)
            && Ledger.SumCost(ledger) == Pos.CartCost(cart) + Ledger.SumCost(sales)
            && Ledger.SumProfit(ledger) == Pos.CartTotal(cart) - Pos.CartCost(cart) + Ledger.SumProfit(sales)
  {
    var ledger := [Pos.SaleOf(cart, id, timestamp).value] + sales;
    assert ledger[1..] == sales;
  }

  /** The worked example: three clicks on the seed's first product and a
      checkout give 54000 / 42000 / 12000 and leave 47 in stock. */
  lemma SeedScenario(id: string, timestamp: int)
    ensures var p := InitialProducts()[0];
            var cart := Pos.CartAfterAdd(Pos.CartAfterAdd(Pos.CartAfterAdd([], p), p), p);
            var sale := Pos.SaleOf(cart, id, timestamp);
            && sale.Some?
            && sale.value.totalAmount == 54000
            && sale.value.totalCost == 42000
            && sale.value.totalProfit == 12000
            && StockAfterSale(InitialProducts(), sale.value.items)[0].stock == 47
  {
    var p := InitialProducts()[0];
    var c1 := Pos.CartAfterAdd([], p);
    assert c1 == [Pos.NewLine(p)];
    var c2 := Pos.CartAfterAdd(c1, p);
    Pos.CartAfterAddExisting(c1, p, 0);
    assert c2 == [SaleItem("1", p.name, 2, 18000, 14000, 36000)];
    var c3 := Pos.CartAfterAdd(c2, p);
    Pos.CartAfterAddExisting(c2, p, 0);
    assert c3 == [SaleItem("1", p.name, 3, 18000, 14000, 54000)];
    assert Pos.CartTotal(c3) == 54000;
    assert Pos.CartCost(c3) == 42000;
    var sale := Pos.SaleOf(c3, id, timestamp).value;
    assert Pos.FirstLineAt(sale.items, InitialProducts()[0].id, 0);
    assert StockAfterSale(InitialProducts(), sale.items)[0].stock == 50 - 3;
  }
}
