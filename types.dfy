/** The records the shop keeps (types.ts). Every price, cost and quantity is a
    whole number of Rupiah or units, so all of them are `int`. */
module Types {

  datatype Option<T> = None | Some(value: T)

  /** A catalog entry. `costPrice` is the unit acquisition cost (HPP). */
  datatype Product = Product(
    id: string,
    name: string,
    sku: string,
    category: string,
    costPrice: int,
    sellingPrice: int,
    stock: int,
    minStock: int)

  /** A line of a cart or of a committed sale. `name`, `price` and `cost` are
      copied from the product when the line is created and never refreshed. */
  datatype SaleItem = SaleItem(
    productId: string,
    name: string,
    quantity: int,
    price: int,
    cost: int,
    subtotal: int)

  /** A committed transaction. */
  datatype Sale = Sale(
    id: string,
    timestamp: int,
    items: seq<SaleItem>,
    totalAmount: int,
    totalCost: int,
    totalProfit: int)

  /** A line whose quantity is positive and whose subtotal is quantity times its unit price. */
  predicate Consistent(line: SaleItem)
  {
    line.quantity >= 1 && line.subtotal == line.quantity * line.price
  }

  /** The gross-profit identity every sale built at checkout satisfies. */
  predicate ProfitIdentity(sale: Sale)
  {
    sale.totalProfit == sale.totalAmount - sale.totalCost
  }
}
