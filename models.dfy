/** Record shapes of the product app: products, their stock batches, orders
    and order lines. Dates are day numbers; a missing expiry date is None. */
module Models {
  import opened Wrappers

  type StockId = nat
  type OrderId = nat

  /** A stock batch. `qty` is a plain integer column: nothing keeps it
      non-negative. */
  datatype Stock = Stock(qty: int, expiry: Option<int>)

  /** A catalog product with the foreign keys the catalog filters look at
      (each nullable) and its stock batches. */
  datatype Product = Product(
    name: string,
    company: Option<nat>,
    distribution: Option<nat>,
    formula: Option<nat>,
    avgQty: int,
    stocks: seq<Stock>)

  /** The three order states. */
  datatype OrderStatus = Pending | Completed | Cancelled

  /** One order line: a quantity taken from one stock batch. */
  datatype StockOrder = StockOrder(stock: StockId, quantity: int)

  datatype Order = Order(status: OrderStatus, lines: seq<StockOrder>)
}
