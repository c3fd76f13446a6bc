/**
 * The platform's resources as the report job reads them, and the remote
 * lookups it makes, taken as plain input data.
 *
 * Every `ShopifyAPI::...find` and `...where` call of the job reads from a
 * `Remote` value: the store's orders, transactions, products and order risks
 * at the moment the job runs.
 */
module ShopifyApi {
  import opened Wrappers
  import opened Values

  datatype Address = Address(address1: Value, address2: Value, city: Value, zip: Value, country: Value)

  /** The address attributes the job reads by name (`send(method_name)`). */
  datatype AddressAttribute = Address1 | Zip | Country

  function Attribute(a: Address, name: AddressAttribute): Value {
    match name
    case Address1 => a.address1
    case Zip => a.zip
    case Country => a.country
  }

  datatype LineItem = LineItem(productId: int)

  datatype Order = Order(
    id: int,
    name: Value,
    email: Value,
    financialStatus: Value,
    fulfillmentStatus: Value,
    currency: Value,
    subtotalPrice: Value,
    totalPrice: Value,
    tags: Value,
    billingAddress: Option<Address>,
    shippingAddress: Option<Address>,
    lineItems: seq<LineItem>)

  /** An order transaction; `amount` in the currency's minor unit. */
  datatype Transaction = Transaction(orderId: int, kind: string, status: string, amount: int)

  datatype Product = Product(id: int, vendor: Value)

  datatype OrderRisk = OrderRisk(id: int, orderId: int, recommendation: Value, score: Value)

  /** The store's data as the remote API serves it; `products` is keyed by product id. */
  datatype Remote = Remote(
    orders: seq<Order>,
    transactions: seq<Transaction>,
    products: map<int, Product>,
    risks: seq<OrderRisk>)

  /** A failed lookup: `Product.find` of an id the store does not have. */
  datatype LookupError = ProductNotFound(productId: int)

  /** The `limit` parameter of the order query: the platform returns one page of at most this many. */
  const OrderPageLimit: nat := 250

  /**
   * `Order.find(:all, params: { status: 'any', limit: 250 })`: the first page
   * of the store's orders of any status; orders past the page limit are not
   * fetched.
   */
  function FetchOrders(remote: Remote): (orders: seq<Order>)
    ensures |orders| <= OrderPageLimit
    ensures orders <= remote.orders
    ensures |orders| < OrderPageLimit ==> orders == remote.orders
  {
    if |remote.orders| <= OrderPageLimit then remote.orders
    else remote.orders[..OrderPageLimit]
  }

  /** `Product.find(id)`: the product, or the not-found error the API raises. */
  function FindProduct(products: map<int, Product>, id: int): Result<Product, LookupError> {
    if id in products then Success(products[id]) else Failure(ProductNotFound(id))
  }

  /** `Transaction.where(order_id: id, status: 'success')`, in the order the API lists them. */
  function SuccessfulTransactions(transactions: seq<Transaction>, orderId: int): (r: seq<Transaction>)
    ensures |r| <= |transactions|
    ensures forall t :: t in r <==> t in transactions && t.orderId == orderId && t.status == "success"
  {
    if transactions == [] then []
    else
      var t := transactions[0];
      var rest := SuccessfulTransactions(transactions[1..], orderId);
      if t.orderId == orderId && t.status == "success" then [t] + rest else rest
  }

  /** `.where(kind: kind).to_a.sum(&:amount)`: the total amount of the transactions of one kind. */
  function KindTotal(transactions: seq<Transaction>, kind: string): int {
    if transactions == [] then 0
    else
      var t := transactions[0];
      (if t.kind == kind then t.amount else 0) + KindTotal(transactions[1..], kind)
  }

  /** An order risk as the API object the job puts in the row. */
  function RiskValue(risk: OrderRisk): Value {
    Resource([Field("id", Num(risk.id)), Field("order_id", Num(risk.orderId)),
              Field("recommendation", risk.recommendation), Field("score", risk.score)])
  }

  /** `OrderRisk.where(order_id: id)`: the risk records of one order, in API order. */
  function OrderRisks(risks: seq<OrderRisk>, orderId: int): (r: seq<Value>)
    ensures |r| <= |risks|
    ensures forall k :: k in risks && k.orderId == orderId ==> RiskValue(k) in r
    ensures forall v :: v in r ==> exists k :: k in risks && k.orderId == orderId && v == RiskValue(k)
  {
    if risks == [] then []
    else
      var rest := OrderRisks(risks[1..], orderId);
      if risks[0].orderId == orderId then [RiskValue(risks[0])] + rest else rest
  }

  // ---------------------------------------------------------------------
  // Properties of the lookups
  // ---------------------------------------------------------------------

  /** A kind with no transactions totals 0. */
  lemma {:induction false} KindTotalNone(transactions: seq<Transaction>, kind: string)
    requires forall t :: t in transactions ==> t.kind != kind
    ensures KindTotal(transactions, kind) == 0
  {
    if transactions != [] {
      assert transactions[0] in transactions;
      KindTotalNone(transactions[1..], kind);
    }
  }

  /** Totals add up over concatenated transaction lists. */
  lemma {:induction false} KindTotalAppend(xs: seq<Transaction>, ys: seq<Transaction>, kind: string)
    ensures KindTotal(xs + ys, kind) == KindTotal(xs, kind) + KindTotal(ys, kind)
  {
    if xs != [] {
      assert (xs + ys)[1..] == xs[1..] + ys;
      KindTotalAppend(xs[1..], ys, kind);
    } else {
      assert xs + ys == ys;
    }
  }

  /** A transaction for another order, or one that did not succeed, does not change the successful list. */
  lemma {:induction false} SuccessfulTransactionsAppend(xs: seq<Transaction>, t: Transaction, orderId: int)
    ensures SuccessfulTransactions(xs + [t], orderId) ==
      if t.orderId == orderId && t.status == "success"
      then SuccessfulTransactions(xs, orderId) + [t]
      else SuccessfulTransactions(xs, orderId)
  {
    if xs != [] {
      assert (xs + [t])[1..] == xs[1..] + [t];
      SuccessfulTransactionsAppend(xs[1..], t, orderId);
    } else {
      assert xs + [t] == [t];
    }
  }

  /**
   * A successful sale for the order joins its successful list: the sale total
   * grows by its amount and the refund total stays the same.
   */
  lemma SuccessfulSaleTotals(xs: seq<Transaction>, t: Transaction, orderId: int)
    requires t.orderId == orderId && t.status == "success" && t.kind == "sale"
    ensures var before, after := SuccessfulTransactions(xs, orderId), SuccessfulTransactions(xs + [t], orderId);
      && |after| > 0
      && KindTotal(after, "sale") == KindTotal(before, "sale") + t.amount
      && KindTotal(after, "refund") == KindTotal(before, "refund")
  {
    var before := SuccessfulTransactions(xs, orderId);
    SuccessfulTransactionsAppend(xs, t, orderId);
    assert SuccessfulTransactions(xs + [t], orderId) == before + [t];
    KindTotalAppend(before, [t], "sale");
    KindTotalAppend(before, [t], "refund");
  }
}
