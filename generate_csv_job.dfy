/**
 * The order report job: one flat 16-field row per order, each blank field
 * replaced by 'N/A', written after a fixed header.
 *
 * The job reads every remote resource from a `Remote` value, so what is left
 * is a sequential transformation of input data into CSV lines.
 */
module ReportJob {
  import opened Wrappers
  import opened Values
  import opened ShopifyApi

  /** The column names, in the order every row lists its fields. */
  const CsvHeader: seq<string> := [
    "name", "email", "financial_status", "paid_at", "fulfillment_status", "currency",
    "price_subtotal", "price_total", "billing_street", "billing_address1", "shipping_zip",
    "shipping_country", "refunded_amount", "vendor", "tags", "risk_level"]

  /** The header as a CSV line. */
  function HeaderRow(): seq<Value> {
    seq(|CsvHeader|, j requires 0 <= j < |CsvHeader| => Str(CsvHeader[j]))
  }

  /**
   * `retrieve_transaction_details`: nothing when the order has no successful
   * transaction; otherwise the sale total and the refund total, in that order.
   */
  function RetrieveTransactionDetails(order: Order, transactions: seq<Transaction>): (details: seq<Value>)
    ensures |details| == 0 <==> |SuccessfulTransactions(transactions, order.id)| == 0
    ensures |details| == 0 || |details| == 2
  {
    var success := SuccessfulTransactions(transactions, order.id);
    if |success| == 0 then []
    else
      var lastPaidTransactionDate := KindTotal(success, "sale");
      var totalRefundAmount := KindTotal(success, "refund");
      [Num(lastPaidTransactionDate), Num(totalRefundAmount)]
  }

  /** Line item k is the first whose product the store does not have. */
  ghost predicate FirstUnknownProduct(lineItems: seq<LineItem>, products: map<int, Product>, k: int) {
    && 0 <= k < |lineItems|
    && lineItems[k].productId !in products
    && forall j :: 0 <= j < k ==> lineItems[j].productId in products
  }

  /**
   * `order.line_items.map { |li| Product.find(li.product_id).vendor }`: one
   * vendor per line item, in line-item order, duplicates kept; the first
   * product that cannot be found raises.
   */
  function VendorNames(lineItems: seq<LineItem>, products: map<int, Product>): (r: Result<seq<Value>, LookupError>)
    ensures r.Success? <==> forall i :: 0 <= i < |lineItems| ==> lineItems[i].productId in products
    ensures r.Success? ==> |r.value| == |lineItems|
    ensures r.Success? ==> forall i :: 0 <= i < |lineItems| ==> r.value[i] == products[lineItems[i].productId].vendor
    ensures r.Failure? ==> exists k :: FirstUnknownProduct(lineItems, products, k) && r.error == ProductNotFound(lineItems[k].productId)
  {
    if lineItems == [] then Success([])
    else
      var product :- FindProduct(products, lineItems[0].productId);
      var rest :- VendorNames(lineItems[1..], products);
      Success([product.vendor] + rest)
  }

  /**
   * `fetch_from_order`: the transaction details with the vendor list and the
   * risk collection appended. The last two entries are always the vendors and
   * the risks, whether the details contributed two entries or none.
   */
  function FetchFromOrder(order: Order, remote: Remote): (r: Result<seq<Value>, LookupError>)
    ensures r.Success? <==> VendorNames(order.lineItems, remote.products).Success?
    ensures r.Failure? ==> r == Failure(VendorNames(order.lineItems, remote.products).error)
    ensures r.Success? ==> |r.value| == 2 + |RetrieveTransactionDetails(order, remote.transactions)|
    ensures r.Success? ==> r.value[|r.value| - 2] == List(VendorNames(order.lineItems, remote.products).value)
    ensures r.Success? ==> r.value[|r.value| - 1] == List(OrderRisks(remote.risks, order.id))
  {
    var transactionDetails := RetrieveTransactionDetails(order, remote.transactions);
    var vendorNames :- VendorNames(order.lineItems, remote.products);
    var orderRisk := OrderRisks(remote.risks, order.id);
    Success(transactionDetails + [List(vendorNames), List(orderRisk)])
  }

  /** Ruby's multiple assignment reads position i of the array, or nil past its end. */
  function Nth(xs: seq<Value>, i: nat): Value {
    if i < |xs| then xs[i] else Nil
  }

  /** `check_for_nil_billing_address`: the named attribute of the billing address, or 'N/A' without one. */
  function CheckForNilBillingAddress(order: Order, name: AddressAttribute): Value {
    match order.billingAddress
    case None => NA
    case Some(a) => Attribute(a, name)
  }

  /** `check_for_nil_shipping_address`: the named attribute of the shipping address, or 'N/A' without one. */
  function CheckForNilShippingAddress(order: Order, name: AddressAttribute): Value {
    match order.shippingAddress
    case None => NA
    case Some(a) => Attribute(a, name)
  }

  /**
   * `build_response`: the order's 16 fields, keyed by the header names in
   * header order. The first four entries fetched for the order are
   * destructured positionally into paid_at, refunded_amount, vendor and
   * risk_level.
   */
  function BuildResponse(order: Order, remote: Remote): (r: Result<Row, LookupError>)
    ensures r.Success? <==> VendorNames(order.lineItems, remote.products).Success?
    ensures r.Failure? ==> r.error == VendorNames(order.lineItems, remote.products).error
    ensures r.Success? ==> Keys(r.value) == CsvHeader
  {
    var fetched :- FetchFromOrder(order, remote);
    var lastPaidTransactionDate, totalRefundAmount, vendorName, orderRisk :=
      Nth(fetched, 0), Nth(fetched, 1), Nth(fetched, 2), Nth(fetched, 3);
    var row := [
      Field("name", order.name),
      Field("email", order.email),
      Field("financial_status", order.financialStatus),
      Field("paid_at", lastPaidTransactionDate),
      Field("fulfillment_status", order.fulfillmentStatus),
      Field("currency", order.currency),
      Field("price_subtotal", order.subtotalPrice),
      Field("price_total", order.totalPrice),
      Field("billing_street", CheckForNilBillingAddress(order, Address1)),
      Field("billing_address1", CheckForNilBillingAddress(order, Address1)),
      Field("shipping_zip", CheckForNilShippingAddress(order, Zip)),
      Field("shipping_country", CheckForNilShippingAddress(order, Country)),
      Field("refunded_amount", totalRefundAmount),
      Field("vendor", vendorName),
      Field("tags", order.tags),
      Field("risk_level", orderRisk)];
    assert Keys(row) == CsvHeader;
    Success(row)
  }

  /** The normalised row of one order, as `parse_orders_response` yields it. */
  function ReportRow(order: Order, remote: Remote): Row
    requires BuildResponse(order, remote).Success?
  {
    NormalizeRow(BuildResponse(order, remote).value)
  }

  /** Order k is the first whose row cannot be built. */
  ghost predicate FirstFailingOrder(orders: seq<Order>, remote: Remote, k: int) {
    && 0 <= k < |orders|
    && BuildResponse(orders[k], remote).Failure?
    && forall j :: 0 <= j < k ==> BuildResponse(orders[j], remote).Success?
  }

  /** If the rows after the first fail with some order's error, the whole list fails with that order's error. */
  lemma FirstFailingOrderShift(orders: seq<Order>, remote: Remote, e: LookupError)
    requires |orders| > 0 && BuildResponse(orders[0], remote).Success?
    requires exists k :: FirstFailingOrder(orders[1..], remote, k) && e == BuildResponse(orders[1..][k], remote).error
    ensures exists k :: FirstFailingOrder(orders, remote, k) && e == BuildResponse(orders[k], remote).error
  {
    var k :| FirstFailingOrder(orders[1..], remote, k) && e == BuildResponse(orders[1..][k], remote).error;
    assert FirstFailingOrder(orders, remote, k + 1);
  }

  /**
   * `parse_orders_response`: one normalised row per order, in input order;
   * the first order whose row cannot be built aborts with its error.
   */
  function ParseOrdersResponse(orders: seq<Order>, remote: Remote): (r: Result<seq<Row>, LookupError>)
    ensures r.Success? <==> forall i :: 0 <= i < |orders| ==> BuildResponse(orders[i], remote).Success?
    ensures r.Success? ==> |r.value| == |orders|
    ensures r.Success? ==> forall i :: 0 <= i < |orders| ==> r.value[i] == ReportRow(orders[i], remote)
    ensures r.Failure? ==> exists k :: FirstFailingOrder(orders, remote, k) && r.error == BuildResponse(orders[k], remote).error
  {
    if orders == [] then Success([])
    else
      var response := BuildResponse(orders[0], remote);
      if response.Failure? then
        assert FirstFailingOrder(orders, remote, 0);
        Failure(response.error)
      else
        var rest := ParseOrdersResponse(orders[1..], remote);
        if rest.Failure? then
          FirstFailingOrderShift(orders, remote, rest.error);
          Failure(rest.error)
        else
          Success([ReportRow(orders[0], remote)] + rest.value)
  }

  /** The CSV lines of the rows, one per row, each listing the row's values in key order. */
  function Lines(rows: seq<Row>): (lines: seq<seq<Value>>)
    ensures |lines| == |rows|
  {
    seq(|rows|, i requires 0 <= i < |rows| => RowValues(rows[i]))
  }

  lemma LinesExtend(rows: seq<Row>, i: nat)
    requires i < |rows|
    ensures Lines(rows[..i + 1]) == Lines(rows[..i]) + [RowValues(rows[i])]
  {
  }

  /**
   * What `generate_csv` produces for the given orders: the header line, then
   * one line per order in input order; an error raised while building the
   * rows is the job's error.
   */
  function Report(orders: seq<Order>, remote: Remote): (r: Result<seq<seq<Value>>, LookupError>)
    ensures r.Success? <==> forall i :: 0 <= i < |orders| ==> BuildResponse(orders[i], remote).Success?
    ensures r.Failure? ==> exists k :: FirstFailingOrder(orders, remote, k) && r.error == BuildResponse(orders[k], remote).error
    ensures r.Success? ==> |r.value| == |orders| + 1 && r.value[0] == HeaderRow()
    ensures r.Success? ==> forall i :: 0 <= i < |orders| ==> r.value[i + 1] == RowValues(ReportRow(orders[i], remote))
  {
    var rows :- ParseOrdersResponse(orders, remote);
    Success([HeaderRow()] + Lines(rows))
  }

  /** The CSV being generated, as the sequence of lines written to it so far. */
  class CsvBuffer {
    var lines: seq<seq<Value>>

    constructor ()
      ensures lines == []
    {
      lines := [];
    }

    /** `csv << line` */
    method Append(line: seq<Value>)
      modifies this
      ensures lines == old(lines) + [line]
    {
      lines := lines + [line];
    }
  }

  /**
   * `generate_csv`: writes the header, builds every order's row, then writes
   * the rows one by one.
   */
  method GenerateCsv(orders: seq<Order>, remote: Remote) returns (r: Result<seq<seq<Value>>, LookupError>)
    ensures r == Report(orders, remote)
  {
    var csv := new CsvBuffer();
    csv.Append(HeaderRow());
    var parsed := ParseOrdersResponse(orders, remote);
    if parsed.Failure? {
      assert Report(orders, remote) == Failure(parsed.error);
      return Failure(parsed.error);
    }
    var rows := parsed.value;
    assert Report(orders, remote) == Success([HeaderRow()] + Lines(rows));
    for i := 0 to |rows|
      invariant csv.lines == [HeaderRow()] + Lines(rows[..i])
    {
      csv.Append(RowValues(rows[i]));
      LinesExtend(rows, i);
    }
    assert rows[..|rows|] == rows;
    r := Success(csv.lines);
  }

  /**
   * The job object. It remembers the orders it fetched (`@shopify_orders ||=`),
   * so every later read sees the same page of orders.
   */
  class GenerateCsvJob {
    const remote: Remote
    var shopifyOrders: Option<seq<Order>>

    ghost predicate Valid()
      reads this
    {
      shopifyOrders.Some? ==> shopifyOrders.value == FetchOrders(remote)
    }

    constructor (remote: Remote)
      ensures Valid()
      ensures this.remote == remote && shopifyOrders == None
    {
      this.remote := remote;
      shopifyOrders := None;
    }

    /** `shopify_orders`: fetches on the first call, returns the remembered page afterwards. */
    method ShopifyOrders() returns (orders: seq<Order>)
      requires Valid()
      modifies this
      ensures Valid()
      ensures orders == FetchOrders(remote)
      ensures shopifyOrders == Some(orders)
    {
      if shopifyOrders.None? {
        shopifyOrders := Some(FetchOrders(remote));
      }
      orders := shopifyOrders.value;
    }

    /** `perform`: the report over the first page of the store's orders. */
    method Perform() returns (r: Result<seq<seq<Value>>, LookupError>)
      requires Valid()
      modifies this
      ensures Valid()
      ensures shopifyOrders == Some(FetchOrders(remote))
      ensures r == Report(FetchOrders(remote), remote)
    {
      var orders := ShopifyOrders();
      r := GenerateCsv(orders, remote);
    }
  }
}
