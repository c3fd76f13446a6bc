/**
 * What the report promises about each row: its fields follow the header, the
 * order's own attributes are copied, absent addresses give 'N/A', successful
 * transactions are totalled by kind, and what happens to the positional
 * destructuring when an order has no successful transaction.
 */
module ReportProperties {
  import opened Wrappers
  import opened Values
  import opened ShopifyApi
  import opened ReportJob

  /** The field of an order's normalised row under a header name. */
  function Cell(order: Order, remote: Remote, key: string): Value
    requires BuildResponse(order, remote).Success?
  {
    Get(ReportRow(order, remote), key)
  }

  /** The header names are pairwise different, so each names exactly one field. */
  lemma HeaderDistinct()
    ensures Distinct(CsvHeader)
  {
  }

  /** Field j of a built row is found under header name j, and its normalised form under it after normalisation. */
  lemma FieldAt(order: Order, remote: Remote, j: nat)
    requires BuildResponse(order, remote).Success?
    requires j < |CsvHeader|
    ensures Get(BuildResponse(order, remote).value, CsvHeader[j]) == BuildResponse(order, remote).value[j].value
    ensures Cell(order, remote, CsvHeader[j]) == NormalizeValue(BuildResponse(order, remote).value[j].value)
  {
    var raw := BuildResponse(order, remote).value;
    var row := ReportRow(order, remote);
    HeaderDistinct();
    assert Keys(raw) == CsvHeader;
    assert forall k :: 0 <= k < |raw| ==> raw[k].key == CsvHeader[k];
    GetAt(raw, j);
    assert forall k :: 0 <= k < |row| ==> row[k].key == CsvHeader[k];
    GetAt(row, j);
  }

  /**
   * Every row has the 16 header names as its keys, in header order, no blank
   * value, and its line lists its values in that order.
   */
  lemma RowFollowsHeader(order: Order, remote: Remote)
    requires BuildResponse(order, remote).Success?
    ensures |ReportRow(order, remote)| == 16
    ensures Keys(ReportRow(order, remote)) == CsvHeader
    ensures forall j :: 0 <= j < 16 ==> !Blank(ReportRow(order, remote)[j].value)
    ensures forall j :: 0 <= j < 16 ==>
      RowValues(ReportRow(order, remote))[j] == Cell(order, remote, CsvHeader[j])
  {
    var row := ReportRow(order, remote);
    NormalizeRowKeys(BuildResponse(order, remote).value);
    forall j | 0 <= j < 16 ensures !Blank(row[j].value) && RowValues(row)[j] == Cell(order, remote, CsvHeader[j]) {
      NormalizeValueSpec(BuildResponse(order, remote).value[j].value);
      FieldAt(order, remote, j);
    }
  }

  /** The order's own attributes are copied into their fields before normalisation. */
  lemma CopiedFields(order: Order, remote: Remote)
    requires BuildResponse(order, remote).Success?
    ensures var raw := BuildResponse(order, remote).value;
      && Get(raw, "name") == order.name
      && Get(raw, "email") == order.email
      && Get(raw, "financial_status") == order.financialStatus
      && Get(raw, "fulfillment_status") == order.fulfillmentStatus
      && Get(raw, "currency") == order.currency
      && Get(raw, "price_subtotal") == order.subtotalPrice
      && Get(raw, "price_total") == order.totalPrice
      && Get(raw, "tags") == order.tags
    ensures Cell(order, remote, "name") == NormalizeValue(order.name)
    ensures Cell(order, remote, "email") == NormalizeValue(order.email)
    ensures Cell(order, remote, "financial_status") == NormalizeValue(order.financialStatus)
    ensures Cell(order, remote, "fulfillment_status") == NormalizeValue(order.fulfillmentStatus)
    ensures Cell(order, remote, "currency") == NormalizeValue(order.currency)
    ensures Cell(order, remote, "price_subtotal") == NormalizeValue(order.subtotalPrice)
    ensures Cell(order, remote, "price_total") == NormalizeValue(order.totalPrice)
    ensures Cell(order, remote, "tags") == NormalizeValue(order.tags)
  {
    FieldAt(order, remote, 0);
    FieldAt(order, remote, 1);
    FieldAt(order, remote, 2);
    FieldAt(order, remote, 4);
    FieldAt(order, remote, 5);
    FieldAt(order, remote, 6);
    FieldAt(order, remote, 7);
    FieldAt(order, remote, 14);
  }

  /**
   * Without a billing address both billing fields are 'N/A'; with one, both
   * hold its (normalised) address1. Either way they are equal.
   */
  lemma BillingFields(order: Order, remote: Remote)
    requires BuildResponse(order, remote).Success?
    ensures Cell(order, remote, "billing_street") == Cell(order, remote, "billing_address1")
    ensures order.billingAddress.None? ==> Cell(order, remote, "billing_street") == NA
    ensures order.billingAddress.Some? ==>
      Cell(order, remote, "billing_street") == NormalizeValue(order.billingAddress.value.address1)
  {
    FieldAt(order, remote, 8);
    FieldAt(order, remote, 9);
  }

  /**
   * Without a shipping address both shipping fields are 'N/A'; with one, they
   * hold its zip and country, 'N/A' where those are blank.
   */
  lemma ShippingFields(order: Order, remote: Remote)
    requires BuildResponse(order, remote).Success?
    ensures order.shippingAddress.None? ==>
      Cell(order, remote, "shipping_zip") == NA && Cell(order, remote, "shipping_country") == NA
    ensures order.shippingAddress.Some? ==>
      && Cell(order, remote, "shipping_zip") == NormalizeValue(order.shippingAddress.value.zip)
      && Cell(order, remote, "shipping_country") == NormalizeValue(order.shippingAddress.value.country)
  {
    FieldAt(order, remote, 10);
    FieldAt(order, remote, 11);
  }

  /**
   * Where the four fetched entries land: with transaction details, in the
   * intended positions; without, shifted by two, with nil for the last two.
   */
  lemma DestructuredFields(order: Order, remote: Remote)
    requires BuildResponse(order, remote).Success?
    ensures var raw := BuildResponse(order, remote).value;
      var details := RetrieveTransactionDetails(order, remote.transactions);
      var vendors := List(VendorNames(order.lineItems, remote.products).value);
      var risks := List(OrderRisks(remote.risks, order.id));
      && (|details| == 2 ==>
            raw[3].value == details[0] && raw[12].value == details[1] &&
            raw[13].value == vendors && raw[15].value == risks)
      && (|details| == 0 ==>
            raw[3].value == vendors && raw[12].value == risks &&
            raw[13].value == Nil && raw[15].value == Nil)
  {
  }

  /**
   * With at least one successful transaction for the order, paid_at is the
   * total of the sales and refunded_amount the total of the refunds (a number,
   * so never 'N/A', even when it is 0); vendor and risk_level are the vendor
   * list and the risk collection.
   */
  lemma TransactionTotals(order: Order, remote: Remote)
    requires BuildResponse(order, remote).Success?
    requires |SuccessfulTransactions(remote.transactions, order.id)| > 0
    ensures var success := SuccessfulTransactions(remote.transactions, order.id);
      && Cell(order, remote, "paid_at") == Num(KindTotal(success, "sale"))
      && Cell(order, remote, "refunded_amount") == Num(KindTotal(success, "refund"))
    ensures Cell(order, remote, "vendor") == NormalizeValue(List(VendorNames(order.lineItems, remote.products).value))
    ensures Cell(order, remote, "risk_level") == NormalizeValue(List(OrderRisks(remote.risks, order.id)))
  {
    DestructuredFields(order, remote);
    FieldAt(order, remote, 3);
    FieldAt(order, remote, 12);
    FieldAt(order, remote, 13);
    FieldAt(order, remote, 15);
  }

  /**
   * A new successful sale for the order adds its amount to paid_at and leaves
   * refunded_amount as the refund total, whether or not the order had a
   * successful transaction before.
   */
  lemma SaleAddsToPaidAt(order: Order, remote: Remote, t: Transaction)
    requires BuildResponse(order, remote).Success?
    requires t.orderId == order.id && t.status == "success" && t.kind == "sale"
    ensures var after := remote.(transactions := remote.transactions + [t]);
      var success := SuccessfulTransactions(remote.transactions, order.id);
      && BuildResponse(order, after).Success?
      && Cell(order, after, "paid_at") == Num(KindTotal(success, "sale") + t.amount)
      && Cell(order, after, "refunded_amount") == Num(KindTotal(success, "refund"))
  {
    var after := remote.(transactions := remote.transactions + [t]);
    assert after.products == remote.products;
    SuccessfulSaleTotals(remote.transactions, t, order.id);
    TransactionTotals(order, after);
  }

  /** A kind with no successful transaction totals 0, and 0 is kept rather than replaced by 'N/A'. */
  lemma NoRefundsGiveZero(order: Order, remote: Remote)
    requires BuildResponse(order, remote).Success?
    requires |SuccessfulTransactions(remote.transactions, order.id)| > 0
    requires forall t :: t in remote.transactions && t.orderId == order.id && t.status == "success" ==> t.kind != "refund"
    ensures Cell(order, remote, "refunded_amount") == Num(0)
  {
    KindTotalNone(SuccessfulTransactions(remote.transactions, order.id), "refund");
    TransactionTotals(order, remote);
  }

  /**
   * With no successful transaction the fetched list has only two entries, so
   * the destructuring shifts them: paid_at receives the vendor list,
   * refunded_amount the risk collection, and vendor and risk_level nil, which
   * becomes 'N/A'.
   */
  lemma NoSuccessfulTransactionsShift(order: Order, remote: Remote)
    requires BuildResponse(order, remote).Success?
    requires |SuccessfulTransactions(remote.transactions, order.id)| == 0
    ensures Cell(order, remote, "paid_at") == NormalizeValue(List(VendorNames(order.lineItems, remote.products).value))
    ensures Cell(order, remote, "refunded_amount") == NormalizeValue(List(OrderRisks(remote.risks, order.id)))
    ensures Cell(order, remote, "vendor") == NA
    ensures Cell(order, remote, "risk_level") == NA
  {
    DestructuredFields(order, remote);
    FieldAt(order, remote, 3);
    FieldAt(order, remote, 12);
    FieldAt(order, remote, 13);
    FieldAt(order, remote, 15);
  }

  /**
   * So, with no successful transaction, paid_at is 'N/A' exactly when the
   * order has no line items, and refunded_amount exactly when it has no risk.
   */
  lemma ShiftedFieldsBlankness(order: Order, remote: Remote)
    requires BuildResponse(order, remote).Success?
    requires |SuccessfulTransactions(remote.transactions, order.id)| == 0
    ensures Cell(order, remote, "paid_at") == NA <==> |order.lineItems| == 0
    ensures Cell(order, remote, "refunded_amount") == NA <==>
      forall k :: k in remote.risks ==> k.orderId != order.id
  {
    NoSuccessfulTransactionsShift(order, remote);
    var risks := OrderRisks(remote.risks, order.id);
    if |risks| > 0 {
      assert risks[0] in risks;
    }
  }

  /**
   * Only successful transactions of the order itself count: adding any other
   * transaction to the store leaves the order's row as it was.
   */
  lemma OtherTransactionsIgnored(order: Order, remote: Remote, t: Transaction)
    requires t.orderId != order.id || t.status != "success"
    ensures BuildResponse(order, remote.(transactions := remote.transactions + [t])) == BuildResponse(order, remote)
  {
    SuccessfulTransactionsAppend(remote.transactions, t, order.id);
  }

  /** An empty order list gives the header line alone. */
  lemma EmptyReport(remote: Remote)
    ensures Report([], remote) == Success([HeaderRow()])
  {
    var r := Report([], remote);
    assert r.Success? && |r.value| == 1 && r.value[0] == HeaderRow();
    assert r.value == [HeaderRow()];
  }

  // ---------------------------------------------------------------------
  // Worked examples
  // ---------------------------------------------------------------------

  const MainStreet: Address := Address(Str("123 Main St"), Nil, Str("Springfield"), Str("12345"), Str("US"))

  function SampleOrder(billing: Option<Address>, shipping: Option<Address>, items: seq<LineItem>): Order {
    Order(1, Str("#1001"), Str("a@example.com"), Str("paid"), Nil, Str("USD"),
          Str("100.00"), Str("100.00"), Str(""), billing, shipping, items)
  }

  /**
   * Billing address "123 Main St", no shipping address, one sale of 100 and no
   * refund: the billing fields carry the street, the shipping fields 'N/A',
   * paid_at 100 and refunded_amount 0 (a number, so not 'N/A').
   */
  lemma OneSaleExample()
    ensures var order := SampleOrder(Some(MainStreet), None, [LineItem(7)]);
      var remote := Remote([order], [Transaction(1, "sale", "success", 100)],
                           map[7 := Product(7, Str("Acme"))], []);
      && BuildResponse(order, remote).Success?
      && Cell(order, remote, "billing_street") == Str("123 Main St")
      && Cell(order, remote, "billing_address1") == Str("123 Main St")
      && Cell(order, remote, "shipping_zip") == NA
      && Cell(order, remote, "shipping_country") == NA
      && Cell(order, remote, "paid_at") == Num(100)
      && Cell(order, remote, "refunded_amount") == Num(0)
      && Cell(order, remote, "tags") == NA
      && Cell(order, remote, "risk_level") == NA
  {
    var order := SampleOrder(Some(MainStreet), None, [LineItem(7)]);
    var remote := Remote([order], [Transaction(1, "sale", "success", 100)],
                         map[7 := Product(7, Str("Acme"))], []);
    var success := SuccessfulTransactions(remote.transactions, order.id);
    assert success == remote.transactions;
    assert !Blank(Str("123 Main St")) by { assert !IsSpace(Str("123 Main St").s[0]); }
    assert Blank(Str(""));
    BillingFields(order, remote);
    ShippingFields(order, remote);
    TransactionTotals(order, remote);
    CopiedFields(order, remote);
  }

  function TwoVendorOrder(): Order {
    SampleOrder(None, None, [LineItem(7), LineItem(8)])
  }

  const TwoVendorProducts: map<int, Product> := map[7 := Product(7, Str("Acme")), 8 := Product(8, Str("Globex"))]

  lemma TwoVendorNames()
    ensures VendorNames(TwoVendorOrder().lineItems, TwoVendorProducts) == Success([Str("Acme"), Str("Globex")])
  {
    var items, products := TwoVendorOrder().lineItems, TwoVendorProducts;
    assert items == [LineItem(7), LineItem(8)];
    assert 7 in products && 8 in products;
    var r := VendorNames(items, products);
    assert r.Success? && |r.value| == 2;
    assert r.value[0] == products[7].vendor == Str("Acme");
    assert r.value[1] == products[8].vendor == Str("Globex");
    assert r.value == [Str("Acme"), Str("Globex")];
  }

  /**
   * Two line items from "Acme" and "Globex" and at least one successful
   * transaction: the vendor field is the list of both names, in line-item order.
   */
  lemma TwoVendorsExample(remote: Remote)
    requires remote.products == TwoVendorProducts
    requires |SuccessfulTransactions(remote.transactions, TwoVendorOrder().id)| > 0
    ensures BuildResponse(TwoVendorOrder(), remote).Success?
    ensures Cell(TwoVendorOrder(), remote, "vendor") == List([Str("Acme"), Str("Globex")])
  {
    TwoVendorNames();
    TransactionTotals(TwoVendorOrder(), remote);
  }

  /** The same order without a successful transaction: the vendor list lands in paid_at and vendor is 'N/A'. */
  lemma TwoVendorsUnpaidExample(remote: Remote)
    requires remote.products == TwoVendorProducts
    requires |SuccessfulTransactions(remote.transactions, TwoVendorOrder().id)| == 0
    ensures BuildResponse(TwoVendorOrder(), remote).Success?
    ensures Cell(TwoVendorOrder(), remote, "paid_at") == List([Str("Acme"), Str("Globex")])
    ensures Cell(TwoVendorOrder(), remote, "vendor") == NA
  {
    TwoVendorNames();
    NoSuccessfulTransactionsShift(TwoVendorOrder(), remote);
  }

  /** A line item whose product the store does not have makes the whole report fail. */
  lemma MissingProductExample()
    ensures var order := SampleOrder(None, None, [LineItem(7), LineItem(9)]);
      var remote := Remote([order], [], map[7 := Product(7, Str("Acme"))], []);
      Report([order], remote) == Failure(ProductNotFound(9))
  {
    var order := SampleOrder(None, None, [LineItem(7), LineItem(9)]);
    var remote := Remote([order], [], map[7 := Product(7, Str("Acme"))], []);
    assert VendorNames(order.lineItems, remote.products) == Failure(ProductNotFound(9));
    var r := Report([order], remote);
    assert r.Failure?;
  }
}
