# Order report job, modelled in Dafny

This project models the order-report job of a small store-integration app
(`GenerateCsvJob`). The job fetches the store's orders. It enriches each order
with its successful transactions, the vendors of its line items and its risk
records. It flattens every order into a row of 16 fields, replaces each blank
field with `'N/A'`, and writes the header line followed by one line per order.

Every remote lookup of the job is an input here. A `Remote` value holds the
store's orders, transactions, products (by id) and order risks as the
platform's API would serve them. Given that input, the job is a sequential,
deterministic transformation, and the model reproduces it step by step:

- `values.dfy` (`Values`): heterogeneous field values, ActiveSupport's
  `blank?`, the `'N/A'` normalisation (`transform_values`) and hash lookup.
- `shopify_api.dfy` (`ShopifyApi`): the resources (order, address, line item,
  transaction, product, order risk) and the lookups the job makes: the order
  page, `Product.find`, the `where` filters and the per-kind `sum`.
- `generate_csv_job.dfy` (`ReportJob`): `CSV_HEADER`,
  `retrieve_transaction_details`, `fetch_from_order`, `build_response`, the two
  `check_for_nil_*` helpers, `parse_orders_response` and `generate_csv`.
  `generate_csv` is a method that appends to a `CsvBuffer` object.
  `GenerateCsvJob` is a class that memoises the fetched orders.
- `report_properties.dfy` (`ReportProperties`): what each row promises, and
  worked examples.
- `wrappers.dfy` (`Wrappers`): `Option` and `Result`.

The model keeps the job's most surprising behaviour as written. When an order
has no successful transaction, `retrieve_transaction_details` returns an empty
array. The vendor list and the risk collection are appended to that array, and
the four-way destructuring in `build_response` then shifts by two positions:

- `paid_at` receives the vendor list;
- `refunded_amount` receives the risk collection;
- `vendor` and `risk_level` receive nil, which becomes `'N/A'`.

`NoSuccessfulTransactionsShift` and `ShiftedFieldsBlankness` state this.

In several places the code does something other than one might expect, and
the model follows the code:

- One might expect `paid_at` and `refunded_amount` to be `'N/A'` when nothing
  was paid. In the code they hold the vendor list and the risk collection.
  Each is `'N/A'` only when that list is empty.
- One might expect a zero total to become `'N/A'`. In the code a number is
  never blank, so a zero total stays `0` (`NoRefundsGiveZero`,
  `OneSaleExample`).
- One might expect the job to read every order of the store. The code reads
  one page of at most 250 orders and does not ask for the next (`FetchOrders`).
- "Blank" is ActiveSupport's `blank?`. It covers nil, the empty collection,
  and any string made only of whitespace (Unicode White_Space, as `[[:space:]]`
  matches it), not only the empty string.

Ruby hashes keep insertion order. A row is therefore a sequence of
key/value fields, and `Hash#values` gives the CSV line in key order.
`fetch_from_order` calls `concat` on the array that `retrieve_transaction_details`
has just built. No one else holds that array, so the in-place update is
modelled as sequence concatenation.

Two members are plain definitions and carry no contract of their own.
`ShopifyApi.FindProduct` is the assumed `Product.find`: the stored product, or
a not-found error for an unknown id. `ReportJob.HeaderRow` is `CSV_HEADER` as
a CSV line of strings. What the job does with them is stated by `VendorNames`
(one vendor per line item, failing at the first unknown product), by `Report`
(the header line comes first) and by `HeaderDistinct`.

## Model

| member | source | states |
|---|---|---|
| `Values.NormalizeValueSpec` | app/jobs/generate_csv_job.rb:43 | A blank value becomes 'N/A'. A value that is not blank is kept as it is. A normalised value is never blank. |
| `Values.NormalizeRow` | app/jobs/generate_csv_job.rb:43 | `transform_values` keeps every key in place and normalises each value. The result has no blank value. |
| `Values.NormalizeRowIdempotent` | app/jobs/generate_csv_job.rb:43 | Normalising a row twice gives the same row as normalising it once. |
| `Values.NormalizeRowKeys` | app/jobs/generate_csv_job.rb:43 | Normalisation keeps the keys and their order. |
| `Values.GetAt` | app/jobs/generate_csv_job.rb:56-73 | With distinct keys, `Hash#[]` on the key at position j returns the value at position j. |
| `ShopifyApi.FetchOrders` | app/jobs/generate_csv_job.rb:35-37 | The orders read are a prefix of the store's orders, at most 250 long. They are all the orders when fewer than 250 exist. |
| `ShopifyApi.SuccessfulTransactions` | app/jobs/generate_csv_job.rb:103 | A transaction is listed if and only if it belongs to the order and has status `success`. |
| `ShopifyApi.SuccessfulTransactionsAppend` | app/jobs/generate_csv_job.rb:103 | A new transaction for another order, or one that did not succeed, leaves the successful list unchanged. A successful one for the order is appended to it. |
| `ShopifyApi.KindTotalNone` | app/jobs/generate_csv_job.rb:107-109 | A kind with no transactions sums to 0. |
| `ShopifyApi.KindTotalAppend` | app/jobs/generate_csv_job.rb:107-109 | The per-kind total of two concatenated transaction lists is the sum of their totals. |
| `ShopifyApi.SuccessfulSaleTotals` | app/jobs/generate_csv_job.rb:103-109 | A new successful sale for the order joins its successful list. The sale total grows by its amount and the refund total stays the same. |
| `ShopifyApi.OrderRisks` | app/jobs/generate_csv_job.rb:97 | Every risk record of the order is in the collection, and every entry in it is a risk record of the order. |
| `ReportJob.RetrieveTransactionDetails` | app/jobs/generate_csv_job.rb:102-112 | The details are empty exactly when the order has no successful transaction. Otherwise they have two entries. |
| `ReportJob.VendorNames` | app/jobs/generate_csv_job.rb:95 | One vendor per line item, in line-item order, duplicates kept. It succeeds exactly when every product is known. Otherwise it fails with the first unknown product. |
| `ReportJob.FetchFromOrder` | app/jobs/generate_csv_job.rb:92-100 | The last two entries are always the vendor list and the risk collection. The list has 2 entries more than the transaction details. It fails exactly when the vendor lookup fails. |
| `ReportJob.BuildResponse` | app/jobs/generate_csv_job.rb:47-74 | A built row's keys are exactly `CSV_HEADER`, in order. It fails exactly when a line item's product is unknown, and then with that error. |
| `ReportJob.ParseOrdersResponse` | app/jobs/generate_csv_job.rb:39-45 | One normalised row per order, in input order. It succeeds exactly when every order's row can be built. Otherwise it fails with the error of the first order that cannot be built. |
| `ReportJob.Report` | app/jobs/generate_csv_job.rb:27-33 | The header line comes first, then one line per order in input order, each holding that order's normalised values. The report fails exactly when some order fails, and then with the first such order's error. |
| `ReportJob.CsvBuffer.constructor` | app/jobs/generate_csv_job.rb:28 | A new CSV holds no lines. |
| `ReportJob.CsvBuffer.Append` | app/jobs/generate_csv_job.rb:29-31 | `csv << line` appends the line and changes nothing else. |
| `ReportJob.GenerateCsv` | app/jobs/generate_csv_job.rb:27-33 | The lines written to the buffer are exactly `Report`: the header first, then each row appended in order. |
| `ReportJob.GenerateCsvJob.ShopifyOrders` | app/jobs/generate_csv_job.rb:35-37 | The first call fetches the order page and remembers it. Every later call returns the same page. |
| `ReportJob.GenerateCsvJob.Perform` | app/jobs/generate_csv_job.rb:14-17 | The job's result is the report over the memoised order page. |
| `ReportProperties.HeaderDistinct` | app/jobs/generate_csv_job.rb:10-12 | The 16 column names are pairwise different. |
| `ReportProperties.FieldAt` | app/jobs/generate_csv_job.rb:56-73 | Field j of a row is found under column name j, before and after normalisation. |
| `ReportProperties.RowFollowsHeader` | app/jobs/generate_csv_job.rb:40-73 | Every row has 16 fields with the header's names in the header's order, and no blank value. Its CSV line lists the fields in header order. |
| `ReportProperties.CopiedFields` | app/jobs/generate_csv_job.rb:56-73 | name, email, financial_status, fulfillment_status, currency, price_subtotal, price_total and tags are copied from the order unchanged, then normalised. |
| `ReportProperties.BillingFields` | app/jobs/generate_csv_job.rb:65-82 | Without a billing address, billing_street and billing_address1 are 'N/A'. With one, both are its normalised address1. They are always equal. |
| `ReportProperties.ShippingFields` | app/jobs/generate_csv_job.rb:67-90 | Without a shipping address, shipping_zip and shipping_country are 'N/A'. With one, they are its normalised zip and country. |
| `ReportProperties.DestructuredFields` | app/jobs/generate_csv_job.rb:48-72 | With transaction details, the four fetched entries land in paid_at, refunded_amount, vendor and risk_level. Without them, the entries shift by two and the last two fields get nil. |
| `ReportProperties.TransactionTotals` | app/jobs/generate_csv_job.rb:102-111 | With a successful transaction, paid_at is the total of the sales and refunded_amount the total of the refunds. vendor and risk_level are the vendor list and the risk collection. |
| `ReportProperties.SaleAddsToPaidAt` | app/jobs/generate_csv_job.rb:102-111 | A new successful sale for the order adds its amount to paid_at, and refunded_amount stays the refund total. This holds whether or not the order had a successful transaction before. |
| `ReportProperties.NoRefundsGiveZero` | app/jobs/generate_csv_job.rb:107-111 | With successful transactions but no refund, refunded_amount is 0, not 'N/A'. |
| `ReportProperties.NoSuccessfulTransactionsShift` | app/jobs/generate_csv_job.rb:99-105 | With no successful transaction, paid_at holds the vendor list and refunded_amount the risk collection. vendor and risk_level are 'N/A'. |
| `ReportProperties.ShiftedFieldsBlankness` | app/jobs/generate_csv_job.rb:95-105 | In that case, paid_at is 'N/A' exactly when the order has no line items. refunded_amount is 'N/A' exactly when the order has no risk record. |
| `ReportProperties.OtherTransactionsIgnored` | app/jobs/generate_csv_job.rb:103 | Adding a transaction of another order, or one without status `success`, leaves the order's row unchanged. |
| `ReportProperties.EmptyReport` | app/jobs/generate_csv_job.rb:27-33 | With no orders, the report is the header line alone. |
| `ReportProperties.OneSaleExample` | app/jobs/generate_csv_job.rb:47-111 | Worked example: billing "123 Main St", no shipping address and one sale of 100. The billing fields are the street, shipping is 'N/A', paid_at is 100 and refunded_amount is 0. |
| `ReportProperties.TwoVendorNames` | app/jobs/generate_csv_job.rb:95 | Line items from "Acme" and "Globex" give the vendor list ["Acme", "Globex"]. |
| `ReportProperties.TwoVendorsExample` | app/jobs/generate_csv_job.rb:95-99 | With a successful transaction, that order's vendor field is the list of both names. |
| `ReportProperties.TwoVendorsUnpaidExample` | app/jobs/generate_csv_job.rb:48-105 | Without a successful transaction, the same list lands in paid_at and vendor is 'N/A'. |
| `ReportProperties.MissingProductExample` | app/jobs/generate_csv_job.rb:95 | A line item with an unknown product makes the whole report fail with that product's not-found error. |

## Left out

- The platform calls (`Order.find`, `Transaction.where`, `Product.find`, `OrderRisk.where`) are not performed. Their results are read from the `Remote` input. Network, authentication and server errors are not modelled; the only lookup error is an unknown product id.
- `ShopifyAPI::Base.activate_session`, the memoised `session` and the environment variables it reads are configuration, and are not modelled.
- CSV quoting and escaping belong to Ruby's `CSV` library, as does the `headers: true` option. The output is modelled as a sequence of lines, each a sequence of values, not as CSV text.
- Background queueing (`queue_as`, `perform_later`), the controller and the routes are not part of this model.
- Amounts are integers in the currency's minor unit. The API's decimal strings, and what Ruby's `sum` does with strings, are not modelled.
- `Transaction.where` and the collection's `where` are assumed to return exactly the order's transactions that match the `status` and `kind` parameters, in API order. The job leaves this filtering to the platform, so `SuccessfulTransactions`, `KindTotal` and the lemmas built on them state the assumed platform behaviour. `OrderRisk.where` is assumed in the same way to return exactly the order's risk records.
- ShopifyApi.SuccessfulTransactions: the contract states membership in both directions. It does not state that the API's order and multiplicity are kept, though the definition keeps them.
- ShopifyApi.OrderRisks: the contract states membership in both directions. It does not state that the API's order and multiplicity are kept, though the definition keeps them.
