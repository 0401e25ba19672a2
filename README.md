# Bill gateway adapters, modelled in Dafny

This project models the core of a Laravel bill-payment gateway written in PHP.
The gateway lets an application buy airtime, data bundles, electricity and TV
subscriptions through one interface. It has three adapters:

- Interswitch (Quickteller) signs its calls and caches an OAuth token.
- Flutterwave Bills talks to a bearer-token REST API.
- Paystack Bills is a stub that refuses every operation.

Each adapter keeps a local catalog of categories, billers and products in sync
with its upstream. Around the adapters the model also covers:

- the manager that picks an adapter by driver name;
- the three result records;
- the Interswitch webhook normaliser.

The model is built as follows.

- **Values.** `Php` gives the PHP value semantics the adapters rely on. Decoded
  JSON is an ordered array in which lookup finds the first match. It defines
  `??`, `isset`, `?:`, `Arr::get` with dotted keys, the `(string)` cast,
  `strtolower` and `str_contains`. It also defines the `TypeError` a value of
  the wrong type raises when it is passed to a `string`, `?string` or
  `?array` parameter. Laravel's error handler turns PHP warnings into
  `ErrorException`, so three warnings raise in the model too: a `(string)`
  cast of an array, a `foreach` over a value that is not an array, and
  dividing a number followed by text such as "12abc".
- **Amounts.** `Numeric` gives `is_numeric` and `(int) round($x * 100)`.
  Both work on the exact decimal value, with rounding half away from zero.
- **Adapters with state.** The two live adapters are classes:
  `Interswitch.InterswitchProvider` and `Flutterwave.FlutterwaveProvider`.
  Their fields are the configuration and the collaborators. The calls change
  the token cache entry, the nonce counter and the log of requests sent. The
  clock reading is a field as well; `AdvanceClock` moves it forward between
  calls, so the token's expiry can be reached. Each method is proved against a
  function of the old state: `SignedExchange`, `PurchaseRun`, `ScopedSync`,
  `SyncRun`, and so on. The properties the source promises are then proved
  about those functions.
- **The catalog.** `Catalog.CatalogStore` is a class holding the three tables
  and the log of `updateOrInsert` statements issued against them.
- **The uncontrolled world.** The HTTP transport, HMAC-SHA256 with base64,
  `urlencode`, the clock's formatting and the nonce source are oracles: fields
  of function type on the adapters. `uniqid` is a parameter.

File by file:

| file | what it holds |
|---|---|
| `php.dfy` | PHP values and coercions |
| `numeric.dfy` | numeric strings and minor units |
| `http.dfy` | requests, responses and replies |
| `requests.dfy` | request records |
| `results.dfy` | result records |
| `catalog.dfy` | the three catalog tables and the store |
| `interswitch_mapping.dfy` | Interswitch: payloads, signing, the token grant, reply mapping |
| `interswitch_catalog.dfy` | Interswitch: the keyword classifier and the catalog sync as functions |
| `interswitch.dfy` | Interswitch: the adapter class |
| `flutterwave_mapping.dfy` | Flutterwave: the request wrapper, payloads, reply mapping |
| `flutterwave_catalog.dfy` | Flutterwave: memoised fetches, the alias search, the scoped sync |
| `flutterwave.dfy` | Flutterwave: the adapter class |
| `paystack.dfy` | the Paystack stub |
| `manager.dfy` | driver resolution |
| `webhook.dfy` | the webhook normaliser |

Three behaviours of the code that a reader may not expect are modelled as written:

- The Flutterwave data scope reads its billers through the item cache
  (`src/Providers/FlutterwaveBillsProvider.php:148`). The cable and
  electricity scopes use the biller cache.
- The Interswitch `syncCatalogScoped` ignores its scope and runs the full sync
  (`src/Providers/InterswitchBillProvider.php:526-533`).
- In the Interswitch `BillerList.Category[].Billers[]` shape, a listed biller
  is upserted only under a truthy id, but its product is always written with
  that id as `biller_external_id`, not passed through `?: null`
  (`src/Providers/InterswitchBillProvider.php:417-435`). A listed biller with
  id "0" therefore yields a product whose biller row was never written.

## Model

| member | source | states |
|---|---|---|
| Php.Index | src/Providers/InterswitchBillProvider.php:253-276 | `$a[k] ?? …` is non-null exactly when the key exists with a non-null value, and then is that value |
| Php.Coalesce | src/Webhooks/InterswitchWebhookHandler.php:21-23 | `a ?? b` keeps a non-null left side and otherwise yields the right side |
| Php.Elvis | src/BillGatewayManager.php:20 | `a ?: b` keeps a truthy left side and otherwise yields the right side |
| Php.ArrGet | src/Webhooks/InterswitchWebhookHandler.php:21-24 | `Arr::get` returns the default on a scalar, the value of an existing key as stored (even null), and the default for a missing key without a dot |
| Php.ArrGetDotted | src/Providers/InterswitchBillProvider.php:353 | `Arr::get` with a key `a.b` that is not itself a key yields member `b` of member `a`, or the default when either is missing |
| Php.Items | src/Providers/FlutterwaveBillsProvider.php:153-167 | The values a `foreach` over an array visits: a list's elements or an object's values, in order; a scalar has none, and `Php.Iterate` raises on it |
| Php.Iterate | src/Providers/InterswitchBillProvider.php:303 | A `foreach` over a value that is not an array raises the ErrorException "foreach() argument must be of type array\|object, <type> given"; over an array it visits `Items` |
| Php.ToStr | src/Providers/FlutterwaveBillsProvider.php:154-156 | The string value of a scalar: a string is kept and null is ""; an array reads "Array", but `Php.Cast` raises on it first |
| Php.Cast | src/Providers/FlutterwaveBillsProvider.php:154-156 | A `(string)` cast raises the ErrorException "Array to string conversion" exactly on an array, and otherwise yields `ToStr` |
| Php.NullableString | src/Providers/InterswitchBillProvider.php:259-276 | Passing a value to `?string` raises exactly on an array, keeps null as null, and otherwise casts |
| Php.StringParam | src/Providers/InterswitchBillProvider.php:28-31 | Passing a value to `string` succeeds exactly on a non-null scalar, with its cast |
| Php.NullableArray | src/Providers/InterswitchBillProvider.php:265 | Passing a value to `?array` succeeds exactly on an array or null |
| Php.Lower | src/Providers/InterswitchBillProvider.php:505-516 | `strtolower` lower-cases each character in place and keeps the length |
| Php.Upper | src/Providers/InterswitchBillProvider.php:103-107 | `strtoupper` upper-cases each character in place and keeps the length |
| Php.ContainsIffOccurs | src/Providers/InterswitchBillProvider.php:505-516 | `str_contains` holds exactly when the needle occurs at some position of the haystack |
| Php.RTrimSlash | src/Providers/InterswitchBillProvider.php:67 | `rtrim($s, '/')` is a prefix of its input without a trailing slash, and only slashes were removed |
| Numeric.RoundHalfAway | src/Providers/FlutterwaveBillsProvider.php:175-176 | `round(n / d)` is the nearest integer, with halves rounded away from zero, for either sign |
| Numeric.Kobo | src/Providers/FlutterwaveBillsProvider.php:175-176 | A non-numeric amount stores 0 kobo, and an integer amount stores 100 times itself |
| Numeric.KoboRoundsHalfAway | src/Providers/FlutterwaveBillsProvider.php:175-176 | Example: "12.345" naira stores 1235 kobo: a third decimal is rounded half away from zero |
| Numeric.ToKobo | src/Providers/InterswitchBillProvider.php:117-120 | The minor-unit amount is 100 times the decimal amount rounded to the nearest integer, halves away from zero |
| Numeric.NumericIsOperand | src/Providers/InterswitchBillProvider.php:272 | Every value `is_numeric` accepts is also accepted by the `/` operator, so the division never raises on an amount that passed `is_numeric` |
| Numeric.ToKoboExact | src/Providers/InterswitchBillProvider.php:117-120 | An amount with at most two decimals converts to minor units with no rounding |
| Http.ReplyOf | src/Providers/InterswitchBillProvider.php:109-114 | The reply record is `ok` exactly on a 2xx status and keeps the status and the decoded body |
| Results.TransactionSuccess | src/DTOs/Results/BillTransactionResult.php:20-30 | A success record has no error code, and its status defaults to "success" |
| Results.TransactionFailure | src/DTOs/Results/BillTransactionResult.php:32-41 | A failure record has no provider reference and no amount, and its status defaults to "failed" |
| Results.StatusSuccess | src/DTOs/Results/BillTransactionStatusResult.php:19-28 | A successful status record keeps the status as given and has no error code |
| Results.StatusFailure | src/DTOs/Results/BillTransactionStatusResult.php:30-39 | A failed status record has no provider reference, and its status defaults to "failed" |
| Results.ValidationSuccess | src/DTOs/Results/CustomerValidationResult.php:18-26 | A successful validation keeps the customer id and name and has no error code |
| Results.ValidationFailure | src/DTOs/Results/CustomerValidationResult.php:28-36 | A failed validation has no customer name and keeps the given error code |
| Catalog.ApplyProduct | database/migrations/2025_01_02_000002_add_amount_fee_kobo_to_bill_products.php:11-18 | A product upsert sets every column it names; kobo columns it does not name are kept from the existing row, or default to 0 on insert |
| Catalog.UpsertTouchesOnlyItsKey | database/migrations/2025_01_01_000001_create_billing_catalog_tables.php:17-45 | An upsert keyed on (provider, external_id) leaves every other row of every table unchanged |
| Catalog.UpsertIdempotent | database/migrations/2025_01_01_000001_create_billing_catalog_tables.php:17-45 | Repeating an identical upsert changes nothing, so a re-run sync is stable |
| Catalog.KoboUntouched | database/migrations/2025_01_02_000002_add_amount_fee_kobo_to_bill_products.php:11-18 | A run of upserts that never names the kobo columns keeps an existing product's amount and fee |
| Catalog.BillerKeysApplied | database/migrations/2025_01_01_000001_create_billing_catalog_tables.php:20-28 | A biller upserted anywhere in a run of upserts has a row once the run is applied |
| Catalog.CollectRaise | src/Providers/InterswitchBillProvider.php:303-317 | A loop of records raises exactly when one of its records does |
| Catalog.CollectStop | src/Providers/InterswitchBillProvider.php:303-317 | A loop of records that raises stops at its first raising record, keeping exactly the upserts of the records before it |
| Catalog.CatalogStore.Upsert | database/migrations/2025_01_01_000001_create_billing_catalog_tables.php:10-46 | `updateOrInsert` applies the upsert to the tables and appends it to the log |
| InterswitchMapping.Body | src/Providers/InterswitchBillProvider.php:253 | `$result['json'] ?? []` is never null |
| InterswitchMapping.ApprovedNeedsOkAndStrictCode | src/Providers/InterswitchBillProvider.php:195-198 | A non-2xx reply is never approved, whatever its code; the strict `in_array` means the integer code 0 is not the string "00" and approves nothing unless the grouping is "SUCCESSFUL"; an approved body is an object |
| InterswitchMapping.MapTransactionResult | src/Providers/InterswitchBillProvider.php:251-278 | A mapped purchase that returns succeeds exactly when the reply is approved (2xx and code "00"/"90000" or grouping "SUCCESSFUL"), keeps the reference and the body, and reports the upstream `Amount`. It raises a TypeError on a non-array body and on an approved `Amount` that is an array or a string with no leading number. It raises the ErrorException "A non-numeric value encountered" on an approved `Amount` that is a number followed by text, and on nothing else |
| InterswitchMapping.Quotient | src/Providers/InterswitchBillProvider.php:272 | `isset($json['Amount']) ? $json['Amount'] / 100 : null` is null exactly for a null amount. It raises a TypeError exactly for an array or a string with no leading number, and the ErrorException "A non-numeric value encountered" exactly for a number followed by text; otherwise it is the amount |
| InterswitchMapping.AmountWithTrailingTextRaises | src/Providers/InterswitchBillProvider.php:272 | Example: an `Amount` of "12abc" raises the ErrorException "A non-numeric value encountered" |
| InterswitchMapping.MapValidationResult | src/Providers/InterswitchBillProvider.php:195-216 | A mapped validation succeeds exactly when the reply is approved, keeps the customer id and the body, and fails only with a TypeError |
| InterswitchMapping.MapStatusResult | src/Providers/InterswitchBillProvider.php:225-248 | A mapped status check succeeds exactly when the reply is approved, keeps the reference and the body, and fails only with a TypeError |
| InterswitchMapping.StatusTextMeaning | src/Providers/InterswitchBillProvider.php:262 | The status chain `Status ?? (grouping ?? default)`, cast to string, is the first non-null of `Status`, `ResponseCodeGrouping` and the default |
| InterswitchMapping.TransactionStatusFallback | src/Providers/InterswitchBillProvider.php:262-274 | A mapped purchase's status is `Status`, else the grouping, else "success" or "failed" by outcome |
| InterswitchMapping.StatusCheckFallback | src/Providers/InterswitchBillProvider.php:234-242 | A mapped status check's status follows the same fallbacks, ending in "success" or "failed" by outcome |
| InterswitchMapping.FailureCarriesResponseCode | src/Providers/InterswitchBillProvider.php:201-277 | Every failure of the three mappings carries the upstream `ResponseCode` as its error code, and a successful purchase carries `TransactionRef` as its provider reference |
| InterswitchMapping.FailureMessages | src/Providers/InterswitchBillProvider.php:204-275 | Without `ResponseDescription`, failures default to "Bill transaction failed.", "Customer validation failed." and "Unable to retrieve transaction status.", and a successful validation has no message |
| InterswitchMapping.RequestReference | src/Providers/InterswitchBillProvider.php:122-176 | A given reference is used as-is, even when empty; otherwise a generated one starts with the purchase's prefix |
| InterswitchMapping.GeneratedReferenceNamesKind | src/Providers/InterswitchBillProvider.php:122-176 | Two generated references that are equal come from the same kind of purchase |
| InterswitchMapping.PurchasePayload | src/Providers/InterswitchBillProvider.php:122-176 | The purchase body carries the reference, the customer id, the payment code and the amount in kobo |
| InterswitchMapping.AirtimePaymentCode | src/Providers/InterswitchBillProvider.php:126 | Airtime pays with the product code when given, else `meta.payment_code` |
| InterswitchMapping.ValidationPayload | src/Providers/InterswitchBillProvider.php:185-191 | The validation body names exactly one customer, with its payment code, and the terminal id |
| InterswitchMapping.SignedHeaders | src/Providers/InterswitchBillProvider.php:83-91 | A signed call always carries the seven headers in order, including the bearer token, timestamp, nonce, signature method and the signature |
| InterswitchMapping.SignedCall | src/Providers/InterswitchBillProvider.php:65-107 | A signed call is refused exactly for a verb other than GET/POST, with the source's message; otherwise it goes to the base URL plus path, GET without a body, POST with the JSON or form body |
| InterswitchMapping.SigningStringParts | src/Providers/InterswitchBillProvider.php:80 | The signing string starts with the client id, ends with the upper-cased verb, and holds the full URL just before the verb |
| InterswitchMapping.SignatureIgnoresSignatureMethod | src/Providers/InterswitchBillProvider.php:81-89 | The signature is HMAC-SHA256 whatever the `signature_method` header claims |
| InterswitchMapping.GrantRequest | src/Providers/InterswitchBillProvider.php:48-53 | The token grant is a form POST, with the client credentials as basic auth, to the login URL's `/passport/oauth/token` |
| InterswitchMapping.GrantToken | src/Providers/InterswitchBillProvider.php:48-61 | A grant yields a token exactly on a 2xx response with an `access_token`; a transport exception propagates, and a non-2xx response or a missing token raises with the source's message |
| Interswitch.TokenHit | src/Providers/InterswitchBillProvider.php:33-63 | A fresh cached token that is not null is returned with no request and no credential check; a cached null counts as a miss |
| Interswitch.TokenMissWithoutCredentials | src/Providers/InterswitchBillProvider.php:44-46 | On a miss with a falsy credential the call raises before sending anything, and the cache is unchanged |
| Interswitch.TokenMissGrant | src/Providers/InterswitchBillProvider.php:37-61 | On a miss with credentials exactly the grant request is sent; a failed grant raises and keeps the cache, and a granted token is cached for 50 minutes |
| Interswitch.TokenReuse | src/Providers/InterswitchBillProvider.php:33-63 | A granted token is reused, with no request and the same outcome and cache entry, by any call within its 50 minutes, whatever the transport then does |
| Interswitch.Deliver | src/Providers/InterswitchBillProvider.php:109-114 | A response becomes its reply record, and a transport exception propagates |
| Interswitch.UnsupportedVerbAfterToken | src/Providers/InterswitchBillProvider.php:75-107 | An unsupported verb raises only after the token lookup (which may still grant and cache a token) and a nonce draw, and no signed call is sent |
| Interswitch.SentCallIsSigned | src/Providers/InterswitchBillProvider.php:65-114 | The call that goes out is the signed call for the token, the clock and the drawn nonce, sent last |
| Interswitch.EndpointExchange | src/Providers/InterswitchBillProvider.php:28-31 | A non-string endpoint configuration raises a TypeError with nothing sent; otherwise the configured path is called |
| Interswitch.InterswitchProvider.AdvanceClock | src/Providers/InterswitchBillProvider.php:37 | Time passing between calls moves the clock that `now()` reads forward, and changes nothing else |
| Interswitch.InterswitchProvider.GetAccessToken | src/Providers/InterswitchBillProvider.php:33-63 | `getAccessToken` returns the lookup's token, stores its cache entry, logs its requests and keeps the clock and the nonce counter |
| Interswitch.InterswitchProvider.SignedRequest | src/Providers/InterswitchBillProvider.php:65-115 | `signedRequest` yields `SignedExchange` of the old state: its reply, its cache entry, one nonce drawn when a token was obtained, and its requests appended to the log |
| Interswitch.InterswitchProvider.CallEndpoint | src/Providers/InterswitchBillProvider.php:28-31 | A call to a configured endpoint yields `EndpointExchange` of the old state |
| Interswitch.InterswitchProvider.PurchaseAirtime | src/Providers/InterswitchBillProvider.php:122-134 | An airtime purchase POSTs its payload to `endpoints.purchase`, maps the reply, and reports its own reference |
| Interswitch.InterswitchProvider.PurchaseData | src/Providers/InterswitchBillProvider.php:136-148 | A data purchase POSTs its payload, maps the reply, and reports its own reference |
| Interswitch.InterswitchProvider.PayPowerBill | src/Providers/InterswitchBillProvider.php:150-162 | A power purchase POSTs its payload, maps the reply, and reports its own reference |
| Interswitch.InterswitchProvider.PayTvSubscription | src/Providers/InterswitchBillProvider.php:164-176 | A TV purchase POSTs its payload, maps the reply, and reports its own reference |
| Interswitch.InterswitchProvider.ValidateCustomer | src/Providers/InterswitchBillProvider.php:178-217 | A validation POSTs the customer and terminal id to `endpoints.validate_customer` and maps the reply |
| Interswitch.InterswitchProvider.CheckTransactionStatus | src/Providers/InterswitchBillProvider.php:219-249 | A status check GETs `endpoints.transaction_status` with `requestRef` and maps the reply |
| Interswitch.InterswitchProvider.SyncCategories | src/Providers/InterswitchBillProvider.php:303-317 | The category loop upserts exactly `CategoryWrites`' upserts, in order, counts them, and reports its exception: the categories with a truthy id and name, up to the first id that is an array |
| Interswitch.InterswitchProvider.SyncCategory | src/Providers/InterswitchBillProvider.php:304-316 | One category raises at its id cast, is skipped, or is upserted, exactly as `CategoryWrite` says, and the store receives exactly that upsert |
| Interswitch.InterswitchProvider.SyncFromCategories | src/Providers/InterswitchBillProvider.php:298-317 | After a successful categories reply, a category loop that raises ends the sync with its upserts and sends nothing more; otherwise the services are fetched, as `SyncRun` says |
| Interswitch.InterswitchProvider.SyncLeaf | src/Providers/InterswitchBillProvider.php:375-404 | One record raises at an id cast, is skipped, or writes its biller and product, as `LeafStep` says |
| Interswitch.InterswitchProvider.SyncLeafList | src/Providers/InterswitchBillProvider.php:375 | The `foreach` over a flat list raises on a value that is not an array, and otherwise runs it as `LeavesRun` says |
| Interswitch.InterswitchProvider.SyncLeaves | src/Providers/InterswitchBillProvider.php:360-405 | A flat list is synced record by record, stopping at the first exception, as `LeafFold` says |
| Interswitch.InterswitchProvider.SyncGroupList | src/Providers/InterswitchBillProvider.php:360 | The `foreach` over a list of groups raises on a value that is not an array, and otherwise runs it as `GroupsRun` says |
| Interswitch.InterswitchProvider.SyncGroups | src/Providers/InterswitchBillProvider.php:408-493 | A list of groups is synced group by group, as `GroupFold` says |
| Interswitch.InterswitchProvider.SyncGroup | src/Providers/InterswitchBillProvider.php:360-411 | One group raises at an id cast, or writes its biller and then runs its own list, whose `foreach` may raise, as `GroupStep` says |
| Interswitch.InterswitchProvider.SyncServices | src/Providers/InterswitchBillProvider.php:351-493 | The three services shapes run in order with one shared set of seen billers, as `ServicesPlan` says |
| Interswitch.InterswitchProvider.SyncCatalog | src/Providers/InterswitchBillProvider.php:285-500 | `syncCatalog` returns `SyncRun` of the two replies, and the store receives exactly that run's upserts |
| Interswitch.InterswitchProvider.SyncCatalogScoped | src/Providers/InterswitchBillProvider.php:526-533 | The scoped sync runs the full sync whatever the scope |
| InterswitchCatalog.ClassifyByOccurrence | src/Providers/InterswitchBillProvider.php:505-516 | Each product flag holds exactly when one of its keywords occurs in the lower-cased category, service and biller text |
| InterswitchCatalog.ClassifyGotvMax | src/Providers/InterswitchBillProvider.php:505-516 | Example: "GOtv Max" from biller "GOtv" is classified as TV and nothing else |
| InterswitchCatalog.ClassifyDstvCompact | src/Providers/InterswitchBillProvider.php:505-516 | Example: "DStv Compact" in category "CABLETV" is classified as TV and nothing else |
| InterswitchCatalog.ClassifyArgs | src/Providers/InterswitchBillProvider.php:505 | `classifyProduct` raises a TypeError exactly when the service or biller name is an array |
| InterswitchCatalog.CategoryWrite | src/Providers/InterswitchBillProvider.php:304-316 | One category raises the array-to-string ErrorException exactly when its id is an array; otherwise it is upserted exactly when its id and name are truthy |
| InterswitchCatalog.CategoryWritesSkip | src/Providers/InterswitchBillProvider.php:303-317 | Only categories with a truthy id and name are written, at most one upsert per category; a loop that runs to the end writes every such category |
| InterswitchCatalog.CategoryWritesRaise | src/Providers/InterswitchBillProvider.php:303-304 | The category loop raises exactly when some category id is an array |
| InterswitchCatalog.CategoryWritesStop | src/Providers/InterswitchBillProvider.php:303-317 | A category loop that raises stops at the first category whose id is an array, having written exactly what the categories before it write |
| InterswitchCatalog.CategoriesRunShape | src/Providers/InterswitchBillProvider.php:298-317 | The category step writes only categories, and raises, always with an ErrorException, exactly when the categories value is not an array or some category id is one |
| InterswitchCatalog.CategoriesOfAString | src/Providers/InterswitchBillProvider.php:300-303 | Example: `{"BillerCategories": "none"}` raises "foreach() argument must be of type array\|object, string given" and writes nothing |
| InterswitchCatalog.CategoryIdOfAnArray | src/Providers/InterswitchBillProvider.php:304 | Example: a category whose `categoryid` is `[1]` raises "Array to string conversion" before it is written |
| InterswitchCatalog.SyncRunFailures | src/Providers/InterswitchBillProvider.php:290-343 | A failed categories fetch raises and writes nothing. A category loop that raises ends the sync with an ErrorException and only category upserts, before the services are consulted. A failed services fetch keeps the category upserts and returns their count |
| InterswitchCatalog.GroupListRaisesAfterBiller | src/Providers/InterswitchBillProvider.php:365-375 | A group whose list is not an array writes its biller first, and then the `foreach` over the list raises |
| InterswitchCatalog.NullPaymentItemsRaiseAfterBiller | src/Providers/InterswitchBillProvider.php:360-375 | Example: the biller `{"Id": "B1", "Name": "X", "PaymentItems": null}` is upserted, and then the sync raises "… null given" |
| InterswitchCatalog.NullCategoryListRaises | src/Providers/InterswitchBillProvider.php:353-408 | Example: a services body `{"BillerList": {"Category": null}}` raises at the shape-2 `foreach` before any write |
| InterswitchCatalog.BillerListRaisesFirst | src/Providers/InterswitchBillProvider.php:351-408 | With no shape-1 billers, a shape-2 value that is not an array raises at its `foreach` before anything is written |
| InterswitchCatalog.NullBillersCoalesced | src/Providers/InterswitchBillProvider.php:351 | Example: a null `Billers` is coalesced to the empty array, so `{"Billers": null}` completes with nothing written |
| InterswitchCatalog.ServicesPlanCounts | src/Providers/InterswitchBillProvider.php:351-499 | Across the three shapes no biller is upserted twice; the counters equal the biller and product upserts; every write is keyed to Interswitch and names no kobo column; a completed run upserts exactly the distinct truthy biller ids |
| InterswitchCatalog.ListedBillerAlwaysProduct | src/Providers/InterswitchBillProvider.php:408-448 | In the second shape every listed biller whose id is not an array (empty or "0" included) becomes a product keyed by that id; an array id raises at its cast and leaves the state unchanged |
| InterswitchCatalog.SyncRunReferences | src/Providers/InterswitchBillProvider.php:351-493 | Every product a sync writes with a truthy `biller_external_id` names a biller the same sync upserted, even when an exception cut the run short; a falsy reference never names one; without the second shape every reference resolves |
| InterswitchCatalog.ListedFalsyBillerUnresolved | src/Providers/InterswitchBillProvider.php:416-435 | A listed biller with a falsy id writes no biller but a product whose `biller_external_id` is that id, which names no upserted biller |
| InterswitchCatalog.ListedZeroBillerUnresolved | src/Providers/InterswitchBillProvider.php:416-435 | Example: the listed biller `{"Id": "0", "Name": "Zero"}` yields a product referring to biller "0", which no upsert wrote |
| InterswitchCatalog.LeafFoldErrSticks | src/Providers/InterswitchBillProvider.php:360-405 | An error part-way through a flat list ends the list with that outcome |
| InterswitchCatalog.GroupFoldErrSticks | src/Providers/InterswitchBillProvider.php:408-493 | An error part-way through a list of groups ends it with that outcome |
| FlutterwaveMapping.BuildRequest | src/Providers/FlutterwaveBillsProvider.php:60-64 | A verb other than GET/POST is refused with the source's message; GET sends the payload as the query and POST as the JSON body, to the base URL plus path with the bearer headers |
| FlutterwaveMapping.Received | src/Providers/FlutterwaveBillsProvider.php:66-80 | A response keeps its status with `ok` for 2xx and a non-null body; a transport exception becomes a failed reply carrying the message |
| FlutterwaveMapping.CallOutcomes | src/Providers/FlutterwaveBillsProvider.php:41-81 | The request wrapper raises exactly when the secret is missing and then sends nothing; otherwise it sends one request |
| FlutterwaveMapping.TransportFailureIsRecorded | src/Providers/FlutterwaveBillsProvider.php:72-80 | A transport exception becomes `{ok: false, status: 500, json: {message}}` rather than raising |
| FlutterwaveMapping.StatusCast | src/Providers/FlutterwaveBillsProvider.php:408 | The status cast raises the array-to-string ErrorException exactly when the status value is an array, and otherwise yields the lower-cased status text |
| FlutterwaveMapping.PurchaseSucceedsIffOk | src/Providers/FlutterwaveBillsProvider.php:469-493 | A mapped purchase returns exactly when its fields have the right types; it raises the array-to-string ErrorException when the status is an array and a TypeError otherwise. It succeeds exactly when the call was a 2xx, whatever its status text; the status is the lower-cased text, else "successful" / "failed" |
| FlutterwaveMapping.PurchaseResultFields | src/Providers/FlutterwaveBillsProvider.php:475-492 | A failure has no error code and its message defaults to "Transaction failed"; a success carries `data.flw_ref` and reports an amount exactly when `data.amount` is present |
| FlutterwaveMapping.StatusAlwaysSucceeds | src/Providers/FlutterwaveBillsProvider.php:402-417 | A status check reports success whatever the reply, even a failed call, with a non-empty status defaulting to "successful". It raises only on a field of the wrong type: the array-to-string ErrorException for an array status, a TypeError otherwise |
| FlutterwaveMapping.ValidationSucceedsIffCustomer | src/Providers/FlutterwaveBillsProvider.php:330-359 | A validation succeeds exactly when the call was a 2xx and named a customer; a failure keeps the asked-for id and carries the upstream status as its code. It raises a TypeError on a field of the wrong type, or the array-to-string ErrorException when no customer was named and the status is an array |
| FlutterwaveMapping.PurchaseReference | src/Providers/FlutterwaveBillsProvider.php:363 | A truthy given reference is used; an empty, "0" or missing one is replaced by a generated reference |
| FlutterwaveMapping.GeneratedReferencePrefix | src/Providers/FlutterwaveBillsProvider.php:363 | A generated reference is the lower-cased bill type, an underscore and the unique id |
| FlutterwaveMapping.PurchasePayloadFields | src/Providers/FlutterwaveBillsProvider.php:365-375 | The purchase body names the customer, the reference, the type and the amount |
| FlutterwaveMapping.PurchasePayloadCountryAndCode | src/Providers/FlutterwaveBillsProvider.php:365-375 | The country comes from `meta`, else the configuration, else "NG"; `biller_code` is sent only with a product code |
| FlutterwaveMapping.ValidationQuery | src/Providers/FlutterwaveBillsProvider.php:332-337 | The validation query carries the item code, the biller code, the customer and the country |
| Flutterwave.PurchaseRunSends | src/Providers/FlutterwaveBillsProvider.php:361-380 | A purchase without a secret raises before sending; with one it sends exactly one POST to `/bills` with the purchase body |
| Flutterwave.PurchaseRunResult | src/Providers/FlutterwaveBillsProvider.php:361-380 | Once sent, a purchase sends exactly one request. It raises only on a field of the wrong type (a TypeError or the `ErrorException` of a warning), and otherwise succeeds exactly when the transport returned a 2xx response |
| Flutterwave.ValidationRunSends | src/Providers/FlutterwaveBillsProvider.php:330-359 | A validation with a secret sends one GET to `/bills/validate-customer` with the validation query |
| Flutterwave.ValidationRunResult | src/Providers/FlutterwaveBillsProvider.php:330-359 | Once sent, a validation succeeds exactly when the call went through and named a customer |
| Flutterwave.StatusRunSends | src/Providers/FlutterwaveBillsProvider.php:402-417 | A status check with a secret sends one GET with no query to the URL-encoded reference's path; it then raises only on a field of the wrong type, and otherwise succeeds with the given reference |
| Flutterwave.FlutterwaveProvider.Request | src/Providers/FlutterwaveBillsProvider.php:41-81 | `request` yields `Call` and appends its requests to the log |
| Flutterwave.FlutterwaveProvider.PurchaseBill | src/Providers/FlutterwaveBillsProvider.php:361-380 | `purchaseBill` yields `PurchaseRun` for the settled reference and the amount in minor units |
| Flutterwave.FlutterwaveProvider.PurchaseAirtime | src/Providers/FlutterwaveBillsProvider.php:382-385 | Airtime is an AIRTIME purchase for the phone number |
| Flutterwave.FlutterwaveProvider.PurchaseData | src/Providers/FlutterwaveBillsProvider.php:387-390 | Data is a DATA purchase for the phone number |
| Flutterwave.FlutterwaveProvider.PayPowerBill | src/Providers/FlutterwaveBillsProvider.php:392-395 | Power is an ELECTRICITY purchase for the meter number |
| Flutterwave.FlutterwaveProvider.PayTvSubscription | src/Providers/FlutterwaveBillsProvider.php:397-400 | TV is a CABLE purchase for the smartcard number |
| Flutterwave.FlutterwaveProvider.ValidateCustomer | src/Providers/FlutterwaveBillsProvider.php:330-359 | `validateCustomer` yields `ValidationRun` and logs its requests |
| Flutterwave.FlutterwaveProvider.CheckTransactionStatus | src/Providers/FlutterwaveBillsProvider.php:402-417 | `checkTransactionStatus` yields `StatusRun` and logs its requests |
| Flutterwave.FlutterwaveProvider.GetBillersByCategory | src/Providers/FlutterwaveBillsProvider.php:422-442 | `getBillersByCategory` yields the memoised fetch of the category's billers |
| Flutterwave.FlutterwaveProvider.GetBillerItems | src/Providers/FlutterwaveBillsProvider.php:447-467 | `getBillerItems` yields the memoised fetch of the biller's items |
| Flutterwave.FlutterwaveProvider.SyncCatalog | src/Providers/FlutterwaveBillsProvider.php:83-112 | `syncCatalog` upserts exactly the four seed categories and reports {4, 0, 0} |
| Flutterwave.FlutterwaveProvider.SyncCatalogScoped | src/Providers/FlutterwaveBillsProvider.php:114-143 | The scoped sync returns `ScopedSync`'s result, the store receives exactly its upserts, and its requests are logged |
| Flutterwave.FlutterwaveProvider.SyncDataBundles | src/Providers/FlutterwaveBillsProvider.php:145-201 | The data scope is `DataRun`, and the store keeps tracking the tally |
| Flutterwave.FlutterwaveProvider.SyncCableProviders | src/Providers/FlutterwaveBillsProvider.php:203-265 | The cable scope is the alias search over the cable aliases |
| Flutterwave.FlutterwaveProvider.SyncElectricUtilities | src/Providers/FlutterwaveBillsProvider.php:267-328 | The electricity scope is the alias search over the electricity aliases |
| Flutterwave.FlutterwaveProvider.FindBillers | src/Providers/FlutterwaveBillsProvider.php:205-213 | The alias loop yields `AliasFold` and logs its requests |
| Flutterwave.FlutterwaveProvider.SyncBiller | src/Providers/FlutterwaveBillsProvider.php:153-197 | One biller raises at a field cast, is skipped without a code, or is upserted with its items, as `BillerStep` says |
| Flutterwave.FlutterwaveProvider.SyncItems | src/Providers/FlutterwaveBillsProvider.php:166-196 | The item loop upserts exactly `ItemWrites`' upserts, in order, counts them, and reports its exception |
| Flutterwave.FlutterwaveProvider.SyncItem | src/Providers/FlutterwaveBillsProvider.php:167-195 | One item raises at a cast, is skipped, or is upserted, exactly as `ItemWrite` says, and the store receives exactly that upsert |
| FlutterwaveCatalog.SeedCategories | src/Providers/FlutterwaveBillsProvider.php:83-112 | The seed sync creates exactly the four categories and touches neither billers nor products |
| FlutterwaveCatalog.ListOf | src/Providers/FlutterwaveBillsProvider.php:435-441 | A fetched list is always an array: `data` when it is one, else the empty array |
| FlutterwaveCatalog.MemoHit | src/Providers/FlutterwaveBillsProvider.php:422-442 | A cached key is answered from the cache with no request |
| FlutterwaveCatalog.MemoMiss | src/Providers/FlutterwaveBillsProvider.php:422-467 | On a miss exactly one GET is sent, or none without a secret |
| FlutterwaveCatalog.MemoGrows | src/Providers/FlutterwaveBillsProvider.php:422-467 | A fetch keeps every cached entry, and a returning fetch leaves its own key cached |
| FlutterwaveCatalog.MemoFetchesOnce | src/Providers/FlutterwaveBillsProvider.php:422-467 | Against one shared cache, a key is fetched at most once |
| FlutterwaveCatalog.KeysDisjoint | src/Providers/FlutterwaveBillsProvider.php:123-124 | Biller-list and item-list cache keys never collide |
| FlutterwaveCatalog.BillerFields | src/Providers/FlutterwaveBillsProvider.php:154-156 | A biller's three casts raise the array-to-string ErrorException exactly when its code, name or currency value is an array; otherwise they yield its code and currency |
| FlutterwaveCatalog.BillerCodeOfAnArray | src/Providers/FlutterwaveBillsProvider.php:154 | Example: a biller whose `biller_code` is `[1]` raises before its row or its items are written |
| FlutterwaveCatalog.ItemWrite | src/Providers/FlutterwaveBillsProvider.php:167-195 | An item raises the array-to-string ErrorException exactly when its code is an array, or its code is non-empty and its name is an array; otherwise it writes nothing without a code and its product with one |
| FlutterwaveCatalog.ItemWritesRaise | src/Providers/FlutterwaveBillsProvider.php:166-196 | An item loop raises exactly when one of its items does |
| FlutterwaveCatalog.ItemWritesStop | src/Providers/FlutterwaveBillsProvider.php:166-196 | An item loop that raises stops at its first raising item, with that item's exception and exactly the upserts of the items before it |
| FlutterwaveCatalog.BillerRecordDefaults | src/Providers/FlutterwaveBillsProvider.php:153-163 | A biller with a code is never stored with an empty name; its name falls back to its code and its currency to "NGN" |
| FlutterwaveCatalog.ItemWritesShape | src/Providers/FlutterwaveBillsProvider.php:166-196 | Every product a scope writes is keyed and paid by its non-empty item code, under its biller and its scope's category and flag |
| FlutterwaveCatalog.ItemDefaults | src/Providers/FlutterwaveBillsProvider.php:171-176 | A non-numeric or absent amount or fee is stored as 0 kobo, and an item with no name field takes its scope's default name |
| FlutterwaveCatalog.ScopeFlagsOneHot | src/Providers/FlutterwaveBillsProvider.php:166-196 | A scope's products set exactly its own flag |
| FlutterwaveCatalog.BillerFoldErrSticks | src/Providers/FlutterwaveBillsProvider.php:153-198 | An exception part-way through the billers ends the scope with that outcome |
| FlutterwaveCatalog.AliasFoldSticks | src/Providers/FlutterwaveBillsProvider.php:205-213 | Once a list is found or an exception raised, no further alias is tried |
| FlutterwaveCatalog.AliasFoldShape | src/Providers/FlutterwaveBillsProvider.php:205-213 | A search that finds something finds a non-empty list; one that finds nothing and raises nothing looked up every alias, whose cached biller list is empty |
| FlutterwaveCatalog.FirstAliasTaken | src/Providers/FlutterwaveBillsProvider.php:205-213 | When the first alias yields a non-empty list it is taken and no other alias is fetched |
| FlutterwaveCatalog.AliasesAllEmptyWriteNothing | src/Providers/FlutterwaveBillsProvider.php:205-217 | When every alias is empty the scope writes and counts nothing |
| FlutterwaveCatalog.AllRunsThreeScopes | src/Providers/FlutterwaveBillsProvider.php:122 | "all" runs data, cable and electricity in that order, sharing the caches and the counts |
| FlutterwaveCatalog.UnknownScopeAddsNothing | src/Providers/FlutterwaveBillsProvider.php:114-143 | An unknown scope adds only the seed categories, with counts {4, 0, 0} and no request |
| FlutterwaveCatalog.SingleScope | src/Providers/FlutterwaveBillsProvider.php:122 | A single known scope runs exactly that scope after the seeds |
| FlutterwaveCatalog.ScopedFoldErrSticks | src/Providers/FlutterwaveBillsProvider.php:126-140 | An exception in one scope ends the scoped sync with that outcome |
| FlutterwaveCatalog.ScopedSyncTotals | src/Providers/FlutterwaveBillsProvider.php:114-143 | A completed scoped sync reports four categories and exactly as many billers and products as it upserted |
| FlutterwaveCatalog.ScopedSyncReferences | src/Providers/FlutterwaveBillsProvider.php:145-328 | Every product a scoped sync writes names its biller, which the same sync upserted first, so the biller row exists once the writes are applied, even when an exception cut the sync short |
| Paystack.PurchaseAirtime | src/Providers/PaystackBillsProvider.php:28-31 | Airtime always raises the not-implemented LogicError |
| Paystack.PurchaseData | src/Providers/PaystackBillsProvider.php:33-36 | Data always raises the not-implemented LogicError |
| Paystack.PayPowerBill | src/Providers/PaystackBillsProvider.php:38-41 | Power always raises the not-implemented LogicError |
| Paystack.PayTvSubscription | src/Providers/PaystackBillsProvider.php:43-46 | TV always raises the not-implemented LogicError |
| Paystack.ValidateCustomer | src/Providers/PaystackBillsProvider.php:48-51 | Validation always raises the not-implemented LogicError |
| Paystack.CheckTransactionStatus | src/Providers/PaystackBillsProvider.php:53-56 | The status check always raises the not-implemented LogicError |
| Paystack.SyncCatalog | src/Providers/PaystackBillsProvider.php:58-62 | The sync reports zero counts and issues no upsert |
| Paystack.SyncsChangeNothing | src/Providers/PaystackBillsProvider.php:58-68 | No scope makes a difference, and a sync leaves every table as it was |
| Paystack.NoOperationSucceeds | src/Providers/PaystackBillsProvider.php:23-56 | The six transaction operations fail alike, whatever the request |
| Manager.DriverName | src/BillGatewayManager.php:20 | A truthy name is used; an absent, empty or "0" name falls back to `billing.default` |
| Manager.KnownNamesResolve | src/BillGatewayManager.php:22-49 | Each known name builds its own adapter from its own configuration slice, which is `[]` when absent |
| Manager.ResolveOutcomes | src/BillGatewayManager.php:18-49 | Resolution succeeds exactly for a known name whose configuration slice is an array; an unknown scalar name raises InvalidArgument naming it, and an array name raises the "Array to string conversion" ErrorException while the message is built |
| Manager.FalsyNameUsesDefault | src/BillGatewayManager.php:18-28 | A missing, empty or "0" name resolves as the default driver does |
| Manager.UnknownDefaultRaises | src/BillGatewayManager.php:26 | A default that is not one of the three names raises: InvalidArgument for a scalar, null included, and the interpolation's ErrorException for an array |
| Manager.ArrayDefaultWarns | src/BillGatewayManager.php:20-26 | Example: a list-valued `billing.default` raises the ErrorException, not InvalidArgument |
| Webhook.FirstOf | src/Webhooks/InterswitchWebhookHandler.php:21-23 | `Arr::get(k) ?? Arr::get(fallback)` is the first non-null of the two keys |
| Webhook.Handle | src/Webhooks/InterswitchWebhookHandler.php:11-26 | The notification names Interswitch, keeps the payload as raw, and takes each field from its normalised key, else its Interswitch-native key |
| Webhook.CanonicalKeysWin | src/Webhooks/InterswitchWebhookHandler.php:19-26 | A payload that already uses the normalised keys keeps their values, whatever native keys follow |
| Webhook.NativeKeysFallBack | src/Webhooks/InterswitchWebhookHandler.php:19-26 | A payload with only the native keys is mapped from them, with no amount |

## Left out

- Floating point: request amounts are PHP floats. Here they are exact decimals (`Numeric.Decimal`), and `round($x * 100)` is computed on the exact value. Binary rounding of inputs such as 0.285 is not modelled.
- FlutterwaveMapping.PurchasePayload: the source sends the purchase `amount` in naira, as the request's float. The model's body carries 100 times that amount, in kobo: the whole number `ToKobo` gives. So the modelled body is not the body the source sends.
- Result amounts are kept as the upstream value, tagged as minor or major units. Flutterwave's `(float)` cast and the value of Interswitch's `Amount / 100` are not modelled, because they are floating point. Whether the division raises is modelled: the TypeError on an array or a string with no leading number, and the ErrorException on a number followed by text.
- Decoded JSON numbers are integers only. A fractional JSON number, such as a Flutterwave item `amount` of 99.5 or an Interswitch `Amount` of 150.5, cannot be represented; the same values sent as strings can.
- HTTP timeouts, retries and the client's own configuration are left out. The transport is an oracle that returns a response or raises.
- HMAC-SHA256, base64, `urlencode`, `uniqid`, the nonce source and the clock's formatting are oracles. Their outputs are parameters, because they are cryptography or randomness.
- `Log::info`, `usleep` and console output are left out, because they have no effect on results or on the catalog.
- `Cache::remember` is modelled for a single process, as a map with an expiry. Concurrent writers and cache eviction are left out.
- The store's `created_at` / `updated_at` columns and auto-increment ids are left out, because no operation reads them.
- `Interswitch.InterswitchProvider.SyncCatalog`: the category and services fetches are modelled as one sequence of calls. Requests that fail part-way through Laravel's HTTP client are treated like any other transport exception.
- The manager's `__call` forwards a method name to the default driver dynamically. That forwarding is left out, because it is reflection. `Manager.FalsyNameUsesDefault` covers which driver it resolves.
- Configuration values read by the adapters are cast with `(string)`. A configuration array in a string position would raise in the source; that case is not modelled.
- Other PHP warnings and notices are left out, such as reading an undefined offset of a string. The adapters read payload fields only through `??`, `isset` and `Arr::get`, and none of those warns.
- Interswitch.InterswitchProvider.AdvanceClock: the clock is a field that only this method moves. The source reads the wall clock at each `now()`, so time passing during a call is left out.
- Duplicate keys in a decoded JSON object cannot occur in PHP arrays. Lookup takes the first match, so the modelled behaviour is the same for any object PHP can produce.
- The service provider, the facade, the console command and the database migrations' `down` steps are framework plumbing and are not modelled.
- The source's `tests/` directory only checks that the package boots and is not modelled.
