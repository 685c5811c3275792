# Order checking and bundling, modelled in Dafny

This project models the rule-based core of an e-mail order assistant for a
furniture catalog. An order arrives as free text. A language model extracts a
customer, an address, a delivery date and a list of `{sku, quantity}` items.
The core then does five things:

- It **normalises** the extracted items. For each item it takes the first key
  whose lower-case form is `sku` or `quantity`, rejects missing keys, and
  rejects quantities that are not positive integers.
- It **validates** every order line against an in-memory **product catalog**.
  A line is checked in this order: unknown SKU, quantity below the minimum
  order quantity (MOQ), quantity above stock. Otherwise the line is valid.
  Unknown SKUs get up to five similar products as suggestions.
- It **annotates** every line of the order, in place, with the verdict, the
  notes and the suggestions.
- It **analyses** the validated order for bundling opportunities and produces
  four things:
  - MOQ bundles per three-character category, each with a redistribution plan;
  - informational category bundles;
  - bulk-tier suggestions (5, 10, 25 or 50 units);
  - a summary.

The modules follow the source files. Each has its own `.dfy` file:

| module | source |
|---|---|
| `Models` | core/models.py |
| `ValidationResults` | validation/result.py |
| `CatalogCsv` | data_sources/catalog_csv.py |
| `CatalogValidator` | validation/catalog_validator.py |
| `OrderProcessor` | processing/order_processor.py |
| `OrderBundler` | processing/order_bundler.py |
| `EmailData` | parsing/email_data.py |

There are also support modules:

- `Wrappers`: `Option` and `Result`.
- `Text`: ASCII case mapping, `startswith`, substring search, integer
  formatting and slicing.
- `OrderedMaps`: Python's insertion-ordered `dict`, grouping and counting by key.
- `Scenarios`: the repository's five-product sample catalog and what
  validation and search give on it.

Code that works step by step is written as methods with loops. Each such
method is proved equal to a specification function, and the properties are
proved about that function:

- building the SKU map;
- the similar-product search;
- the annotation loop;
- every bundler analysis;
- the key scans.

The catalog validator and the result constructor are pure functions. An
`OrderItem` is a class because order processing writes its `valid`, `notes`
and `suggestions` fields in place. Its SKU and quantity are constants.

A Python `dict` is modelled as `OrderedMap`: a list of distinct keys in
insertion order, plus a map. Assigning to a key that is already present keeps
its position. The order matters because both the similar-product search and
the bundle lists follow dictionary iteration order.

## Model

| member | source | states |
|---|---|---|
| `Models.OrderItem.constructor` | core/models.py:9-18 | A new item has the given SKU and quantity, is valid, and has no notes and no suggestions. |
| `Models.NewOrderItem` | core/models.py:12-18 | Building an item fails exactly when the quantity is not positive. On success the item is fresh, carries the SKU and quantity, starts valid, and has no notes or suggestions. |
| `ValidationResults.NewValidationResult` | validation/result.py:6-19 | Validity and notes are kept as given. Absent suggestions become `[]` and absent metadata becomes an empty map; given values are kept. |
| `OrderedMaps.OrderedMap.Put` | data_sources/catalog_csv.py:40-45 | Dict assignment keeps the map well formed. It appends a new key and keeps the position of an existing one, and the value is updated. |
| `OrderedMaps.GroupBy` | processing/order_bundler.py:63-68 | The grouping dict has one key per distinct key, in first-occurrence order. Each group holds exactly the elements with that key, in input order. |
| `OrderedMaps.CountBy` | processing/order_bundler.py:219-222 | The counting dict has one key per distinct key, in first-occurrence order. Each value is the number of elements with that key. |
| `OrderedMaps.DedupLength` | processing/order_bundler.py:227-229 | Removing repetitions loses nothing exactly when there are none. This is the basis of the "High" bundling potential. |
| `CatalogCsv.ToProduct` | data_sources/catalog_csv.py:40-45 | The stored record copies name and description. A missing stock becomes 0 and a missing MOQ becomes 1. |
| `CatalogCsv.CreateSkuMap` | data_sources/catalog_csv.py:28-46 | A code is a key exactly when some row carries it non-empty. The keys are listed once each, in first-appearance order. Each key holds the product of the last row with that code. |
| `CatalogCsv.GetProductDetails` | data_sources/catalog_csv.py:48-50 | It returns the stored record exactly for a stored SKU, and nothing otherwise. |
| `CatalogCsv.GetAllProducts` | data_sources/catalog_csv.py:88-90 | The copy has the same SKUs in the same order and gives the same answer to every lookup. |
| `CatalogCsv.MatchesIn` | data_sources/catalog_csv.py:60-84 | Every record produced is a copy of a catalog entry that is similar to the query: its SKU is not the query, and either its SKU starts with the query's first three characters or its non-empty name contains the query, ignoring case. |
| `CatalogCsv.SimilarProducts` | data_sources/catalog_csv.py:52-86 | The result is empty for queries under two characters. It has at most five entries, each a similar catalog entry copied from the catalog. |
| `CatalogCsv.MatchesInPrefix` | data_sources/catalog_csv.py:60-86 | The matches among the first n catalog entries are a prefix of all matches, so the search keeps catalog order. |
| `CatalogCsv.SimilarProductsFirstMatches` | data_sources/catalog_csv.py:60-86 | Every matching entry preceded by fewer than five matches is reported. With the bound of five and `MatchesInPrefix`, the result holds the first matches in catalog order. |
| `CatalogCsv.FindSimilarProducts` | data_sources/catalog_csv.py:52-86 | The search loop with `continue`, followed by the `[:5]` slice, returns exactly `SimilarProducts`. |
| `CatalogValidator.HandleInvalidSku` | validation/catalog_validator.py:46-53 | The result is invalid and its notes name the SKU. Its suggestions are exactly the similar products (at most five). Metadata is empty. |
| `CatalogValidator.HandleMoqViolation` | validation/catalog_validator.py:55-71 | The result is invalid with one quantity adjustment from the quantity to the MOQ. Metadata is `min_quantity = MOQ`. |
| `CatalogValidator.HandleStockViolation` | validation/catalog_validator.py:73-89 | The result is invalid with one stock limit naming the stock. Metadata is `available_stock = stock`. |
| `CatalogValidator.ValidateItem` | validation/catalog_validator.py:24-44 | The item is valid iff its SKU is known and MOQ ≤ quantity ≤ stock. A valid result has no suggestions and both metadata entries. Each failing case has its own notes, suggestions and metadata, and the first failing rule wins. |
| `CatalogValidator.MoqBeforeStock` | validation/catalog_validator.py:31-35 | An item that is both below MOQ and above stock reports only the quantity adjustment, with no stock limit. |
| `CatalogValidator.SuggestionCount` | validation/catalog_validator.py:24-53 | Suggestions are empty iff the item is valid, or its SKU is unknown and nothing in the catalog resembles it. A known SKU that fails gets exactly one suggestion. |
| `OrderProcessor.ProcessOrder` | processing/order_processor.py:14-26 | After the loop, every item carries its own validation result's validity, notes and suggestions. Only the items' three mutable fields may change. The returned order is the same value (customer, address, date, item list, SKUs, quantities). |
| `OrderProcessor.CatalogAnnotation` | processing/order_processor.py:20-24 | With the catalog validator, every processed item has notes and a suggestion list. The item is valid iff its SKU is known and within MOQ and stock. The list is empty when the item is valid and has exactly one entry for a failing known SKU. |
| `OrderBundler.MoqViolationsSound` | processing/order_bundler.py:46-58 | Record j is for a catalog SKU below its MOQ, carries that product, and has shortfall MOQ − quantity > 0. It is the violation of item i, where the items before i give exactly j records. So each record comes from its own item, and no item gives two. |
| `OrderBundler.MoqViolationsComplete` | processing/order_bundler.py:46-58 | Every catalog item below its MOQ has its violation record, placed right after the records of the items before it. So unknown SKUs and items at or above their MOQ are the only items skipped. |
| `OrderBundler.MoqViolationsPrefix` | processing/order_bundler.py:46-58 | The records of the first n items are a prefix of all records, so the records follow item order. |
| `OrderBundler.FindMoqViolations` | processing/order_bundler.py:43-58 | The collecting loop produces exactly `MoqViolations`. |
| `OrderBundler.MaxMoq` | processing/order_bundler.py:73 | The result is at least every violation's MOQ and equal to one of them. |
| `OrderBundler.SortByMoqDescSorted` | processing/order_bundler.py:161-163 | The sort orders violations by non-increasing MOQ. |
| `OrderBundler.SortByMoqDescPermutes` | processing/order_bundler.py:161-163 | The sort is a permutation of its input. |
| `OrderBundler.SortHeadIsFirstMax` | processing/order_bundler.py:161-164 | The first sorted violation is the earliest one with the largest MOQ. |
| `OrderBundler.SortByMoqDescStable` | processing/order_bundler.py:161-163 | The sort is stable: for every MOQ value, the violations with that MOQ come in their input order. |
| `OrderBundler.PlanFromSortedEntries` | processing/order_bundler.py:164-193 | For any sorted list whose total covers the top MOQ, the plan is built entry by entry: the primary entry first, then one share entry per remaining violation when something remains. |
| `OrderBundler.RedistributionPlanShape` | processing/order_bundler.py:154-197 | The plan is empty unless the total quantity reaches the largest MOQ. Its first entry raises the earliest largest-MOQ violation to exactly that MOQ, without a stock cap. If nothing remains, that is the only entry. Otherwise each other violation follows in sorted order with `min(max(1, remaining div (n−1)), stock)`. |
| `OrderBundler.SuggestRedistribution` | processing/order_bundler.py:154-197 | The imperative plan equals `RedistributionPlan`. An empty violation list gives an empty plan. |
| `OrderBundler.MoqBundleFor` | processing/order_bundler.py:70-87 | A group yields a bundle iff it has ≥ 2 violations whose quantity sum reaches their largest MOQ. The bundle lists the group's SKUs in order, its total, and the group's redistribution plan. |
| `OrderBundler.MoqBundlesExact` | processing/order_bundler.py:41-89 | Every MOQ bundle for a category is the record built from that category's violations. Every qualifying category has its bundle. |
| `OrderBundler.MoqBundlesOrder` | processing/order_bundler.py:63-89 | Bundles follow the first-occurrence order of their categories among the violations. No two bundles share a category. |
| `OrderBundler.SuggestMoqBundles` | processing/order_bundler.py:41-89 | Collecting the violations, grouping them and emitting bundles gives exactly `MoqBundles`. |
| `OrderBundler.BundleViolationGroups` | processing/order_bundler.py:63-87 | The grouping loop and the loop over the groups emit exactly one record per qualifying category, in first-occurrence order. |
| `OrderBundler.CategoryName` | processing/order_bundler.py:199-211 | The name comes from the eight-entry table. The result equals the code iff the code is not in the table. |
| `OrderBundler.CategoryBundleFor` | processing/order_bundler.py:102-117 | A category yields a bundle iff it has ≥ 2 items, whatever their validity. The bundle holds their SKUs in order and the sum of their quantities. |
| `OrderBundler.CategoryBundlesExact` | processing/order_bundler.py:91-119 | Every category bundle is the record built from that category's items. Every category with ≥ 2 items has one. |
| `OrderBundler.CategoryBundlesOrder` | processing/order_bundler.py:96-117 | Bundles follow the first-occurrence order of their categories among the items. No two bundles share a category. |
| `OrderBundler.SuggestCategoryBundles` | processing/order_bundler.py:91-119 | Grouping the items and emitting bundles gives exactly `CategoryBundles`. |
| `OrderBundler.FirstAbove` | processing/order_bundler.py:132-135 | The first tier above q exists iff some tier is above q, and it is one of the tiers. |
| `OrderBundler.FirstAboveIsSmallest` | processing/order_bundler.py:132-135 | Over ascending tiers, the first tier above q is the smallest tier above q. |
| `OrderBundler.BulkScanIsSmallestTier` | processing/order_bundler.py:134-148 | The tier loop with `break` suggests exactly the smallest tier above q. It does so only when the stock covers that tier and the increase is at most half of q. A larger tier is never tried. |
| `OrderBundler.BulkForSound` | processing/order_bundler.py:125-147 | A bulk suggestion is for a catalog SKU. It keeps the current quantity and moves it to a listed tier with quantity < tier ≤ stock. The additional units are the difference, and that difference is at most half the quantity. |
| `OrderBundler.BulkForExact` | processing/order_bundler.py:125-150 | An item gets a suggestion iff its SKU is known and the smallest tier above its quantity is within stock and within the 50% cap. The suggested quantity is that tier. |
| `OrderBundler.BulkOptimizationsSound` | processing/order_bundler.py:121-152 | Suggestion j satisfies the bounds of `BulkForSound`. It is the suggestion of item i, where the items before i give exactly j suggestions. So no item gives two. |
| `OrderBundler.BulkOptimizationsComplete` | processing/order_bundler.py:121-152 | Every item that has a suggestion gets it, placed right after the suggestions of the items before it. |
| `OrderBundler.BulkOptimizationsPrefix` | processing/order_bundler.py:121-152 | The suggestions for the first n items are a prefix of all suggestions, so they follow item order. |
| `OrderBundler.SuggestBulkOptimizations` | processing/order_bundler.py:121-152 | The outer loop with `continue` and the inner tier loop with `break` produce exactly `BulkOptimizations`. |
| `OrderBundler.InvalidCount` | processing/order_bundler.py:217 | The count is at most the number of items, and it is zero iff every item is valid. |
| `OrderBundler.BundleSummary` | processing/order_bundler.py:213-231 | Total items is the item count. Invalid items and categories never exceed it. A non-empty order has at least one category. |
| `OrderBundler.SummaryPotentialHigh` | processing/order_bundler.py:227-230 | The potential is "High" iff two items share a three-character category. |
| `OrderBundler.CreateBundleSummary` | processing/order_bundler.py:213-231 | The counting loops produce exactly `BundleSummary`. |
| `OrderBundler.AnalyzeAndSuggestBundles` | processing/order_bundler.py:23-32 | The report's four parts are the four analyses of the order. The method modifies nothing, so validity, notes, suggestions and quantities are untouched. |
| `EmailData.FirstKey` | parsing/email_data.py:43-48 | The result is the position of the first key whose lower-case form is the name. It is absent iff there is no such key. |
| `EmailData.FindKey` | parsing/email_data.py:43-58 | The key-scan loop with `break` finds exactly `FirstKey`. |
| `EmailData.NormalizeItemCases` | parsing/email_data.py:36-74 | A non-dictionary, a missing sku key, a missing quantity key and a quantity that is not a positive integer each give their own error, in that order. An item with both keys and a positive integer quantity is accepted (`True` counts, as in Python). An accepted item carries the values of the first `sku` and first `quantity` keys. |
| `EmailData.FloatQuantityRejected` | parsing/email_data.py:66-72 | A float quantity such as `2.0` is not an `int`, so the item is rejected with the quantity error. |
| `EmailData.NormalizeAll` | parsing/email_data.py:35-76 | On success the output has the input's length and order, and each entry is its element's normalisation. |
| `EmailData.NormalizeAllFirstFailure` | parsing/email_data.py:35-76 | The list is accepted iff every element is. A rejection carries the error of the first element that fails. |
| `EmailData.ValidateItems` | parsing/email_data.py:28-76 | The loop with early error returns gives exactly `ValidateItemsResult`: the non-list error, or the normalisation of every element. |
| `Scenarios.LoadSampleCatalog` | tests/test_data.py:53-89 | Loading the sample rows with `CreateSkuMap` gives the sample catalog. |
| `Scenarios.SampleRowsLoadAsCatalog` | data_sources/catalog_csv.py:28-46 | Any map that meets the loader's contract on the sample rows is the sample catalog. |
| `Scenarios.SampleCatalogValid` | tests/test_validators.py:87-93 | The sample catalog is a well-formed SKU map, and `MD-001` is Modern Desk with stock 10 and MOQ 1. |
| `Scenarios.DeskIsValid` | tests/test_validators.py:22-31 | Two `MD-001` are valid, with no suggestions and metadata MOQ 1 / stock 10. |
| `Scenarios.BookshelfBelowMoq` | tests/test_validators.py:45-54 | One `BS-003` is invalid, and the suggestion is 2. |
| `Scenarios.DiningTableAboveStock` | tests/test_validators.py:57-66 | Six `DT-002` are invalid, with a stock limit of 5. |
| `Scenarios.CoffeeTableOutOfStock` | tests/test_validators.py:69-77 | One `CT-001` is invalid, with a stock limit of 0. |
| `Scenarios.SearchMdFindsDesk` | tests/test_validators.py:80-84 | Searching for "MD" reports `MD-001`. |
| `Scenarios.UnknownSkuHasNoSuggestions` | tests/test_validators.py:34-42 | `INVALID-SKU` is invalid, and its suggestion list is empty on the sample catalog. |

## Left out

- Catalog loading (`_load_catalog`, pandas `read_csv`) is file I/O. `CreateSkuMap`
  works on rows in which the column-variant fallback has already been applied.
  The `or` truthiness quirks of pandas values (NaN, a 0 read as missing) are
  not modelled.
- Several parts are external calls or presentation, and none is part of this
  model: the language-model parser, its prompt, the chain factory, the
  Streamlit UI, `main.py` and the setup script. Order processing takes the
  parsed order as an input value.
- `validate_date_format` uses the library's ISO date parser. It is not modelled,
  and a `Date` is kept uninterpreted.
- The `except Exception` fallbacks in the bundler and their `{"error": ...}`
  shapes are not modelled. They fire only on Python runtime errors that typed
  values rule out. An empty violation list, which the caller never passes,
  would raise `IndexError` inside the `try`; `SuggestRedistribution` returns
  an empty plan for it.
- `OrderBundler.BulkScan` states the float percentage test
  `(t − q) / q * 100 <= 50` as the integer test `2 * (t − q) <= q`. For
  q ≥ 1 and the tiers 5, 10, 25 and 50 no case lies exactly on the boundary.
- `Text.Upper`, `Text.Lower`: case mapping covers ASCII letters only. Python's
  Unicode mapping also maps a few non-ASCII characters to ASCII letters
  (KELVIN SIGN to `k`), which `EmailData.FirstKey` would then match.
- `EmailData.ValidateItems`: dictionary keys are strings. A non-string key would
  raise `AttributeError` in `key.lower()`. Dictionaries are lists of entries, and
  their key uniqueness is not required.
- `OrderProcessor.ProcessOrder` takes the validator as a function parameter, so
  it holds for any pure, total validator of the item's SKU and quantity.
  `CatalogAnnotation` instantiates it with `CatalogValidator.ValidateItem`.
- `OrderProcessor.ProcessOrder`: the model does not cover a validator that
  raises. In the source the exception propagates, the earlier items keep their
  annotations and the later ones are untouched. The model also does not cover
  a validator with side effects, one that observes how often or in what order
  it is called, or one that reads an item's `valid`, `notes` or `suggestions`.
- `CatalogCsv.FindSimilarProducts`, `CatalogCsv.GetAllProducts`: they require a
  well-formed SKU map, which is what `CreateSkuMap` always builds.
- Fixed texts (the benefit lines of the bundle records, the category-bundle
  sentence, the redistribution reasons) are member functions of the record
  datatypes rather than stored fields. The `type` tags of the records are
  implied by their datatype.
- The similar-product record is the `SimilarProduct` variant of the suggestion
  datatype. The source writes it without a `type` key, and the display treats
  any untyped suggestion as a similar product.

Facts about the code that a reader might not expect:

- An unknown SKU with no similar product carries an empty suggestion list,
  so an invalid item can have no suggestion (`SuggestionCount`,
  `UnknownSkuHasNoSuggestions`). Similar products come in catalog order
  (`SimilarProductsFirstMatches`).
- The loader converts whatever a row holds, so MOQ and stock are not bounded
  (neither a positive MOQ nor a non-negative stock is assumed).
- Some tests target an older layout. They expect suggestions for
  `INVALID-SKU`, at most three of them, and a different parser error message.
  The code gives no suggestions on the sample catalog, allows up to five, and
  uses the messages modelled in `EmailData`.
