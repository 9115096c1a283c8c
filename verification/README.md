# SmartTrack supply optimizer — record layer in Dafny

This project models the logic layer of the SmartTrack supply-chain dashboard.
That is the layer under the React markup:

- the in-memory CRUD services for customers, inventory and suppliers, and the
  browser-persisted product service;
- the product stock classification and the product hook's aggregates;
- order mutations and the CSV export;
- each page's search predicate, and the orders page's sort, toggle and
  five-per-page pagination;
- the cards and badges derived from each list;
- shipment construction, the shipment table's tab filter, and the status cards;
- the add-supplier dialog's payload;
- the machine-learning service's configuration gate and mock replies, and the
  insights provider's merge rule.

Each service call is one pure step from a store, which is an immutable sequence
of records, to the new store and the value the call resolves with. Random ids,
random draws, dates and timestamps are parameters. Product prices and
inventory unit costs are whole cents. Product stock, inventory quantities,
order line prices and order totals are whole numbers in the source's own
units. Scores and accuracies are basis points, so 0.95 is 9500.

The module layout follows the program:

| module | source |
|---|---|
| `Store` | the `findIndex`, merge and `splice` shared by the three hook services |
| `CustomerService`, `InventoryService`, `SupplierService` | the services in `useCustomers.ts`, `useInventory.ts` and `useSuppliers.ts` |
| `Products`, `ProductService`, `ProductHook` | `ProductModal.tsx`, `productService.ts` and `useProducts.ts` |
| `Orders`, `OrdersPage` | `useOrders.ts` and `Orders.tsx` |
| `InventoryPage`, `CustomersPage`, `SuppliersPage`, `ProductsPage`, `LogisticsPage` | the pages |
| `Shipments` | `AddShipmentModal.tsx`, `ShipmentTable.tsx` and `ShipmentStats.tsx` |
| `AddSupplierModal` | the add-supplier dialog |
| `MlService`, `AiInsights` | `mlService.ts` and `AIInsightsProvider.tsx` |
| `Text`, `Seqs`, `Wrappers`, `Ui` | helpers: string and sequence functions, `Option` and `Result`, badge variants and icons |

The record shapes follow the code, mismatches included:

- Fields that exist only in the forms, or only in the seeds, are `Option`s.
  These are the inventory item's `reorderPoint` and `supplier` against its
  `reorderLevel`, and the supplier's `location`, `contact`, `leadTimeDays`,
  `reliabilityScore` and `productCategories` against its `contactPerson`,
  `email` and other seed fields.
- Where JavaScript would call `toLowerCase` on a missing field, the search
  yields a `TypeError` result.
- Where it would compare with or add `undefined`, the comparison is false and
  the sum is NaN.

Points of the code that a reader might not expect:

- A shipment's status has three values (Scheduled, In Transit, Delivered), as
  the shipment type declares. The table's "delayed" tab is therefore always
  empty.
- Product ids come from the record count, not from a sequence. The product
  delete removes every record with the id, not just the first.
- Seed inventory items carry `reorderLevel`. The page reads `reorderPoint`,
  so seed items never count as low stock.
- The machine-learning service can reject: five of its methods have no catch
  around the call that throws when no key is configured.
- Order status accepts any string. There is no status enumeration.

## Model

| member | source | states |
|---|---|---|
| Store.FindIndex | src/hooks/useCustomers.ts:82 | `findIndex` by id: None exactly when no record has the id, otherwise the first index holding it |
| Store.FirstWithIdUnique | src/hooks/useCustomers.ts:82 | the first record with an id is unique, so update and delete touch one well-defined index |
| Store.Add | src/hooks/useCustomers.ts:69-74 | `push`: the store grows by one, every existing record keeps its place, the new record is last and is the resolved value |
| Store.Update | src/hooks/useCustomers.ts:82-88 | absent id: store unchanged and null; present id: same length, only the first match replaced by the merge, the merged record resolved |
| Store.Delete | src/hooks/useCustomers.ts:96-102 | absent id: store unchanged and false; present id: only the first match removed, the rest in order, true |
| Store.DeleteShrinks | src/hooks/useCustomers.ts:96-102 | a delete shrinks the store by one exactly when it answers true, and otherwise leaves its length |
| Store.RemovedIdGone | src/hooks/useCustomers.ts:98 | with unique ids, splicing out the record with an id leaves no record with it and keeps the ids unique |
| Store.DeleteTwice | src/hooks/useCustomers.ts:96-102 | with unique ids, deleting an id twice answers true then false, and the second call changes nothing |
| Store.AddShadowed | src/hooks/useCustomers.ts:70-73 | an added record whose id is already taken is never reached by update or delete: the earlier record is found first |
| Store.AddFresh | src/hooks/useCustomers.ts:70-73 | an added record with a fresh id is the one later updates and deletes reach |
| CustomerService.NewId | src/hooks/useCustomers.ts:70 | the id is `CUS-` followed by the three drawn digits, seven characters |
| CustomerService.CreateDraftRoundTrip | src/hooks/useCustomers.ts:69-72 | `{ id, ...customer }` keeps the payload: dropping the id gives it back, and every customer is its payload plus its id |
| CustomerService.Merge | src/hooks/useCustomers.ts:84 | `{ ...c, ...updates }`: each field the patch carries wins and every other field is kept |
| CustomerService.MergeLaws | src/hooks/useCustomers.ts:84 | an empty patch changes nothing, a merge is idempotent, and two merges equal one merge of the combined patch |
| CustomerService.AddCustomer | src/hooks/useCustomers.ts:66-77 | appends one customer at the end with id `CUS-ddd` and the payload's fields, and resolves with it |
| CustomerService.UpdateCustomer | src/hooks/useCustomers.ts:79-91 | the store update with the customer merge: null and no change on an absent id, first match merged otherwise |
| CustomerService.DeleteCustomer | src/hooks/useCustomers.ts:93-105 | the store delete: first match removed and true, or false and no change |
| CustomerService.GeneratedIdCanCollide | src/hooks/useCustomers.ts:70 | nothing checks for collisions: the digits 001 repeat the first seed's id, and lookups then still find the seed |
| CustomerService.SeedsDeleteTwice | src/hooks/useCustomers.ts:96-102 | deleting a seed customer twice answers true, then false with the store unchanged |
| InventoryService.NewId | src/hooks/useInventory.ts:21 | the id is `INV-` followed by the three drawn digits |
| InventoryService.CreateDraftRoundTrip | src/hooks/useInventory.ts:20-23 | the new item is the payload plus the id, and dropping the id gives the payload back |
| InventoryService.Merge | src/hooks/useInventory.ts:35 | `{ ...item, ...updates }`: each field the patch carries wins and every other field is kept |
| InventoryService.MergeLaws | src/hooks/useInventory.ts:35 | an empty patch changes nothing, merging is idempotent, and two merges compose into one |
| InventoryService.MergeFullPatch | src/hooks/useInventory.ts:35 | a patch that spells out every field of an item yields exactly that item |
| InventoryService.MergeQuantityOnly | src/hooks/useInventory.ts:35 | a quantity-only patch changes the quantity and nothing else |
| InventoryService.AddItem | src/hooks/useInventory.ts:17-28 | appends one item with id `INV-ddd` and the payload's fields, and resolves with it |
| InventoryService.UpdateItem | src/hooks/useInventory.ts:30-42 | null and no change on an absent id; otherwise only the first match merged, length kept |
| InventoryService.DeleteItem | src/hooks/useInventory.ts:44-56 | only the first match removed and true, or false with the store unchanged |
| InventoryService.GeneratedIds | src/hooks/useInventory.ts:21 | a generated id has a dash, so it never equals a seed id; two adds with the same digits repeat an id |
| SupplierService.NewId | src/hooks/useSuppliers.ts:21 | the id is `SUP-` followed by the three drawn digits |
| SupplierService.CreateDraftRoundTrip | src/hooks/useSuppliers.ts:20-23 | the new supplier is the payload plus the id, and dropping the id gives the payload back |
| SupplierService.Merge | src/hooks/useSuppliers.ts:35 | `{ ...supplier, ...updates }`: each field the patch carries wins and every other field is kept |
| SupplierService.MergeLaws | src/hooks/useSuppliers.ts:35 | an empty patch changes nothing, merging is idempotent, and two merges compose into one |
| SupplierService.MergeLocationOnly | src/hooks/useSuppliers.ts:35 | a location-only patch sets the location and keeps every other field, seed fields included |
| SupplierService.AddSupplier | src/hooks/useSuppliers.ts:17-28 | appends one supplier with id `SUP-ddd` and the payload's fields, and resolves with it |
| SupplierService.UpdateSupplier | src/hooks/useSuppliers.ts:30-42 | null and no change on an absent id; otherwise only the first match merged, length kept |
| SupplierService.DeleteSupplier | src/hooks/useSuppliers.ts:44-56 | only the first match removed and true, or false with the store unchanged |
| SupplierService.GeneratedIdNotSeed | src/hooks/useSuppliers.ts:21 | a generated `SUP-ddd` id never names a seed supplier |
| Products.LabelInjective | src/components/products/ProductModal.tsx:90 | the three stock statuses have three different display texts |
| Products.Classify | src/components/products/ProductModal.tsx:90-97 | Out of Stock exactly when stock is at most 0, Low Stock exactly for 1 to 15, In Stock exactly above 15 |
| Products.ClassifyMonotone | src/components/products/ProductModal.tsx:90-97 | more stock never gives a worse status |
| Products.ClassifyBoundaries | src/components/products/ProductModal.tsx:91-96 | 0 is Out of Stock, 1 and 15 are Low Stock, 16 is In Stock |
| Products.NumberOrZero | src/components/products/ProductModal.tsx:75 | `parseFloat(value) \|\| 0`: an unparseable value is 0, any other value is kept |
| Products.HandleChange | src/components/products/ProductModal.tsx:71-77 | price and stock get the parsed number or 0; name, sku, supplier and description get the raw text; every other field is kept |
| Products.HandleCategoryChange | src/components/products/ProductModal.tsx:79-84 | the category becomes the selected value and nothing else changes |
| Products.Submit | src/components/products/ProductModal.tsx:86-103 | the saved status is the stock's classification, and every other field passes through unchanged |
| Products.SubmitIgnoresStatus | src/components/products/ProductModal.tsx:99-102 | whatever status the form held, the saved product is the same |
| Products.UnparseableStockIsOut | src/components/products/ProductModal.tsx:75 | an unparseable stock entry saves as Out of Stock |
| ProductService.SeedStatusesMatchStock | src/services/productService.ts:5-66 | every seed product's status is the classification of its stock |
| ProductService.Load | src/services/productService.ts:69-78 | storage without products gives the seeds; otherwise the stored list |
| ProductService.GetProducts | src/services/productService.ts:89-92 | resolves with the loaded list and stores it |
| ProductService.NewId | src/services/productService.ts:107 | `PRD` then count + 1, zero-padded to at least three digits: at least six characters, exactly six below 999 products, and from 100 up the plain decimal with no leading zero |
| ProductService.AddProduct | src/services/productService.ts:102-119 | appends one product whose id comes from the count and whose fields are the payload's, restamped with today's date |
| ProductService.UpdateProduct | src/services/productService.ts:122-139 | null and nothing saved on an absent id; otherwise only the first match merged and restamped, at the same index |
| ProductService.UpdateKeepsStatus | src/services/productService.ts:129-135 | an update that does not set the status keeps the stored status, whatever it does to the stock |
| ProductService.UpdateStockDoesNotReclassify | src/services/productService.ts:129-135 | setting a seed's stock to 0 leaves it In Stock: status is not recomputed |
| ProductService.DeleteProduct | src/services/productService.ts:142-153 | removes every product with the id; true exactly when one existed, and on false the list is untouched |
| ProductService.DeleteProductContents | src/services/productService.ts:145 | after a delete no product has the id, and a product remains exactly when it was there with another id |
| ProductService.GetProductById | src/services/productService.ts:95-99 | the first product with the id, or none exactly when no product has it |
| ProductService.CategoryColumn | src/services/productService.ts:159 | the category of each product, in order |
| ProductService.Categories | src/services/productService.ts:159-160 | each category once, every product's category present, nothing else, in order of first appearance |
| ProductService.GetCategories | src/services/productService.ts:156-161 | resolves with the distinct categories of the loaded list |
| ProductService.CategoriesMembership | src/services/productService.ts:159-160 | a category is listed exactly when some product has it |
| ProductService.FirstAddIsPrd006 | src/services/productService.ts:107 | with the five seeds, the first add gets PRD006 |
| ProductService.NewIdAfterFour | src/services/productService.ts:107 | four products give the id PRD005 |
| ProductService.AddAfterDeleteDuplicates | src/services/productService.ts:102-151 | when the last product holds the count-based id, deleting another and adding repeats that id |
| ProductService.DeleteOneShrinks | src/services/productService.ts:145-151 | deleting an id held by exactly one product shrinks the list by one |
| ProductService.FreshStorageIsSeeds | src/services/productService.ts:69-78 | a delete on empty storage acts on the seeds |
| ProductService.AddAfterDeleteDuplicatesId | src/services/productService.ts:102-151 | deleting PRD002 from the seeds and adding yields a second PRD005 |
| ProductHook.StockStatusCounts | src/hooks/useProducts.ts:88-92 | each count is the number of products with that status, and the three sum to the product count |
| ProductHook.CategoryCounts | src/hooks/useProducts.ts:95-98 | exactly the given categories as keys, each mapped to the number of products in it |
| ProductHook.EmptyCategoryCountsZero | src/hooks/useProducts.ts:95-98 | a listed category with no products maps to 0 |
| ProductHook.CategoryCountsSumToLength | src/hooks/useProducts.ts:95-98 | over the distinct categories of the same products, the counts sum to the product count |
| ProductHook.Fresh | src/hooks/useProducts.ts:11-21 | a refetched view shows the stored list and its distinct categories |
| ProductHook.Add | src/hooks/useProducts.ts:23-28 | an add saves through the service and refreshes both products and categories |
| ProductHook.Update | src/hooks/useProducts.ts:44-50 | an update saves through the service and refreshes both products and categories |
| ProductHook.Delete | src/hooks/useProducts.ts:66-76 | a delete refreshes the products only, keeps the cached categories, and notifies exactly when the service found the id |
| ProductHook.CategorySurvivesDelete | src/hooks/useProducts.ts:69 | a category whose last product is deleted stays listed, with count 0 |
| Orders.UpdateOrderStatus | src/hooks/useOrders.ts:15-24 | same length and order; every order with the id gets the status, with no transition check; all other fields and orders unchanged |
| Orders.UpdateStatusLaws | src/hooks/useOrders.ts:15-24 | an unknown id changes nothing, the last of two updates wins, and ids never change |
| Orders.AddOrderNote | src/hooks/useOrders.ts:28-37 | non-matching orders unchanged; each matching order gets one note at the end of its notes, created if absent |
| Orders.AddOrderNoteAppends | src/hooks/useOrders.ts:29-33 | the earlier notes are kept as a prefix and the new note carries the text, stamp and date |
| Orders.Fields | src/hooks/useOrders.ts:43 | a row has five fields: id, customer name, status, total, date |
| Orders.Rows | src/hooks/useOrders.ts:43 | one row per order, in order |
| Orders.ExportCsv | src/hooks/useOrders.ts:42-46 | the export starts with the header line; ExportLines gives the line after it for every order |
| Orders.ExportEmpty | src/hooks/useOrders.ts:42-45 | an empty list exports as the header plus a lone newline |
| Orders.RowSingleLine | src/hooks/useOrders.ts:43 | a row has no newline when its fields have none |
| Orders.RowsSingleLine | src/hooks/useOrders.ts:43 | no row has a newline when no order's fields have one |
| Orders.HeaderSingleLine | src/hooks/useOrders.ts:42 | the header has no newline |
| Orders.ExportLines | src/hooks/useOrders.ts:42-45 | split on newlines, the export is the header, then one line per order, or one empty line for no orders |
| Orders.RowColumnCount | src/hooks/useOrders.ts:43 | a row splits into five pieces plus one per comma inside a field: nothing is quoted |
| Orders.RowRoundTrip | src/hooks/useOrders.ts:43 | a row splits back into its fields exactly when no field contains a comma |
| Orders.GetOrderInsights | src/hooks/useOrders.ts:59-74 | always null; the not-configured error exactly when unconfigured, and no error exactly for a configured service and an unknown id |
| OrdersPage.Search | src/pages/Orders.tsx:61-64 | keeps only orders whose id or customer name contains the query, without case |
| OrdersPage.SearchLaws | src/pages/Orders.tsx:61-64 | an order is kept exactly when it is listed and matches; the empty query keeps all, in order |
| OrdersPage.KeyLessOrder | src/pages/Orders.tsx:67-80 | the key comparison is a strict order: irreflexive, transitive, asymmetric |
| OrdersPage.Compare | src/pages/Orders.tsx:67-80 | the comparator gives -1, 0 or 1, and 0 exactly for equal keys |
| OrdersPage.PrecedesByKey | src/pages/Orders.tsx:67-80 | one order precedes another exactly when its key is smaller ascending, or larger descending |
| OrdersPage.DescendingReverses | src/pages/Orders.tsx:67-80 | descending negates the comparison and reverses precedence |
| OrdersPage.PrecedesOrder | src/pages/Orders.tsx:67-80 | precedence is irreflexive and transitive for either direction |
| OrdersPage.Insert | src/pages/Orders.tsx:67-80 | inserting one order adds exactly that order to the multiset |
| OrdersPage.Sort | src/pages/Orders.tsx:67-80 | the sorted list is a permutation of the filtered list |
| OrdersPage.Listed | src/pages/Orders.tsx:61-80 | the listed orders are the search result, sorted by the chosen key and direction, as a permutation |
| OrdersPage.PageCount | src/pages/Orders.tsx:88 | the least page count whose pages hold every listed order (`Math.ceil(n / 5)`) |
| OrdersPage.Visible | src/pages/Orders.tsx:83-86 | at most five rows, each the listed order at its offset from the start of the current page |
| OrdersPage.InsertSorted | src/pages/Orders.tsx:67-80 | inserting into a sorted list keeps it sorted |
| OrdersPage.SortSorted | src/pages/Orders.tsx:67-80 | the sorted list is ordered by the selected key and direction |
| OrdersPage.NoEqualKeyAfter | src/pages/Orders.tsx:67-80 | an order placed before the head of a sorted list shares its key with none of it |
| OrdersPage.InsertAfterEquals | src/pages/Orders.tsx:67-80 | insertion keeps the relative order of orders with equal keys and places the new one after them |
| OrdersPage.SortStable | src/pages/Orders.tsx:67-80 | orders with equal keys keep their original order |
| OrdersPage.ToggleSort | src/pages/Orders.tsx:91-98 | the same field flips the direction; another field selects it ascending; query and page stay |
| OrdersPage.ToggleTwice | src/pages/Orders.tsx:91-98 | toggling the current field twice restores the state; a new field twice ends descending |
| OrdersPage.SetQuery | src/pages/Orders.tsx:135 | a new query keeps the sort and the page: the page is not reset |
| OrdersPage.Previous | src/pages/Orders.tsx:270 | goes back one page only from a page above 1 |
| OrdersPage.Next | src/pages/Orders.tsx:296 | goes forward one page only below the total page count |
| OrdersPage.GoTo | src/pages/Orders.tsx:282 | a page link selects its page and changes nothing else |
| OrdersPage.NavigationStaysInRange | src/pages/Orders.tsx:270-296 | from an in-range page, previous, next and the page links stay in range |
| OrdersPage.InRangePageNotEmpty | src/pages/Orders.tsx:83-88 | an in-range page of a non-empty list shows at least one order |
| OrdersPage.StalePageShowsNothing | src/pages/Orders.tsx:83-86 | a query that shrinks the list below the current page leaves that page and shows no rows |
| OrdersPage.StalePageExample | src/pages/Orders.tsx:83-86 | six listed orders on page 2, then a query nothing matches: the page falls out of range and is empty |
| OrdersPage.PagesShowEverything | src/pages/Orders.tsx:83-88 | concatenating pages 1 to the total page count gives back the sorted list |
| Seqs.Page | src/pages/Orders.tsx:83-86 | page p holds positions (p-1)·5 onward of the list, at most five |
| Seqs.TotalPages | src/pages/Orders.tsx:88 | `Math.ceil(n / 5)`: the least page count whose pages hold n rows |
| Seqs.PagesCoverList | src/pages/Orders.tsx:83-88 | the pages up to the total page count, joined, are the whole list |
| InventoryPage.Search | src/pages/Inventory.tsx:21-29 | succeeds exactly when every item can be tested, and otherwise throws a TypeError; never more items than given |
| InventoryPage.SearchMembership | src/pages/Inventory.tsx:21-29 | when it succeeds, an item is kept exactly when its name, category, location or supplier contains the query |
| InventoryPage.SearchEmptyQuery | src/pages/Inventory.tsx:21-24 | the empty query keeps every item, in order, and never throws |
| InventoryPage.SeedSearchThrows | src/pages/Inventory.tsx:27 | a query that misses a seed item's name, category and location reaches its missing supplier and throws |
| InventoryPage.StockValue | src/pages/Inventory.tsx:32 | `totalStockValue` is non-negative when every quantity and cost is; StockValueAppend makes it additive |
| InventoryPage.StockValueAppend | src/pages/Inventory.tsx:32 | the stock value of a joined list is the sum of the parts' values |
| InventoryPage.AddRaisesStockValue | src/pages/Inventory.tsx:32 | an added item raises the total stock value by its quantity times its unit cost |
| InventoryPage.LowStockCount | src/pages/Inventory.tsx:33 | the count is at most the item count, and equals it exactly when every item is at or below its reorder point |
| InventoryPage.NoReorderPointNoLowStock | src/pages/Inventory.tsx:33 | items without a reorder point never count as low stock |
| InventoryPage.SeedsNeverLow | src/pages/Inventory.tsx:33 | the seed items, which carry a reorder level and no reorder point, give a low-stock count of 0 |
| InventoryPage.Badge | src/pages/Inventory.tsx:116-134 | the Low Stock badge exactly when the quantity is at most the reorder point |
| InventoryPage.BadgesMatchCard | src/pages/Inventory.tsx:33 | with the empty query, the number of Low Stock badges equals the low-stock card |
| CustomersPage.Search | src/pages/Customers.tsx:20-29 | keeps only customers that match the query |
| CustomersPage.SearchLaws | src/pages/Customers.tsx:20-29 | kept exactly when listed and matching; without notes only the other four fields can match; the empty query keeps all, in order |
| CustomersPage.ActiveCustomers | src/pages/Customers.tsx:56 | `Math.round(n * 0.8)`: the nearest whole number to 4n/5, halves rounded up |
| CustomersPage.ActiveIsNearest | src/pages/Customers.tsx:56 | the estimate is within half a customer of 80% of the total, and never above the total |
| CustomersPage.CountCards | src/pages/Customers.tsx:48-56 | the total is the list length, whatever the search, and the active card depends on that length only |
| CustomersPage.SeedCards | src/pages/Customers.tsx:48-56 | the three seed customers show 3 in total and 2 active |
| SuppliersPage.Search | src/pages/Suppliers.tsx:21-30 | succeeds exactly when every supplier can be tested, otherwise a TypeError; never more suppliers than given |
| SuppliersPage.SearchMembership | src/pages/Suppliers.tsx:21-30 | complete suppliers never throw; on success a supplier is kept exactly when name, location, contact name or email, or some category contains the query |
| SuppliersPage.CompleteNeverThrows | src/pages/Suppliers.tsx:23-29 | a supplier with a location, a contact and categories never makes the test throw, whatever the query |
| SuppliersPage.SearchEmptyQuery | src/pages/Suppliers.tsx:24 | the empty query short-circuits on the name and keeps every supplier, even seeds |
| SuppliersPage.SeedSearchThrows | src/pages/Suppliers.tsx:25 | a query that misses a seed supplier's name reaches its missing location and throws |
| SuppliersPage.LeadTimeSum | src/pages/Suppliers.tsx:59 | the sum is NaN exactly when some supplier has no lead time |
| SuppliersPage.LeadTimeSumIsSum | src/pages/Suppliers.tsx:59 | with every lead time present, the sum is their whole-number sum |
| SuppliersPage.RoundedMean | src/pages/Suppliers.tsx:59 | `Math.round(sum / n)`: the nearest whole number to the mean, halves rounded up |
| SuppliersPage.AverageLeadTime | src/pages/Suppliers.tsx:58-60 | 0 for no suppliers; otherwise NaN exactly when some lead time is missing |
| SuppliersPage.AverageIsRoundedMean | src/pages/Suppliers.tsx:58-60 | with every lead time present, the card is the rounded mean of the lead times |
| SuppliersPage.SeedAverageIsNaN | src/pages/Suppliers.tsx:59 | the seed suppliers have no lead times, so their average is NaN |
| SuppliersPage.ReliabilityBadge | src/pages/Suppliers.tsx:151-152 | default exactly from 0.95, secondary exactly from 0.90 below 0.95, outline below 0.90 or with no score |
| SuppliersPage.BadgeMonotone | src/pages/Suppliers.tsx:151-152 | a higher score never gets a lower badge tier |
| ProductsPage.Search | src/pages/Products.tsx:57-61 | keeps only products whose name, category or id contains the query |
| ProductsPage.SearchLaws | src/pages/Products.tsx:57-61 | kept exactly when listed and matching; the empty query keeps all, in order |
| ProductsPage.CategoryBreakdown | src/pages/Products.tsx:89-95 | three counts, Furniture, Electronics and Stationery, each the products in that category, together at most the product count |
| ProductsPage.UnlistedCategoryFallsShort | src/pages/Products.tsx:89-95 | one product outside the three categories makes their sum fall short of the product count |
| ProductsPage.StockAlerts | src/pages/Products.tsx:110-116 | the alerts count products by stored status text, and together are at most the product count |
| ProductsPage.AlertsIgnoreStock | src/pages/Products.tsx:110-116 | a product with stock 0 stored as In Stock raises no alert |
| ProductsPage.CatalogCards | src/pages/Products.tsx:80-116 | the page's five products give the breakdown 2, 2, 1 and one alert of each kind |
| ProductsPage.CatalogStatusesMatchStock | src/pages/Products.tsx:11-52 | every product on the page carries the status its stock classifies to |
| ProductsPage.StatusBadge | src/pages/Products.tsx:175-178 | default exactly for In Stock, outline exactly for Low Stock, destructive for anything else |
| ProductsPage.StatusBadgesDistinct | src/pages/Products.tsx:175-178 | the three stock statuses get three different badges |
| Shipments.NewId | src/components/logistics/AddShipmentModal.tsx:61 | `SHP` then the draw zero-padded to three digits: six characters whose digits read back as the draw |
| Shipments.NewIdLaws | src/components/logistics/AddShipmentModal.tsx:61 | different draws give different ids, and the draw 1 gives SHP001 |
| Shipments.NewShipment | src/components/logistics/AddShipmentModal.tsx:60-65 | the draw's id, all six form fields unchanged, status Scheduled and progress 0 |
| Shipments.Submit | src/components/logistics/AddShipmentModal.tsx:56-78 | hands the new shipment to the page once, resets the form to empty fields with mode Truck, and closes |
| Shipments.TabFilter | src/components/logistics/ShipmentTable.tsx:59-66 | the table never shows more shipments than it is given |
| Shipments.LabelInjective | src/components/logistics/AddShipmentModal.tsx:34 | the three statuses have three different display texts |
| Shipments.TabFilterLaws | src/components/logistics/ShipmentTable.tsx:59-66 | each named tab keeps exactly its status, in order; delayed keeps nothing; all and unknown tabs keep everything |
| Shipments.StatusColor | src/components/logistics/ShipmentTable.tsx:28-43 | default exactly for Delivered, outline exactly for Scheduled, destructive exactly for Delayed, secondary for the rest |
| Shipments.StatusIcon | src/components/logistics/ShipmentTable.tsx:45-56 | check exactly for Delivered, alert exactly for Delayed and Cancelled, clock for the rest |
| Shipments.TypedStatusDisplay | src/components/logistics/ShipmentTable.tsx:28-56 | the three real statuses get three colours, never destructive, and never the alert icon |
| Shipments.StatsOf | src/components/logistics/ShipmentStats.tsx:18-38 | each card counts exactly its status, and the three cards sum to the shipment count |
| Shipments.CountAppend | src/components/logistics/ShipmentStats.tsx:18-38 | appending a shipment raises the count of its own status only, by one |
| Shipments.AddRaisesScheduled | src/components/logistics/ShipmentStats.tsx:28 | a shipment from the modal raises the Scheduled card by one and leaves the others |
| LogisticsPage.AddShipment | src/pages/Logistics.tsx:95-97 | the new shipment goes last and every existing one keeps its place |
| LogisticsPage.Refresh | src/pages/Logistics.tsx:135-139 | the list becomes the five initial shipments; search and tab stay |
| LogisticsPage.RefreshForgetsAdds | src/pages/Logistics.tsx:135-139 | a refresh discards any added shipment |
| LogisticsPage.Search | src/pages/Logistics.tsx:99-105 | keeps only shipments whose id, origin, destination, carrier or status contains the query |
| LogisticsPage.SearchLaws | src/pages/Logistics.tsx:99-105 | kept exactly when listed and matching; the empty query keeps all, in order |
| LogisticsPage.Visible | src/pages/Logistics.tsx:366-367 | a tab never shows more rows than the list |
| LogisticsPage.CountOfFilter | src/pages/Logistics.tsx:366-367 | narrowing a list by the search never raises a status count |
| LogisticsPage.TabRows | src/pages/Logistics.tsx:366-367 | on a status tab a row shows exactly when it matches the search and has that status, and never more rows than the card |
| LogisticsPage.EmptyQueryTabsMatchCards | src/pages/Logistics.tsx:161-181 | with the empty query each status tab lists its card's count, and the all tab lists everything |
| LogisticsPage.Cards | src/pages/Logistics.tsx:161-181 | the three cards count the whole list and sum to its length |
| LogisticsPage.CardsIgnoreSearch | src/pages/Logistics.tsx:161-181 | searching and switching tabs leave the cards unchanged |
| LogisticsPage.InitialCards | src/pages/Logistics.tsx:16-72 | the initial list shows 3 in transit, 1 scheduled and 1 delivered |
| LogisticsPage.ModalAddRaisesScheduled | src/pages/Logistics.tsx:95-97 | a shipment from the modal raises the Scheduled card only |
| LogisticsPage.AddCanRepeatId | src/pages/Logistics.tsx:18 | the draw 1 gives a second SHP001: nothing checks for id collisions |
| LogisticsPage.StatusVariant | src/pages/Logistics.tsx:122-133 | default exactly for Delivered, secondary exactly for Scheduled, outline for the rest |
| LogisticsPage.VariantAgainstTable | src/pages/Logistics.tsx:122-133 | the page and the table agree on Delivered and swap the colours of In Transit and Scheduled |
| AddSupplierModal.Categories | src/components/suppliers/AddSupplierModal.tsx:40 | k commas give k+1 entries, none holding a comma or surrounding whitespace; CategoriesPaddedRoundTrip pins each entry to the trimmed piece |
| AddSupplierModal.CategoriesOfEmpty | src/components/suppliers/AddSupplierModal.tsx:40 | the empty field gives one empty category |
| AddSupplierModal.CategoriesRoundTrip | src/components/suppliers/AddSupplierModal.tsx:40 | comma-free trimmed names joined by commas split back into the same names |
| AddSupplierModal.CategoriesPaddedRoundTrip | src/components/suppliers/AddSupplierModal.tsx:40 | names typed with whitespace around them, joined by commas, split back into the bare names |
| AddSupplierModal.CategoriesStable | src/components/suppliers/AddSupplierModal.tsx:40 | splitting the joined result again changes nothing |
| AddSupplierModal.ParseWhole | src/components/suppliers/AddSupplierModal.tsx:37 | `Number(text)` for days: blank text reads as 0, and a reading is never negative |
| AddSupplierModal.ParseScore | src/components/suppliers/AddSupplierModal.tsx:38 | `Number(text)` for a score in basis points: blank text reads as 0, and a reading is never negative |
| AddSupplierModal.ParseIgnoresSurroundingSpace | src/components/suppliers/AddSupplierModal.tsx:37-38 | whitespace around the text changes neither reading |
| AddSupplierModal.ParseRoundTrip | src/components/suppliers/AddSupplierModal.tsx:37-38 | the decimal text of n reads back as n days and as n whole points |
| AddSupplierModal.ParseFraction | src/components/suppliers/AddSupplierModal.tsx:38 | "0." and one to four digits reads as those digits scaled to four places |
| AddSupplierModal.DefaultsParse | src/components/suppliers/AddSupplierModal.tsx:21-22 | the reset form's "0" and "0.95" read as 0 days and 9500 basis points |
| AddSupplierModal.Draft | src/components/suppliers/AddSupplierModal.tsx:26-46 | the payload: the contact from exactly its three fields, the parsed numbers, the split categories, and no seed-only field |
| AddSupplierModal.Submit | src/components/suppliers/AddSupplierModal.tsx:26-58 | saves the payload, resets to "0", "0.95" and "Net 30" with every other field empty, and closes |
| AddSupplierModal.SavedSupplierSearchable | src/components/suppliers/AddSupplierModal.tsx:29-41 | a supplier saved from the dialog has every field the suppliers page searches, so the search never throws on it |
| AddSupplierModal.DefaultScoreBadge | src/components/suppliers/AddSupplierModal.tsx:22 | a supplier saved with the default score gets the top reliability badge |
| MlService.Configure | src/services/mlService.ts:105-110 | always answers true and stores the key; the service is configured exactly when the key is non-empty |
| MlService.Initialize | src/services/mlService.ts:113-121 | answers true exactly for a non-empty stored key, and only then sets it |
| MlService.CallApi | src/services/mlService.ts:134-170 | rejects exactly when unconfigured; resolves null exactly when configured and the call fails; otherwise the endpoint's mock reply |
| MlService.GenerateRecommendations | src/services/mlService.ts:458-475 | non-empty exactly when configured and the call succeeds, and then the four fixed recommendations |
| MlService.DetectAnomalies | src/services/mlService.ts:478-495 | non-empty exactly when configured and the call succeeds, and then the four fixed anomalies |
| MlService.GenerateForecasts | src/services/mlService.ts:498-516 | non-empty exactly when configured and the call succeeds, and then the four fixed forecasts |
| MlService.AnalyzeShipmentData | src/services/mlService.ts:519-554 | empty mode and carrier lists exactly when unconfigured; route figures exactly when configured and the call succeeds |
| MlService.ModeTallies | src/services/mlService.ts:298-301 | the four transport-mode counts sum to the shipment count |
| MlService.AnalyticsLaws | src/services/mlService.ts:298-306 | configured: four modes and four carriers in fixed order; a reply's mode values are positive and equal the real count when it is non-zero; a null reply falls back to the real counts, which sum to the shipment count |
| MlService.RouteSavingsConsistent | src/services/mlService.ts:308-312 | each route's savings equal current minus optimized cost |
| MlService.OptimizeShippingRoutes | src/services/mlService.ts:334-381 | rejects exactly when unconfigured; a reply has two routes, each from the origin to the destination |
| MlService.PredictDelays | src/services/mlService.ts:382-405 | rejects exactly when unconfigured; no delay exactly up to probability 0.4, 4 to 27 hours up to 0.7, 24 to 71 hours above |
| MlService.DelayBandsOverlap | src/services/mlService.ts:388-390 | the delay bands overlap: a higher probability can give a shorter delay |
| MlService.OptimizeInventory | src/services/mlService.ts:406-428 | rejects exactly when unconfigured; the reply's total savings equals the sum of its levels' savings |
| MlService.ForecastDemand | src/services/mlService.ts:428-447 | rejects exactly when unconfigured; four periods with strictly falling confidence |
| MlService.ApplyTraining | src/services/mlService.ts:586-590 | the model list keeps its length and changes only after a reply with success true |
| MlService.TrainModel | src/services/mlService.ts:581-602 | rejects exactly when unconfigured and never changes the key |
| MlService.TrainingChangesNothing | src/services/mlService.ts:449-453 | under the mock reply, which has no success field, training never changes the service |
| MlService.TrainingSuccessMarksFirst | src/services/mlService.ts:586-590 | a successful reply marks exactly the first model with the id as training |
| MlService.UncaughtGate | src/services/mlService.ts:557-583 | all five methods without a catch reject exactly when unconfigured |
| AiInsights.InitialState | src/components/logistics/AIInsightsProvider.tsx:117-121 | three default entries in each list, not loading |
| AiInsights.KeepUnlessEmpty | src/components/logistics/AIInsightsProvider.tsx:143-145 | the result is the fetched list or the current one, and is empty only if both are |
| AiInsights.LoadInsights | src/components/logistics/AIInsightsProvider.tsx:129-152 | unconfigured: nothing changes; any rejection: no list changes; configured: loading ends false; no list ever empties |
| AiInsights.LoadFromService | src/components/logistics/AIInsightsProvider.tsx:129-152 | without a key nothing changes; with one loading ends; no list that was non-empty becomes empty |
| AiInsights.ReplaceOnlyIfNonEmpty | src/components/logistics/AIInsightsProvider.tsx:143-145 | when all three fetches resolve, each list is replaced exactly when its result is non-empty |
| AiInsights.LoadFromServiceLaws | src/components/logistics/AIInsightsProvider.tsx:129-152 | with a key each list becomes the service's four entries, or stays when its call fails; without one nothing changes |
| AiInsights.LoadsKeepLists | src/components/logistics/AIInsightsProvider.tsx:117-152 | any run of loads from non-empty lists, the defaults included, keeps every list non-empty |

## Left out

- Timers, promises and delays: every service call is one atomic step.
- React state plumbing, react-query caching, toasts and console logging. The product hook models which caches each mutation refreshes and when the delete notification fires.
- `localStorage` and its JSON round trip: the stored product list is an explicit `Option` value, and the stored API key is a parameter of `MlService.Initialize`.
- The Blob, object URL and anchor click of the order export: only the CSV text is modelled.
- `fetch`, its headers, and the ten-second training timer: the service only ever answers with its mock replies. A failing call is a flag.
- `faker` digits, `Math.random`, `Date.now` and `new Date()` are parameters. The random analytics figures are parameters bounded like the source's draws.
- Floating point: product prices and inventory unit costs are cents, and scores, accuracies, probabilities and confidences are basis points. `toFixed`, `toLocaleString` and the suppliers page's average reliability card (two decimals) are left out.
- Display-only mock content: insight descriptions, icon backgrounds, emissions figures, the risk assessment, the delay risk factors, recommended actions, seasonal and external factors, and the implementation steps of the inventory reply.
- `getMLModels` and the model list's accuracy figures beyond the training status.
- Product stock, inventory quantities, order line prices and order totals are whole numbers in the source's own units. Fractional stock is not modelled: `Products.HandleChange` takes the stock field's reading as a whole number, so a stock of 0.5, which the product form would read with `parseFloat` and classify as Low Stock, cannot be entered.
- Lower-casing covers ASCII letters only. Other characters compare unchanged.
- `Text.IntToString` writes integers in plain decimal. JavaScript's own number formatting of fractional or very large totals in the CSV is not modelled.
- Text.LexLess: compares strings by Unicode code point, while JavaScript's `<` compares UTF-16 code units. The two orders differ only for characters above U+FFFF: JavaScript puts "\u{10000}" before "\uFFFF" and the model puts it after. The orders page sorts by this comparison.
- CustomerService.Merge: a patch field is either absent or carries a value. The spread at useCustomers.ts:84 would also erase a field that a patch sets explicitly to `undefined`, and the model cannot express that patch. The same holds for InventoryService.Merge, SupplierService.Merge and the product update's merge.
- AddSupplierModal.ParseScore: reads only blank text, digits, and digits with a point and up to four fractional digits. Signs, exponents, hexadecimal, `Infinity` and longer fractions read as None. None also stands for NaN, which the suppliers page treats like a missing score.
- AddSupplierModal.ParseWhole: reads only blank text and plain digits. Any other text `Number` would accept reads as None.
- MlService.PredictDelays: the delay probability is drawn in steps of 1/10000, not as a float.
- MlService.AnalyzeShipmentData: the emissions and risk figures of the reply are not modelled.
- The dashboard widgets, layout, charts, settings and forecasting pages, the product details and shipment analytics panels, and the add-customer and add-inventory dialogs are presentation or plain form plumbing.
