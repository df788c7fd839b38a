# Inventory bookkeeping of an Express/Mongoose inventory server

This project models the bookkeeping of a small inventory server. Stores hold
folders, and folders hold products. A product's stock goes up through a
restock (`addStock`). It goes down through two different sale paths, and each
of them also writes a record to a sales ledger: `subtractStock` on the product
routes and `POST /sales` on the sales routes. Deleting a folder also deletes its
products. Deleting a store also deletes its folders and their products. Sales
can be queried by customer, by product and by date range.

Without HTTP and Mongoose, each route handler is a short sequence of lookups,
guards and table updates. The model has three modules:

- `Records` (`records.dfy`) holds the documents as datatypes (`Store`, `Folder`,
  `Product`, `Sale`). It also has the required-field validation that the schemas
  apply on save: `NewFolder`, `NewProduct` and `NewSale`. When no date is given,
  `NewSale` uses the time passed in as `now`.
- `Queries` (`queries.dfy`) holds the read-side `find` filters. Sales are kept
  as an ordered ledger, so the sales filters return matches in stored order.
  The generic `Filter` and its append lemma pin that order down.
- `Inventory` (`inventory.dfy`) holds the class `Database`. Its fields are maps
  from id to store, folder and product, plus the sales ledger as a sequence.
  There is one method per route operation. Each method returns the kind of
  response the handler sends (`Ok`, `NotFound`, `InvalidInput` or
  `InsufficientStock`) and states the whole new state.

Ids come from a counter, `nextId`, which stands in for ObjectId generation.
`Database.Valid()` says three things:
- every id is below `nextId`;
- sale ids are distinct;
- every stored product satisfies the product schema.

Every method preserves `Valid()`.

Behaviour of the code that a reader might not expect:
- `addStock` accepts a negative amount because its guard only rejects a missing or non-numeric value and a numeric 0 (a string such as `"0"` passes, see "## Left out"). Stock can therefore go below zero, and the model does not claim that quantity is never negative.
- `POST /sales` checks only that the stock is not below the quantity. A zero or negative quantity is accepted, and such a sale does not lower the stock.
- Creating a folder does not check that its store exists. Creating a product does not check that its folder exists. A product's quantity has no lower bound.
- There is no product-update operation.
- The two sale paths save in opposite orders. `subtractStock` saves the product and then the sale. `POST /sales` saves the sale and then the product. The model keeps each order, but with saves that never fail both orders reach the same final state.
- Updates go through `findByIdAndUpdate`, which runs no validators. An update is a patch of optional fields: a folder update carries only the keys of the request body, and a sale update leaves a field unchanged when the request omits it (this assumes Mongoose 7 or later, see "## Left out"). An update can store an empty folder name or an empty customer name.
- When a save fails schema validation, the source answers with a server error. The model reports this as `InvalidInput`, and nothing changes.

## Model

| member | source | states |
|---|---|---|
| Records.NewFolder | models/Folder.js:3-6 | a folder is accepted exactly when its name is non-empty and a store id is given; the result is a valid folder carrying exactly those two fields |
| Records.NewFolderComplete | models/Folder.js:3-6 | every valid folder is accepted and rebuilt unchanged from its own name and store |
| Records.NewProduct | models/Product.js:3-9 | a product is accepted exactly when name and source are non-empty and quantity and folder are given; quantity has no bound and the image is optional and passed through |
| Records.NewProductComplete | models/Product.js:3-9 | every valid product, whatever its quantity, folder or image, is accepted and rebuilt unchanged |
| Records.NewSale | models/Sales.js:3-26 | a sale is accepted exactly when the customer is non-empty and product and quantity are given (no positivity check); a missing date becomes `now`, a given one is kept |
| Records.NewSaleComplete | models/Sales.js:3-26 | every valid sale is accepted and rebuilt unchanged from its own fields, whatever `now` is |
| Queries.Filter | routes/salesRoutes.js:88 | the result holds exactly the kept elements of the table and is no longer than it |
| Queries.FilterAppend | routes/salesRoutes.js:88 | filtering distributes over concatenation, so results keep stored order |
| Queries.FilterCongruent | routes/salesRoutes.js:68 | two filters that agree on every stored element give the same result |
| Queries.ContainsItself | routes/salesRoutes.js:68 | every name matches itself as a case-insensitive pattern |
| Queries.ContainsIgnoresPatternCase | routes/salesRoutes.js:68 | patterns that differ only in letter case match exactly the same texts |
| Queries.SalesOfCustomer | routes/salesRoutes.js:64-76 | "no results" exactly when no customer contains the name case-insensitively; otherwise a non-empty list of exactly the matching sales |
| Queries.CustomerFoundByOwnName | routes/salesRoutes.js:68-74 | querying with a sale's own customer name always finds that sale |
| Queries.CustomerQueryIgnoresCase | routes/salesRoutes.js:68 | names differing only in letter case give the same report |
| Queries.SalesOfProduct | routes/salesRoutes.js:84-92 | exactly the sales whose product equals the id |
| Queries.SalesBetween | routes/salesRoutes.js:100-111 | exactly the sales with start <= date <= end, both ends included |
| Queries.SalesOfProductAfterAppend | routes/salesRoutes.js:32 | appending a sale adds it at the end of its own product's report and leaves every other product's report unchanged |
| Queries.SalesOfCustomerAfterAppend | routes/salesRoutes.js:68-74 | appending a matching sale adds it at the end of the customer report, turning "no results" into a one-sale report; appending a non-matching sale leaves the report unchanged, so the report keeps stored order |
| Queries.SalesBetweenAfterAppend | routes/salesRoutes.js:32 | appending a sale adds it at the end of every date range holding its date and changes no other range |
| Queries.FindSale | routes/salesRoutes.js:125-133 | returns the first position holding the sale id, or None exactly when no sale has that id |
| Queries.ProductsInFolder | routes/productRoutes.js:72-76 | exactly the products whose folder equals the id, with their records |
| Queries.ProductsOutside | routes/storeRoutes.js:69 | exactly the products whose folder is not in the given set, with their records unchanged |
| Queries.FoldersOfStore | routes/storeRoutes.js:40-46 | exactly the folders whose store equals the id, with their records |
| Queries.ProductsOutsideEmptiesFolders | routes/folderRoutes.js:51-52 | after removing the products of a set of folders, each of those folders has no products and every other folder keeps all of its products |
| Inventory.PatchFolder | routes/folderRoutes.js:41 | each folder field given in the body replaces the stored one; absent fields stay |
| Inventory.PatchSale | routes/salesRoutes.js:125-129 | each sale field given in the body replaces the stored one, absent fields stay, the id never changes |
| Inventory.FullSalePatchReplaces | routes/salesRoutes.js:125-128 | an update carrying customer, product, quantity and date replaces all four |
| Inventory.Database.SaveSale | models/Sales.js:21-25 | the sale save of both sale paths (routes/productRoutes.js:133-139 and routes/salesRoutes.js:24-32): a new sale is appended under a fresh id exactly when the schema accepts it, dated `now` when no date is given, and shows up last in its product's report; otherwise nothing changes |
| Inventory.Database.CreateStore | routes/storeRoutes.js:8-16 | the store is added under a fresh id; no other table changes |
| Inventory.Database.GetStore | routes/storeRoutes.js:29-37 | not found exactly for an absent id, otherwise the stored store |
| Inventory.Database.UpdateStore | routes/storeRoutes.js:53-60 | an absent id yields null and creates nothing; otherwise the given fields overwrite the stored ones; no other table changes |
| Inventory.Database.DeleteStore | routes/storeRoutes.js:63-85 | removes every product of the store's folders, every folder of the store and the store; everything else is unchanged; NotFound when the store was absent, with the product and folder deletions kept |
| Inventory.Database.CreateFolder | routes/folderRoutes.js:7-15 | the folder is added under a fresh id, which is returned, exactly when the schema accepts it, without checking the store; otherwise InvalidInput, no id and no change |
| Inventory.Database.GetFolder | routes/folderRoutes.js:28-36 | not found exactly for an absent id, otherwise the stored folder |
| Inventory.Database.UpdateFolder | routes/folderRoutes.js:39-46 | an absent id yields null and creates nothing; otherwise the patch is applied unvalidated; no other table changes |
| Inventory.Database.DeleteFolder | routes/folderRoutes.js:49-65 | removes exactly the folder's products, leaving its product query empty, then the folder; NotFound when the folder was absent, with the product deletions kept; stores and sales are unchanged |
| Inventory.Database.CreateProduct | routes/productRoutes.js:10-46 | without an upload, or when the schema rejects the product, the result is InvalidInput and nothing changes; otherwise the product is added under a fresh id, which is returned, with the upload URL as its image, and the folder is not checked |
| Inventory.Database.GetProduct | routes/productRoutes.js:61-69 | not found exactly for an absent id, otherwise the stored product |
| Inventory.Database.AddStock | routes/productRoutes.js:83-105 | a missing amount or a numeric 0 gives InvalidInput and an unknown id gives NotFound, with no change in either case; otherwise quantity becomes old + amount, and nothing else changes; a negative amount lowers the stock |
| Inventory.Database.SubtractStock | routes/productRoutes.js:108-152 | InvalidInput (missing or non-positive quantity, empty customer) before any lookup, then NotFound, then InsufficientStock, each with no change; on success quantity drops by exactly the amount and stays >= 0, and exactly one sale {customer, product, quantity, now} is appended |
| Inventory.Database.DeleteProduct | routes/productRoutes.js:155-162 | always Ok; removes only that id and never touches sales |
| Inventory.Database.RestockThenSell | routes/productRoutes.js:98-129 | addStock(q) and then subtractStock(q): the sale succeeds exactly when the stock was not negative, and then the products table is as before and exactly the sale {customer, id, q, now} is appended under a fresh id; when the sale is refused the restock stays and the ledger is unchanged; stores and folders never change |
| Inventory.Database.CreateSale | routes/salesRoutes.js:7-47 | NotFound for a missing or unknown product, then InsufficientStock when the stock is below the quantity, then InvalidInput when the schema rejects the sale (empty or missing customer, missing quantity), each with no change; on success one sale with the given or default date is appended and that product's stock drops by the quantity, so a non-positive quantity does not lower it |
| Inventory.Database.UpdateSale | routes/salesRoutes.js:119-140 | NotFound exactly when no sale has the id, with no change; otherwise only that sale is patched; no product quantity changes |
| Inventory.Database.DeleteSale | routes/salesRoutes.js:143-158 | NotFound exactly when no sale has the id; otherwise exactly that one record is removed, order kept; no product quantity changes |

## Left out

- HTTP: routing, request parsing, status codes and response bodies. Only the kind of outcome is kept.
- The list-all routes (`GET /` on stores, folders, products and sales) return a whole table and are not modelled as separate members. The `populate` joins on `product`, `folder` and `store` only shape the response. The joins on `customer` are covered by the lines below.
- Server bootstrap and the database connection: CORS, static files, listening and connecting.
- Database failures and their 500 responses are not modelled. Neither are cast errors for malformed ids: any id that is not in a table is simply absent.
- The image upload to the blob store and the multipart parsing. The upload's URL is a parameter of `CreateProduct`, and `None` means no file was uploaded.
- The Store schema is not part of this model. A store is an opaque map of named fields. Creating a store always succeeds, and an update overwrites the given fields.
- Concurrency: each operation is one sequential step. The lost update between reading and saving a product, and the orderings of two concurrent sales, are not modelled.
- The two sale paths save product and sale in opposite orders. With saves that never fail, both orders give the same final state. The difference would only show when the second save fails, and failing saves are left out.
- The customer query treats the name as a literal pattern, not as a regular expression. Case folding covers only the ASCII letters A-Z. A request with no customer name at all is not modelled.
- Dates are integers, so parsing `startDate` and `endDate` into dates, and invalid dates, are not modelled.
- Numbers are unbounded integers rather than JavaScript `Number`. A quantity that is missing or not numeric is `None`. String coercion in comparisons is not modelled.
- Logging.
- Inventory.PatchSale: assumes Mongoose 7 or later, which strips the `undefined` keys of the update object built at routes/salesRoutes.js:127, so an omitted field stays as it was. The Mongoose version is not pinned in the files modelled here. Under Mongoose 6 or earlier without `omitUndefined`, an omitted field would be stored as null, and the model does not capture that.
- Inventory.Database.SubtractStock: a non-numeric `quantitySold` is read as `None` and answered with InvalidInput before any lookup. In the source, the guard at routes/productRoutes.js:113 lets a non-numeric string through because `"abc" <= 0` is false. So for an unknown id the source answers NotFound (line 119), and for a known product it goes on with a NaN comparison and subtraction. JavaScript string-to-number coercion is not modelled.
- Inventory.Database.AddStock: every amount is read as a number, so a numeric 0 and the strings `"0"` or `"  "` are all `Some(0)` and answered with InvalidInput. In the source, the guard at routes/productRoutes.js:87 rejects only a numeric 0: `!"0"` and `isNaN("0")` are both false, so such a string gets past it. An unknown id then gives NotFound (line 95), and a known product gets `quantity += Number("0")`, an unchanged stock, and a success response (lines 98-101). JavaScript string-to-number coercion is not modelled.
- Queries.SalesOfProduct: assumes that a `Customer` model is registered. The route joins `customer` (routes/salesRoutes.js:89), and models/Sales.js:6 declares that path as a reference to `Customer`. None of the models in this model register `Customer`. If no other code registers it, the join fails with a missing-schema error as soon as one sale matches, and the route answers 500 instead of the list.
- Queries.SalesBetween: assumes that a `Customer` model is registered. The route joins `customer` (routes/salesRoutes.js:107), and if no other code registers `Customer`, the route answers 500 instead of the list as soon as one sale lies in the range.
- Inventory.Database.UpdateSale: assumes that a `Customer` model is registered. The route joins `customer` after the update (routes/salesRoutes.js:129), and if no other code registers `Customer`, the route answers 500 after the update has already been written. The model reports Ok with the patched sale.
