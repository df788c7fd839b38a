/**
 * The inventory bookkeeping done by the route handlers (routes/storeRoutes.js,
 * routes/folderRoutes.js, routes/productRoutes.js, routes/salesRoutes.js), with
 * HTTP stripped away: one object holds the four tables, and each handler is a
 * method that performs the handler's lookups, guards and table updates in the
 * handler's order and returns the kind of response it sends.
 */
module Inventory {
  import opened Records
  import opened Queries

  /** The kind of response a handler sends. A failed schema validation on save
      (a 500 in the source) is reported as InvalidInput. */
  datatype Outcome = Ok | NotFound | InvalidInput | InsufficientStock

  /** The body of a folder update: the keys the request carries. The update
      runs no validators. */
  datatype FolderPatch = FolderPatch(name: Option<string>, store: Option<Id>)

  /** The body of a sale update. A field the request leaves out is taken to
      leave the stored field as it is (undefined keys are stripped from the
      update, as Mongoose does from version 7 on). No validators run. */
  datatype SalePatch = SalePatch(customer: Option<string>, product: Option<Id>,
                                 quantity: Option<int>, date: Option<int>)

  /** The folder after a patch: present fields replace, absent ones stay. */
  function PatchFolder(f: Folder, p: FolderPatch): (r: Folder)
    ensures r.name == (if p.name.Some? then p.name.value else f.name)
    ensures r.store == (if p.store.Some? then p.store.value else f.store)
  {
    Folder(if p.name.Some? then p.name.value else f.name,
           if p.store.Some? then p.store.value else f.store)
  }

  /** The sale after a patch: present fields replace, absent ones stay, and the
      id never changes. */
  function PatchSale(s: Sale, p: SalePatch): (r: Sale)
    ensures r.id == s.id
    ensures r.customer == (if p.customer.Some? then p.customer.value else s.customer)
    ensures r.product == (if p.product.Some? then p.product.value else s.product)
    ensures r.quantity == (if p.quantity.Some? then p.quantity.value else s.quantity)
    ensures r.date == (if p.date.Some? then p.date.value else s.date)
  {
    Sale(s.id,
         if p.customer.Some? then p.customer.value else s.customer,
         if p.product.Some? then p.product.value else s.product,
         if p.quantity.Some? then p.quantity.value else s.quantity,
         if p.date.Some? then p.date.value else s.date)
  }

  /** A patch carrying every field replaces every field but the id. */
  lemma FullSalePatchReplaces(s: Sale, customer: string, product: Id, quantity: int, date: int)
    ensures PatchSale(s, SalePatch(Some(customer), Some(product), Some(quantity), Some(date)))
            == Sale(s.id, customer, product, quantity, date)
  {
  }

  /** The guard of addStock: `addedQuantity` must be present, numeric and not 0.
      A negative amount passes. */
  predicate RestockAccepted(addedQuantity: Option<int>)
  {
    addedQuantity.Some? && addedQuantity.value != 0
  }

  /** The guard of subtractStock: a positive quantity and a non-empty customer name. */
  predicate SaleRequestAccepted(quantitySold: Option<int>, customerName: Option<string>)
  {
    quantitySold.Some? && quantitySold.value > 0 && RequiredString(customerName)
  }

  class Database {
    var stores: map<Id, Store>
    var folders: map<Id, Folder>
    var products: map<Id, Product>
    /** The sales ledger in insertion order. */
    var sales: seq<Sale>
    /** Every id handed out so far is below nextId. */
    var nextId: nat

    ghost predicate Valid()
      reads this
    {
      && (forall s :: s in stores ==> s < nextId)
      && (forall f :: f in folders ==> f < nextId)
      && (forall p :: p in products ==> p < nextId)
      && (forall p :: p in products ==> ValidProduct(products[p]))
      && (forall i :: 0 <= i < |sales| ==> sales[i].id < nextId)
      && (forall i, j :: 0 <= i < j < |sales| ==> sales[i].id != sales[j].id)
    }

    constructor ()
      ensures Valid()
      ensures stores == map[] && folders == map[] && products == map[] && sales == []
    {
      stores, folders, products, sales := map[], map[], map[], [];
      nextId := 0;
    }

    /** A fresh ObjectId: one that no table holds. */
    method FreshId() returns (id: Id)
      requires Valid()
      modifies this`nextId
      ensures Valid()
      ensures id == old(nextId) && nextId == id + 1
      ensures id !in stores && id !in folders && id !in products
      ensures forall i :: 0 <= i < |sales| ==> sales[i].id != id
    {
      id := nextId;
      nextId := nextId + 1;
    }

    /** `new Sales(fields).save()` at time `now`: appends the sale, under a
        fresh id, when the schema accepts it, and changes nothing otherwise. */
    method SaveSale(customer: Option<string>, product: Option<Id>, quantity: Option<int>,
                    date: Option<int>, now: int) returns (saved: bool)
      requires Valid()
      modifies this`sales, this`nextId
      ensures Valid()
      ensures saved == (RequiredString(customer) && product.Some? && quantity.Some?)
      ensures !saved ==> sales == old(sales) && nextId == old(nextId)
      ensures saved ==>
                && nextId == old(nextId) + 1
                && sales == old(sales) + [Sale(old(nextId), customer.value, product.value, quantity.value,
                                               if date.Some? then date.value else now)]
      // the new sale comes last in its product's sales report
      ensures saved ==> SalesOfProduct(sales, product.value) == SalesOfProduct(old(sales), product.value) + [sales[|sales| - 1]]
    {
      var sale := NewSale(nextId, customer, product, quantity, date, now);
      if sale.None? {
        return false;
      }
      var id := FreshId();
      SalesOfProductAfterAppend(sales, sale.value, product.value);
      sales := sales + [sale.value];
      saved := true;
    }

    // -------------------------------------------------------------------------
    // routes/storeRoutes.js

    /** POST /stores: the store is saved as given. */
    method CreateStore(fields: map<string, string>) returns (id: Id)
      requires Valid()
      modifies this
      ensures Valid()
      ensures id !in old(stores)
      ensures stores == old(stores)[id := Store(fields)]
      ensures folders == old(folders) && products == old(products) && sales == old(sales)
    {
      id := FreshId();
      stores := stores[id := Store(fields)];
    }

    /** GET /stores/:id. */
    function GetStore(id: Id): (r: Option<Store>)
      reads this
      ensures r.None? <==> id !in stores
      ensures r.Some? ==> r.value == stores[id]
    {
      if id in stores then Some(stores[id]) else None
    }

    /** PUT /stores/:id: overwrites the given fields; an absent id yields null
        and creates nothing. */
    method UpdateStore(id: Id, patch: map<string, string>) returns (r: Option<Store>)
      requires Valid()
      modifies this
      ensures Valid()
      ensures r.None? <==> id !in old(stores)
      ensures r.None? ==> stores == old(stores)
      ensures r.Some? ==> r.value == Store(old(stores)[id].fields + patch) && stores == old(stores)[id := r.value]
      ensures folders == old(folders) && products == old(products) && sales == old(sales)
      ensures nextId == old(nextId)
    {
      if id in stores {
        var updated := Store(stores[id].fields + patch);
        stores := stores[id := updated];
        r := Some(updated);
      } else {
        r := None;
      }
    }

    /** DELETE /stores/:id: the products of the store's folders go first, then
        the store's folders, then the store. Nothing is undone when the store
        itself turns out not to exist. */
    method DeleteStore(id: Id) returns (o: Outcome)
      requires Valid()
      modifies this
      ensures Valid()
      ensures o == (if id in old(stores) then Ok else NotFound)
      ensures stores == old(stores) - {id}
      // no folder of the store remains; every other folder stays as it was
      ensures FoldersOfStore(folders, id) == map[]
      ensures forall f :: f in folders <==> f in old(folders) && old(folders)[f].store != id
      ensures forall f :: f in folders ==> folders[f] == old(folders)[f]
      // no product of those folders remains; every other product stays as it was
      ensures forall p :: p in products ==>
                !(products[p].folder in old(folders) && old(folders)[products[p].folder].store == id)
      ensures forall p :: p in products <==>
                p in old(products) &&
                !(old(products)[p].folder in old(folders) && old(folders)[old(products)[p].folder].store == id)
      ensures forall p :: p in products ==> products[p] == old(products)[p]
      ensures sales == old(sales) && nextId == old(nextId)
    {
      // find the store's folders
      var owned := FoldersOfStore(folders, id).Keys;
      // delete every product of those folders
      products := ProductsOutside(products, owned);
      // delete every folder of the store
      folders := map f | f in folders && folders[f].store != id :: folders[f];
      // delete the store itself, if it exists
      if id in stores {
        stores := stores - {id};
        o := Ok;
      } else {
        o := NotFound;
      }
    }

    // -------------------------------------------------------------------------
    // routes/folderRoutes.js

    /** POST /folders: saved when the schema accepts it. The store reference is
        not checked against the stores table. */
    method CreateFolder(name: Option<string>, store: Option<Id>) returns (o: Outcome, id: Option<Id>)
      requires Valid()
      modifies this
      ensures Valid()
      ensures o == (if RequiredString(name) && store.Some? then Ok else InvalidInput)
      ensures id.Some? <==> o == Ok
      ensures o == Ok ==> id.value !in old(folders) && folders == old(folders)[id.value := Folder(name.value, store.value)]
      ensures o != Ok ==> folders == old(folders) && nextId == old(nextId)
      ensures stores == old(stores) && products == old(products) && sales == old(sales)
    {
      var folder := NewFolder(name, store);
      if folder.None? {
        return InvalidInput, None;
      }
      var newId := FreshId();
      folders := folders[newId := folder.value];
      id := Some(newId);
      o := Ok;
    }

    /** GET /folders/:id. */
    function GetFolder(id: Id): (r: Option<Folder>)
      reads this
      ensures r.None? <==> id !in folders
      ensures r.Some? ==> r.value == folders[id]
    {
      if id in folders then Some(folders[id]) else None
    }

    /** PUT /folders/:id: applies the patch without validating it; an absent id
        yields null and creates nothing. */
    method UpdateFolder(id: Id, patch: FolderPatch) returns (r: Option<Folder>)
      requires Valid()
      modifies this
      ensures Valid()
      ensures r.None? <==> id !in old(folders)
      ensures r.None? ==> folders == old(folders)
      ensures r.Some? ==> r.value == PatchFolder(old(folders)[id], patch) && folders == old(folders)[id := r.value]
      ensures stores == old(stores) && products == old(products) && sales == old(sales)
      ensures nextId == old(nextId)
    {
      if id in folders {
        var updated := PatchFolder(folders[id], patch);
        folders := folders[id := updated];
        r := Some(updated);
      } else {
        r := None;
      }
    }

    /** DELETE /folders/:id: the folder's products go first, then the folder.
        Nothing is undone when the folder itself turns out not to exist. */
    method DeleteFolder(id: Id) returns (o: Outcome)
      requires Valid()
      modifies this
      ensures Valid()
      ensures o == (if id in old(folders) then Ok else NotFound)
      ensures folders == old(folders) - {id}
      ensures ProductsInFolder(products, id) == map[]
      ensures forall p :: p in products <==> p in old(products) && old(products)[p].folder != id
      ensures forall p :: p in products ==> products[p] == old(products)[p]
      ensures stores == old(stores) && sales == old(sales) && nextId == old(nextId)
    {
      // delete every product of the folder
      products := ProductsOutside(products, {id});
      ProductsOutsideEmptiesFolders(old(products), {id}, id);
      // delete the folder itself, if it exists
      if id in folders {
        folders := folders - {id};
        o := Ok;
      } else {
        o := NotFound;
      }
    }

    // -------------------------------------------------------------------------
    // routes/productRoutes.js

    /** POST /products: without an uploaded file the request is refused;
        otherwise the product is saved, with the upload's URL as its image,
        when the schema accepts it. The folder reference is not checked. */
    method CreateProduct(name: Option<string>, quantity: Option<int>, folder: Option<Id>,
                         source: Option<string>, uploadUrl: Option<string>) returns (o: Outcome, id: Option<Id>)
      requires Valid()
      modifies this
      ensures Valid()
      ensures o == (if uploadUrl.Some? && RequiredString(name) && quantity.Some? && folder.Some? && RequiredString(source)
                    then Ok else InvalidInput)
      ensures id.Some? <==> o == Ok
      ensures o == Ok ==>
                && id.value !in old(products)
                && products == old(products)[id.value := Product(name.value, quantity.value, folder.value, uploadUrl, source.value)]
      ensures o != Ok ==> products == old(products) && nextId == old(nextId)
      ensures stores == old(stores) && folders == old(folders) && sales == old(sales)
    {
      if uploadUrl.None? {
        return InvalidInput, None;
      }
      var product := NewProduct(name, quantity, folder, uploadUrl, source);
      if product.None? {
        return InvalidInput, None;
      }
      var newId := FreshId();
      products := products[newId := product.value];
      id := Some(newId);
      o := Ok;
    }

    /** GET /products/:id. */
    function GetProduct(id: Id): (r: Option<Product>)
      reads this
      ensures r.None? <==> id !in products
      ensures r.Some? ==> r.value == products[id]
    {
      if id in products then Some(products[id]) else None
    }

    /** PUT /products/:id/addStock. */
    method AddStock(id: Id, addedQuantity: Option<int>) returns (o: Outcome)
      requires Valid()
      modifies this
      ensures Valid()
      ensures !RestockAccepted(addedQuantity) ==> o == InvalidInput
      ensures RestockAccepted(addedQuantity) ==> o == (if id in old(products) then Ok else NotFound)
      ensures o != Ok ==> products == old(products)
      ensures o == Ok ==>
                products == old(products)[id := old(products)[id].(quantity := old(products)[id].quantity + addedQuantity.value)]
      // the guard lets a negative amount through, which lowers the stock
      ensures o == Ok && addedQuantity.value < 0 ==> products[id].quantity < old(products)[id].quantity
      ensures stores == old(stores) && folders == old(folders) && sales == old(sales)
      ensures nextId == old(nextId)
    {
      if !RestockAccepted(addedQuantity) {
        return InvalidInput;
      }
      if id !in products {
        return NotFound;
      }
      var product := products[id];
      products := products[id := product.(quantity := product.quantity + addedQuantity.value)];
      o := Ok;
    }

    /** PUT /products/:id/subtractStock: the stock is lowered and saved first,
        then a sale dated `now` is recorded. */
    method SubtractStock(id: Id, quantitySold: Option<int>, customerName: Option<string>, now: int)
      returns (o: Outcome)
      requires Valid()
      modifies this
      ensures Valid()
      ensures !SaleRequestAccepted(quantitySold, customerName) ==> o == InvalidInput
      ensures SaleRequestAccepted(quantitySold, customerName) && id !in old(products) ==> o == NotFound
      ensures SaleRequestAccepted(quantitySold, customerName) && id in old(products) ==>
                o == (if old(products)[id].quantity < quantitySold.value then InsufficientStock else Ok)
      ensures o != Ok ==> products == old(products) && sales == old(sales) && nextId == old(nextId)
      ensures o == Ok ==>
                && products == old(products)[id := old(products)[id].(quantity := old(products)[id].quantity - quantitySold.value)]
                && products[id].quantity >= 0
                && sales == old(sales) + [Sale(old(nextId), customerName.value, id, quantitySold.value, now)]
      // the new sale comes last in the product's sales report
      ensures o == Ok ==> SalesOfProduct(sales, id) == SalesOfProduct(old(sales), id) + [sales[|sales| - 1]]
      ensures stores == old(stores) && folders == old(folders)
    {
      if !SaleRequestAccepted(quantitySold, customerName) {
        return InvalidInput;
      }
      if id !in products {
        return NotFound;
      }
      var product := products[id];
      var q := quantitySold.value;
      if product.quantity < q {
        return InsufficientStock;
      }
      // lower the stock and save the product
      products := products[id := product.(quantity := product.quantity - q)];
      // then save the sale, dated now
      // the guard above already ensured the sale passes the schema
      var saved := SaveSale(customerName, Some(id), quantitySold, None, now);
      assert saved;
      o := Ok;
    }

    /** DELETE /products/:id: always reports success; the sales that reference
        the product are kept. */
    method DeleteProduct(id: Id) returns (o: Outcome)
      requires Valid()
      modifies this
      ensures Valid()
      ensures o == Ok
      ensures products == old(products) - {id}
      ensures stores == old(stores) && folders == old(folders) && sales == old(sales)
      ensures nextId == old(nextId)
    {
      products := products - {id};
      o := Ok;
    }

    /** addStock(q) followed by subtractStock(q) on one product: the sale
        succeeds exactly when the stock was not negative to begin with, and then
        the stock is back where it started, with one sale more on the ledger;
        otherwise the restock stays and no sale is recorded. */
    method RestockThenSell(id: Id, q: int, customer: string, now: int) returns (o1: Outcome, o2: Outcome)
      requires Valid()
      requires q > 0 && customer != ""
      modifies this
      ensures Valid()
      ensures o1 == (if id in old(products) then Ok else NotFound)
      ensures o2 == Ok <==> id in old(products) && old(products)[id].quantity >= 0
      ensures o2 == Ok ==> products == old(products)
      ensures o2 == Ok ==> sales == old(sales) + [Sale(old(nextId), customer, id, q, now)]
      // a refused sale leaves the restock in place and the ledger as it was
      ensures o2 != Ok ==> sales == old(sales)
      ensures o2 != Ok ==>
                products == (if id in old(products)
                             then old(products)[id := old(products)[id].(quantity := old(products)[id].quantity + q)]
                             else old(products))
      ensures stores == old(stores) && folders == old(folders)
    {
      o1 := AddStock(id, Some(q));
      o2 := SubtractStock(id, Some(q), Some(customer), now);
      if o2 == Ok {
        assert products[id] == old(products)[id];
      }
    }

    // -------------------------------------------------------------------------
    // routes/salesRoutes.js

    /** POST /sales: the product must exist and its stock must not be below the
        quantity (a missing quantity passes that comparison); the sale is saved
        first, then the stock is lowered. A quantity that is zero or negative
        is accepted and does not lower the stock. */
    method CreateSale(customer: Option<string>, product: Option<Id>, quantity: Option<int>,
                      date: Option<int>, now: int) returns (o: Outcome)
      requires Valid()
      modifies this
      ensures Valid()
      ensures product.None? || product.value !in old(products) ==> o == NotFound
      ensures (product.Some? && product.value in old(products) && quantity.Some? &&
               old(products)[product.value].quantity < quantity.value) ==> o == InsufficientStock
      ensures (product.Some? && product.value in old(products) &&
               !(quantity.Some? && old(products)[product.value].quantity < quantity.value) &&
               !(RequiredString(customer) && quantity.Some?)) ==> o == InvalidInput
      ensures o == Ok <==> product.Some? && product.value in old(products) && quantity.Some? &&
                           old(products)[product.value].quantity >= quantity.value && RequiredString(customer)
      ensures o != Ok ==> products == old(products) && sales == old(sales) && nextId == old(nextId)
      ensures o == Ok ==>
                && sales == old(sales) + [Sale(old(nextId), customer.value, product.value, quantity.value,
                                               if date.Some? then date.value else now)]
                && products == old(products)[product.value := old(products)[product.value].(
                                 quantity := old(products)[product.value].quantity - quantity.value)]
      ensures o == Ok && quantity.value <= 0 ==>
                products[product.value].quantity >= old(products)[product.value].quantity
      ensures o == Ok ==>
                SalesOfProduct(sales, product.value) == SalesOfProduct(old(sales), product.value) + [sales[|sales| - 1]]
      ensures stores == old(stores) && folders == old(folders)
    {
      if product.None? || product.value !in products {
        return NotFound;
      }
      var p := product.value;
      var record := products[p];
      if quantity.Some? && record.quantity < quantity.value {
        return InsufficientStock;
      }
      // save the sale first
      var saved := SaveSale(customer, product, quantity, date, now);
      if !saved {
        return InvalidInput;
      }
      // then lower the stock and save the product
      products := products[p := record.(quantity := record.quantity - quantity.value)];
      o := Ok;
    }

    /** PUT /sales/:saleId: applies the patch to the sale with that id, without
        validating it and without touching any stock. */
    method UpdateSale(saleId: Id, patch: SalePatch) returns (o: Outcome)
      requires Valid()
      modifies this
      ensures Valid()
      ensures o == (if exists i :: 0 <= i < |old(sales)| && old(sales)[i].id == saleId then Ok else NotFound)
      ensures o == NotFound ==> sales == old(sales)
      ensures o == Ok ==>
                && |sales| == |old(sales)|
                && forall i :: 0 <= i < |sales| ==>
                     sales[i] == (if old(sales)[i].id == saleId then PatchSale(old(sales)[i], patch) else old(sales)[i])
      ensures stores == old(stores) && folders == old(folders) && products == old(products)
      ensures nextId == old(nextId)
    {
      var found := FindSale(sales, saleId);
      if found.None? {
        return NotFound;
      }
      var i := found.value;
      sales := sales[i := PatchSale(sales[i], patch)];
      o := Ok;
    }

    /** DELETE /sales/:saleId: removes that one sale and touches no stock. */
    method DeleteSale(saleId: Id) returns (o: Outcome)
      requires Valid()
      modifies this
      ensures Valid()
      ensures o == (if exists i :: 0 <= i < |old(sales)| && old(sales)[i].id == saleId then Ok else NotFound)
      ensures o == NotFound ==> sales == old(sales)
      ensures o == Ok ==>
                && |sales| == |old(sales)| - 1
                && exists i :: 0 <= i < |old(sales)| && old(sales)[i].id == saleId &&
                               sales == old(sales)[..i] + old(sales)[i + 1..]
      ensures forall s :: s in sales <==> s in old(sales) && s.id != saleId
      ensures stores == old(stores) && folders == old(folders) && products == old(products)
      ensures nextId == old(nextId)
    {
      var found := FindSale(sales, saleId);
      if found.None? {
        return NotFound;
      }
      var i := found.value;
      sales := sales[..i] + sales[i + 1..];
      o := Ok;
    }
  }
}
