/**
 * The documents kept by the inventory server (models/Folder.js, models/Product.js,
 * models/Sales.js; the Store model is not part of this model and is kept opaque),
 * and the checks their schemas apply when a new document is saved.
 *
 * A request field that is absent (undefined) is `None`. Mongoose's `required`
 * rejects a missing value of any type and, for a String, also the empty string.
 */
module Records {

  /** A database ObjectId. Fresh ids are drawn from a counter; the source never
      inspects an id beyond comparing it for equality. */
  type Id = nat

  datatype Option<+T> = None | Some(value: T)

  /** A store document. Its schema is not part of this model: it is a bag of
      named fields that creation stores and update overwrites. */
  datatype Store = Store(fields: map<string, string>)

  /** models/Folder.js: a name and the one store the folder belongs to. */
  datatype Folder = Folder(name: string, store: Id)

  /** models/Product.js: `quantity` is a Number with no declared bound; `image`
      is an optional, uninterpreted URL. */
  datatype Product = Product(name: string, quantity: int, folder: Id, image: Option<string>, source: string)

  /** models/Sales.js, together with the document's own id. The product
      reference is not required to resolve to a stored product. */
  datatype Sale = Sale(id: Id, customer: string, product: Id, quantity: int, date: int)

  /** What `required: true` accepts for a String field. */
  predicate RequiredString(s: Option<string>)
  {
    s.Some? && s.value != ""
  }

  predicate ValidFolder(f: Folder)
  {
    f.name != ""
  }

  predicate ValidProduct(p: Product)
  {
    p.name != "" && p.source != ""
  }

  predicate ValidSale(s: Sale)
  {
    s.customer != ""
  }

  /** `new Folder(body)` followed by `save()`: None when validation fails. */
  function NewFolder(name: Option<string>, store: Option<Id>): (r: Option<Folder>)
    ensures r.Some? <==> RequiredString(name) && store.Some?
    ensures r.Some? ==> ValidFolder(r.value) && r.value == Folder(name.value, store.value)
  {
    if RequiredString(name) && store.Some? then Some(Folder(name.value, store.value)) else None
  }

  /** `new Product(data)` followed by `save()`: None when validation fails. */
  function NewProduct(name: Option<string>, quantity: Option<int>, folder: Option<Id>,
                      image: Option<string>, source: Option<string>): (r: Option<Product>)
    ensures r.Some? <==> RequiredString(name) && quantity.Some? && folder.Some? && RequiredString(source)
    ensures r.Some? ==> ValidProduct(r.value)
    ensures r.Some? ==> r.value == Product(name.value, quantity.value, folder.value, image, source.value)
  {
    if RequiredString(name) && quantity.Some? && folder.Some? && RequiredString(source)
    then Some(Product(name.value, quantity.value, folder.value, image, source.value))
    else None
  }

  /** `new SalesReport(fields)` followed by `save()` at time `now`: the date
      defaults to `now`; None when validation fails. */
  function NewSale(id: Id, customer: Option<string>, product: Option<Id>, quantity: Option<int>,
                   date: Option<int>, now: int): (r: Option<Sale>)
    ensures r.Some? <==> RequiredString(customer) && product.Some? && quantity.Some?
    ensures r.Some? ==> ValidSale(r.value) && r.value.id == id
    ensures r.Some? ==> r.value.customer == customer.value && r.value.product == product.value
                        && r.value.quantity == quantity.value
    ensures r.Some? && date.None? ==> r.value.date == now
    ensures r.Some? && date.Some? ==> r.value.date == date.value
  {
    if RequiredString(customer) && product.Some? && quantity.Some?
    then Some(Sale(id, customer.value, product.value, quantity.value, if date.Some? then date.value else now))
    else None
  }

  /** Every valid folder is what NewFolder builds from its own fields. */
  lemma NewFolderComplete(f: Folder)
    requires ValidFolder(f)
    ensures NewFolder(Some(f.name), Some(f.store)) == Some(f)
  {
  }

  /** Every valid product is what NewProduct builds from its own fields: the
      schema imposes nothing on quantity, folder or image. */
  lemma NewProductComplete(p: Product)
    requires ValidProduct(p)
    ensures NewProduct(Some(p.name), Some(p.quantity), Some(p.folder), p.image, Some(p.source)) == Some(p)
  {
  }

  /** Every valid sale is what NewSale builds from its own fields, whatever the
      current time, once its date is given explicitly. */
  lemma NewSaleComplete(s: Sale, now: int)
    requires ValidSale(s)
    ensures NewSale(s.id, Some(s.customer), Some(s.product), Some(s.quantity), Some(s.date), now) == Some(s)
  {
  }
}
