/**
 * The read-side queries of the inventory server: `find` with a filter over
 * one table. The sales table is an ordered ledger, so its queries return
 * the matching sales in stored order; the other tables are maps from id.
 */
module Queries {
  import opened Records

  /** The elements of `s` that `keep` accepts, in their order in `s`. */
  function Filter<T(!new)>(s: seq<T>, keep: T -> bool): (r: seq<T>)
    ensures |r| <= |s|
    ensures forall x :: x in r <==> x in s && keep(x)
  {
    if s == [] then []
    else if keep(s[0]) then [s[0]] + Filter(s[1..], keep)
    else Filter(s[1..], keep)
  }

  /** Filtering distributes over concatenation: the result keeps stored order. */
  lemma {:induction false} FilterAppend<T(!new)>(a: seq<T>, b: seq<T>, keep: T -> bool)
    ensures Filter(a + b, keep) == Filter(a, keep) + Filter(b, keep)
  {
    if a == [] {
      assert a + b == b;
    } else {
      assert (a + b)[0] == a[0];
      assert (a + b)[1..] == a[1..] + b;
      FilterAppend(a[1..], b, keep);
    }
  }

  /** Appending one element adds it at the end of the result exactly when it is kept. */
  lemma FilterSnoc<T(!new)>(s: seq<T>, x: T, keep: T -> bool)
    ensures Filter(s + [x], keep) == Filter(s, keep) + (if keep(x) then [x] else [])
  {
    FilterAppend(s, [x], keep);
    assert [x][1..] == [];
  }

  /** Two filters that agree on every element of `s` select the same elements. */
  lemma {:induction false} FilterCongruent<T(!new)>(s: seq<T>, keep1: T -> bool, keep2: T -> bool)
    requires forall i :: 0 <= i < |s| ==> keep1(s[i]) == keep2(s[i])
    ensures Filter(s, keep1) == Filter(s, keep2)
  {
    if s != [] {
      assert forall i :: 0 <= i < |s[1..]| ==> s[1..][i] == s[i + 1];
      FilterCongruent(s[1..], keep1, keep2);
    }
  }

  // ---------------------------------------------------------------------------
  // Case-insensitive search of a customer name (a `$regex` with option 'i',
  // read as a literal pattern over ASCII letters).

  function Lower(c: char): (r: char)
    ensures 'A' <= c <= 'Z' ==> r as int == c as int + 32
    ensures !('A' <= c <= 'Z') ==> r == c
  {
    if 'A' <= c <= 'Z' then (c as int + 32) as char else c
  }

  /** `pattern` occurs in `text` at offset `i`, ignoring letter case. */
  predicate MatchesAt(text: string, pattern: string, i: nat)
  {
    i + |pattern| <= |text| &&
    forall k :: 0 <= k < |pattern| ==> Lower(text[i + k]) == Lower(pattern[k])
  }

  predicate ContainsIgnoreCase(text: string, pattern: string)
  {
    exists i: nat :: i <= |text| && MatchesAt(text, pattern, i)
  }

  /** Every text contains itself, so each customer is found by their own name. */
  lemma ContainsItself(text: string)
    ensures ContainsIgnoreCase(text, text)
  {
    assert MatchesAt(text, text, 0);
  }

  /** Patterns that differ only in letter case match the same texts. */
  lemma {:induction false} ContainsIgnoresPatternCase(text: string, p1: string, p2: string)
    requires |p1| == |p2|
    requires forall k :: 0 <= k < |p1| ==> Lower(p1[k]) == Lower(p2[k])
    ensures ContainsIgnoreCase(text, p1) <==> ContainsIgnoreCase(text, p2)
  {
    if ContainsIgnoreCase(text, p1) {
      var i: nat :| i <= |text| && MatchesAt(text, p1, i);
      assert MatchesAt(text, p2, i);
    }
    if ContainsIgnoreCase(text, p2) {
      var i: nat :| i <= |text| && MatchesAt(text, p2, i);
      assert MatchesAt(text, p1, i);
    }
  }

  // ---------------------------------------------------------------------------
  // Sales queries.

  /** The customer query distinguishes "no sales matched" from a result. */
  datatype CustomerReport = NoResults | Found(sales: seq<Sale>)

  /** Sales whose customer contains `name`, ignoring case, in stored order. */
  function SalesOfCustomer(sales: seq<Sale>, name: string): (r: CustomerReport)
    ensures r.NoResults? <==> forall s :: s in sales ==> !ContainsIgnoreCase(s.customer, name)
    ensures r.Found? ==> r.sales != []
    ensures r.Found? ==> forall s :: s in r.sales <==> s in sales && ContainsIgnoreCase(s.customer, name)
  {
    var found := Filter(sales, (s: Sale) => ContainsIgnoreCase(s.customer, name));
    if found == [] then NoResults
    else
      assert found[0] in found;
      Found(found)
  }

  /** Sales that reference `product`, in stored order. */
  function SalesOfProduct(sales: seq<Sale>, product: Id): (r: seq<Sale>)
    ensures forall s :: s in r <==> s in sales && s.product == product
  {
    Filter(sales, (s: Sale) => s.product == product)
  }

  /** Sales dated within [start, end], both ends included, in stored order. */
  function SalesBetween(sales: seq<Sale>, start: int, end: int): (r: seq<Sale>)
    ensures forall s :: s in r <==> s in sales && start <= s.date <= end
  {
    Filter(sales, (s: Sale) => start <= s.date && s.date <= end)
  }

  /** A sale is found by its customer's own name. */
  lemma CustomerFoundByOwnName(sales: seq<Sale>, i: nat)
    requires i < |sales|
    ensures SalesOfCustomer(sales, sales[i].customer).Found?
    ensures sales[i] in SalesOfCustomer(sales, sales[i].customer).sales
  {
    ContainsItself(sales[i].customer);
    assert sales[i] in sales;
  }

  /** The customer query gives the same report for names differing only in case. */
  lemma CustomerQueryIgnoresCase(sales: seq<Sale>, n1: string, n2: string)
    requires |n1| == |n2|
    requires forall k :: 0 <= k < |n1| ==> Lower(n1[k]) == Lower(n2[k])
    ensures SalesOfCustomer(sales, n1) == SalesOfCustomer(sales, n2)
  {
    var keep1 := (s: Sale) => ContainsIgnoreCase(s.customer, n1);
    var keep2 := (s: Sale) => ContainsIgnoreCase(s.customer, n2);
    forall i | 0 <= i < |sales| ensures keep1(sales[i]) == keep2(sales[i]) {
      ContainsIgnoresPatternCase(sales[i].customer, n1, n2);
    }
    FilterCongruent(sales, keep1, keep2);
  }

  /** A sale appended to the ledger comes last in its product's report, and
      the reports of other products are unchanged. */
  lemma SalesOfProductAfterAppend(sales: seq<Sale>, x: Sale, product: Id)
    ensures SalesOfProduct(sales + [x], product)
            == SalesOfProduct(sales, product) + (if x.product == product then [x] else [])
  {
    FilterSnoc(sales, x, (s: Sale) => s.product == product);
  }

  /** A sale appended to the ledger comes last in the customer report when its
      customer matches, turning "no results" into a one-sale report; otherwise
      the report is unchanged. */
  lemma SalesOfCustomerAfterAppend(sales: seq<Sale>, x: Sale, name: string)
    ensures !ContainsIgnoreCase(x.customer, name) ==>
              SalesOfCustomer(sales + [x], name) == SalesOfCustomer(sales, name)
    ensures ContainsIgnoreCase(x.customer, name) && SalesOfCustomer(sales, name).NoResults? ==>
              SalesOfCustomer(sales + [x], name) == Found([x])
    ensures ContainsIgnoreCase(x.customer, name) && SalesOfCustomer(sales, name).Found? ==>
              SalesOfCustomer(sales + [x], name) == Found(SalesOfCustomer(sales, name).sales + [x])
  {
    FilterSnoc(sales, x, (s: Sale) => ContainsIgnoreCase(s.customer, name));
  }

  /** A sale appended to the ledger comes last in every date range holding its date. */
  lemma SalesBetweenAfterAppend(sales: seq<Sale>, x: Sale, start: int, end: int)
    ensures SalesBetween(sales + [x], start, end)
            == SalesBetween(sales, start, end) + (if start <= x.date <= end then [x] else [])
  {
    FilterSnoc(sales, x, (s: Sale) => start <= s.date && s.date <= end);
  }

  /** Position of the sale with id `id`, or None when no sale has that id. */
  function FindSale(sales: seq<Sale>, id: Id): (r: Option<nat>)
    ensures r.Some? ==> r.value < |sales| && sales[r.value].id == id
    ensures r.Some? ==> forall j :: 0 <= j < r.value ==> sales[j].id != id
    ensures r.None? <==> forall j :: 0 <= j < |sales| ==> sales[j].id != id
  {
    if sales == [] then None
    else if sales[0].id == id then Some(0)
    else match FindSale(sales[1..], id)
      case None => None
      case Some(i) => Some(i + 1)
  }

  // ---------------------------------------------------------------------------
  // Folder and product queries.

  /** `Product.find({ folder })`: the products of one folder, with their records. */
  function ProductsInFolder(products: map<Id, Product>, folder: Id): (r: map<Id, Product>)
    ensures forall p :: p in r <==> p in products && products[p].folder == folder
    ensures forall p :: p in r ==> r[p] == products[p]
  {
    map p | p in products && products[p].folder == folder :: products[p]
  }

  /** `Product.deleteMany({ folder: { $in: folders } })`: the products left over. */
  function ProductsOutside(products: map<Id, Product>, folders: set<Id>): (r: map<Id, Product>)
    ensures forall p :: p in r <==> p in products && products[p].folder !in folders
    ensures forall p :: p in r ==> r[p] == products[p]
  {
    map p | p in products && products[p].folder !in folders :: products[p]
  }

  /** `Folder.find({ store })`: the folders of one store, with their records. */
  function FoldersOfStore(folders: map<Id, Folder>, store: Id): (r: map<Id, Folder>)
    ensures forall f :: f in r <==> f in folders && folders[f].store == store
    ensures forall f :: f in r ==> r[f] == folders[f]
  {
    map f | f in folders && folders[f].store == store :: folders[f]
  }

  /** After removing the products of a set of folders, none of those folders
      has a product left, and every other folder keeps all of its products. */
  lemma ProductsOutsideEmptiesFolders(products: map<Id, Product>, folders: set<Id>, folder: Id)
    ensures folder in folders ==> ProductsInFolder(ProductsOutside(products, folders), folder) == map[]
    ensures folder !in folders ==>
              ProductsInFolder(ProductsOutside(products, folders), folder) == ProductsInFolder(products, folder)
  {
  }
}
