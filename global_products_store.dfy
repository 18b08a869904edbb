/**
 * The global products store (src/stores/globalProducts.ts): the product catalogue with
 * prices and category names, a search query, and the catalogue filtered by that query.
 */
module GlobalProductsStore {
  import opened Common
  import Seqs
  import Text

  /** A catalogue product; dates are clock readings. */
  datatype GlobalProduct = GlobalProduct(
    id: string,
    name: string,
    price: int,
    categories: seq<string>,
    createdAt: int,
    updatedAt: int)

  datatype Category = Category(id: string, name: string)

  /** `Partial<GlobalProduct>`: `None` is a property the update object does not have. */
  datatype ProductUpdates = ProductUpdates(
    id: Option<string>,
    name: Option<string>,
    price: Option<int>,
    categories: Option<seq<string>>,
    createdAt: Option<int>,
    updatedAt: Option<int>)

  /** `(p) => p.id === id`. */
  function HasId(id: string): GlobalProduct -> bool
  {
    (p: GlobalProduct) => p.id == id
  }

  /** The lower-cased `needle` occurs in the lower-cased `hay`. */
  predicate IncludesIgnoringCase(hay: string, needle: string)
  {
    Text.Includes(Text.ToLower(hay), Text.ToLower(needle))
  }

  /** The name, or one of the category names, contains the query regardless of case. */
  predicate Matches(p: GlobalProduct, query: string)
  {
    IncludesIgnoringCase(p.name, query)
    || exists k :: 0 <= k < |p.categories| && IncludesIgnoringCase(p.categories[k], query)
  }

  function MatchesQuery(query: string): GlobalProduct -> bool
  {
    (p: GlobalProduct) => Matches(p, query)
  }

  /**
   * `filteredProducts`: the whole catalogue for an empty query; otherwise the products that
   * match it, in catalogue order.
   */
  function FilteredProducts(products: seq<GlobalProduct>, query: string): (r: seq<GlobalProduct>)
    ensures query == "" ==> r == products
    ensures query != "" ==> forall k :: 0 <= k < |products| ==> (products[k] in r <==> Matches(products[k], query))
    ensures query != "" ==> forall k :: 0 <= k < |r| ==> Matches(r[k], query)
    ensures Seqs.IsSubsequence(r, products)
  {
    if query == "" then
      Seqs.FilterAll(products, (p: GlobalProduct) => true);
      Seqs.FilterIsSubsequence(products, (p: GlobalProduct) => true);
      products
    else
      Seqs.FilterIsSubsequence(products, MatchesQuery(query));
      Seqs.Filter(products, MatchesQuery(query))
  }

  /**
   * The filtered view is decided one product at a time: the view of a concatenation is the
   * concatenation of the views, and a single product is kept exactly when the query is empty
   * or it matches. Together these fix the view completely, duplicates included.
   */
  lemma FilteredProductsDecomposes(a: seq<GlobalProduct>, b: seq<GlobalProduct>, p: GlobalProduct, query: string)
    ensures FilteredProducts(a + b, query) == FilteredProducts(a, query) + FilteredProducts(b, query)
    ensures FilteredProducts([p], query) == if query == "" || Matches(p, query) then [p] else []
  {
    if query != "" {
      Seqs.FilterAppend(a, b, MatchesQuery(query));
      assert [p][1..] == [];
    }
  }

  /** Reading the filtered view twice without a change in between gives the same products. */
  lemma FilteredProductsIdempotent(products: seq<GlobalProduct>, query: string)
    ensures FilteredProducts(FilteredProducts(products, query), query) == FilteredProducts(products, query)
  {
    if query != "" {
      Seqs.FilterIdempotent(products, MatchesQuery(query));
    }
  }

  /** Case does not matter on either side of the search. */
  lemma MatchesIgnoresCase(p: GlobalProduct, query: string)
    ensures Matches(p, query) <==> Matches(p, Text.ToLower(query))
    ensures Matches(p, query) <==> Matches(p.(name := Text.ToLower(p.name)), query)
  {
    Text.ToLowerIdempotent(query);
    Text.ToLowerIdempotent(p.name);
  }

  /** `Object.assign(product, updates)` followed by `product.updatedAt = new Date()`. */
  function Assigned(p: GlobalProduct, u: ProductUpdates, now: int): (q: GlobalProduct)
    ensures q.id == OrDefault(u.id, p.id) && q.name == OrDefault(u.name, p.name) && q.price == OrDefault(u.price, p.price)
    ensures q.categories == OrDefault(u.categories, p.categories) && q.createdAt == OrDefault(u.createdAt, p.createdAt)
    ensures q.updatedAt == now
  {
    GlobalProduct(OrDefault(u.id, p.id), OrDefault(u.name, p.name), OrDefault(u.price, p.price),
                  OrDefault(u.categories, p.categories), OrDefault(u.createdAt, p.createdAt), now)
  }

  /** `updateProduct(id, updates)` on the catalogue: the first product with the id takes the updates. */
  function Updated(ps: seq<GlobalProduct>, id: string, u: ProductUpdates, now: int): (r: seq<GlobalProduct>)
    ensures var i := Seqs.FindIndex(ps, HasId(id));
      && |r| == |ps|
      && (i == -1 ==> r == ps)
      && (0 <= i ==> r == ps[i := Assigned(ps[i], u, now)])
  {
    Seqs.UpdateFirst(ps, HasId(id), (p: GlobalProduct) => Assigned(p, u, now))
  }

  /** An update without properties only moves `updatedAt` of the product it finds. */
  lemma EmptyUpdateOnlyStamps(ps: seq<GlobalProduct>, id: string, now: int)
    ensures var r := Updated(ps, id, ProductUpdates(None, None, None, None, None, None), now);
      forall k :: 0 <= k < |ps| ==> r[k].(updatedAt := ps[k].updatedAt) == ps[k]
  {
  }

  /** `deleteProduct(id)` on the catalogue: `Seqs.RemoveFirst` by id, the same splice the other stores use. */
  function Deleted(ps: seq<GlobalProduct>, id: string): (r: seq<GlobalProduct>)
    ensures var i := Seqs.FindIndex(ps, HasId(id));
      && (i == -1 ==> r == ps)
      && (0 <= i ==> |r| == |ps| - 1 && r == ps[..i] + ps[i + 1..])
  {
    Seqs.SpliceIsRemoveFirst(ps, HasId(id));
    Seqs.RemoveFirst(ps, HasId(id))
  }

  /** The three products and six categories the store starts with, stamped `now`. */
  function SeedProducts(now: int): seq<GlobalProduct>
  {
    [GlobalProduct("1", "Carne", 12000, ["Carnes"], now, now),
     GlobalProduct("2", "Fernet", 13000, ["Alcohol", "Bebidas"], now, now),
     GlobalProduct("3", "Mayonesa", 3000, ["Aderezos"], now, now)]
  }

  const SeedCategories: seq<Category> := [
    Category("1", "Carnes"), Category("2", "Alcohol"), Category("3", "Bebidas"),
    Category("4", "Aderezos"), Category("5", "Verduras"), Category("6", "Frutas")]

  /** The store: the catalogue, the categories and the search query. */
  class Store {
    var products: seq<GlobalProduct>
    var categories: seq<Category>
    var searchQuery: string

    constructor(now: int)
      ensures products == SeedProducts(now) && categories == SeedCategories && searchQuery == ""
    {
      products := SeedProducts(now);
      categories := SeedCategories;
      searchQuery := "";
    }

    /** `addProduct(name, price, categories)`: push one product, id and dates from the clock. */
    method AddProduct(name: string, price: int, productCategories: seq<string>, now: int)
      modifies this
      ensures products == old(products) + [GlobalProduct(Text.IntToString(now), name, price, productCategories, now, now)]
      ensures categories == old(categories) && searchQuery == old(searchQuery)
    {
      var newProduct := GlobalProduct(Text.IntToString(now), name, price, productCategories, now, now);
      products := products + [newProduct];
    }

    /** `deleteProduct(id)`: `findIndex`, then `splice(index, 1)` when found. */
    method DeleteProduct(id: string)
      modifies this
      ensures products == Deleted(old(products), id)
      ensures categories == old(categories) && searchQuery == old(searchQuery)
    {
      var index := Seqs.FindIndex(products, HasId(id));
      if index != -1 {
        products := products[..index] + products[index + 1..];
      }
    }

    /** `updateProduct(id, updates)`: `find`, then `Object.assign` and a new `updatedAt`. */
    method UpdateProduct(id: string, updates: ProductUpdates, now: int)
      modifies this
      ensures products == Updated(old(products), id, updates, now)
      ensures categories == old(categories) && searchQuery == old(searchQuery)
    {
      var i := Seqs.FindIndex(products, HasId(id));
      if i != -1 {
        products := products[i := Assigned(products[i], updates, now)];
      }
    }

    /** `updateSearch(query)`: only the query changes. */
    method UpdateSearch(query: string)
      modifies this
      ensures searchQuery == query
      ensures products == old(products) && categories == old(categories)
    {
      searchQuery := query;
    }
  }
}
