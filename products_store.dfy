/**
 * The products store (src/stores/products.ts): the products of the shopping lists, held in
 * one array that the actions push to, splice, and edit in place.
 */
module ProductsStore {
  import Seqs
  import Text

  /** A product on a list; dates are clock readings. */
  datatype Product = Product(
    id: string,
    name: string,
    quantity: int,
    completed: bool,
    listId: string,
    createdAt: int,
    updatedAt: int)

  /** `(p) => p.id === id`. */
  function HasId(id: string): Product -> bool
  {
    (p: Product) => p.id == id
  }

  /** `(product) => product.listId === listId`. */
  function OnList(listId: string): Product -> bool
  {
    (p: Product) => p.listId == listId
  }

  /** Every quantity is at least 1. */
  predicate QuantitiesPositive(ps: seq<Product>)
  {
    forall k :: 0 <= k < |ps| ==> ps[k].quantity >= 1
  }

  /** The two products the store starts with, created at clock reading `now`. */
  function Seed(now: int): (ps: seq<Product>)
    ensures QuantitiesPositive(ps)
  {
    [Product("1", "Carne", 1, true, "1", now, now),
     Product("2", "Fernet", 1, false, "1", now, now)]
  }

  /**
   * `getProductsByListId(listId)`: the products of one list, in store order, and only those.
   */
  function ProductsByListId(ps: seq<Product>, listId: string): (r: seq<Product>)
    ensures forall k :: 0 <= k < |r| ==> r[k].listId == listId
    ensures forall k :: 0 <= k < |ps| && ps[k].listId == listId ==> ps[k] in r
    ensures Seqs.IsSubsequence(r, ps)
  {
    Seqs.FilterIsSubsequence(ps, OnList(listId));
    Seqs.Filter(ps, OnList(listId))
  }

  /**
   * The products of a list are decided one product at a time: the selection of a
   * concatenation is the concatenation of the selections, and a single product is kept
   * exactly when it is on the list. Together these determine the selection completely.
   */
  lemma ProductsByListIdDecomposes(a: seq<Product>, b: seq<Product>, p: Product, listId: string)
    ensures ProductsByListId(a + b, listId) == ProductsByListId(a, listId) + ProductsByListId(b, listId)
    ensures ProductsByListId([p], listId) == if p.listId == listId then [p] else []
  {
    Seqs.FilterAppend(a, b, OnList(listId));
    assert [p][1..] == [];
  }

  /**
   * `deleteProduct(id)`: the first product with the id is spliced out; without one nothing changes.
   * The splice is `Seqs.RemoveFirst`, shared with the other stores' deletions.
   */
  function Deleted(ps: seq<Product>, id: string): (r: seq<Product>)
    ensures var i := Seqs.FindIndex(ps, HasId(id));
      && (i == -1 ==> r == ps)
      && (0 <= i ==> |r| == |ps| - 1 && r == ps[..i] + ps[i + 1..])
  {
    Seqs.SpliceIsRemoveFirst(ps, HasId(id));
    Seqs.RemoveFirst(ps, HasId(id))
  }

  /** `toggleComplete(id)`: the first product with the id flips `completed` and is stamped. */
  function Toggled(ps: seq<Product>, id: string, now: int): (r: seq<Product>)
    ensures var i := Seqs.FindIndex(ps, HasId(id));
      && |r| == |ps|
      && (i == -1 ==> r == ps)
      && (0 <= i ==> r == ps[i := ps[i].(completed := !ps[i].completed, updatedAt := now)])
  {
    Seqs.UpdateFirst(ps, HasId(id), (p: Product) => p.(completed := !p.completed, updatedAt := now))
  }

  /** `updateQuantity(id, quantity)`: only a positive quantity is written, to the first product with the id. */
  function QuantitySet(ps: seq<Product>, id: string, quantity: int, now: int): (r: seq<Product>)
    ensures var i := Seqs.FindIndex(ps, HasId(id));
      && |r| == |ps|
      && (i == -1 || quantity <= 0 ==> r == ps)
      && (0 <= i && quantity > 0 ==> r == ps[i := ps[i].(quantity := quantity, updatedAt := now)])
  {
    if quantity > 0 then Seqs.UpdateFirst(ps, HasId(id), (p: Product) => p.(quantity := quantity, updatedAt := now))
    else ps
  }

  /** `incrementQuantity(id)`: the first product with the id gains exactly one unit. */
  function Incremented(ps: seq<Product>, id: string, now: int): (r: seq<Product>)
    ensures var i := Seqs.FindIndex(ps, HasId(id));
      && |r| == |ps|
      && (i == -1 ==> r == ps)
      && (0 <= i ==> r == ps[i := ps[i].(quantity := ps[i].quantity + 1, updatedAt := now)])
  {
    Seqs.UpdateFirst(ps, HasId(id), (p: Product) => p.(quantity := p.quantity + 1, updatedAt := now))
  }

  /** `decrementQuantity(id)`: the first product with the id loses one unit, unless it has only one. */
  function Decremented(ps: seq<Product>, id: string, now: int): (r: seq<Product>)
    ensures var i := Seqs.FindIndex(ps, HasId(id));
      && |r| == |ps|
      && (i == -1 || ps[i].quantity <= 1 ==> r == ps)
      && (0 <= i && ps[i].quantity > 1 ==> r == ps[i := ps[i].(quantity := ps[i].quantity - 1, updatedAt := now)])
  {
    var i := Seqs.FindIndex(ps, HasId(id));
    if i != -1 && ps[i].quantity > 1 then ps[i := ps[i].(quantity := ps[i].quantity - 1, updatedAt := now)]
    else ps
  }

  /** Two products equal up to their `updatedAt` stamp. */
  predicate SameButStamp(a: Product, b: Product)
  {
    a.(updatedAt := b.updatedAt) == b
  }

  /** Toggling the same product twice restores every flag; only the stamp of that product moves. */
  lemma ToggleTwiceRestores(ps: seq<Product>, id: string, t1: int, t2: int)
    ensures var r := Toggled(Toggled(ps, id, t1), id, t2);
      |r| == |ps| && forall k :: 0 <= k < |ps| ==> SameButStamp(r[k], ps[k])
  {
    var i := Seqs.FindIndex(ps, HasId(id));
    if i != -1 {
      var once := Toggled(ps, id, t1);
      Seqs.FindIndexAfterUpdate(ps, HasId(id), once[i]);
      assert Seqs.FindIndex(once, HasId(id)) == i;
    }
  }

  /** With positive quantities, an increment followed by a decrement restores every quantity. */
  lemma IncrementThenDecrementRestores(ps: seq<Product>, id: string, t1: int, t2: int)
    requires QuantitiesPositive(ps)
    ensures var r := Decremented(Incremented(ps, id, t1), id, t2);
      |r| == |ps| && forall k :: 0 <= k < |ps| ==> SameButStamp(r[k], ps[k])
  {
    var i := Seqs.FindIndex(ps, HasId(id));
    if i != -1 {
      var once := Incremented(ps, id, t1);
      Seqs.FindIndexAfterUpdate(ps, HasId(id), once[i]);
      assert Seqs.FindIndex(once, HasId(id)) == i;
    }
  }

  /** No action takes a quantity below 1: positivity is an invariant of the store. */
  lemma QuantitiesStayPositive(ps: seq<Product>, id: string, quantity: int, now: int, listId: string, name: string)
    requires QuantitiesPositive(ps)
    ensures QuantitiesPositive(ps + [Product(Text.IntToString(now), name, 1, false, listId, now, now)])
    ensures QuantitiesPositive(Deleted(ps, id))
    ensures QuantitiesPositive(Toggled(ps, id, now))
    ensures QuantitiesPositive(QuantitySet(ps, id, quantity, now))
    ensures QuantitiesPositive(Incremented(ps, id, now))
    ensures QuantitiesPositive(Decremented(ps, id, now))
  {
    var i := Seqs.FindIndex(ps, HasId(id));
    if i != -1 {
      var d := Deleted(ps, id);
      forall k | 0 <= k < |d| ensures d[k].quantity >= 1 {
        if k < i { assert d[k] == ps[k]; } else { assert d[k] == ps[k + 1]; }
      }
    }
  }

  /** The store: `products`, changed only by its actions. */
  class Store {
    var products: seq<Product>

    /** Every product has a quantity of at least 1. */
    predicate Valid()
      reads this
    {
      QuantitiesPositive(products)
    }

    constructor(now: int)
      ensures products == Seed(now) && Valid()
    {
      products := Seed(now);
    }

    /** `addProduct(listId, name)`: push a fresh product with quantity 1, not completed, id from the clock. */
    method AddProduct(listId: string, name: string, now: int)
      requires Valid()
      modifies this
      ensures products == old(products) + [Product(Text.IntToString(now), name, 1, false, listId, now, now)]
      ensures Valid()
    {
      var newProduct := Product(Text.IntToString(now), name, 1, false, listId, now, now);
      products := products + [newProduct];
      QuantitiesStayPositive(old(products), "", 0, now, listId, name);
    }

    /** `deleteProduct(id)`: `findIndex`, then `splice(index, 1)` when found. */
    method DeleteProduct(id: string)
      requires Valid()
      modifies this
      ensures products == Deleted(old(products), id)
      ensures Valid()
    {
      var index := Seqs.FindIndex(products, HasId(id));
      if index != -1 {
        products := products[..index] + products[index + 1..];
      }
      QuantitiesStayPositive(old(products), id, 0, 0, "", "");
    }

    /** `toggleComplete(id)`: `find`, then flip `completed` and stamp `updatedAt`. */
    method ToggleComplete(id: string, now: int)
      requires Valid()
      modifies this
      ensures products == Toggled(old(products), id, now)
      ensures Valid()
    {
      var i := Seqs.FindIndex(products, HasId(id));
      if i != -1 {
        products := products[i := products[i].(completed := !products[i].completed, updatedAt := now)];
      }
      QuantitiesStayPositive(old(products), id, 0, now, "", "");
    }

    /** `updateQuantity(id, quantity)`: written only when the product exists and `quantity > 0`. */
    method UpdateQuantity(id: string, quantity: int, now: int)
      requires Valid()
      modifies this
      ensures products == QuantitySet(old(products), id, quantity, now)
      ensures Valid()
    {
      var i := Seqs.FindIndex(products, HasId(id));
      if i != -1 && quantity > 0 {
        products := products[i := products[i].(quantity := quantity, updatedAt := now)];
      }
      QuantitiesStayPositive(old(products), id, quantity, now, "", "");
    }

    /** `incrementQuantity(id)`: `quantity++` on the product found. */
    method IncrementQuantity(id: string, now: int)
      requires Valid()
      modifies this
      ensures products == Incremented(old(products), id, now)
      ensures Valid()
    {
      var i := Seqs.FindIndex(products, HasId(id));
      if i != -1 {
        products := products[i := products[i].(quantity := products[i].quantity + 1, updatedAt := now)];
      }
      QuantitiesStayPositive(old(products), id, 0, now, "", "");
    }

    /** `decrementQuantity(id)`: `quantity--` on the product found, only while it is above 1. */
    method DecrementQuantity(id: string, now: int)
      requires Valid()
      modifies this
      ensures products == Decremented(old(products), id, now)
      ensures Valid()
    {
      var i := Seqs.FindIndex(products, HasId(id));
      if i != -1 && products[i].quantity > 1 {
        products := products[i := products[i].(quantity := products[i].quantity - 1, updatedAt := now)];
      }
      QuantitiesStayPositive(old(products), id, 0, now, "", "");
    }
  }
}
