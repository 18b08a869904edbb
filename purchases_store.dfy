/**
 * The purchases store (src/stores/purchases.ts): the purchase history loaded from the
 * server, a loading flag, and the purchases of one list.
 */
module PurchasesStore {
  import opened Common
  import Seqs
  import Client
  import CategoryApi
  import PurchaseApi
  import ShoppingListApi
  import ListItemApi

  /** A purchase as the server returns it; the list it was made from is embedded. */
  datatype Purchase = Purchase(
    id: int,
    metadata: Option<Metadata>,
    owner: Option<ShoppingListApi.Member>,
    list: ShoppingListApi.ShoppingList,
    items: seq<ListItemApi.ListItem>,
    createdAt: Option<string>,
    updatedAt: Option<string>)

  /** `mapPurchase(data)`: the data is kept as it came from the server. */
  function MapPurchase(p: Purchase): Purchase
  {
    p
  }

  /** `result.data.map(mapPurchase)`. */
  function MapAll(data: seq<Purchase>): (r: seq<Purchase>)
    ensures |r| == |data|
  {
    seq(|data|, i requires 0 <= i < |data| => MapPurchase(data[i]))
  }

  /** Mapping a page changes nothing: the store holds exactly the server's `data`. */
  lemma MapAllIsIdentity(data: seq<Purchase>)
    ensures MapAll(data) == data
  {
  }

  /** `(p) => p.list.id === listId`. */
  function OfList(listId: int): Purchase -> bool
  {
    (p: Purchase) => p.list.id == Some(listId)
  }

  /** `getPurchasesByListId(listId)`: the purchases made from one list, in store order, and only those. */
  function PurchasesByListId(ps: seq<Purchase>, listId: int): (r: seq<Purchase>)
    ensures forall k :: 0 <= k < |r| ==> r[k].list.id == Some(listId)
    ensures forall k :: 0 <= k < |ps| && ps[k].list.id == Some(listId) ==> ps[k] in r
    ensures Seqs.IsSubsequence(r, ps)
  {
    Seqs.FilterIsSubsequence(ps, OfList(listId));
    Seqs.Filter(ps, OfList(listId))
  }

  /** The selection is decided purchase by purchase, so it distributes over concatenation. */
  lemma PurchasesByListIdAppend(a: seq<Purchase>, b: seq<Purchase>, listId: int)
    ensures PurchasesByListId(a + b, listId) == PurchasesByListId(a, listId) + PurchasesByListId(b, listId)
  {
    Seqs.FilterAppend(a, b, OfList(listId));
  }

  /** The store: `purchases` and `loading`. */
  class Store {
    var purchases: seq<Purchase>
    var loading: bool

    constructor()
      ensures purchases == [] && !loading
    {
      purchases := [];
      loading := false;
    }

    /**
     * `fetchPurchases(params)`: the request `PurchaseApi.getAll` sends, and how the store settles
     * given what it answered (`outcome`). On success the list is replaced by the page's `data`
     * and returned; on failure the error propagates and the list keeps its old value. Either way
     * `loading` ends false.
     */
    method FetchPurchases(params: Option<PurchaseApi.PurchaseOptions>,
                          outcome: Result<CategoryApi.PaginatedResponse<Purchase>, Client.ApiError>)
      returns (request: Client.Request<CategoryApi.PaginatedResponse<PurchaseApi.Purchase>>,
               result: Result<seq<Purchase>, Client.ApiError>)
      modifies this
      ensures request.verb == Client.GET && request.path == PurchaseApi.Root && request.secure
      ensures request.query == Some(Client.Assemble(PurchaseApi.Candidates(OrDefault(params, PurchaseApi.NoOptions)), 5))
      ensures !loading
      ensures outcome.Ok? ==> purchases == outcome.value.data && result == Ok(outcome.value.data)
      ensures outcome.Err? ==> purchases == old(purchases) && result == Err(outcome.error)
    {
      loading := true;
      request := PurchaseApi.GetAll(OrDefault(params, PurchaseApi.NoOptions));
      match outcome {
        case Ok(page) =>
          purchases := MapAll(page.data);
          MapAllIsIdentity(page.data);
          result := Ok(purchases);
        case Err(e) =>
          result := Err(e);
      }
      loading := false;
    }
  }
}
