/**
 * `ListItemApi` and the `ListItem` entity (src/api/listItem.ts): the items of one shopping
 * list, the bodies of `add`, `modify`, `setPurchased` and `updateQuantity`, the `getAll`
 * query and the constructor defaults.
 */
module ListItemApi {
  import opened Common
  import Client
  import Text
  import CategoryApi
  import ProductApi

  datatype ListItem = ListItem(
    id: Option<int>,
    quantity: int,
    unit: string,
    metadata: Option<Metadata>,
    purchased: bool,
    lastPurchasedAt: Option<string>,
    createdAt: Option<string>,
    updatedAt: Option<string>,
    product: ProductApi.Product)

  /** The bodies the endpoints send. */
  datatype ItemBody =
    | NewItem(productId: int, quantity: int, unit: string)      // `{ product: { id }, quantity, unit }`
    | ItemChange(quantity: int, unit: string)                    // `{ quantity, unit }`
    | PurchasedFlag(purchased: bool)                             // `{ purchased }`
    | QuantityChange(quantity: int, maybeUnit: Option<string>)      // `{ quantity, ...(unit ? { unit } : {}) }`

  /** The items collection of list `listId`. */
  function ItemsRoot(listId: int): string
  {
    SubPath("/api/shopping-lists", listId, "items")
  }

  /** `ListItemApi.getUrl(listId, itemId)`: the list id is always rendered, the item id only when truthy. */
  function GetUrl(listId: int, itemId: Option<int>): (r: string)
    ensures Text.StartsWith(r, ItemsRoot(listId))
    ensures !IdTruthy(itemId) ==> r == ItemsRoot(listId)
    ensures IdTruthy(itemId) ==> r == ItemsRoot(listId) + "/" + Text.IntToString(itemId.value)
  {
    ItemsRoot(listId) + SlugSegment(IdSlug(itemId))
  }

  /** An item URL names exactly one list and one item. */
  lemma GetUrlInjective(list1: int, item1: int, list2: int, item2: int)
    requires item1 != 0 && item2 != 0
    requires GetUrl(list1, Some(item1)) == GetUrl(list2, Some(item2))
    ensures list1 == list2 && item1 == item2
  {
    var root := "/api/shopping-lists";
    var s1, s2 := Text.IntToString(item1), Text.IntToString(item2);
    ItemUrlIsSubPath(list1, item1);
    ItemUrlIsSubPath(list2, item2);
    SubPathInjective(root, list1, "items/" + s1, list2, "items/" + s2);
    assert ("items/" + s1)[6..] == s1;
    assert ("items/" + s2)[6..] == s2;
    Text.IntToStringInjective(item1, item2);
  }

  /** An item URL is the sub-path `items/<itemId>` of its list. */
  lemma ItemUrlIsSubPath(listId: int, itemId: int)
    requires itemId != 0
    ensures GetUrl(listId, Some(itemId)) == SubPath("/api/shopping-lists", listId, "items/" + Text.IntToString(itemId))
  {
    var tail := "/" + Text.IntToString(itemId);
    assert GetUrl(listId, Some(itemId)) == ItemsRoot(listId) + tail;
    SubPathExtend("/api/shopping-lists", listId, "items", tail);
    assert "items" + tail == "items/" + Text.IntToString(itemId);
  }

  /** The collection URLs of distinct lists are distinct. */
  lemma ItemsRootInjective(list1: int, list2: int)
    requires ItemsRoot(list1) == ItemsRoot(list2)
    ensures list1 == list2
  {
    SubPathInjective("/api/shopping-lists", list1, "items", list2, "items");
  }

  /** `add(listId, productId, quantity = 1, unit = 'unit')`. */
  function Add(listId: int, productId: int, quantity: Option<int>, unit: Option<string>): (r: Client.Request<ItemBody>)
    ensures r.verb == Client.POST && r.path == ItemsRoot(listId) && r.secure && r.query.None?
    ensures r.body == Some(NewItem(productId, OrDefault(quantity, 1), OrDefault(unit, "unit")))
  {
    Client.Post(GetUrl(listId, None), true, Some(NewItem(productId, OrDefault(quantity, 1), OrDefault(unit, "unit"))), None)
  }

  /** Left out, quantity and unit default to one `unit`; given ones, even `0` or `''`, are kept. */
  lemma AddDefaults(listId: int, productId: int)
    ensures Add(listId, productId, None, None).body == Some(NewItem(productId, 1, "unit"))
    ensures Add(listId, productId, Some(0), Some("")).body == Some(NewItem(productId, 0, ""))
  {
  }

  /** `modify(listId, item)`: PUT only `{ quantity, unit }` to the item's URL. */
  function Modify(listId: int, item: ListItem): (r: Client.Request<ItemBody>)
    ensures r.verb == Client.PUT && r.secure && r.query.None?
    ensures r.path == GetUrl(listId, item.id)
    ensures r.body == Some(ItemChange(item.quantity, item.unit))
  {
    Client.Put(GetUrl(listId, item.id), true, Some(ItemChange(item.quantity, item.unit)))
  }

  /** Only the id, quantity and unit of an item reach the `modify` request. */
  lemma ModifySendsOnlyQuantityAndUnit(listId: int, a: ListItem, b: ListItem)
    requires a.id == b.id && a.quantity == b.quantity && a.unit == b.unit
    ensures Modify(listId, a) == Modify(listId, b)
  {
  }

  function Remove(listId: int, itemId: int): (r: Client.Request<ItemBody>)
    ensures r.verb == Client.DELETE && r.secure && r.query.None? && r.body.None?
    ensures r.path == GetUrl(listId, Some(itemId))
  {
    Client.Delete(GetUrl(listId, Some(itemId)), true)
  }

  function Get(listId: int, itemId: int): (r: Client.Request<ItemBody>)
    ensures r.verb == Client.GET && r.secure && r.query.None? && r.body.None?
    ensures r.path == GetUrl(listId, Some(itemId))
  {
    Client.Get(GetUrl(listId, Some(itemId)), true, None)
  }

  /** `setPurchased(listId, itemId, purchased)`: PATCH `{ purchased }`. */
  function SetPurchased(listId: int, itemId: int, purchased: bool): (r: Client.Request<ItemBody>)
    ensures r.verb == Client.PATCH && r.secure && r.query.None?
    ensures r.path == GetUrl(listId, Some(itemId))
    ensures r.body == Some(PurchasedFlag(purchased))
  {
    Client.Patch(GetUrl(listId, Some(itemId)), true, Some(PurchasedFlag(purchased)))
  }

  /** `updateQuantity(listId, itemId, quantity, unit)`: PUT the quantity, and the unit only when truthy. */
  function UpdateQuantity(listId: int, itemId: int, quantity: int, unit: Option<string>): (r: Client.Request<ItemBody>)
    ensures r.verb == Client.PUT && r.secure && r.query.None?
    ensures r.path == GetUrl(listId, Some(itemId))
    ensures r.body.Some? && r.body.value.QuantityChange? && r.body.value.quantity == quantity
    ensures r.body.value.maybeUnit.Some? <==> TextTruthy(unit)
    ensures r.body.value.maybeUnit.Some? ==> r.body.value.maybeUnit == unit
  {
    Client.Put(GetUrl(listId, Some(itemId)), true, Some(QuantityChange(quantity, if TextTruthy(unit) then unit else None)))
  }

  /** `updateQuantity` reaches the same URL as `modify` of that item, but never sends `unit: ''`. */
  lemma UpdateQuantityLikeModify(listId: int, item: ListItem)
    requires item.id.Some? && item.id.value != 0
    ensures UpdateQuantity(listId, item.id.value, item.quantity, Some(item.unit)).path == Modify(listId, item).path
    ensures item.unit == "" ==> UpdateQuantity(listId, item.id.value, item.quantity, Some(item.unit)).body
                                == Some(QuantityChange(item.quantity, None))
  {
  }

  /** The `options` of `ListItemApi.getAll`; `None` is an option left `undefined`. */
  datatype ItemOptions = ItemOptions(
    page: Option<int>,
    perPage: Option<int>,
    sortBy: Option<string>,
    order: Option<Client.SortOrder>,
    purchased: Option<bool>)

  /** The assignments of `getAll`, in source order. */
  function Candidates(o: ItemOptions): (c: seq<Client.Candidate>)
    ensures |c| == 5
  {
    [("page", Client.NumEntry(o.page)),
     ("per_page", Client.NumEntry(o.perPage)),
     ("sort_by", Client.StrEntry(o.sortBy)),
     ("order", Client.OrderEntry(o.order)),
     ("purchased", Client.BoolEntry(o.purchased))]
  }

  lemma CandidatesDistinct(o: ItemOptions)
    ensures Client.DistinctKeys(Candidates(o))
  {
  }

  /** `ListItemApi.getAll(listId, controller, options)`: five conditional assignments. */
  method GetAll(listId: int, o: ItemOptions) returns (r: Client.Request<CategoryApi.PaginatedResponse<ListItem>>)
    ensures r.verb == Client.GET && r.path == ItemsRoot(listId) && r.secure && r.body.None?
    ensures r.query == Some(Client.Assemble(Candidates(o), 5))
  {
    ghost var c := Candidates(o);
    var queryParams: Client.Query := map[];
    assert queryParams == Client.Assemble(c, 0);
    queryParams := Client.Include(queryParams, "page", Client.NumEntry(o.page));
    assert queryParams == Client.Assemble(c, 1);
    queryParams := Client.Include(queryParams, "per_page", Client.NumEntry(o.perPage));
    assert queryParams == Client.Assemble(c, 2);
    queryParams := Client.Include(queryParams, "sort_by", Client.StrEntry(o.sortBy));
    assert queryParams == Client.Assemble(c, 3);
    queryParams := Client.Include(queryParams, "order", Client.OrderEntry(o.order));
    assert queryParams == Client.Assemble(c, 4);
    queryParams := Client.Include(queryParams, "purchased", Client.BoolEntry(o.purchased));
    assert queryParams == Client.Assemble(c, 5);
    r := Client.Get(GetUrl(listId, None), true, Some(queryParams));
  }

  /** Each key is in the query exactly when its option is defined, as given; nothing is defaulted. */
  lemma GetAllKeys(o: ItemOptions)
    ensures var q := Client.Assemble(Candidates(o), 5);
      && Client.Carries(q, "page", Client.NumEntry(o.page))
      && Client.Carries(q, "per_page", Client.NumEntry(o.perPage))
      && Client.Carries(q, "sort_by", Client.StrEntry(o.sortBy))
      && Client.Carries(q, "order", Client.OrderEntry(o.order))
      && Client.Carries(q, "purchased", Client.BoolEntry(o.purchased))
      && q.Keys <= {"page", "per_page", "sort_by", "order", "purchased"}
  {
    var c := Candidates(o);
    var q := Client.Assemble(c, 5);
    CandidatesDistinct(o);
    for i := 0 to 5
      invariant forall j :: 0 <= j < i ==> Client.Carries(q, c[j].0, c[j].1)
    {
      Client.AssembleCarries(c, 5, i);
    }
    forall k | k in q
      ensures k in {"page", "per_page", "sort_by", "order", "purchased"}
    {
      Client.AssembleOnlyCandidates(c, 5, k);
    }
  }

  /** `purchased: false` is defined, so the URL asks for `purchased=false`. */
  lemma GetAllSendsUnpurchasedFilter(o: ItemOptions)
    requires o.purchased == Some(false)
    ensures var s := Client.SearchParams(Client.Assemble(Candidates(o), 5));
      "purchased" in s && s["purchased"] == "false"
  {
    CandidatesDistinct(o);
    Client.AssembledInUrl(Candidates(o), 4);
  }

  /** `new ListItem(quantity, unit, product, id, purchased = false, metadata, ...)`: `metadata` has no default. */
  function NewListItem(
    quantity: int, unit: string, product: ProductApi.Product, id: Option<int>, purchased: Option<bool>,
    metadata: Option<Metadata>, lastPurchasedAt: Option<string>, createdAt: Option<string>,
    updatedAt: Option<string>): (i: ListItem)
    ensures i.id.Some? <==> IdTruthy(id)
    ensures i.id.Some? ==> i.id == id
    ensures i.purchased == (purchased == Some(true))
    ensures i.metadata == metadata
    ensures i.quantity == quantity && i.unit == unit && i.product == product
    ensures i.lastPurchasedAt == lastPurchasedAt && i.createdAt == createdAt && i.updatedAt == updatedAt
  {
    ListItem(KeepTruthyId(id), quantity, unit, metadata, OrDefault(purchased, false),
             lastPurchasedAt, createdAt, updatedAt, product)
  }

  /** Rebuilding an item from its own fields changes nothing exactly when its id is not the falsy `0`. */
  lemma NewListItemFixedPoint(i: ListItem)
    ensures NewListItem(i.quantity, i.unit, i.product, i.id, Some(i.purchased), i.metadata,
                        i.lastPurchasedAt, i.createdAt, i.updatedAt) == i
            <==> i.id != Some(0)
  {
  }
}
