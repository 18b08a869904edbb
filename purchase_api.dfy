/**
 * `PurchaseApi` and the `Purchase` entity (src/api/purchase.ts): reading past purchases,
 * the `getAll` query, restoring a purchase into a list, and the constructor.
 */
module PurchaseApi {
  import opened Common
  import Client
  import Text
  import CategoryApi
  import ShoppingListApi
  import ListItemApi

  datatype Purchase = Purchase(
    id: int,
    metadata: Option<Metadata>,
    owner: ShoppingListApi.Member,
    list: ShoppingListApi.ShoppingList,
    listItemArray: seq<ListItemApi.ListItem>,
    createdAt: Option<string>)

  const Root: string := "/api/purchases"

  /** `PurchaseApi.getUrl(slug)`. */
  function GetUrl(slug: Option<Slug>): (r: string)
    ensures Text.StartsWith(r, Root)
    ensures !SlugGiven(slug) ==> r == Root
    ensures SlugGiven(slug) ==> r == Root + "/" + SlugText(slug.value)
  {
    Root + SlugSegment(slug)
  }

  /** Distinct truthy ids address distinct purchases. */
  lemma GetUrlInjective(a: int, b: int)
    requires a != 0 && b != 0
    requires GetUrl(Some(NumSlug(a))) == GetUrl(Some(NumSlug(b)))
    ensures a == b
  {
    NumericSegmentInjective(Root, a, b);
  }

  /** `PurchaseApi.get(id)`: a falsy id `0` reads the collection instead of one purchase. */
  function Get(id: int): (r: Client.Request<Purchase>)
    ensures r.verb == Client.GET && r.secure && r.query.None? && r.body.None?
    ensures id != 0 ==> r.path == Root + "/" + Text.IntToString(id)
    ensures id == 0 ==> r.path == Root
  {
    Client.Get(GetUrl(Some(NumSlug(id))), true, None)
  }

  /** The `options` of `PurchaseApi.getAll`; `None` is an option left `undefined`. */
  datatype PurchaseOptions = PurchaseOptions(
    listId: Option<int>,
    page: Option<int>,
    perPage: Option<int>,
    sortBy: Option<string>,
    order: Option<Client.SortOrder>)

  /** Every option left out (`options = {}`). */
  const NoOptions: PurchaseOptions := PurchaseOptions(None, None, None, None, None)

  /** The assignments of `getAll`, in source order. */
  function Candidates(o: PurchaseOptions): (c: seq<Client.Candidate>)
    ensures |c| == 5
  {
    [("list_id", Client.NumEntry(o.listId)),
     ("page", Client.NumEntry(o.page)),
     ("per_page", Client.NumEntry(o.perPage)),
     ("sort_by", Client.StrEntry(o.sortBy)),
     ("order", Client.OrderEntry(o.order))]
  }

  lemma CandidatesDistinct(o: PurchaseOptions)
    ensures Client.DistinctKeys(Candidates(o))
  {
  }

  /** `PurchaseApi.getAll(controller, options)`: five conditional assignments into an empty query object. */
  method GetAll(o: PurchaseOptions) returns (r: Client.Request<CategoryApi.PaginatedResponse<Purchase>>)
    ensures r.verb == Client.GET && r.path == Root && r.secure && r.body.None?
    ensures r.query == Some(Client.Assemble(Candidates(o), 5))
  {
    ghost var c := Candidates(o);
    var queryParams: Client.Query := map[];
    assert queryParams == Client.Assemble(c, 0);
    queryParams := Client.Include(queryParams, "list_id", Client.NumEntry(o.listId));
    assert queryParams == Client.Assemble(c, 1);
    queryParams := Client.Include(queryParams, "page", Client.NumEntry(o.page));
    assert queryParams == Client.Assemble(c, 2);
    queryParams := Client.Include(queryParams, "per_page", Client.NumEntry(o.perPage));
    assert queryParams == Client.Assemble(c, 3);
    queryParams := Client.Include(queryParams, "sort_by", Client.StrEntry(o.sortBy));
    assert queryParams == Client.Assemble(c, 4);
    queryParams := Client.Include(queryParams, "order", Client.OrderEntry(o.order));
    assert queryParams == Client.Assemble(c, 5);
    r := Client.Get(GetUrl(None), true, Some(queryParams));
  }

  /** Each key is in the query exactly when its option is defined, as given; nothing is defaulted. */
  lemma GetAllKeys(o: PurchaseOptions)
    ensures var q := Client.Assemble(Candidates(o), 5);
      && Client.Carries(q, "list_id", Client.NumEntry(o.listId))
      && Client.Carries(q, "page", Client.NumEntry(o.page))
      && Client.Carries(q, "per_page", Client.NumEntry(o.perPage))
      && Client.Carries(q, "sort_by", Client.StrEntry(o.sortBy))
      && Client.Carries(q, "order", Client.OrderEntry(o.order))
      && q.Keys <= {"list_id", "page", "per_page", "sort_by", "order"}
  {
    var c := Candidates(o);
    var q := Client.Assemble(c, 5);
    CandidatesDistinct(o);
    for i := 0 to 5
      invariant forall j :: 0 <= j < i ==> Client.Carries(q, c[j].0, c[j].1)
    {
      Client.AssembleCarries(c, 5, i);
    }
    forall k | k in q
      ensures k in {"list_id", "page", "per_page", "sort_by", "order"}
    {
      Client.AssembleOnlyCandidates(c, 5, k);
    }
  }

  /** Without options the query object is empty. */
  lemma GetAllNoOptions()
    ensures Client.Assemble(Candidates(NoOptions), 5) == map[]
  {
  }

  /** `restore(id)`: POST to `/<id>/restore` with no body and no query. */
  function Restore(id: int): (r: Client.Request<ShoppingListApi.ShoppingList>)
    ensures r.verb == Client.POST && r.secure && r.query.None? && r.body.None?
    ensures r.path == SubPath(Root, id, "restore")
  {
    Client.Post(GetUrl(Some(TextSlug(Text.IntToString(id) + "/restore"))), true, None, None)
  }

  /** Restoring distinct purchases targets distinct paths. */
  lemma RestoreInjective(a: int, b: int)
    requires Restore(a).path == Restore(b).path
    ensures a == b
  {
    SubPathInjective(Root, a, "restore", b, "restore");
  }

  /** `new Purchase(id, owner, list, listItemArray, metadata, createdAt)`: every argument stored as given. */
  function NewPurchase(
    id: int, owner: ShoppingListApi.Member, list: ShoppingListApi.ShoppingList,
    listItemArray: seq<ListItemApi.ListItem>, metadata: Option<Metadata>, createdAt: Option<string>): (p: Purchase)
    ensures p.id == id && p.owner == owner && p.list == list
    ensures p.listItemArray == listItemArray && p.metadata == metadata && p.createdAt == createdAt
  {
    Purchase(id, metadata, owner, list, listItemArray, createdAt)
  }

  /** Unlike the other constructors, the id is kept even when it is `0`, and no default is filled in. */
  lemma NewPurchaseKeepsEveryField(p: Purchase)
    ensures NewPurchase(p.id, p.owner, p.list, p.listItemArray, p.metadata, p.createdAt) == p
  {
  }
}
