/**
 * `ProductApi` and the `Product` entity (src/api/product.ts): record and collection requests,
 * the `getAll` query and the constructor defaults.
 */
module ProductApi {
  import opened Common
  import Client
  import Text
  import CategoryApi

  /** The `Pantry` a product may belong to. */
  datatype Pantry = Pantry(id: int, name: string, metadata: Option<Metadata>, createdAt: Option<string>, updatedAt: Option<string>)

  /** `category: { id: number } | Category`. */
  datatype ProductCategory = CategoryRef(id: int) | FullCategory(category: CategoryApi.Category)

  datatype Product = Product(
    id: Option<int>,
    name: string,
    category: ProductCategory,
    pantryId: Option<int>,
    metadata: Option<Metadata>,
    createdAt: Option<string>,
    updatedAt: Option<string>,
    pantry: Option<Pantry>)

  const Root: string := "/api/products"

  /** `ProductApi.getUrl(slug)`. */
  function GetUrl(slug: Option<Slug>): (r: string)
    ensures Text.StartsWith(r, Root)
    ensures !SlugGiven(slug) ==> r == Root
    ensures SlugGiven(slug) ==> r == Root + "/" + SlugText(slug.value)
  {
    Root + SlugSegment(slug)
  }

  /** Distinct truthy ids address distinct products. */
  lemma GetUrlInjective(a: int, b: int)
    requires a != 0 && b != 0
    requires GetUrl(Some(NumSlug(a))) == GetUrl(Some(NumSlug(b)))
    ensures a == b
  {
    NumericSegmentInjective(Root, a, b);
  }

  function Add(p: Product): (r: Client.Request<Product>)
    ensures r.verb == Client.POST && r.path == Root && r.secure
    ensures r.query.None? && r.body == Some(p)
  {
    Client.Post(GetUrl(None), true, Some(p), None)
  }

  /** `modify` PUTs the product to `getUrl(product.id)`. */
  function Modify(p: Product): (r: Client.Request<Product>)
    ensures r.verb == Client.PUT && r.secure && r.query.None? && r.body == Some(p)
    ensures IdTruthy(p.id) ==> r.path == Root + "/" + Text.IntToString(p.id.value)
    ensures !IdTruthy(p.id) ==> r.path == Root
  {
    Client.Put(GetUrl(IdSlug(p.id)), true, Some(p))
  }

  /** `remove` DELETEs `getUrl(id)`. */
  function Remove(id: int): (r: Client.Request<Product>)
    ensures r.verb == Client.DELETE && r.secure && r.query.None? && r.body.None?
    ensures id != 0 ==> r.path == Root + "/" + Text.IntToString(id)
    ensures id == 0 ==> r.path == Root
  {
    Client.Delete(GetUrl(Some(NumSlug(id))), true)
  }

  function Get(id: int): (r: Client.Request<Product>)
    ensures r.verb == Client.GET && r.secure && r.query.None? && r.body.None?
    ensures id != 0 ==> r.path == Root + "/" + Text.IntToString(id)
    ensures id == 0 ==> r.path == Root
  {
    Client.Get(GetUrl(Some(NumSlug(id))), true, None)
  }

  /** A product sent by `modify` goes to the same URL `remove` and `get` use for its id. */
  lemma ModifyTargetsRecord(p: Product)
    requires p.id.Some?
    ensures Modify(p).path == Remove(p.id.value).path == Get(p.id.value).path
  {
  }

  /** The `options` of `ProductApi.getAll`; `None` is an option left `undefined`. */
  datatype ProductOptions = ProductOptions(
    page: Option<int>,
    perPage: Option<int>,
    sortBy: Option<string>,
    order: Option<Client.SortOrder>,
    name: Option<string>,
    categoryId: Option<int>,
    pantryId: Option<int>)

  /** The assignments of `getAll`, in source order. */
  function Candidates(o: ProductOptions): (c: seq<Client.Candidate>)
    ensures |c| == 7
  {
    [("page", Client.NumEntry(o.page)),
     ("per_page", Client.NumEntry(o.perPage)),
     ("sort_by", Client.StrEntry(o.sortBy)),
     ("order", Client.OrderEntry(o.order)),
     ("name", Client.StrEntry(o.name)),
     ("category_id", Client.NumEntry(o.categoryId)),
     ("pantry_id", Client.NumEntry(o.pantryId))]
  }

  lemma CandidatesDistinct(o: ProductOptions)
    ensures Client.DistinctKeys(Candidates(o))
  {
  }

  /** `ProductApi.getAll`: seven conditional assignments into an empty query object. */
  method GetAll(o: ProductOptions) returns (r: Client.Request<CategoryApi.PaginatedResponse<Product>>)
    ensures r.verb == Client.GET && r.path == Root && r.secure && r.body.None?
    ensures r.query == Some(Client.Assemble(Candidates(o), 7))
  {
    ghost var c := Candidates(o);
    var queryParams: Client.Query := map[];
    assert queryParams == Client.Assemble(c, 0);
    queryParams := Client.Include(queryParams, "page", Client.NumEntry(o.page));
    assert queryParams == Client.Assemble(c, 1);
    queryParams := Client.Include(queryParams, "per_page", Client.NumEntry(o.perPage));
    assert queryParams == Client.Assemble(c, 2);
    queryParams := Client.Include(queryParams, "sort_by", Client.StrEntry(o.sortBy));
    assert queryParams == Client.Assemble(c, 3);
    queryParams := Client.Include(queryParams, "order", Client.OrderEntry(o.order));
    assert queryParams == Client.Assemble(c, 4);
    queryParams := Client.Include(queryParams, "name", Client.StrEntry(o.name));
    assert queryParams == Client.Assemble(c, 5);
    queryParams := Client.Include(queryParams, "category_id", Client.NumEntry(o.categoryId));
    assert queryParams == Client.Assemble(c, 6);
    queryParams := Client.Include(queryParams, "pantry_id", Client.NumEntry(o.pantryId));
    assert queryParams == Client.Assemble(c, 7);
    r := Client.Get(GetUrl(None), true, Some(queryParams));
  }

  /** Each key is in the query exactly when its option is defined, as given; nothing is defaulted. */
  lemma GetAllKeys(o: ProductOptions)
    ensures var q := Client.Assemble(Candidates(o), 7);
      && Client.Carries(q, "page", Client.NumEntry(o.page))
      && Client.Carries(q, "per_page", Client.NumEntry(o.perPage))
      && Client.Carries(q, "sort_by", Client.StrEntry(o.sortBy))
      && Client.Carries(q, "order", Client.OrderEntry(o.order))
      && Client.Carries(q, "name", Client.StrEntry(o.name))
      && Client.Carries(q, "category_id", Client.NumEntry(o.categoryId))
      && Client.Carries(q, "pantry_id", Client.NumEntry(o.pantryId))
      && q.Keys <= {"page", "per_page", "sort_by", "order", "name", "category_id", "pantry_id"}
  {
    var c := Candidates(o);
    var q := Client.Assemble(c, 7);
    CandidatesDistinct(o);
    for i := 0 to 7
      invariant forall j :: 0 <= j < i ==> Client.Carries(q, c[j].0, c[j].1)
    {
      Client.AssembleCarries(c, 7, i);
    }
    forall k | k in q
      ensures k in {"page", "per_page", "sort_by", "order", "name", "category_id", "pantry_id"}
    {
      Client.AssembleOnlyCandidates(c, 7, k);
    }
  }

  /** A `category_id` of 0 is defined, so it is assigned and reaches the URL as `"0"`. */
  lemma GetAllSendsZeroCategory(o: ProductOptions)
    requires o.categoryId == Some(0)
    ensures var s := Client.SearchParams(Client.Assemble(Candidates(o), 7));
      "category_id" in s && s["category_id"] == "0"
  {
    CandidatesDistinct(o);
    Client.AssembledInUrl(Candidates(o), 5);
  }

  /** `new Product(name, category, id, pantry_id, metadata, ...)`. */
  function NewProduct(
    name: string, category: ProductCategory, id: Option<int>, pantryId: Option<int>,
    metadata: Option<Metadata>, createdAt: Option<string>, updatedAt: Option<string>,
    pantry: Option<Pantry>): (p: Product)
    ensures p.id.Some? <==> IdTruthy(id)
    ensures p.id.Some? ==> p.id == id
    ensures p.metadata == Some(OrDefault(metadata, map[]))
    ensures p.name == name && p.category == category && p.pantryId == pantryId
    ensures p.createdAt == createdAt && p.updatedAt == updatedAt && p.pantry == pantry
  {
    Product(KeepTruthyId(id), name, category, pantryId, Some(OrDefault(metadata, map[])), createdAt, updatedAt, pantry)
  }

  /** The shape every constructed product has. */
  predicate Normalized(p: Product)
  {
    p.id != Some(0) && p.metadata.Some?
  }

  /** Rebuilding a product from its own fields changes nothing exactly when it is already normalised. */
  lemma NewProductFixedPoint(p: Product)
    ensures NewProduct(p.name, p.category, p.id, p.pantryId, p.metadata, p.createdAt, p.updatedAt, p.pantry) == p
            <==> Normalized(p)
  {
  }
}
