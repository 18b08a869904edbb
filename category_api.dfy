/**
 * `CategoryApi` and the `Category` entity (src/api/category.ts): the requests each endpoint
 * method hands to the client, and the defaults the constructor fills in.
 */
module CategoryApi {
  import opened Common
  import Client
  import Text

  /** The `pagination` block of a paginated answer. */
  datatype Pagination = Pagination(page: int, perPage: int, total: int, totalPages: int, hasPrev: bool, hasNext: bool)

  /** `PaginatedResponse<T>`, shared by every `getAll`. */
  datatype PaginatedResponse<T> = PaginatedResponse(data: seq<T>, pagination: Option<Pagination>)

  datatype Category = Category(
    id: Option<int>,
    name: string,
    metadata: Option<Metadata>,
    createdAt: Option<string>,
    updatedAt: Option<string>)

  const Root: string := "/api/categories"

  /** `CategoryApi.getUrl(slug, query)`. */
  function GetUrl(slug: Option<Slug>, query: Option<string>): (r: string)
    ensures Text.StartsWith(r, Root)
    ensures !SlugGiven(slug) && !TextTruthy(query) ==> r == Root
    ensures SlugGiven(slug) && !TextTruthy(query) ==> r == Root + "/" + SlugText(slug.value)
    ensures TextTruthy(query) ==> r == Root + SlugSegment(slug) + "?" + query.value
  {
    Root + SlugSegment(slug) + QuerySuffix(query)
  }

  /** Distinct truthy ids address distinct categories. */
  lemma GetUrlInjective(a: int, b: int)
    requires a != 0 && b != 0
    requires GetUrl(Some(NumSlug(a)), None) == GetUrl(Some(NumSlug(b)), None)
    ensures a == b
  {
    assert GetUrl(Some(NumSlug(a)), None) == Root + SlugSegment(Some(NumSlug(a)));
    assert GetUrl(Some(NumSlug(b)), None) == Root + SlugSegment(Some(NumSlug(b)));
    NumericSegmentInjective(Root, a, b);
  }

  /** `CategoryApi.add`: POST the category to the collection. */
  function Add(c: Category): (r: Client.Request<Category>)
    ensures r.verb == Client.POST && r.path == Root && r.secure
    ensures r.query.None? && r.body == Some(c)
  {
    Client.Post(GetUrl(None, None), true, Some(c), None)
  }

  /** `CategoryApi.modify`: PUT the category to `getUrl(category.id)`; without a truthy id that is the collection. */
  function Modify(c: Category): (r: Client.Request<Category>)
    ensures r.verb == Client.PUT && r.secure && r.query.None? && r.body == Some(c)
    ensures IdTruthy(c.id) ==> r.path == Root + "/" + Text.IntToString(c.id.value)
    ensures !IdTruthy(c.id) ==> r.path == Root
  {
    Client.Put(GetUrl(IdSlug(c.id), None), true, Some(c))
  }

  /** `CategoryApi.remove`. */
  function Remove(id: int): (r: Client.Request<Category>)
    ensures r.verb == Client.DELETE && r.secure && r.query.None? && r.body.None?
    ensures id != 0 ==> r.path == Root + "/" + Text.IntToString(id)
    ensures id == 0 ==> r.path == Root
  {
    Client.Delete(GetUrl(Some(NumSlug(id)), None), true)
  }

  /** `CategoryApi.get`. */
  function Get(id: int): (r: Client.Request<Category>)
    ensures r.verb == Client.GET && r.secure && r.query.None? && r.body.None?
    ensures id != 0 ==> r.path == Root + "/" + Text.IntToString(id)
    ensures id == 0 ==> r.path == Root
  {
    Client.Get(GetUrl(Some(NumSlug(id)), None), true, None)
  }

  /** The `options` of `CategoryApi.getAll`; `None` is an option left `undefined`. */
  datatype CategoryOptions = CategoryOptions(
    page: Option<int>,
    perPage: Option<int>,
    sortBy: Option<string>,
    order: Option<Client.SortOrder>,
    name: Option<string>)

  /** Every option left out. */
  const NoOptions: CategoryOptions := CategoryOptions(None, None, None, None, None)

  /**
   * The query `getAll` sends: the four paging entries, each the option or its default
   * (page 1, 10 per page, sorted by `createdAt`, `DESC`), and `name` only when it is truthy.
   */
  function GetAllQuery(o: CategoryOptions): (q: Client.Query)
  {
    var paging := map[
      "page" := Client.Num(OrDefault(o.page, 1)),
      "per_page" := Client.Num(OrDefault(o.perPage, 10)),
      "sort_by" := Client.Str(OrDefault(o.sortBy, "createdAt")),
      "order" := Client.Str(Client.OrderText(OrDefault(o.order, Client.DESC)))];
    if TextTruthy(o.name) then paging["name" := Client.Str(o.name.value)] else paging
  }

  /** `CategoryApi.getAll(controller, options)`: destructure with defaults, then add `name` if truthy. */
  method GetAll(o: CategoryOptions) returns (r: Client.Request<PaginatedResponse<Category>>)
    ensures r.verb == Client.GET && r.path == Root && r.secure && r.body.None?
    ensures r.query == Some(GetAllQuery(o))
  {
    var page := OrDefault(o.page, 1);
    var perPage := OrDefault(o.perPage, 10);
    var sortBy := OrDefault(o.sortBy, "createdAt");
    var order := OrDefault(o.order, Client.DESC);
    var queryParams: Client.Query := map[
      "page" := Client.Num(page),
      "per_page" := Client.Num(perPage),
      "sort_by" := Client.Str(sortBy),
      "order" := Client.Str(Client.OrderText(order))];
    if TextTruthy(o.name) {
      queryParams := queryParams["name" := Client.Str(o.name.value)];
    }
    r := Client.Get(GetUrl(None, None), true, Some(queryParams));
  }

  /** Without options, `getAll` asks for page 1 of 10, newest `createdAt` first. */
  lemma GetAllDefaults()
    ensures Client.SearchParams(GetAllQuery(NoOptions))
      == map["page" := "1", "per_page" := "10", "sort_by" := "createdAt", "order" := "DESC"]
  {
    assert Text.IntToString(1) == "1";
    assert Text.IntToString(10) == Text.NatToString(1) + [Text.DigitChar(0)] == "10";
  }

  /** The four paging keys are always sent; `name` is sent exactly when it is truthy, as given. */
  lemma GetAllKeys(o: CategoryOptions)
    ensures var q := GetAllQuery(o);
      && {"page", "per_page", "sort_by", "order"} <= q.Keys
      && ("name" in q <==> TextTruthy(o.name))
      && ("name" in q ==> q["name"] == Client.Str(o.name.value))
      && q.Keys <= {"page", "per_page", "sort_by", "order", "name"}
  {
  }

  /** An option that is given wins over its default. */
  lemma GetAllUsesGivenOptions(o: CategoryOptions)
    ensures o.page.Some? ==> GetAllQuery(o)["page"] == Client.Num(o.page.value)
    ensures o.perPage.Some? ==> GetAllQuery(o)["per_page"] == Client.Num(o.perPage.value)
    ensures o.sortBy.Some? ==> GetAllQuery(o)["sort_by"] == Client.Str(o.sortBy.value)
    ensures o.order.Some? ==> GetAllQuery(o)["order"] == Client.Str(Client.OrderText(o.order.value))
  {
  }

  /** `CategoryApi.getByName(name)`: always the query `{ name }`. */
  function GetByName(name: string): (r: Client.Request<PaginatedResponse<Category>>)
    ensures r.verb == Client.GET && r.path == Root && r.secure && r.body.None?
    ensures r.query == Some(map["name" := Client.Str(name)])
  {
    Client.Get(GetUrl(None, None), true, Some(map["name" := Client.Str(name)]))
  }

  /** `getByName('')` puts `name` in the query object, but `buildUrl` drops it: the URL has no filter. */
  lemma GetByNameEmpty(name: string)
    ensures name == "" ==> Client.SearchParams(GetByName(name).query.value) == map[]
    ensures name != "" ==> Client.SearchParams(GetByName(name).query.value) == map["name" := name]
  {
  }

  /** `new Category(name, id, metadata, createdAt, updatedAt)`. */
  function NewCategory(name: string, id: Option<int>, metadata: Option<Metadata>, createdAt: Option<string>, updatedAt: Option<string>): (c: Category)
    ensures c.id.Some? <==> IdTruthy(id)
    ensures c.id.Some? ==> c.id == id
    ensures c.metadata.Some? && (metadata.Some? ==> c.metadata == metadata)
    ensures metadata.None? ==> c.metadata == Some(map[])
    ensures c.name == name && c.createdAt == createdAt && c.updatedAt == updatedAt
  {
    Category(KeepTruthyId(id), name, Some(OrDefault(metadata, map[])), createdAt, updatedAt)
  }

  /** The shape every constructed category has: no falsy id, and metadata present. */
  predicate Normalized(c: Category)
  {
    c.id != Some(0) && c.metadata.Some?
  }

  /** Rebuilding a category from its own fields changes nothing exactly when it is already normalised. */
  lemma NewCategoryFixedPoint(c: Category)
    ensures NewCategory(c.name, c.id, c.metadata, c.createdAt, c.updatedAt) == c <==> Normalized(c)
  {
  }
}
