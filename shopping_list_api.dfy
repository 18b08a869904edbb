/**
 * `ShoppingListApi` and the `ShoppingList` entity (src/api/shoppingList.ts): collection and
 * record requests, the action sub-paths (`purchase`, `reset`, `move-to-pantry`, `share`,
 * `shared-users`, revoking a share) and the constructor defaults.
 */
module ShoppingListApi {
  import opened Common
  import Client
  import Text
  import CategoryApi

  /** The `User` summary embedded in lists and purchases. */
  datatype Member = Member(id: int, email: string, name: string, surname: string)

  datatype ShoppingList = ShoppingList(
    id: Option<int>,
    name: string,
    description: Option<string>,
    recurring: bool,
    metadata: Option<Metadata>,
    owner: Option<Member>,
    sharedWith: Option<seq<Member>>,
    lastPurchasedAt: Option<string>,
    createdAt: Option<string>,
    updatedAt: Option<string>)

  /** The bodies the endpoints send. */
  datatype ListBody =
    | ListData(list: ShoppingList)   // the list itself (`add`, `modify`)
    | PantryRef(pantryId: int)       // `{ pantry_id }`
    | ShareWith(email: string)       // `{ email }`

  const Root: string := "/api/shopping-lists"

  /** `ShoppingListApi.getUrl(slug, query)`. */
  function GetUrl(slug: Option<Slug>, query: Option<string>): (r: string)
    ensures Text.StartsWith(r, Root)
    ensures !SlugGiven(slug) && !TextTruthy(query) ==> r == Root
    ensures SlugGiven(slug) && !TextTruthy(query) ==> r == Root + "/" + SlugText(slug.value)
    ensures TextTruthy(query) ==> r == Root + SlugSegment(slug) + "?" + query.value
  {
    Root + SlugSegment(slug) + QuerySuffix(query)
  }

  /** `getUrl(`${id}/${action}`)`: the template slug is never empty, so it is always appended. */
  function ActionUrl(id: int, action: string): (r: string)
    ensures r == SubPath(Root, id, action)
  {
    GetUrl(Some(TextSlug(Text.IntToString(id) + "/" + action)), None)
  }

  /** An action path names exactly one list and one action. */
  lemma ActionUrlInjective(id1: int, action1: string, id2: int, action2: string)
    requires ActionUrl(id1, action1) == ActionUrl(id2, action2)
    ensures id1 == id2 && action1 == action2
  {
    SubPathInjective(Root, id1, action1, id2, action2);
  }

  function Add(l: ShoppingList): (r: Client.Request<ListBody>)
    ensures r.verb == Client.POST && r.path == Root && r.secure
    ensures r.query.None? && r.body == Some(ListData(l))
  {
    Client.Post(GetUrl(None, None), true, Some(ListData(l)), None)
  }

  /** `modify` PUTs the list to `getUrl(shoppingList.id)`. */
  function Modify(l: ShoppingList): (r: Client.Request<ListBody>)
    ensures r.verb == Client.PUT && r.secure && r.query.None? && r.body == Some(ListData(l))
    ensures IdTruthy(l.id) ==> r.path == Root + "/" + Text.IntToString(l.id.value)
    ensures !IdTruthy(l.id) ==> r.path == Root
  {
    Client.Put(GetUrl(IdSlug(l.id), None), true, Some(ListData(l)))
  }

  function Remove(id: int): (r: Client.Request<ListBody>)
    ensures r.verb == Client.DELETE && r.secure && r.query.None? && r.body.None?
    ensures id != 0 ==> r.path == Root + "/" + Text.IntToString(id)
    ensures id == 0 ==> r.path == Root
  {
    Client.Delete(GetUrl(Some(NumSlug(id)), None), true)
  }

  function Get(id: int): (r: Client.Request<ListBody>)
    ensures r.verb == Client.GET && r.secure && r.query.None? && r.body.None?
    ensures id != 0 ==> r.path == Root + "/" + Text.IntToString(id)
    ensures id == 0 ==> r.path == Root
  {
    Client.Get(GetUrl(Some(NumSlug(id)), None), true, None)
  }

  /** The `options` of `ShoppingListApi.getAll`; `None` is an option left `undefined`. */
  datatype ListOptions = ListOptions(
    page: Option<int>,
    perPage: Option<int>,
    sortBy: Option<string>,
    order: Option<Client.SortOrder>,
    name: Option<string>,
    owner: Option<bool>,
    recurring: Option<bool>)

  /** The assignments of `getAll`, in source order: each query key with the option that may fill it. */
  function Candidates(o: ListOptions): (c: seq<Client.Candidate>)
    ensures |c| == 7
  {
    [("page", Client.NumEntry(o.page)),
     ("per_page", Client.NumEntry(o.perPage)),
     ("sort_by", Client.StrEntry(o.sortBy)),
     ("order", Client.OrderEntry(o.order)),
     ("name", Client.StrEntry(o.name)),
     ("owner", Client.BoolEntry(o.owner)),
     ("recurring", Client.BoolEntry(o.recurring))]
  }

  /** No key is assigned twice. */
  lemma CandidatesDistinct(o: ListOptions)
    ensures Client.DistinctKeys(Candidates(o))
  {
  }

  /** `ShoppingListApi.getAll`: seven conditional assignments into an empty query object. */
  method GetAll(o: ListOptions) returns (r: Client.Request<CategoryApi.PaginatedResponse<ShoppingList>>)
    ensures r.verb == Client.GET && r.path == Root && r.secure && r.body.None?
    ensures r.query == Some(Client.Assemble(Candidates(o), 7))
  {
    ghost var c := Candidates(o);
    var queryParams: Client.Query := map[];
    assert queryParams == Client.Assemble(c, 0);
    queryParams := Client.Include(queryParams, "page", Client.NumEntry(o.page));
    assert queryParams == Client.Assemble(c, 1);
    queryParams := Client.Include(queryParams, "per_page", Client.NumEntry(o.perPage));
    assert queryParams == Client.Assemble(c, 2);
    queryParams := Client.Include(queryParams, "sort_by", Client.StrEntry(o.sortBy));
    assert queryParams == Client.Assemble(c, 3);
    queryParams := Client.Include(queryParams, "order", Client.OrderEntry(o.order));
    assert queryParams == Client.Assemble(c, 4);
    queryParams := Client.Include(queryParams, "name", Client.StrEntry(o.name));
    assert queryParams == Client.Assemble(c, 5);
    queryParams := Client.Include(queryParams, "owner", Client.BoolEntry(o.owner));
    assert queryParams == Client.Assemble(c, 6);
    queryParams := Client.Include(queryParams, "recurring", Client.BoolEntry(o.recurring));
    assert queryParams == Client.Assemble(c, 7);
    r := Client.Get(GetUrl(None, None), true, Some(queryParams));
  }

  /** Each key is in the query exactly when its option is defined, as given; nothing is defaulted. */
  lemma GetAllKeys(o: ListOptions)
    ensures var q := Client.Assemble(Candidates(o), 7);
      && Client.Carries(q, "page", Client.NumEntry(o.page))
      && Client.Carries(q, "per_page", Client.NumEntry(o.perPage))
      && Client.Carries(q, "sort_by", Client.StrEntry(o.sortBy))
      && Client.Carries(q, "order", Client.OrderEntry(o.order))
      && Client.Carries(q, "name", Client.StrEntry(o.name))
      && Client.Carries(q, "owner", Client.BoolEntry(o.owner))
      && Client.Carries(q, "recurring", Client.BoolEntry(o.recurring))
      && q.Keys <= {"page", "per_page", "sort_by", "order", "name", "owner", "recurring"}
  {
    var c := Candidates(o);
    var q := Client.Assemble(c, 7);
    CandidatesDistinct(o);
    for i := 0 to 7
      invariant forall j :: 0 <= j < i ==> Client.Carries(q, c[j].0, c[j].1)
    {
      Client.AssembleCarries(c, 7, i);
    }
    forall k | k in q
      ensures k in {"page", "per_page", "sort_by", "order", "name", "owner", "recurring"}
    {
      Client.AssembleOnlyCandidates(c, 7, k);
    }
  }

  /** Without options the query object is empty, so the URL has no search parameters. */
  lemma GetAllNoOptions()
    ensures Client.Assemble(Candidates(ListOptions(None, None, None, None, None, None, None)), 7) == map[]
  {
  }

  /** `owner: false` and `recurring: false` are defined, so they reach the URL as `"false"`. */
  lemma GetAllSendsFalseFlags(o: ListOptions)
    requires o.owner == Some(false) && o.recurring == Some(false)
    ensures var s := Client.SearchParams(Client.Assemble(Candidates(o), 7));
      "owner" in s && s["owner"] == "false" && "recurring" in s && s["recurring"] == "false"
  {
    CandidatesDistinct(o);
    Client.AssembledInUrl(Candidates(o), 5);
    Client.AssembledInUrl(Candidates(o), 6);
  }

  /** `purchase(id)`: POST `/<id>/purchase`, nothing else. */
  function Purchase(id: int): (r: Client.Request<ListBody>)
    ensures r.verb == Client.POST && r.secure && r.query.None? && r.body.None?
    ensures r.path == SubPath(Root, id, "purchase")
  {
    Client.Post(ActionUrl(id, "purchase"), true, None, None)
  }

  /** `reset(id)`: POST `/<id>/reset`. */
  function Reset(id: int): (r: Client.Request<ListBody>)
    ensures r.verb == Client.POST && r.secure && r.query.None? && r.body.None?
    ensures r.path == SubPath(Root, id, "reset")
  {
    Client.Post(ActionUrl(id, "reset"), true, None, None)
  }

  /** `moveToPantry(id, pantryId)`: POST `{ pantry_id }` to `/<id>/move-to-pantry`. */
  function MoveToPantry(id: int, pantryId: int): (r: Client.Request<ListBody>)
    ensures r.verb == Client.POST && r.secure && r.query.None?
    ensures r.path == SubPath(Root, id, "move-to-pantry")
    ensures r.body == Some(PantryRef(pantryId))
  {
    Client.Post(ActionUrl(id, "move-to-pantry"), true, Some(PantryRef(pantryId)), None)
  }

  /** `share(id, email)`: POST `{ email }` to `/<id>/share`. */
  function Share(id: int, email: string): (r: Client.Request<ListBody>)
    ensures r.verb == Client.POST && r.secure && r.query.None?
    ensures r.path == SubPath(Root, id, "share")
    ensures r.body == Some(ShareWith(email))
  {
    Client.Post(ActionUrl(id, "share"), true, Some(ShareWith(email)), None)
  }

  /** `getSharedUsers(id)`: GET `/<id>/shared-users`. */
  function GetSharedUsers(id: int): (r: Client.Request<ListBody>)
    ensures r.verb == Client.GET && r.secure && r.query.None? && r.body.None?
    ensures r.path == SubPath(Root, id, "shared-users")
  {
    Client.Get(ActionUrl(id, "shared-users"), true, None)
  }

  /** `revokeAccess(listId, userId)`: DELETE `/<listId>/share/<userId>`. */
  function RevokeAccess(listId: int, userId: int): (r: Client.Request<ListBody>)
    ensures r.verb == Client.DELETE && r.secure && r.query.None? && r.body.None?
    ensures r.path == SubPath(Root, listId, "share/" + Text.IntToString(userId))
  {
    Client.Delete(ActionUrl(listId, "share/" + Text.IntToString(userId)), true)
  }

  /** A revocation names exactly one list and one user. */
  lemma RevokeAccessInjective(list1: int, user1: int, list2: int, user2: int)
    requires RevokeAccess(list1, user1).path == RevokeAccess(list2, user2).path
    ensures list1 == list2 && user1 == user2
  {
    ActionUrlInjective(list1, "share/" + Text.IntToString(user1), list2, "share/" + Text.IntToString(user2));
    assert Text.IntToString(user1) == ("share/" + Text.IntToString(user1))[6..];
    assert Text.IntToString(user2) == ("share/" + Text.IntToString(user2))[6..];
    Text.IntToStringInjective(user1, user2);
  }

  /** The five actions on one list reach pairwise distinct paths. */
  lemma ActionsDistinct(id: int)
    ensures Purchase(id).path != Reset(id).path
    ensures Purchase(id).path != MoveToPantry(id, 0).path
    ensures Purchase(id).path != Share(id, "").path
    ensures Reset(id).path != Share(id, "").path
    ensures Purchase(id).path != GetSharedUsers(id).path
    ensures Reset(id).path != MoveToPantry(id, 0).path
    ensures Reset(id).path != GetSharedUsers(id).path
    ensures MoveToPantry(id, 0).path != Share(id, "").path
    ensures MoveToPantry(id, 0).path != GetSharedUsers(id).path
    ensures Share(id, "").path != GetSharedUsers(id).path
  {
    var p := Root + "/" + Text.IntToString(id) + "/";
    assert Purchase(id).path == p + "purchase";
    assert Reset(id).path == p + "reset";
    assert MoveToPantry(id, 0).path == p + "move-to-pantry";
    assert Share(id, "").path == p + "share";
    assert GetSharedUsers(id).path == p + "shared-users";
    assert (p + "purchase")[|p|] == 'p';
    assert (p + "reset")[|p|] == 'r';
    assert (p + "move-to-pantry")[|p|] == 'm';
    assert (p + "share")[|p|] == 's';
    assert (p + "shared-users")[|p|] == 's';
    assert |p + "share"| != |p + "shared-users"|;
  }

  /** `new ShoppingList(name, recurring = false, id, ...)`: id only when truthy, `{}` and `[]` defaults. */
  function NewShoppingList(
    name: string, recurring: Option<bool>, id: Option<int>, description: Option<string>,
    metadata: Option<Metadata>, owner: Option<Member>, sharedWith: Option<seq<Member>>,
    lastPurchasedAt: Option<string>, createdAt: Option<string>, updatedAt: Option<string>): (l: ShoppingList)
    ensures l.id.Some? <==> IdTruthy(id)
    ensures l.id.Some? ==> l.id == id
    ensures l.recurring == (recurring == Some(true))
    ensures l.metadata == Some(OrDefault(metadata, map[]))
    ensures l.sharedWith == Some(OrDefault(sharedWith, []))
    ensures l.name == name && l.description == description && l.owner == owner
    ensures l.lastPurchasedAt == lastPurchasedAt && l.createdAt == createdAt && l.updatedAt == updatedAt
  {
    ShoppingList(KeepTruthyId(id), name, description, OrDefault(recurring, false),
                 Some(OrDefault(metadata, map[])), owner, Some(OrDefault(sharedWith, [])),
                 lastPurchasedAt, createdAt, updatedAt)
  }

  /** The shape every constructed list has. */
  predicate Normalized(l: ShoppingList)
  {
    l.id != Some(0) && l.metadata.Some? && l.sharedWith.Some?
  }

  /** Rebuilding a list from its own fields changes nothing exactly when it is already normalised. */
  lemma NewShoppingListFixedPoint(l: ShoppingList)
    ensures NewShoppingList(l.name, Some(l.recurring), l.id, l.description, l.metadata, l.owner,
                            l.sharedWith, l.lastPurchasedAt, l.createdAt, l.updatedAt) == l
            <==> Normalized(l)
  {
  }
}
