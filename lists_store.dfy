/**
 * The lists store (src/stores/lists.ts): the user's shopping lists, a search query, and the
 * two views of the lists that match it: the recurrent ones and the active (non-recurrent) ones.
 */
module ListsStore {
  import opened Common
  import Seqs
  import Text

  /** A shopping list as the home screen shows it; dates are clock readings. */
  datatype ShoppingList = ShoppingList(
    id: string,
    name: string,
    productCount: int,
    peopleCount: Option<int>,
    isRecurrent: bool,
    isShared: bool,
    createdAt: int,
    updatedAt: int)

  /** `matchesSearch(list)`: every list for an empty query, else a case-insensitive substring test on the name. */
  predicate MatchesSearch(l: ShoppingList, query: string)
    ensures query == "" ==> MatchesSearch(l, query)
    ensures Text.Includes(l.name, query) ==> MatchesSearch(l, query)
    ensures MatchesSearch(l, query) && query != "" ==>
      exists i: nat :: Text.OccursAt(Text.ToLower(l.name), Text.ToLower(query), i)
  {
    Text.IncludesLowered(l.name, query);
    Text.IncludesIff(Text.ToLower(l.name), Text.ToLower(query));
    query == "" || Text.Includes(Text.ToLower(l.name), Text.ToLower(query))
  }

  /** The filter of `recurrentLists`. */
  function InRecurrent(query: string): ShoppingList -> bool
  {
    (l: ShoppingList) => l.isRecurrent && MatchesSearch(l, query)
  }

  /** The filter of `activeLists`. */
  function InActive(query: string): ShoppingList -> bool
  {
    (l: ShoppingList) => !l.isRecurrent && MatchesSearch(l, query)
  }

  function Matching(query: string): ShoppingList -> bool
  {
    (l: ShoppingList) => MatchesSearch(l, query)
  }

  /** `recurrentLists`: the recurrent lists that match the search, in store order. */
  function RecurrentLists(lists: seq<ShoppingList>, query: string): (r: seq<ShoppingList>)
    ensures forall k :: 0 <= k < |r| ==> r[k].isRecurrent && MatchesSearch(r[k], query)
    ensures forall k :: 0 <= k < |lists| && lists[k].isRecurrent && MatchesSearch(lists[k], query) ==> lists[k] in r
    ensures Seqs.IsSubsequence(r, lists)
  {
    Seqs.FilterIsSubsequence(lists, InRecurrent(query));
    Seqs.Filter(lists, InRecurrent(query))
  }

  /** `activeLists`: the lists that are not recurrent and match the search, in store order. */
  function ActiveLists(lists: seq<ShoppingList>, query: string): (r: seq<ShoppingList>)
    ensures forall k :: 0 <= k < |r| ==> !r[k].isRecurrent && MatchesSearch(r[k], query)
    ensures forall k :: 0 <= k < |lists| && !lists[k].isRecurrent && MatchesSearch(lists[k], query) ==> lists[k] in r
    ensures Seqs.IsSubsequence(r, lists)
  {
    Seqs.FilterIsSubsequence(lists, InActive(query));
    Seqs.Filter(lists, InActive(query))
  }

  /**
   * Each view is decided one list at a time: the view of a concatenation is the
   * concatenation of the views, and a single list is kept exactly when it belongs there.
   * Together these fix the views completely, duplicates included.
   */
  lemma RecurrentListsDecomposes(a: seq<ShoppingList>, b: seq<ShoppingList>, l: ShoppingList, query: string)
    ensures RecurrentLists(a + b, query) == RecurrentLists(a, query) + RecurrentLists(b, query)
    ensures RecurrentLists([l], query) == if l.isRecurrent && MatchesSearch(l, query) then [l] else []
  {
    Seqs.FilterAppend(a, b, InRecurrent(query));
    assert [l][1..] == [];
  }

  /** The same decomposition for the active view. */
  lemma ActiveListsDecomposes(a: seq<ShoppingList>, b: seq<ShoppingList>, l: ShoppingList, query: string)
    ensures ActiveLists(a + b, query) == ActiveLists(a, query) + ActiveLists(b, query)
    ensures ActiveLists([l], query) == if !l.isRecurrent && MatchesSearch(l, query) then [l] else []
  {
    Seqs.FilterAppend(a, b, InActive(query));
    assert [l][1..] == [];
  }

  /**
   * Every list that matches the search appears in exactly one of the two views, and no list
   * in either view fails to match.
   */
  lemma ViewsPartitionMatches(lists: seq<ShoppingList>, query: string, k: nat)
    requires k < |lists|
    ensures MatchesSearch(lists[k], query) ==>
      (lists[k] in RecurrentLists(lists, query) <==> lists[k] !in ActiveLists(lists, query))
    ensures !MatchesSearch(lists[k], query) ==>
      lists[k] !in RecurrentLists(lists, query) && lists[k] !in ActiveLists(lists, query)
  {
  }

  /** The views never share a list. */
  lemma ViewsDisjoint(lists: seq<ShoppingList>, query: string, l: ShoppingList)
    ensures !(l in RecurrentLists(lists, query) && l in ActiveLists(lists, query))
  {
  }

  /** The two views together hold exactly as many lists as match the search. */
  lemma {:induction false} ViewsCountMatches(lists: seq<ShoppingList>, query: string)
    ensures |RecurrentLists(lists, query)| + |ActiveLists(lists, query)| == |Seqs.Filter(lists, Matching(query))|
    decreases |lists|
  {
    if lists != [] {
      ViewsCountMatches(lists[1..], query);
    }
  }

  /** With an empty query every list matches, so the views split the whole collection. */
  lemma EmptyQueryShowsEverything(lists: seq<ShoppingList>)
    ensures |RecurrentLists(lists, "")| + |ActiveLists(lists, "")| == |lists|
  {
    ViewsCountMatches(lists, "");
    Seqs.FilterAll(lists, Matching(""));
  }

  /** The search ignores case in the query and in the name. */
  lemma MatchesSearchIgnoresCase(l: ShoppingList, query: string)
    ensures MatchesSearch(l, query) <==> MatchesSearch(l, Text.ToLower(query))
    ensures MatchesSearch(l, query) <==> MatchesSearch(l.(name := Text.ToLower(l.name)), query)
  {
    Text.ToLowerIdempotent(query);
    Text.ToLowerIdempotent(l.name);
  }

  /** `(list) => list.id === id`. */
  function HasId(id: string): ShoppingList -> bool
  {
    (l: ShoppingList) => l.id == id
  }

  /** `deleteList(id)` on the collection: `Seqs.RemoveFirst` by id, the same splice the other stores use. */
  function Deleted(lists: seq<ShoppingList>, id: string): (r: seq<ShoppingList>)
    ensures var i := Seqs.FindIndex(lists, HasId(id));
      && (i == -1 ==> r == lists)
      && (0 <= i ==> |r| == |lists| - 1 && r == lists[..i] + lists[i + 1..])
  {
    Seqs.SpliceIsRemoveFirst(lists, HasId(id));
    Seqs.RemoveFirst(lists, HasId(id))
  }

  /** The list `createList(name, isRecurrent)` pushes: empty, not shared, recurrent only when asked. */
  function NewList(name: string, isRecurrent: Option<bool>, now: int): (l: ShoppingList)
    ensures l.name == name && l.productCount == 0 && !l.isShared && l.peopleCount.None?
    ensures l.isRecurrent <==> isRecurrent == Some(true)
    ensures l.id == Text.IntToString(now) && l.createdAt == now && l.updatedAt == now
  {
    ShoppingList(Text.IntToString(now), name, 0, None, OrDefault(isRecurrent, false), false, now, now)
  }

  /** A created list shows up in the view its flag selects, whenever its name matches the search. */
  lemma CreatedListIsShown(lists: seq<ShoppingList>, name: string, isRecurrent: Option<bool>, now: int, query: string)
    requires MatchesSearch(NewList(name, isRecurrent, now), query)
    ensures var l := NewList(name, isRecurrent, now);
      && (isRecurrent == Some(true) ==> RecurrentLists(lists + [l], query) == RecurrentLists(lists, query) + [l])
      && (isRecurrent != Some(true) ==> ActiveLists(lists + [l], query) == ActiveLists(lists, query) + [l])
  {
    var l := NewList(name, isRecurrent, now);
    Seqs.FilterAppend(lists, [l], InRecurrent(query));
    Seqs.FilterAppend(lists, [l], InActive(query));
    assert [l][1..] == [];
  }

  /** The four lists the store starts with, stamped `now`. */
  function SeedLists(now: int): seq<ShoppingList>
  {
    [ShoppingList("1", "Asado en lo de Agu", 8, Some(4), true, true, now, now),
     ShoppingList("2", "Casa", 10, None, false, false, now, now),
     ShoppingList("3", "Asado en lo de Jolo", 0, None, false, false, now, now),
     ShoppingList("4", "Juntada", 5, Some(6), false, true, now, now)]
  }

  /** The store: the lists and the search query. */
  class Store {
    var lists: seq<ShoppingList>
    var searchQuery: string

    constructor(now: int)
      ensures lists == SeedLists(now) && searchQuery == ""
    {
      lists := SeedLists(now);
      searchQuery := "";
    }

    /** `createList(name, isRecurrent = false)`: push one new list. */
    method CreateList(name: string, isRecurrent: Option<bool>, now: int)
      modifies this
      ensures lists == old(lists) + [NewList(name, isRecurrent, now)]
      ensures searchQuery == old(searchQuery)
    {
      var newList := ShoppingList(Text.IntToString(now), name, 0, None, OrDefault(isRecurrent, false), false, now, now);
      lists := lists + [newList];
    }

    /** `deleteList(id)`: `findIndex`, then `splice(index, 1)` when found. */
    method DeleteList(id: string)
      modifies this
      ensures lists == Deleted(old(lists), id)
      ensures searchQuery == old(searchQuery)
    {
      var index := Seqs.FindIndex(lists, HasId(id));
      if index != -1 {
        lists := lists[..index] + lists[index + 1..];
      }
    }

    /** `updateSearch(query)`: only the query changes. */
    method UpdateSearch(query: string)
      modifies this
      ensures searchQuery == query && lists == old(lists)
    {
      searchQuery := query;
    }
  }
}
