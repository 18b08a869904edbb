# listita-web: the client core in Dafny

Listita is a shopping-list web client written in TypeScript with Vue and Pinia. This project models
the client's core without the browser and without the network:

- the HTTP client `Api`: the request each endpoint method hands to `get`/`post`/`put`/`patch`/`delete`,
  the URL `buildUrl` makes of it, the headers `fetch` adds, and how a response or a transport failure
  becomes a value or an error;
- the endpoint classes `CategoryApi`, `ProductApi`, `ShoppingListApi`, `ListItemApi`, `PurchaseApi` and
  `UserApi`, with the entity constructors and the query objects their `getAll` methods assemble;
- the Pinia stores: auth, purchases, products, global products and lists;
- the notification queue of `useNotification`;
- the router's `beforeEach` guard, its `afterEach` title, and the unit-abbreviation lookup.

Every request is a value `Client.Request(verb, path, secure, query, body)`. An answer from the server
enters the model as a parameter: a `Result` that is either the parsed value or the `ApiError` the
client throws. A store whose fields the source updates in place is a class whose methods modify those
fields. Each such method is proved against a function on the old state, such as
`products == Toggled(old(products), id, now)`. The lemmas beside those functions prove what the store
promises: round trips, invariants kept, views that partition the data, and ids that never repeat.
Clock readings (`Date.now()`, `new Date()`) are parameters, `localStorage` is a `map<string, string>`,
and JavaScript truthiness is spelled out (`IdTruthy`, `TextTruthy`, `SlugGiven`).

The stores keep no page cursor: `PurchasesStore.Store.FetchPurchases` replaces the list with each
page it fetches.

The files, one module each: `common.dfy`, `text.dfy` (case folding, `includes`, integer rendering) and
`seqs.dfy` (`findIndex`, `filter`, splice) hold shared vocabulary. The other files follow the source:
`client.dfy`, `category_api.dfy`, `product_api.dfy`, `shopping_list_api.dfy`, `list_item_api.dfy`,
`purchase_api.dfy`, `user_api.dfy`, `auth_store.dfy`, `purchases_store.dfy`, `products_store.dfy`,
`global_products_store.dfy`, `lists_store.dfy`, `notifications.dfy`, `router.dfy` and `units.dfy`.

## Model

| member | source | states |
|---|---|---|
| Common.SlugSegment | src/api/category.ts:17 | a slug adds `/<slug>` exactly when it is given and truthy; `0` and `''` add nothing |
| Common.NumericSegmentInjective | src/api/category.ts:17 | two record paths under one root with truthy numeric ids are equal only for equal ids |
| Common.SubPathInjective | src/api/shoppingList.ts:80 | a path `<root>/<id>/<rest>` determines both the id and the rest |
| Common.KeepTruthyId | src/api/category.ts:86-88 | a constructor stores the id exactly when it is truthy |
| Text.ToLower | src/stores/globalProducts.ts:49 | lower-casing keeps the length and lower-cases each character, leaving no capital |
| Text.ToLowerIdempotent | src/stores/globalProducts.ts:49 | lower-casing twice equals lower-casing once |
| Text.IncludesIff | src/stores/lists.ts:64 | `includes` holds exactly when the needle occurs at some position |
| Text.IncludesLowered | src/stores/lists.ts:64 | a substring stays a substring after both sides are lower-cased |
| Text.ParseIntToString | src/stores/products.ts:36 | the decimal text of an integer reads back as that integer |
| Text.IntToStringInjective | src/stores/products.ts:36 | distinct clock readings give distinct `toString()` ids |
| Text.IntToStringHasNoSlash | src/api/shoppingList.ts:80 | a rendered integer contains no `/`, so it is a single path segment |
| Seqs.FindIndex | src/stores/products.ts:48 | the index of the first matching element, or -1 exactly when none matches |
| Seqs.SpliceIsRemoveFirst | src/stores/products.ts:48-51 | `splice(findIndex(..), 1)` removes exactly the first match |
| Seqs.UpdateFirst | src/stores/products.ts:55-59 | `find` then an in-place edit changes only the first match, or nothing |
| Seqs.Filter | src/stores/products.ts:30 | `filter` keeps exactly the elements satisfying the predicate |
| Seqs.FilterIsSubsequence | src/stores/products.ts:30 | `filter` keeps the surviving elements in their original order |
| Seqs.FilterAppend | src/stores/products.ts:30 | `filter` distributes over concatenation |
| Seqs.FilterIdempotent | src/stores/globalProducts.ts:48 | filtering a filtered array again by the same test changes nothing |
| Client.Get | src/api/client.ts:82-90 | `get` forwards the path, `secure` and the query, and sends no body |
| Client.Post | src/api/client.ts:92-112 | `post` forwards the path, `secure`, the body data and the query |
| Client.Put | src/api/client.ts:114-133 | `put` builds the URL without a query and forwards the body data |
| Client.Patch | src/api/client.ts:135-154 | `patch` builds the URL without a query and forwards the body data |
| Client.Delete | src/api/client.ts:156-170 | `delete` sends neither a query nor a body |
| Client.NormalizePath | src/api/client.ts:18 | the URL path always starts with `/`; a leading `/` is not doubled |
| Client.NormalizePathIdempotent | src/api/client.ts:18 | normalising a normalised path changes nothing |
| Client.BuildUrl | src/api/client.ts:17-26 | the URL has a search parameter for a key exactly when the query holds it with a value other than `undefined`, `null` or `''`, and that parameter is `String(value)` |
| Client.FalseAndZeroAreKept | src/api/client.ts:21 | `false` and `0` are not dropped: they reach the URL as `"false"` and `"0"` |
| Client.AssembleCarries | src/api/shoppingList.ts:61-68 | after the conditional assignments, each key is present exactly when its option is defined, with that option's value |
| Client.AssembleOnlyCandidates | src/api/shoppingList.ts:61-68 | the conditional assignments never create a key that is not a candidate |
| Client.AssembledInUrl | src/api/client.ts:19-23 | an assigned option reaches the URL unless its value is `''` |
| Client.AuthorizationHeader | src/api/client.ts:34-38 | `Authorization: Bearer <token>` is added exactly for a secure call with a truthy token |
| Client.Headers | src/api/client.ts:103-107 | `Content-Type` JSON exactly for POST, PUT and PATCH; `Authorization` by the token rule; no other header |
| Client.Prepare | src/api/client.ts:17-46 | the `fetch` call gets the normalised path, the filtered search parameters, the verb, the body and the headers |
| Client.ErrorMessageInformative | src/api/client.ts:55 | the thrown message is the server's truthy `message` when there is one; it is never empty, and otherwise it is `API request failed: ` followed by text that parses back to the status |
| Client.Settle | src/api/client.ts:45-76 | a non-ok response throws an error with message and status; an ok response yields its JSON only for a JSON content type; `AbortError`/`TypeError` become a bare `{ message }`; any other failure is rethrown unchanged, name and message |
| Client.StatusOnlyFromResponses | src/api/client.ts:56-62 | an error carries a status exactly when the server answered non-ok, and it is that status |
| Client.ApiSession.constructor | src/api/client.ts:4 | `Api.token` starts out `null` |
| Client.ApiSession.Fetch | src/api/client.ts:28-80 | `Api.fetch` sends the prepared request (normalised path, the search parameters of the query, verb, body, and the headers of the current token) and settles as `Settle` says |
| CategoryApi.GetUrl | src/api/category.ts:16-18 | `/api/categories`, then `/<slug>` for a truthy slug, then `?<query>` for a truthy query |
| CategoryApi.GetUrlInjective | src/api/category.ts:16-18 | distinct truthy ids address distinct categories |
| CategoryApi.Add | src/api/category.ts:20-22 | POST the category to the collection, authenticated |
| CategoryApi.Modify | src/api/category.ts:24-26 | PUT the category to its record; without a truthy id the request goes to the collection |
| CategoryApi.Remove | src/api/category.ts:28-30 | DELETE the record; id `0` is falsy and addresses the collection |
| CategoryApi.Get | src/api/category.ts:32-34 | GET the record; id `0` addresses the collection |
| CategoryApi.GetAll | src/api/category.ts:36-57 | GET the collection with the defaulted paging options and `name` only when truthy |
| CategoryApi.GetAllDefaults | src/api/category.ts:46-47 | without options the URL asks for `page=1`, `per_page=10`, `sort_by=createdAt`, `order=DESC` |
| CategoryApi.GetAllKeys | src/api/category.ts:46-50 | the four paging keys are always sent; `name` exactly when truthy; nothing else |
| CategoryApi.GetAllUsesGivenOptions | src/api/category.ts:46 | a given option wins over its default |
| CategoryApi.GetByName | src/api/category.ts:59-69 | GET the collection with the query `{ name }` |
| CategoryApi.GetByNameEmpty | src/api/category.ts:59-69 | an empty name reaches the query object but not the URL |
| CategoryApi.NewCategory | src/api/category.ts:79-93 | the id only when truthy, `metadata` defaulted to `{}`, other fields as given |
| CategoryApi.NewCategoryFixedPoint | src/api/category.ts:79-93 | rebuilding a category from its fields changes nothing exactly when it has no falsy id and has metadata |
| ProductApi.GetUrl | src/api/product.ts:14-16 | `/api/products`, then `/<slug>` for a truthy slug |
| ProductApi.GetUrlInjective | src/api/product.ts:14-16 | distinct truthy ids address distinct products |
| ProductApi.Add | src/api/product.ts:18-20 | POST the product to the collection |
| ProductApi.Modify | src/api/product.ts:22-24 | PUT the product to its record, or to the collection without a truthy id |
| ProductApi.Remove | src/api/product.ts:26-28 | DELETE the record; id `0` addresses the collection |
| ProductApi.Get | src/api/product.ts:30-32 | GET the record; id `0` addresses the collection |
| ProductApi.ModifyTargetsRecord | src/api/product.ts:22-32 | `modify`, `remove` and `get` of one product reach the same URL |
| ProductApi.GetAll | src/api/product.ts:34-61 | GET the collection with the query of the seven conditional assignments |
| ProductApi.GetAllKeys | src/api/product.ts:46-53 | each key is sent exactly when its option is defined, as given, and no other key |
| ProductApi.GetAllSendsZeroCategory | src/api/product.ts:52 | `category_id: 0` is defined and reaches the URL as `"0"` |
| ProductApi.NewProduct | src/api/product.ts:74-94 | the id only when truthy, `metadata` defaulted to `{}`, other fields as given |
| ProductApi.NewProductFixedPoint | src/api/product.ts:74-94 | rebuilding changes nothing exactly for a product with no falsy id and with metadata |
| ShoppingListApi.GetUrl | src/api/shoppingList.ts:12-14 | `/api/shopping-lists`, `/<slug>` for a truthy slug, `?<query>` for a truthy query |
| ShoppingListApi.ActionUrl | src/api/shoppingList.ts:80 | the action template `${id}/<action>` is always appended, even for id `0` |
| ShoppingListApi.ActionUrlInjective | src/api/shoppingList.ts:12-14 | an action path names exactly one list and one action |
| ShoppingListApi.Add | src/api/shoppingList.ts:16-27 | POST the list to the collection |
| ShoppingListApi.Modify | src/api/shoppingList.ts:29-39 | PUT the list to its record, or to the collection without a truthy id |
| ShoppingListApi.Remove | src/api/shoppingList.ts:41-43 | DELETE the record; id `0` addresses the collection |
| ShoppingListApi.Get | src/api/shoppingList.ts:45-47 | GET the record; id `0` addresses the collection |
| ShoppingListApi.GetAll | src/api/shoppingList.ts:49-76 | GET the collection with the query of the seven conditional assignments |
| ShoppingListApi.GetAllKeys | src/api/shoppingList.ts:61-68 | each key is sent exactly when its option is defined, as given, and no other key |
| ShoppingListApi.GetAllNoOptions | src/api/shoppingList.ts:59-61 | without options the query object is empty |
| ShoppingListApi.GetAllSendsFalseFlags | src/api/shoppingList.ts:67-68 | `owner: false` and `recurring: false` reach the URL as `"false"` |
| ShoppingListApi.Purchase | src/api/shoppingList.ts:78-86 | POST to `/<id>/purchase` with no body |
| ShoppingListApi.Reset | src/api/shoppingList.ts:88-96 | POST to `/<id>/reset` with no body |
| ShoppingListApi.MoveToPantry | src/api/shoppingList.ts:98-110 | POST `{ pantry_id }` to `/<id>/move-to-pantry` |
| ShoppingListApi.Share | src/api/shoppingList.ts:112-120 | POST `{ email }` to `/<id>/share` |
| ShoppingListApi.GetSharedUsers | src/api/shoppingList.ts:122-129 | GET `/<id>/shared-users` |
| ShoppingListApi.RevokeAccess | src/api/shoppingList.ts:131-141 | DELETE `/<listId>/share/<userId>` |
| ShoppingListApi.RevokeAccessInjective | src/api/shoppingList.ts:137 | a revocation path names exactly one list and one user |
| ShoppingListApi.ActionsDistinct | src/api/shoppingList.ts:78-129 | the actions on one list reach pairwise distinct paths |
| ShoppingListApi.NewShoppingList | src/api/shoppingList.ts:156-180 | id only when truthy, `recurring` defaults to false, `metadata` to `{}`, `sharedWith` to `[]` |
| ShoppingListApi.NewShoppingListFixedPoint | src/api/shoppingList.ts:156-180 | rebuilding changes nothing exactly for a list with no falsy id, with metadata and with `sharedWith` |
| ListItemApi.GetUrl | src/api/listItem.ts:6-8 | the list id is always in the path; the item id only when truthy |
| ListItemApi.GetUrlInjective | src/api/listItem.ts:6-8 | an item URL names exactly one list and one item |
| ListItemApi.ItemUrlIsSubPath | src/api/listItem.ts:7 | an item URL is the sub-path `items/<itemId>` of its list |
| ListItemApi.ItemsRootInjective | src/api/listItem.ts:7 | distinct lists have distinct item collections |
| ListItemApi.Add | src/api/listItem.ts:10-24 | POST `{ product: { id }, quantity, unit }` with `quantity = 1` and `unit = 'unit'` by default |
| ListItemApi.AddDefaults | src/api/listItem.ts:13-14 | missing quantity and unit become `1` and `unit`; a given `0` or `''` is kept |
| ListItemApi.Modify | src/api/listItem.ts:26-37 | PUT only `{ quantity, unit }` to the item's URL |
| ListItemApi.ModifySendsOnlyQuantityAndUnit | src/api/listItem.ts:34 | two items with the same id, quantity and unit produce the same request |
| ListItemApi.Remove | src/api/listItem.ts:39-41 | DELETE the item's URL |
| ListItemApi.Get | src/api/listItem.ts:43-49 | GET the item's URL |
| ListItemApi.SetPurchased | src/api/listItem.ts:77-89 | PATCH `{ purchased }` to the item's URL |
| ListItemApi.UpdateQuantity | src/api/listItem.ts:91-104 | PUT the quantity, with `unit` exactly when it is truthy |
| ListItemApi.UpdateQuantityLikeModify | src/api/listItem.ts:91-104 | `updateQuantity` reaches the same URL as `modify` but never sends `unit: ''` |
| ListItemApi.GetAll | src/api/listItem.ts:51-75 | GET the list's items with the query of the five conditional assignments |
| ListItemApi.GetAllKeys | src/api/listItem.ts:62-67 | each key is sent exactly when its option is defined, as given, and no other key |
| ListItemApi.GetAllSendsUnpurchasedFilter | src/api/listItem.ts:67 | `purchased: false` reaches the URL as `purchased=false` |
| ListItemApi.NewListItem | src/api/listItem.ts:118-140 | id only when truthy, `purchased` defaults to false, `metadata` has no default |
| ListItemApi.NewListItemFixedPoint | src/api/listItem.ts:118-140 | rebuilding changes nothing exactly for an item whose id is not `0` |
| PurchaseApi.GetUrl | src/api/purchase.ts:14-16 | `/api/purchases`, then `/<slug>` for a truthy slug |
| PurchaseApi.GetUrlInjective | src/api/purchase.ts:14-16 | distinct truthy ids address distinct purchases |
| PurchaseApi.Get | src/api/purchase.ts:18-20 | GET the record; id `0` addresses the collection |
| PurchaseApi.GetAll | src/api/purchase.ts:22-45 | GET the collection with the query of the five conditional assignments |
| PurchaseApi.GetAllKeys | src/api/purchase.ts:32-37 | each key is sent exactly when its option is defined, as given, and no other key |
| PurchaseApi.GetAllNoOptions | src/api/purchase.ts:30-32 | the default `options = {}` gives an empty query object |
| PurchaseApi.Restore | src/api/purchase.ts:47-55 | POST to `/<id>/restore` with no body and no query |
| PurchaseApi.RestoreInjective | src/api/purchase.ts:49 | distinct purchases are restored at distinct paths |
| PurchaseApi.NewPurchase | src/api/purchase.ts:66-80 | every argument is stored as given |
| PurchaseApi.NewPurchaseKeepsEveryField | src/api/purchase.ts:66-80 | rebuilding a purchase from its fields always gives it back, even with id `0` |
| UserApi.GetUrl | src/api/user.ts:4-6 | `/api/users/<slug>`, or the bare root for a falsy slug |
| UserApi.Register | src/api/user.ts:8-10 | public POST of the registration data to `/register` |
| UserApi.LogIn | src/api/user.ts:12-23 | public POST of the credentials to `/login` |
| UserApi.LogOut | src/api/user.ts:25-27 | authenticated POST to `/logout` with no body |
| UserApi.GetProfile | src/api/user.ts:29-31 | authenticated GET of `/profile` |
| UserApi.UpdateProfile | src/api/user.ts:33-35 | authenticated PUT of the updates to `/profile` |
| UserApi.ChangePassword | src/api/user.ts:37-49 | authenticated POST of `{ currentPassword, newPassword }` |
| UserApi.ForgotPassword | src/api/user.ts:51-59 | public POST with the query `{ email }` and no body |
| UserApi.SendVerification | src/api/user.ts:61-69 | public POST with the query `{ email }` and no body |
| UserApi.VerifyAccount | src/api/user.ts:71-79 | public POST of `{ code }` |
| UserApi.ResetPassword | src/api/user.ts:81-93 | public POST of `{ code, password }` |
| UserApi.SecureExactlyWhenNotPublic | src/api/user.ts:8-93 | a call is authenticated exactly when it is not one of the six public calls; a public call never carries `Authorization`, a secure one carries it exactly for a truthy token |
| UserApi.QueryOnlyForEmailEndpoints | src/api/user.ts:51-69 | only `forgotPassword` and `sendVerification` send a query, and it holds `email` |
| UserApi.EmailInUrl | src/api/user.ts:51-59 | the email reaches the URL exactly when it is not empty |
| UserApi.NewUser | src/api/user.ts:105-123 | id only when truthy, `metadata` defaulted to `{}`, other fields as given |
| UserApi.NewUserFixedPoint | src/api/user.ts:105-123 | rebuilding changes nothing exactly for a user with no falsy id and with metadata |
| AuthStore.MapUser | src/stores/auth.ts:36-39 | data without a truthy id comes back unchanged; otherwise only a missing `metadata` changes, to `{}` |
| AuthStore.MapUserIdempotent | src/stores/auth.ts:36-39 | mapping a mapped user changes nothing |
| AuthStore.MapUserNormalizes | src/stores/auth.ts:38 | a user with a truthy id comes out in the shape the `User` constructor gives |
| AuthStore.StoredToken | src/stores/auth.ts:17 | `getItem` gives the stored token exactly when the key is present |
| AuthStore.Store.IsAuthenticated | src/stores/auth.ts:12-14 | a token is set, even an empty one; while the client mirrors the store the client holds a token exactly then, and an empty token sends no `Authorization` header |
| AuthStore.Store.constructor | src/stores/auth.ts:114-115 | creating the store adopts the remembered token only when it is a non-empty string, and mirrors it into `Api.token` |
| AuthStore.Store.Initialize | src/stores/auth.ts:16-19 | a truthy remembered token becomes the session token in the store and the client; otherwise nothing changes |
| AuthStore.Store.SetToken | src/stores/auth.ts:21-24 | the store and the client hold the same token afterwards |
| AuthStore.Store.UpdateToken | src/stores/auth.ts:26-29 | the token is set in both places and written to storage exactly when `rememberMe`, which defaults to true |
| AuthStore.Store.RemoveToken | src/stores/auth.ts:31-34 | the stored key is removed and the session is no longer authenticated |
| AuthStore.Store.FetchProfile | src/stores/auth.ts:72-81 | the profile is asked for exactly when the token is truthy; a success sets the mapped user; a failure leaves the user as it was |
| AuthStore.Store.Login | src/stores/auth.ts:53-59 | a rejected login changes nothing and propagates; an accepted one remembers the token, then loads the profile |
| AuthStore.Store.Logout | src/stores/auth.ts:61-70 | whatever the server answers, the user and token end cleared and the stored key removed |
| AuthStore.Store.UpdateProfile | src/stores/auth.ts:83-91 | a success stores and returns the mapped user; a failure propagates and leaves the user |
| AuthStore.Store.Register | src/stores/auth.ts:41-51 | sends the registration data and returns the created user mapped |
| AuthStore.Store.VerifyAccount | src/stores/auth.ts:105-108 | sends the code and returns the verified user mapped |
| PurchasesStore.MapAllIsIdentity | src/stores/purchases.ts:10-13 | mapping a page leaves every purchase as the server sent it |
| PurchasesStore.PurchasesByListId | src/stores/purchases.ts:43-45 | the purchases of one list, only those, in store order |
| PurchasesStore.PurchasesByListIdAppend | src/stores/purchases.ts:43-45 | the selection distributes over concatenation |
| PurchasesStore.Store.constructor | src/stores/purchases.ts:7-8 | no purchases, not loading |
| PurchasesStore.Store.FetchPurchases | src/stores/purchases.ts:15-32 | sends `getAll` with the params (`{}` when absent); a success replaces the purchases with the page's data; a failure keeps them and propagates; `loading` ends false |
| ProductsStore.Seed | src/stores/products.ts:7-26 | the two initial products all have positive quantities |
| ProductsStore.ProductsByListId | src/stores/products.ts:29-31 | the products of one list, only those, in store order |
| ProductsStore.ProductsByListIdDecomposes | src/stores/products.ts:29-31 | the selection distributes over concatenation and keeps a single product exactly when it is on the list |
| ProductsStore.Deleted | src/stores/products.ts:47-52 | the first product with the id is removed; without one nothing changes |
| ProductsStore.Toggled | src/stores/products.ts:54-60 | only the first product with the id flips `completed` and is stamped |
| ProductsStore.QuantitySet | src/stores/products.ts:62-68 | only a positive quantity is written, and only to the first product with the id |
| ProductsStore.Incremented | src/stores/products.ts:70-76 | the first product with the id gains exactly one unit |
| ProductsStore.Decremented | src/stores/products.ts:78-84 | the first product with the id loses one unit unless it has only one |
| ProductsStore.ToggleTwiceRestores | src/stores/products.ts:54-60 | toggling twice restores every product except for the `updatedAt` stamp |
| ProductsStore.IncrementThenDecrementRestores | src/stores/products.ts:70-84 | with positive quantities, an increment then a decrement restores every product except for the stamp |
| ProductsStore.QuantitiesStayPositive | src/stores/products.ts:34-84 | every action keeps each quantity at 1 or more (quantities are integers) |
| ProductsStore.Store.constructor | src/stores/products.ts:7-26 | the store starts with the two seed products |
| ProductsStore.Store.AddProduct | src/stores/products.ts:34-45 | one fresh product is appended: quantity 1, not completed, id from the clock |
| ProductsStore.Store.DeleteProduct | src/stores/products.ts:47-52 | the products become `Deleted` of the old ones; quantities stay positive |
| ProductsStore.Store.ToggleComplete | src/stores/products.ts:54-60 | the products become `Toggled` of the old ones |
| ProductsStore.Store.UpdateQuantity | src/stores/products.ts:62-68 | the products become `QuantitySet` of the old ones |
| ProductsStore.Store.IncrementQuantity | src/stores/products.ts:70-76 | the products become `Incremented` of the old ones |
| ProductsStore.Store.DecrementQuantity | src/stores/products.ts:78-84 | the products become `Decremented` of the old ones |
| GlobalProductsStore.FilteredProducts | src/stores/globalProducts.ts:46-55 | the whole catalogue for an empty query; otherwise only products whose name or a category contains the query, ignoring case, every such product, in catalogue order (how often each copy appears is fixed by `FilteredProductsDecomposes`) |
| GlobalProductsStore.FilteredProductsDecomposes | src/stores/globalProducts.ts:46-55 | the view of a concatenation is the concatenation of the views, and a single product is kept exactly when the query is empty or it matches; so the view is fixed completely, duplicates included |
| GlobalProductsStore.FilteredProductsIdempotent | src/stores/globalProducts.ts:46-55 | filtering the filtered view again changes nothing |
| GlobalProductsStore.MatchesIgnoresCase | src/stores/globalProducts.ts:49-52 | the case of the query and of the name does not change the match |
| GlobalProductsStore.Assigned | src/stores/globalProducts.ts:80-81 | each property the update has wins; the others stay; `updatedAt` is the clock |
| GlobalProductsStore.Updated | src/stores/globalProducts.ts:77-83 | only the first product with the id takes the update |
| GlobalProductsStore.EmptyUpdateOnlyStamps | src/stores/globalProducts.ts:77-83 | an update without properties only moves the stamp |
| GlobalProductsStore.Deleted | src/stores/globalProducts.ts:70-75 | the first product with the id is removed; without one nothing changes |
| GlobalProductsStore.Store.constructor | src/stores/globalProducts.ts:7-43 | three seed products, six categories, an empty query |
| GlobalProductsStore.Store.AddProduct | src/stores/globalProducts.ts:58-68 | one product is appended with its id and dates from the clock |
| GlobalProductsStore.Store.DeleteProduct | src/stores/globalProducts.ts:70-75 | the products become `Deleted` of the old ones |
| GlobalProductsStore.Store.UpdateProduct | src/stores/globalProducts.ts:77-83 | the products become `Updated` of the old ones |
| GlobalProductsStore.Store.UpdateSearch | src/stores/globalProducts.ts:85-87 | only the query changes |
| ListsStore.MatchesSearch | src/stores/lists.ts:61-64 | every list for an empty query, else a case-insensitive substring test on the name: an exact substring always matches, and a match means the lowered query occurs in the lowered name |
| ListsStore.RecurrentLists | src/stores/lists.ts:53-55 | only recurrent lists that match the search, every such list, in store order (how often each copy appears is fixed by `RecurrentListsDecomposes`) |
| ListsStore.ActiveLists | src/stores/lists.ts:57-59 | only non-recurrent lists that match the search, every such list, in store order (how often each copy appears is fixed by `ActiveListsDecomposes`) |
| ListsStore.RecurrentListsDecomposes | src/stores/lists.ts:53-55 | the recurrent view of a concatenation is the concatenation of the views, and a single list is kept exactly when it is recurrent and matches; so the view is fixed completely, duplicates included |
| ListsStore.ActiveListsDecomposes | src/stores/lists.ts:57-59 | the active view of a concatenation is the concatenation of the views, and a single list is kept exactly when it is not recurrent and matches; so the view is fixed completely, duplicates included |
| ListsStore.ViewsPartitionMatches | src/stores/lists.ts:53-59 | a matching list is in exactly one view; a non-matching one in neither |
| ListsStore.ViewsDisjoint | src/stores/lists.ts:53-59 | no list is in both views |
| ListsStore.ViewsCountMatches | src/stores/lists.ts:53-59 | the two views together are as long as the matching lists |
| ListsStore.EmptyQueryShowsEverything | src/stores/lists.ts:62-63 | with an empty query the views together hold every list |
| ListsStore.MatchesSearchIgnoresCase | src/stores/lists.ts:62-65 | the case of the query and of the name does not change the match |
| ListsStore.Deleted | src/stores/lists.ts:81-86 | the first list with the id is removed; without one nothing changes |
| ListsStore.NewList | src/stores/lists.ts:68-79 | an empty, unshared list, recurrent only when asked, id and dates from the clock |
| ListsStore.CreatedListIsShown | src/stores/lists.ts:53-79 | a created list that matches the search is appended to the view its flag selects |
| ListsStore.Store.constructor | src/stores/lists.ts:7-50 | the four seed lists and an empty query |
| ListsStore.Store.CreateList | src/stores/lists.ts:68-79 | `NewList` is appended |
| ListsStore.Store.DeleteList | src/stores/lists.ts:81-86 | the lists become `Deleted` of the old ones |
| ListsStore.Store.UpdateSearch | src/stores/lists.ts:88-90 | only the query changes |
| Notifications.IncreasingIdsAreUnique | src/composables/useNotification.ts:26 | ids handed out by the counter never repeat in the queue |
| Notifications.Removed | src/composables/useNotification.ts:46-51 | the first notification with the id is removed; without one nothing changes |
| Notifications.PushKeepsIncreasing | src/composables/useNotification.ts:26-34 | pushing with the current counter and advancing it keeps ids increasing and below the counter |
| Notifications.RemoveKeepsIncreasing | src/composables/useNotification.ts:46-51 | removal keeps ids increasing, and afterwards no notification has the removed id |
| Notifications.NotificationState.constructor | src/composables/useNotification.ts:15-18 | an empty queue and `nextId` 1 |
| Notifications.NotificationState.AddNotification | src/composables/useNotification.ts:21-44 | returns the old counter, advances it by one, appends the notification with timeout 4000 by default, and starts a removal timer exactly for a positive timeout |
| Notifications.NotificationState.RemoveNotification | src/composables/useNotification.ts:46-51 | the queue becomes `Removed` of the old one; the counter is untouched |
| Notifications.NotificationState.ShowSuccess | src/composables/useNotification.ts:53-55 | adds a success notification |
| Notifications.NotificationState.ShowError | src/composables/useNotification.ts:57-59 | adds an error notification |
| Notifications.NotificationState.ShowWarning | src/composables/useNotification.ts:61-63 | adds a warning notification |
| Notifications.NotificationState.ShowInfo | src/composables/useNotification.ts:65-67 | adds an info notification |
| Router.BeforeEach | src/router/index.ts:59-68 | a private path without a session goes to `login` with the full path as `redirect`; a public path with a session goes to `/`; otherwise the navigation proceeds |
| Router.RedirectTargetIsAllowed | src/router/index.ts:59-68 | where the guard redirects, it lets the navigation through: no redirect loop |
| Router.PublicIffHidesNavBar | src/router/index.ts:7-61 | the public paths are exactly the routes that hide the navigation bar, and each is a route |
| Router.AfterEach | src/router/index.ts:71-75 | `Listita - <title>` for a truthy page title, otherwise `Listita` |
| Router.AfterEachInjective | src/router/index.ts:71-75 | distinct truthy page titles give distinct document titles |
| Units.TableEntriesShaped | src/utils/units.ts:1-13 | unit names are words of at least four lower-case letters, and abbreviations are capitalised or shorter than four characters |
| Units.TableShape | src/utils/units.ts:1-13 | no abbreviation is empty, and none is itself a unit name |
| Units.ToUnitAbbreviation | src/utils/units.ts:15-18 | `null` for a missing or empty unit; the abbreviation of a known unit; any other unit unchanged |
| Units.NeverEmpty | src/utils/units.ts:15-18 | a result that is not `null` is never `''` |
| Units.Idempotent | src/utils/units.ts:15-18 | abbreviating twice equals abbreviating once |
| Units.Examples | src/utils/units.ts:1-18 | `unit` gives `U`, `kilograms` gives `Kg`, an unknown unit comes back, `''` gives `null` |
| Units.IndexTable | src/utils/units.ts:17 | indexing the object literal gives the own value of a known unit, an inherited member for a prototype name, and `undefined` for any other name |
| Units.ToUnitAbbreviationAsWritten | src/utils/units.ts:15-18 | the lookup as the code writes it: `null` for a falsy unit, whatever the index gives when it is not `undefined`, else the unit itself |
| Units.PrototypeKeyIsNotAString | src/utils/units.ts:17 | `toString` and `constructor` yield inherited functions, not strings |
| Units.AsWrittenAgreesOffPrototype | src/utils/units.ts:15-18 | apart from prototype member names, the code as written agrees with `ToUnitAbbreviation` |

## Left out

- The network, timers and the abort controller. Answers enter as `Result` parameters, and the 60-second timeout is not modelled. A timeout surfaces as an `AbortError` transport failure, which `Client.Settle` handles.
- The base URL (`VITE_API_BASE_URL` or `http://localhost:8080`). URLs are kept relative, as a path plus a map of search parameters. The order of search parameters is not kept, because the query object is a map.
- JSON encoding of bodies and the parsing of responses. Bodies are datatypes, and `metadata` values are kept as text.
- Case folding is ASCII only. `toLowerCase` on other letters is not modelled.
- Floating-point numbers. Quantities, prices and ids are integers.
- Dates are clock readings (`int`). `Date.now().toString()` ids are `Text.IntToString(now)`.
- Vue reactivity and Pinia. The `computed` getters are functions of the store fields.
- Aliasing: the in-place edits of the stores (`product.completed = ...`) are modelled as updates of the store's `seq`. Another holder of the same object would not see the change in the model.
- `PurchasesStore.MapPurchase`: the `as unknown as Purchase` cast between the API class and the store's type is not modelled. The store takes the server data in its own `Purchase` shape.
- `getPurchaseById` and `restorePurchase` of the purchases store only forward to `PurchaseApi.Get` and `PurchaseApi.Restore`, which are modelled. The forwarding itself is not.
- `changePassword`, `forgotPassword`, `sendVerification` and `resetPassword` of the auth store only await the `UserApi` request, which is modelled. The forwarding itself is not.
- `AuthStore.MapUser`: a `metadata: null` sent by the server is treated like a missing one, because `Option` does not distinguish them. `Object.assign` would copy the `null`.
- `GlobalProductsStore.Assigned`: an update object is modelled with `None` for a property it does not have, so a property present with the value `undefined` cannot be expressed. `Object.assign` copies such a property and blanks the field, but the model keeps the old value there, because `Option` does not distinguish a missing property from an `undefined` one.
- The `console.error` of a failed profile fetch is not modelled. The failure is swallowed, as in the source.
- `Notifications.NotificationState.AddNotification`: the timer that later calls `removeNotification` is not run. The model states only whether it is started. Its effect is `RemoveNotification`.
- The `controller?: AbortController` parameter of every endpoint method is not modelled.
- `src/composables/useInfiniteScroll.ts` and the views and components are not part of this model.

## Findings

| source | as written | input that shows it | evidently intended | confidence | as-written member | corrected member |
|---|---|---|---|---|---|---|
| src/utils/units.ts:17 | `UNIT_ABBREVIATIONS[unit] ?? unit` indexes a plain object literal, so a unit named like an `Object.prototype` member finds the inherited member | `toUnitAbbreviation('toString')` returns the `toString` function instead of a string, breaking the declared `string \| null` result | look up own keys only, and fall back to the unit itself for any other name | not executed | Units.PrototypeKeyIsNotAString | Units.ToUnitAbbreviation |

Two further points where the code differs from what one might expect, both followed by the model:

- The `Authorization` header requires a truthy token. An empty token sends no header, even though `isAuthenticated` holds for it (`AuthStore.Store.IsAuthenticated` tests only that a token is present).
- For the same empty token, `fetchProfile` does not call the server.
