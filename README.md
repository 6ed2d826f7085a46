# TurisMap client state, modelled in Dafny

TurisMap is a React Native app for tourists and local sellers in Manaus. Tourists browse
places, search them, keep favorites and build travel plans. Sellers keep a catalog of
products, each linked to a place, and a store profile. This project models the client-side
state the app keeps and the list and validation rules its screens apply:

- the favorites store and the favorites screen's one-slot undo;
- the seller store (catalog and profile), the shop-window availability switch and the
  product form;
- the plan store and the create/edit plan screen;
- the authentication session;
- the tourist-side product store;
- the place helpers: de-duplication by id, case-insensitive search, lookups by id and by
  seller, the quantity picker and the image-size check.

Conventions:

- Each zustand store and each screen with state slots is a `class`. Its methods say, with
  `modifies`, what they change and what the new state is.
- The list logic is pure functions over sequences, with lemmas about them. The generic
  `find`/`some`/`filter`/`findIndex` operations are in module `Lists`. The JavaScript
  string operations (`trim`, `toLowerCase`, `includes`, `replace`) are in module `Text`.
- Every remote call is an oracle parameter of type `Remote<T>`: the call either answers a
  value or rejects with an error. This covers Firestore, Firebase Auth and the profile
  lookups.
- A store method that awaits a call returns an `Outcome`, either `Done` or `Thrown(error)`.
  Its ghost result `loadingAtAwait` records that `isLoading` was true while the call was
  pending.
- The submit handlers of the two forms change nothing. They return what the handler
  decides: the failed check or the store call it issues.
- Dates are integer timestamps. Prices are `real`. `parseFloat` is an abstract parameter
  `string -> Option<real>`, where `None` stands for NaN.
- Image sources are opaque strings, and `""` stands for a falsy image.
- Files: one module per source file, plus `Base` for the shared wrappers and `MockData`
  for the bundled place and product lists as fixtures.

## Model

| member | source | states |
|---|---|---|
| Favorites.FavoritesStore.constructor | src/store/useFavoriteStore.ts:26 | the store starts with no favorites |
| Favorites.FavoritesStore.AddFavorite | src/store/useFavoriteStore.ts:28-31 | the new entry is appended at the end; the length grows by exactly one |
| Favorites.FavoritesStore.RemoveFavorite | src/store/useFavoriteStore.ts:33-42 | returns the first entry with the id, or none; with no entry the list is unchanged; otherwise every entry with the id is dropped, the id is no longer a favorite and the rest keep their order |
| Favorites.FavoritesStore.RestoreFavorite | src/store/useFavoriteStore.ts:44-47 | the entry is put at index 0, followed by the previous list unchanged |
| Favorites.FavoritesStore.ToggleFavorite | src/store/useFavoriteStore.ts:49-57 | the new list is `Favorites.Toggled` of the old one |
| Favorites.FavoritesStore.IsFavorite | src/store/useFavoriteStore.ts:59-60 | true exactly when some entry has the id |
| Favorites.Toggled | src/store/useFavoriteStore.ts:49-57 | toggling flips whether the id is a favorite |
| Favorites.ToggleTwiceAbsent | src/store/useFavoriteStore.ts:49-57 | toggling an absent entry twice gives back the original list |
| Favorites.ToggleKeepsIdsUnique | src/store/useFavoriteStore.ts:49-57 | toggling keeps "no two entries share an id" |
| Favorites.AddCanDuplicateId | src/store/useFavoriteStore.ts:28-31 | `addFavorite` appends unconditionally: adding a place whose id is already a favorite breaks id uniqueness, and on a list with unique ids adding a new id keeps them unique |
| Favorites.RestoreIsPermutation | src/store/useFavoriteStore.ts:33-47 | with unique ids, putting the one entry with its id back in front of the list without it gives a permutation of the original |
| Favorites.RemoveThenRestore | src/store/useFavoriteStore.ts:33-47 | remove then restore puts the removed entry at the head and makes the id a favorite again; with unique ids the result is a permutation of the original list, still with unique ids |
| FavoritesUndo.FavoritesScreen.constructor | src/screens/tourist/FavoritesScreen.tsx:16-17 | the screen starts with an empty undo slot and the snackbar hidden |
| FavoritesUndo.FavoritesScreen.HandleRemove | src/screens/tourist/FavoritesScreen.tsx:24-33 | an id that is not a favorite changes nothing; otherwise the store drops it, the undo slot holds the removed entry, overwriting any earlier one, and the snackbar shows |
| FavoritesUndo.FavoritesScreen.HandleUndo | src/screens/tourist/FavoritesScreen.tsx:40-46 | with an empty slot nothing changes; otherwise the entry goes back at the head, the slot is cleared and the snackbar hides |
| FavoritesUndo.FavoritesScreen.UndoWindowExpired | src/screens/tourist/FavoritesScreen.tsx:34-37 | the timer clears the slot and hides the snackbar without touching the favorites |
| SellerCatalog.FromRemote | src/store/userSellerStore.ts:64-73 | a catalog record keeps its fields; missing `placeIds` become `[]` |
| SellerCatalog.FromRemoteAll | src/store/userSellerStore.ts:64-73 | the converted list has the fetched list's length and order |
| SellerCatalog.Merge | src/store/userSellerStore.ts:124-126 | each key the update carries replaces that field; the other fields are kept |
| SellerCatalog.MergeNoChangeAndIdempotent | src/store/userSellerStore.ts:124-126 | the empty update is the identity; applying the same update twice is applying it once |
| SellerCatalog.UpdatedList | src/store/userSellerStore.ts:123-128 | the length is unchanged; each product with the id becomes its merge with the update; the others are unchanged |
| SellerCatalog.UpdateAbsent | src/store/userSellerStore.ts:123-128 | updating an id no product has leaves the list as it was |
| SellerCatalog.UpdateThenGet | src/store/userSellerStore.ts:123-154 | an update that does not carry `id` keeps every id, and `getProduct(id)` then returns the merged record of what it returned before |
| SellerCatalog.SellerStore.constructor | src/store/userSellerStore.ts:47-56 | no products, not loading, empty name, owner, description and Pix key, no logo, Pix key type CPF |
| SellerCatalog.SellerStore.LoadProducts | src/store/userSellerStore.ts:58-80 | on success the list is the converted fetched list; on failure the list is kept and the error is rethrown; afterwards `isLoading` is false and the profile is untouched |
| SellerCatalog.SellerStore.AddProduct | src/store/userSellerStore.ts:82-115 | on success exactly one record, carrying the created id, is appended at the end; on failure the list is kept and the error rethrown; `isLoading` ends false |
| SellerCatalog.SellerStore.UpdateProduct | src/store/userSellerStore.ts:117-133 | on success the list is `UpdatedList`; on failure it is kept and the error rethrown; `isLoading` ends false |
| SellerCatalog.SellerStore.DeleteProduct | src/store/userSellerStore.ts:135-149 | on success every product with the id is dropped, the others keep their order and `getProduct(id)` finds nothing; on failure the list is kept and the error rethrown |
| SellerCatalog.SellerStore.GetProduct | src/store/userSellerStore.ts:151-154 | returns the first product with the id, or none when no product has it |
| SellerCatalog.SellerStore.SetStoreInfo | src/store/userSellerStore.ts:156-161 | changes name, owner and description only |
| SellerCatalog.SellerStore.SetStoreLogo | src/store/userSellerStore.ts:163-166 | changes the logo only |
| SellerCatalog.SellerStore.SetPixInfo | src/store/userSellerStore.ts:168-172 | changes the Pix key and its type only |
| SellerCatalog.SellerStore.Persisted | src/store/userSellerStore.ts:177-185 | the persisted snapshot holds the products and the six profile fields |
| SellerCatalog.PersistedIgnoresLoading | src/store/userSellerStore.ts:177-185 | the persisted snapshot does not depend on `isLoading` |
| Vitrine.AvailabilityOnly | src/screens/seller/SellerVitrineScreen.tsx:53 | the switch's update carries `available` and no other key |
| Vitrine.AvailabilityOnlyChangesOnlyAvailable | src/screens/seller/SellerVitrineScreen.tsx:53 | merging it changes `available` and nothing else |
| Vitrine.ToggleTwiceRestores | src/screens/seller/SellerVitrineScreen.tsx:51-57 | two successful toggles restore the list |
| Vitrine.ToggleAvailability | src/screens/seller/SellerVitrineScreen.tsx:51-57 | on success the store holds the availability-only update; a failure is swallowed and the list stays as it was |
| Vitrine.ActiveProducts | src/screens/seller/SellerVitrineScreen.tsx:59 | at most the number of products; equal to it exactly when all are available; zero exactly when none is |
| Vitrine.ActiveProductsAppend | src/screens/seller/SellerVitrineScreen.tsx:59 | the count of a concatenation is the sum of the two counts |
| Vitrine.ActiveProductsSingleton | src/screens/seller/SellerVitrineScreen.tsx:59 | one product counts 1 when available and 0 otherwise |
| Vitrine.ActiveProductsCounts | src/screens/seller/SellerVitrineScreen.tsx:59 | the count equals the number of positions that hold an available product |
| ProductForm.FirstPlace | src/screens/seller/SellerProductsFormScreen.tsx:71-75 | the first linked place, or none exactly when there is none |
| ProductForm.ParsedPrice | src/screens/seller/SellerProductsFormScreen.tsx:131 | a price without a comma reaches `parseFloat` unchanged; otherwise only its first comma becomes a dot |
| ProductForm.CommaDecimalPrice | src/screens/seller/SellerProductsFormScreen.tsx:131 | `"12,50"` is parsed as `"12.50"` |
| ProductForm.DotDecimalPrice | src/screens/seller/SellerProductsFormScreen.tsx:131 | `"12.50"` is parsed as written |
| ProductForm.OnlyFirstCommaReplaced | src/screens/seller/SellerProductsFormScreen.tsx:131 | `"1,2,3"` is parsed as `"1.2,3"`: only the first comma is replaced |
| ProductForm.ProductFormScreen.constructor | src/screens/seller/SellerProductsFormScreen.tsx:48-54 | empty slots; the place comes from the route when it is truthy |
| ProductForm.ProductFormScreen.Prefill | src/screens/seller/SellerProductsFormScreen.tsx:62-78 | when editing a stored product it copies the product into the slots, the place being its first linked place or none; otherwise nothing changes |
| ProductForm.ProductFormScreen.SelectPlace | src/screens/seller/SellerProductsFormScreen.tsx:310 | selecting a place always sets it, so re-selecting keeps it selected |
| ProductForm.ProductFormScreen.HandleSubmit | src/screens/seller/SellerProductsFormScreen.tsx:114-171 | rejects for the first failing check, in order: user id and name, trimmed title, trimmed price, price parses above 0, a place; a valid form issues an update (trimmed fields, exactly one place, no `available`) or a create (trimmed fields, exactly one place, `available` true) |
| ProductForm.Perform | src/screens/seller/SellerProductsFormScreen.tsx:145-176 | the issued call reaches the store; a failure is swallowed and leaves the list unchanged |
| ProductForm.UpdateKeepsIdAndAvailability | src/screens/seller/SellerProductsFormScreen.tsx:149-155 | an edit never changes the product's id or availability and links exactly the chosen place |
| Plans.PlansStore.constructor | src/store/usePlanStore.ts:19 | the store starts with no plans |
| Plans.PlansStore.AddPlan | src/store/usePlanStore.ts:21-24 | appends at the end; the length grows by one |
| Plans.PlansStore.RemovePlan | src/store/usePlanStore.ts:26-29 | drops every plan with the id and keeps the others in order; an absent id changes nothing |
| Plans.AddThenRemove | src/store/usePlanStore.ts:21-29 | adding a plan with a fresh id and removing that id gives back the list |
| CreatePlan.ToggledSelection | src/screens/tourist/CreatePlanScreen.tsx:113-117 | a selected id is removed; otherwise it is appended |
| CreatePlan.ToggleKeepsSelectionUnique | src/screens/tourist/CreatePlanScreen.tsx:113-117 | the selection stays free of repeated ids |
| CreatePlan.ToggleTwiceAbsent | src/screens/tourist/CreatePlanScreen.tsx:113-117 | toggling an unselected id twice gives back the selection |
| CreatePlan.ToggleTwicePresentMoves | src/screens/tourist/CreatePlanScreen.tsx:113-117 | toggling a selected id twice moves it to the end: `["a","b"]` becomes `["b","a"]` |
| CreatePlan.ValidateDates | src/screens/tourist/CreatePlanScreen.tsx:109-111 | the dates are valid exactly when the start is not after the end |
| CreatePlan.DatesOrder | src/screens/tourist/CreatePlanScreen.tsx:109-111 | `end == start` is accepted, `end < start` rejected |
| CreatePlan.PlanForm.constructor | src/screens/tourist/CreatePlanScreen.tsx:50-54 | empty name and selection, online sync on, end date one day (86400000 ms) after the start |
| CreatePlan.PlanForm.TogglePlace | src/screens/tourist/CreatePlanScreen.tsx:113-117 | the selection becomes `ToggledSelection`; nothing else changes |
| CreatePlan.PlanForm.Prefill | src/screens/tourist/CreatePlanScreen.tsx:95-107 | when editing a stored plan its fields are copied and online sync is `!offline`; otherwise nothing changes |
| CreatePlan.PlanForm.HandleSave | src/screens/tourist/CreatePlanScreen.tsx:119-156 | rejects for the first failing check, in order: user id, trimmed name, date order, a place; saves exactly when all pass; the payload has the trimmed name, `offline = !syncOnline` and the places in selection order; with a plan id it updates that plan, otherwise it adds one for the user |
| CreatePlan.EditThenSave | src/screens/tourist/CreatePlanScreen.tsx:95-151 | prefilling a stored plan and saving sends back its `offline` flag, dates and places unchanged |
| Auth.RegisterInputError | src/store/useAuthStore.ts:92-98 | empty fields are reported first, then a password of fewer than 6 characters; none exactly when both checks pass |
| Auth.AuthStore.constructor | src/store/useAuthStore.ts:41-44 | no user, not authenticated, no type, not loading, and the session invariant holds |
| Auth.AuthStore.Persisted | src/store/useAuthStore.ts:202-206 | the persisted snapshot holds the user, the authentication flag and the type |
| Auth.AuthStore.IsUserType | src/store/useAuthStore.ts:195-197 | true exactly when authenticated with that type |
| Auth.AuthStore.Login | src/store/useAuthStore.ts:47-81 | a type mismatch keeps the session, so it never authenticates, and throws the sign-out's error or the mismatch; a match authenticates with the profile and requested type; `isLoading` ends false |
| Auth.AuthStore.Register | src/store/useAuthStore.ts:83-126 | invalid input throws its own validation error, whatever the backend would answer; success authenticates with the requested type; `isLoading` ends false |
| Auth.AuthStore.Logout | src/store/useAuthStore.ts:128-144 | success clears user, authentication and type; failure keeps them and throws the logout error |
| Auth.AuthStore.SetLoading | src/store/useAuthStore.ts:146-148 | sets `isLoading` only |
| Auth.AuthStore.InitAuthListener | src/store/useAuthStore.ts:150-161 | without an auth instance the session is cleared and not loading |
| Auth.AuthStore.OnAuthStateChanged | src/store/useAuthStore.ts:163-192 | no user clears the session; a found profile becomes the session; a missing profile changes nothing |
| ProductsCatalog.ProductsStore.constructor | src/store/useProductsStore.ts:15-16 | no products and not loading |
| ProductsCatalog.ProductsStore.LoadAllProducts | src/store/useProductsStore.ts:18-28 | success replaces the list with the answer; failure keeps it and rethrows; `isLoading` is true while pending and false after |
| ProductsCatalog.ProductsStore.LoadAvailableProducts | src/store/useProductsStore.ts:30-40 | as above, with the available-products query |
| ProductsCatalog.ProductsStore.LoadProductsByPlace | src/store/useProductsStore.ts:42-52 | as above, with the by-place query |
| ProductsCatalog.ProductsStore.GetProduct | src/store/useProductsStore.ts:54-56 | the first product with the id, or none |
| Lists.DedupFirst | src/screens/tourist/SearchScreen.tsx:25-27 | the `findIndex` filter keeps unique keys, in order, only first occurrences, and every key of the input |
| Places.AllPlaces | src/screens/tourist/SearchScreen.tsx:25-27 | the de-duplicated list has unique ids, keeps the original order, keeps every id and keeps the first place of each id; with unique ids it is the whole list |
| Search.Matches | src/screens/tourist/SearchScreen.tsx:31-33 | the empty query matches every place; a matching query is no longer than the title or the location |
| Search.FilteredPlaces | src/screens/tourist/SearchScreen.tsx:30-34 | every result matches the query, ignoring case, in title or location; every matching place is included; the results keep their order |
| Search.EmptyQueryListsAll | src/screens/tourist/SearchScreen.tsx:30-34 | the empty query lists every de-duplicated place |
| Search.Results | src/screens/tourist/SearchScreen.tsx:25-34 | every listed place matches, is the first place with its id in the two lists, and no id is listed twice |
| Search.LongerQueryNarrows | src/screens/tourist/SearchScreen.tsx:30-34 | if `q1` occurs in `q2`, every result for `q2` is a result for `q1` |
| Text.Trim | src/screens/seller/SellerProductsFormScreen.tsx:121 | the result is a slice of the input with only white space cut from each end, and does not start or end with white space |
| Text.TrimEmptyIff | src/screens/seller/SellerProductsFormScreen.tsx:121-129 | `!s.trim()` holds exactly for all-white-space strings |
| Text.TrimIdempotent | src/screens/seller/SellerProductsFormScreen.tsx:150 | trimming an already trimmed value changes nothing |
| Text.ToLower | src/screens/tourist/SearchScreen.tsx:32-33 | lower-casing maps character by character and keeps the length |
| Text.IncludesTransitive | src/screens/tourist/SearchScreen.tsx:32-33 | inclusion is transitive |
| Text.ReplaceFirst | src/screens/seller/SellerProductsFormScreen.tsx:131 | only the first occurrence is replaced and the length is kept |
| PlaceLookup.GetPlaceData | src/hooks/usePlace.ts:17-23 | the first match in `suggestions`, else the first in `popularPlaces`, else none |
| Lists.KeyMap | src/hooks/usePlace.ts:8-11 | every key of the list is in the map, and each entry is a list element carrying its key |
| PlaceLookup.GetPlaceImageAsWritten | src/hooks/usePlace.ts:4-15 | no place with the id gives none |
| PlaceLookup.AsWrittenTakesLast | src/hooks/usePlace.ts:8-11 | the `Map` keeps the last place with each id |
| PlaceLookup.AsWrittenAgreesWhenUnique | src/hooks/usePlace.ts:4-23 | with unique ids, `getPlaceImage` is the image of `getPlaceData` |
| PlaceLookup.AsWrittenKeepsLastDuplicate | src/hooks/usePlace.ts:8-11 | two places with id "1": the as-written lookup returns the second one's image |
| PlaceLookup.GetPlaceImage | src/hooks/usePlace.ts:4-15 | keeping the first place per id, the image always agrees with `getPlaceData` |
| ProductDetails.RelatedPlace | src/screens/tourist/ProductDetailsScreen.tsx:61-64 | the first place whose seller name is the product's seller; none exactly when there is no such place |
| ProductDetails.FavoriteEntry | src/screens/tourist/ProductDetailsScreen.tsx:66-75 | the product's id and title, rating 0, and the related place's image, falling back to the product's image |
| ProductDetails.NextQuantity | src/screens/tourist/ProductDetailsScreen.tsx:89-92 | the maximum of 1 and `q + delta` |
| ProductDetails.QuantityStaysPositive | src/screens/tourist/ProductDetailsScreen.tsx:47-92 | starting from 1, the quantity stays at least 1 under any sequence of changes |
| ProductDetails.StepByOne | src/screens/tourist/ProductDetailsScreen.tsx:90 | +1 increments by one; -1 stays at 1 and otherwise decrements by one |
| ProductDetails.ProductDetailsScreen.constructor | src/screens/tourist/ProductDetailsScreen.tsx:47 | the quantity starts at 1 |
| ProductDetails.ProductDetailsScreen.HandleQuantityChange | src/screens/tourist/ProductDetailsScreen.tsx:89-92 | the quantity becomes `NextQuantity` and stays at least 1 |
| ProductDetails.ProductDetailsScreen.HandleToggleFavorite | src/screens/tourist/ProductDetailsScreen.tsx:66-76 | toggles the built entry, so the product becomes a favorite exactly when it was not |
| ProductDetails.BoatTripFavoriteImage | src/screens/tourist/ProductDetailsScreen.tsx:61-68 | in the bundled data the boat trip's favorite shows the picture of "Encontro das Águas", the seller's first place |
| ImageService.ValidateImageSize | src/services/imageService.ts:84-89 | rejects exactly a known, non-zero size above the limit times 1048576 bytes |
| ImageService.UnknownSizeAccepted | src/services/imageService.ts:85 | a missing or zero size is accepted |
| ImageService.DefaultLimit | src/services/imageService.ts:84-88 | with the default limit, a size is accepted exactly when it is at most 5242880 bytes |
| ImageService.Monotone | src/services/imageService.ts:84-89 | a smaller non-zero size, or a larger limit, keeps an image accepted |
| MockData.BundledIdsUnique | src/data/mockData.ts:50-112 | ids are unique across the two bundled place lists, so de-duplication keeps them whole |

## Left out

- Firestore, Firebase Auth and the service wrappers are not modelled. Each remote call is an oracle answer passed in.
- Image picking, the camera and reading files as base64 are device I/O and are not modelled. Only the size check is modelled.
- Persistence to AsyncStorage is not modelled. Only the fields `partialize` keeps are recorded, as `Persisted()`.
- Concurrency between awaited calls is not modelled. Each store method runs to completion before the next starts, so other updates that land while a call is pending are not considered.
- Real timers are not modelled. The 4000 ms undo window is the explicit event `UndoWindowExpired`. The per-render timeout handle and `clearTimeout` are not modelled.
- Floating-point arithmetic is not modelled: prices are `real`, and NaN and Infinity do not exist. `parseFloat` and `toString` are abstract parameters. Price totals and `toFixed` in the purchase alert are left out.
- Date objects, the date picker and date formatting are not modelled. Dates are integer timestamps, and an invalid date is not represented.
- Rendering, navigation, alerts, styles and the `isSubmitting`/`saving` spinner flags are left out.
- Text.LowerChar: lower-cases ASCII and the Latin-1 capitals only. It does not model the rest of Unicode case mapping.
- Auth.RegisterInputError: counts code points, whereas `password.length` counts UTF-16 units. The two differ only for characters outside the Basic Multilingual Plane.
- CreatePlan.PlanForm.HandleSave: records the call the screen issues. It does not model what happens when the call runs. The screen calls `updatePlan`, `loadPlans` and a two-argument `addPlan(user.id, payload)`, but its plan store defines only a one-argument `addPlan` and `removePlan`.
- ImageService.ValidateImageSize: sizes are whole numbers of bytes, so a NaN size, which is falsy and accepted, is not represented.
- The favorites store's and the seller store's persisted copies are not reloaded at start-up. Every store starts from its initial state.

## Findings

| source | as written | input that shows it | evidently intended | confidence | as-written member | corrected member |
|---|---|---|---|---|---|---|
| src/hooks/usePlace.ts:8-13 | `new Map(allPlaces.map(p => [p.id, p]))` keeps one entry per id, but a later place with the same id overwrites the earlier one | a place with id "1" in `suggestions` and another with id "1" and a different image in `popularPlaces`: `getPlaceImage("1")` returns the second image, while `getPlaceData("1")` returns the first place | keep the first place per id, as the comment says, so that `getPlaceImage` agrees with `getPlaceData` | not executed | PlaceLookup.AsWrittenKeepsLastDuplicate | PlaceLookup.GetPlaceImage |
