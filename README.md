# ordering-food, modelled in Dafny

A model of the business logic of a restaurant-ordering web site: three restaurants, a menu, and an admin area. The model covers:

- **The checkout's delivery-range gate** (`CheckoutInputs`).
  - Restaurant addresses are looked up in a fixed table after lower-casing the selection.
  - Addresses are geocoded.
  - An autocomplete place fills the address form.
  - The distance between restaurant and customer decides "within 8 km". When either location or the map is missing the verdict falls back to "unknown, may proceed".
- **The restaurant picker in the header** (`RestaurantSelector`): the table of three restaurants, the selection and its page.
- **The header** (`LuxuriousHeader`): the scroll-direction hook with its 10-pixel dead band, the hidden admin pages, transparency, the first-name display and the mobile menu.
- **The menu-item form** (`MenuItemForm`): the restaurant checkboxes, where the empty list means all restaurants, and the subcategory choices derived from the category.
- **The restaurant admin page** (`ManageRestaurantsPage`): create, edit, delete and the form's edit mode.
- **The menu-items endpoint**: how `POST` and `PUT` rewrite a request body before storing it, and which status each handler answers with.

Modules:

| file | module | what |
|---|---|---|
| `wrappers.dfy` | `Wrappers` | `Option` |
| `seqs.dfy` | `Seqs` | `filter`, `map`, `find` and `findIndex` on sequences, with their lemmas |
| `checkout.dfy` | `Checkout` | address table and lower-casing, `getComponent`, `fillFormFields`, eligibility, the event model and the class `CheckoutInputs` |
| `selector.dfy` | `Selector` | restaurant table, lookup, page paths and the class `RestaurantSelector` |
| `header.dfy` | `Header` | scroll hysteresis, its class `ScrollDirectionTracker`, page predicates, user name and the class `HeaderMenu` |
| `menu_form.dfy` | `MenuForm` | toggle, subcategory derivation and the class `MenuItemForm` |
| `restaurants_admin.dfy` | `RestaurantsAdmin` | list replace/remove by id and the class `ManageRestaurantsPage` |
| `menu_items_route.dfy` | `MenuItemsRoute` | JSON values, body rewriting and the four handlers |
| `site.dfy` | `Site` | facts that connect the components |

### How the components are modelled

**Checkout.** The checkout component is a set of React effects and callbacks.

- `Checkout.Step` models each outside happening as one atomic event: the map loads, the selection changes, an input is edited, a geocoder answers, or the autocomplete fires. Each event gives the next state and the geocoding requests it sends.
- `Checkout.Run` applies a sequence of events in order of completion.
- The class `CheckoutInputs` performs the same updates field by field. Each event method is proved to agree with `Step`.
- The maps library's distance function is the parameter `metres`. Its geocoder and autocomplete answers are events.

**Menu-items endpoint.**

- The handlers change the request body in place (`Post`, `Put`). Each is proved equal to a pure description of the result (`PostData`, `PutData`), and the lemmas and contracts are stated about that description.
- The object-id constructor is the parameter `convert`.
- Each database call is a parameter that gives the outcome for the data it receives.

### What the code does not do


- **Geocoder answers.** There are no per-request tokens: whichever geocoder answer completes last sets the location (`Checkout.LastUserAnswerWins`, `Checkout.LastRestaurantAnswerWins`).
- **Failed geocodes.** A failed geocode logs and changes nothing. It does not clear the location or reset eligibility (`Checkout.FailedGeocodeChangesNothing`).
- **Changing the restaurant.** Selecting a restaurant that has no address, or clearing the selection, sends no query and keeps the previous restaurant location. Eligibility is therefore not reset (`Checkout.UnknownRestaurantNoGeocode`).
- **Locations are never forgotten.** Once known, a location is never cleared (`Checkout.RunNeverClears`).

## Model

| member | source | states |
|---|---|---|
| Checkout.ToLower | src/components/layout/CheckoutInputs.js:54 | lower-casing keeps the length and lowers each character independently |
| Checkout.ToLowerKeepsLower | src/components/layout/CheckoutInputs.js:54 | a string without capitals is its own lower-cased form |
| Checkout.ToLowerIdempotent | src/components/layout/CheckoutInputs.js:54 | lower-casing twice is lower-casing once |
| Checkout.GetRestaurantAddress | src/components/layout/CheckoutInputs.js:46-55 | an address exists exactly when the lower-cased selection is a table key, and it is that key's (non-empty) table address; otherwise null |
| Checkout.RestaurantAddressIgnoresCase | src/components/layout/CheckoutInputs.js:53-55 | a selection and its lower-cased form find the same address |
| Checkout.RestaurantAddressKeys | src/components/layout/CheckoutInputs.js:46-50 | exactly `tolvsrød`, `teie` and `sentrum`, in any case, have an address |
| Checkout.FindComponent | src/components/layout/CheckoutInputs.js:234 | the position of the first component carrying the type, none exactly when no component carries it |
| Checkout.LowerChar | src/components/layout/CheckoutInputs.js:54 | the result is never an upper-case letter; a capital becomes the letter 32 code points above it, and other characters are kept |
| Checkout.ComponentFor | src/components/layout/CheckoutInputs.js:232-238 | the answer is "" or the long name of a component carrying one of the types |
| Checkout.ComponentForPriority | src/components/layout/CheckoutInputs.js:232-238 | when types before index i match nothing and type i matches, the answer is the long name of the first component carrying type i |
| Checkout.ComponentForNoMatch | src/components/layout/CheckoutInputs.js:237 | when no component carries any of the types, the answer is "" |
| Checkout.GetComponent | src/components/layout/CheckoutInputs.js:232-238 | the loop with early return computes the priority search described by the two lemmas above |
| Checkout.SetField | src/components/layout/CheckoutInputs.js:284-311 | the named address field takes the value, the others stay |
| Checkout.FillFormFields | src/components/layout/CheckoutInputs.js:240-257 | disabled leaves the form unchanged; otherwise the street is "route number" (so it contains a space); the phone is never touched |
| Checkout.FillFormFieldsEnabled | src/components/layout/CheckoutInputs.js:242-256 | the enabled form takes street, city (locality > postal_town > sublocality > administrative_area_level_2), postal code and country from the components |
| Checkout.Evaluate | src/components/layout/CheckoutInputs.js:164-218 | a distance exists exactly when both locations and the map are present, equals metres/1000 from restaurant to customer, and in-range holds iff the distance is unknown or at most 8 km |
| Checkout.RangeBoundary | src/components/layout/CheckoutInputs.js:199 | with both locations known, in range exactly when the library distance is at most 8000 m |
| Checkout.EligibilityEffect | src/components/layout/CheckoutInputs.js:164-218 | after the distance effect, distance, range flag and (when the page listens) `canProceed` agree with the locations; when the page does not listen `canProceed` is untouched; the props, locations, map, address and selection are untouched |
| Checkout.RestaurantGeocodeEffect | src/components/layout/CheckoutInputs.js:80-96 | a restaurant query is sent exactly when the map is there, the selection is truthy and has a table address, and it asks for that address |
| Checkout.AddressGeocodeEffect | src/components/layout/CheckoutInputs.js:221-229 | a customer query is sent exactly when street and city are both non-empty and the map is there |
| Checkout.Step | src/components/layout/CheckoutInputs.js:58-273 | props never change; the map never unloads and loads only for an enabled component; known locations stay known; requests are sent only with the map; a disabled component's address is never written |
| Checkout.Run | src/components/layout/CheckoutInputs.js:58-273 | over any events props never change, and a disabled component keeps its map state and address |
| Checkout.DisabledNeverGeocodes | src/components/layout/CheckoutInputs.js:357-374 | a disabled component never gets a map, so it never sends a geocoding request and its address is never written |
| Checkout.StepKeepsConsistent | src/components/layout/CheckoutInputs.js:164-218 | every event keeps distance, range flag and page gate in step with the locations |
| Checkout.RunKeepsConsistent | src/components/layout/CheckoutInputs.js:164-218 | every sequence of events does too |
| Checkout.RunNeverClears | src/components/layout/CheckoutInputs.js:26-31 | props never change, the map never unloads, and known locations are never cleared |
| Checkout.LastUserAnswerWins | src/components/layout/CheckoutInputs.js:259-273 | with the map loaded, the customer location is that of the last successful geocode or autocomplete answer to complete |
| Checkout.LastRestaurantAnswerWins | src/components/layout/CheckoutInputs.js:86-93 | the restaurant location is that of the last successful restaurant geocode to complete |
| Checkout.UnknownRestaurantNoGeocode | src/components/layout/CheckoutInputs.js:80-96 | selecting a restaurant without a table address sends nothing and changes only the selection |
| Checkout.FailedGeocodeChangesNothing | src/components/layout/CheckoutInputs.js:87-92 | a non-OK status or an empty answer leaves the state exactly as it was |
| Checkout.RequestsAreWellFormed | src/components/layout/CheckoutInputs.js:221-229 | every query sent is the current selection's table address, or "street, city" with both parts filled in, and only with the map loaded |
| Checkout.PlaceChangedFillsAndGeocodes | src/components/layout/CheckoutInputs.js:132-147 | a `place_changed` event whose place has geometry, on an enabled form with a map, moves the customer there, fills the form, and re-geocodes "street, city" when a city was found |
| Checkout.PlaceWithoutGeometryChangesNothing | src/components/layout/CheckoutInputs.js:134-137 | a place without geometry changes nothing |
| Checkout.CheckoutInputs.constructor | src/components/layout/CheckoutInputs.js:26-31 | the mounted state: no map, no locations, eligibility "unknown", consistent |
| Checkout.CheckoutInputs.UpdateEligibility | src/components/layout/CheckoutInputs.js:164-218 | the fields are updated as the distance effect describes |
| Checkout.CheckoutInputs.RequestRestaurantGeocode | src/components/layout/CheckoutInputs.js:80-96 | sends the restaurant query of the effect |
| Checkout.CheckoutInputs.RequestAddressGeocode | src/components/layout/CheckoutInputs.js:221-229 | sends the customer query of the effect |
| Checkout.CheckoutInputs.OnMapLoaded | src/components/layout/CheckoutInputs.js:58-77 | the new state and requests are those of the map-loaded event (nothing for a disabled component) |
| Checkout.CheckoutInputs.OnRestaurantSelected | src/components/layout/CheckoutInputs.js:80-96 | the new state and requests are those of the selection event |
| Checkout.CheckoutInputs.OnAddressEdited | src/components/layout/CheckoutInputs.js:348 | edits are ignored when disabled; otherwise the state and requests of the edit event |
| Checkout.CheckoutInputs.OnRestaurantGeocoded | src/components/layout/CheckoutInputs.js:86-93 | the new state is that of the restaurant-answer event |
| Checkout.CheckoutInputs.OnAddressGeocoded | src/components/layout/CheckoutInputs.js:259-273 | the new state is that of the customer-answer event |
| Checkout.CheckoutInputs.FillForm | src/components/layout/CheckoutInputs.js:240-257 | field by field, the form becomes `FillFormFields` of the old one; nothing else changes |
| Checkout.CheckoutInputs.OnPlaceChanged | src/components/layout/CheckoutInputs.js:132-147 | the new state and requests are those of the place event |
| Selector.IdsDistinct | src/components/layout/RestaurantSelector.js:17-42 | the three ids are pairwise distinct |
| Selector.FindRestaurant | src/components/layout/RestaurantSelector.js:58 | a found restaurant is in the table with that id; none exactly when no entry has the id |
| Selector.FindTableEntry | src/components/layout/RestaurantSelector.js:58 | looking up an entry's id finds that entry |
| Selector.PathFor | src/components/layout/RestaurantSelector.js:70-74 | the path is "/" followed by the id, except for `tolvsrød` |
| Selector.TablePaths | src/components/layout/RestaurantSelector.js:70-74 | the three paths are "/tolvsrod", "/sentrum", "/teie", pairwise different |
| Selector.RestaurantSelector.constructor | src/components/layout/RestaurantSelector.js:44-48 | no restaurant shown, dialog closed |
| Selector.RestaurantSelector.SyncWithSelection | src/components/layout/RestaurantSelector.js:52-62 | nothing before initialisation; then no selection opens the dialog, a selection shows the table entry with that id |
| Selector.RestaurantSelector.HandleSelectRestaurant | src/components/layout/RestaurantSelector.js:64-75 | stores the id, shows the restaurant, closes the dialog, navigates to its path; looking the id up again finds it |
| Selector.RestaurantSelector.TogglePopup | src/components/layout/RestaurantSelector.js:86 | flips the dialog and nothing else |
| Selector.RestaurantSelector.SetPopupOpen | src/components/layout/RestaurantSelector.js:101 | sets the dialog and nothing else |
| Header.ComputedDirection | src/components/layout/Header.js:32 | down exactly when the position increased |
| Header.ClampScroll | src/components/layout/Header.js:39 | never negative; non-negative positions are kept |
| Header.ScrollStep | src/components/layout/Header.js:31-39 | the remembered position is the clamped one; the direction only changes to the movement's direction, does when the movement exceeds 10, and does not within the dead band |
| Header.HookStep | src/components/layout/Header.js:27-46 | the direction is the listener's; the remembered position is the clamped offset while the direction holds, and the offset as it is when the direction changed and the effect re-subscribed |
| Header.Track | src/components/layout/Header.js:27-46 | no events keep the state; otherwise the remembered position is the last offset, clamped or (after a direction change) as it was |
| Header.TrackLast | src/components/layout/Header.js:27-46 | a run of events is the run without its last event followed by one hook step |
| Header.GentleScrollKeepsDirection | src/components/layout/Header.js:33-38 | any run of movements no larger than 10 keeps the direction |
| Header.TrackedPosition | src/components/layout/Header.js:27-46 | after a last event that kept the direction the remembered position is that offset clamped, never negative; after one that changed it, the offset unclamped |
| Header.OverscrollAfterDirectionChange | src/components/layout/Header.js:27-46 | from "up" at 0, the offsets 30, -5 leave -5 remembered, and 30, -5, 6 end "down" where a single listener would stay "up" |
| Header.ScrollDirectionTracker.constructor | src/components/layout/Header.js:25-28 | starts "up" at the current offset |
| Header.ScrollDirectionTracker.OnScroll | src/components/layout/Header.js:30-40 | performs one step of the update rule and reports whether the direction changed |
| Header.ScrollDirectionTracker.Resubscribe | src/components/layout/Header.js:27-46 | a direction change re-installs the listener from the unclamped current offset |
| Header.ScrollDirectionTracker.Scroll | src/components/layout/Header.js:27-46 | one scroll event moves the tracker by exactly one hook step |
| Header.IsScrolled | src/components/layout/Header.js:64 | scrolled exactly when the clamped position is past the 10-pixel mark |
| Header.IsRestaurantPage | src/components/layout/Header.js:97-98 | a restaurant page is a path below "/" that no admin prefix starts |
| Header.SecondCharacterNotAdmin | src/components/layout/Header.js:104-115 | a path whose second character begins none of the admin prefixes is not hidden |
| Header.RestaurantPagesShown | src/components/layout/Header.js:104-115 | none of the three restaurant pages starts with an admin prefix |
| Header.IsTransparent | src/components/layout/Header.js:96-101 | transparent exactly on "/", "/tolvsrod", "/teie", "/sentrum" when not scrolled |
| Header.SomePrefix | src/components/layout/Header.js:113-115 | true exactly when some listed page is a prefix of the path |
| Header.ShouldHideHeader | src/components/layout/Header.js:104-115 | hidden exactly when one of the seven admin prefixes starts the path |
| Header.AdminSubpagesHidden | src/components/layout/Header.js:104-119 | everything below an admin prefix is hidden |
| Header.PublicPagesShown | src/components/layout/Header.js:104-119 | home, menu and restaurant pages are not hidden |
| Header.BeforeFirstSpace | src/components/layout/Header.js:72 | a space-free prefix of the text, followed in it by a space unless it is all of it |
| Header.FirstName | src/components/layout/Header.js:71-73 | a name with a space is cut to the part before its first space; others are kept |
| Header.UserName | src/components/layout/Header.js:54 | the name when non-empty, else the e-mail, shortened to the first name |
| Header.HeaderMenu.constructor | src/components/layout/Header.js:57-58 | menu closed, not scrolled |
| Header.HeaderMenu.ToggleMenu | src/components/layout/Header.js:82-84 | flips the menu |
| Header.HeaderMenu.CloseMenu | src/components/layout/Header.js:86-88 | closes the menu |
| Header.HeaderMenu.HandleScroll | src/components/layout/Header.js:62-69 | scrolled exactly when more than 10 down |
| MenuForm.Without | src/components/layout/MenuItemForm.js:75 | removes every occurrence of the id and keeps every other id |
| MenuForm.WithoutKeepsOrder | src/components/layout/MenuItemForm.js:75 | removal distributes over concatenation (order kept) |
| MenuForm.WithoutAbsent | src/components/layout/MenuItemForm.js:75 | removing an absent id changes nothing |
| MenuForm.Toggle | src/components/layout/MenuItemForm.js:72-80 | flips membership of the id only; an absent id is appended at the end, a present one removed by `Without` |
| MenuForm.ToggleTwice | src/components/layout/MenuItemForm.js:72-80 | toggling an unselected id twice restores the list |
| MenuForm.ToggleKeepsDistinct | src/components/layout/MenuItemForm.js:72-80 | toggling keeps a duplicate-free list duplicate-free |
| MenuForm.AllRestaurantsChecked | src/components/layout/MenuItemForm.js:186 | the "All Restaurants" box is ticked exactly when no restaurant id is selected |
| MenuForm.FindCategory | src/components/layout/MenuItemForm.js:58 | the first category with the id; none exactly when no category has it |
| MenuForm.DeriveSubCategories | src/components/layout/MenuItemForm.js:56-66 | no category gives none; any choices are those of a listed category with that id |
| MenuForm.DeriveSubCategoriesFirstMatch | src/components/layout/MenuItemForm.js:57-63 | the first category with the id decides (missing subcategories give none); an unknown id gives none |
| MenuForm.MenuItemForm.constructor | src/components/layout/MenuItemForm.js:19-35 | every field starts from the edited item (or empty); no categories and no choices yet |
| MenuForm.MenuItemForm.RecomputeSubCategories | src/components/layout/MenuItemForm.js:56-69 | only the choices and the subcategory change: re-derived, and reset to the edited item's |
| MenuForm.MenuItemForm.CategoriesLoaded | src/components/layout/MenuItemForm.js:38-44 | only the categories, choices and subcategory change: categories stored, choices re-derived |
| MenuForm.MenuItemForm.SelectCategory | src/components/layout/MenuItemForm.js:131 | only the category, choices and subcategory change; a different category re-derives the choices, the same one changes nothing |
| MenuForm.MenuItemForm.SelectSubCategory | src/components/layout/MenuItemForm.js:151 | sets the subcategory |
| MenuForm.MenuItemForm.HandleRestaurantSelect | src/components/layout/MenuItemForm.js:72-80 | the selection becomes the toggle of the old one |
| MenuForm.MenuItemForm.SelectAllRestaurants | src/components/layout/MenuItemForm.js:186-187 | the selection empties and the "All Restaurants" box shows ticked |
| RestaurantsAdmin.WithField | src/app/restaurants/page.js:30-33 | only the named input changes |
| RestaurantsAdmin.ReplaceById | src/app/restaurants/page.js:54-60 | same length; entries with the id become the saved record, the rest are untouched |
| RestaurantsAdmin.RemoveById | src/app/restaurants/page.js:91-93 | no remaining entry has the id; every other entry remains |
| RestaurantsAdmin.RemoveByIdKeepsOrder | src/app/restaurants/page.js:91-93 | removal distributes over concatenation (order kept) |
| RestaurantsAdmin.RemoveByIdAbsent | src/app/restaurants/page.js:91-93 | removing an unlisted id changes nothing |
| RestaurantsAdmin.ReplaceByIdAbsent | src/app/restaurants/page.js:54-60 | replacing an unlisted id changes nothing |
| RestaurantsAdmin.ManageRestaurantsPage.constructor | src/app/restaurants/page.js:13-20 | empty list, empty form, not editing, no id |
| RestaurantsAdmin.ManageRestaurantsPage.RestaurantsLoaded | src/app/restaurants/page.js:23-27 | the list becomes the fetched one |
| RestaurantsAdmin.ManageRestaurantsPage.HandleInputChange | src/app/restaurants/page.js:30-33 | the form changes in the named input only |
| RestaurantsAdmin.ManageRestaurantsPage.Request | src/app/restaurants/page.js:40-43 | PUT to "/api/restaurants/" + id exactly when editing, POST to "/api/restaurants" otherwise |
| RestaurantsAdmin.OverlappingDeletesRestoreFirst | src/app/restaurants/page.js:91-93 | of two deletes started from the same list, the second answer shows the entry the first removed again, which a sequential filter would not |
| RestaurantsAdmin.ManageRestaurantsPage.Submit | src/app/restaurants/page.js:39-48 | changes nothing; captures edit mode, edited id and list at submission, and the request |
| RestaurantsAdmin.ManageRestaurantsPage.SubmitAnswered | src/app/restaurants/page.js:50-71 | on success: an edit replaces the captured id in the current list, a creation appends to the list captured at submission; then empty form and edit mode off (id kept); on failure nothing changes |
| RestaurantsAdmin.ManageRestaurantsPage.Delete | src/app/restaurants/page.js:84-89 | changes nothing; captures the id and the list on screen |
| RestaurantsAdmin.ManageRestaurantsPage.DeleteAnswered | src/app/restaurants/page.js:90-97 | on success the captured list without the id; on failure nothing changes |
| RestaurantsAdmin.ManageRestaurantsPage.HandleEdit | src/app/restaurants/page.js:108-116 | the form holds the restaurant, edit mode on with its id |
| RestaurantsAdmin.ManageRestaurantsPage.HandleCancelEdit | src/app/restaurants/page.js:119-123 | empty form, not editing, no id |
| MenuItemsRoute.WithIdField | src/app/api/menu-items/route.js:10-14 | the key survives exactly when truthy, then converted; other keys untouched |
| MenuItemsRoute.WithIdFieldDropsFalsy | src/app/api/menu-items/route.js:12-13 | a missing or falsy key is deleted, and deleting again changes nothing |
| MenuItemsRoute.ConvertRestaurantIds | src/app/api/menu-items/route.js:61-63 | never longer than the input |
| MenuItemsRoute.ConvertRestaurantIdsAppend | src/app/api/menu-items/route.js:61-63 | the rewrite distributes over concatenation (order kept) |
| MenuItemsRoute.ConvertRestaurantIdsSingle | src/app/api/menu-items/route.js:62-63 | "" disappears, any other id is converted |
| MenuItemsRoute.ConvertRestaurantIdsNoEmpty | src/app/api/menu-items/route.js:61-63 | without "" every id is converted in place |
| MenuItemsRoute.PostData | src/app/api/menu-items/route.js:9-21 | category and subcategory kept (converted) exactly when truthy; every other key exactly as received |
| MenuItemsRoute.WithoutId | src/app/api/menu-items/route.js:43 | `_id` is gone, everything else kept |
| MenuItemsRoute.WithRestaurantIds | src/app/api/menu-items/route.js:60-64 | an array `restaurants` is rewritten; anything else is untouched |
| MenuItemsRoute.PutData | src/app/api/menu-items/route.js:43-64 | no `_id`; category and subcategory as for POST; array restaurants rewritten, non-array kept; other keys as received |
| MenuItemsRoute.PutAgreesWithPost | src/app/api/menu-items/route.js:46-57 | without an array `restaurants`, PUT's data is POST's minus `_id` |
| MenuItemsRoute.CreatedResponse | src/app/api/menu-items/route.js:22-37 | 201 with the document exactly on success, 500 with the error message exactly on failure |
| MenuItemsRoute.SuccessResponse | src/app/api/menu-items/route.js:66-78 | 200 with `{success: true}` exactly on success, 500 with the message exactly on failure |
| MenuItemsRoute.ListResponse | src/app/api/menu-items/route.js:85-101 | 200 with the items exactly on success, 500 with the message on failure |
| MenuItemsRoute.Post | src/app/api/menu-items/route.js:5-38 | the store receives `PostData` of the body; the answer reflects its outcome |
| MenuItemsRoute.Put | src/app/api/menu-items/route.js:41-79 | `_id` is split off, the store receives `PutData`; the answer reflects its outcome |
| MenuItemsRoute.Get | src/app/api/menu-items/route.js:82-102 | the answer reflects the find outcome |
| MenuItemsRoute.QueryParam | src/app/api/menu-items/route.js:108 | the value of the first parameter with the name; none exactly when there is none |
| MenuItemsRoute.Delete | src/app/api/menu-items/route.js:105-123 | the id from the query goes to the store; the answer reflects its outcome |
| Site.EveryPickableRestaurantHasAddress | src/components/layout/CheckoutInputs.js:46-50 | every restaurant the picker offers has a checkout address |
| Site.PickedRestaurantPageHasHeader | src/components/layout/RestaurantSelector.js:70-74 | every picked restaurant's page is a restaurant page of the header, shown, transparent exactly when not scrolled |
| Site.EncodeSubmission | src/app/menu-items/new/page.js:21-27 | the posted body has the form's nine keys, with category, subcategory and restaurant ids as strings |
| Site.NewItemReachesStore | src/components/layout/MenuItemForm.js:91-102 | a new item is stored with category/subcategory exactly when chosen, and with the form's restaurant list (empty meaning all) |
| Site.UpdatedItemRestaurants | src/app/api/menu-items/route.js:60-64 | an update converts every selected restaurant id in order when none is empty |

The submit payload (src/components/layout/MenuItemForm.js:91-102) is `MenuForm.MenuItemForm.Submit`. It carries no contract of its own; `Site.EncodeSubmission` and `Site.NewItemReachesStore` state what happens to it.

## Left out

- Rendering, styling, animation and the map's markers, polyline and bounds: they produce no state the logic reads.
- The distance function: `computeDistanceBetween` is the parameter `metres`. Spherical geometry and floating point are not modelled, and distances are exact reals.
- The geocoder, the autocomplete widget, `fetch`, `toast` and `router.push`.
  - Their answers are events or parameters.
  - Their timing is the order of the events. The admin page's handlers capture values when they start (see `Submit` and `Delete`).
  - The navigation target is returned as a path.
- Checkout.CheckoutInputs.OnAddressGeocoded: an `OK` answer with no results makes the source throw a TypeError. The model treats it as a failed answer that changes nothing.
- Checkout.ToLower: lower-cases only Basic Latin and Latin-1 letters. Other Unicode case mappings are not modelled.
- Lookups through an object's prototype (for example a selection of `constructor`) are not modelled. Only the table's own keys are.
- The `disabled` prop is fixed for each instance. A change of `disabled` while the page is mounted is not modelled.
- The name and e-mail inputs write the page's own state and are not modelled. The country has no input: only `fillFormFields` writes it, so an edit event for it has no counterpart in the page.
- The `deliveryOption` prop is not modelled. The map exists only if the component was enabled and in delivery mode when the maps script loaded: the map element is rendered only then, and the map effect re-runs only when the script loads. A later switch to pickup re-runs no effect, so the distance and the verdict stay as they were. In pickup mode the street and city inputs are not shown.
- RestaurantsAdmin.ManageRestaurantsPage.SubmitAnswered and DeleteAnswered: the toast messages and the order in which overlapping requests are answered are not modelled. Each answer is applied to the state as it is when it arrives, with the values captured by `Submit` or `Delete`.
- Header.HookStep: the re-subscription after a direction change reads the offset of the event that changed the direction. A scroll event that arrives between that render and the effect re-run is not modelled.
- The marker reference is assumed to exist once the map exists: it is created in the same effect.
- MenuItemsRoute.ConvertRestaurantIds: its own contract states only the length bound. Its content is stated by the three `ConvertRestaurantIds…` lemmas.
- The object-id constructor is the total parameter `convert`. Its exception on malformed ids (which the handler does not catch) is not modelled.
- Failures of `mongoose.connect` are not modelled.
- Request bodies that are not JSON objects are not modelled.
- The JSON encoding itself is not modelled. A body is the map it parses to.
- The restaurants endpoint, the database schemas, the restaurant context's browser storage, session handling and the background component are not part of this model.
- MenuForm.MenuItemForm.Submit: it assembles the payload and has no contract of its own.
- The categories and restaurants fetches of the menu-item form are modelled only by the loaded data (`CategoriesLoaded`). The restaurant list it shows is not modelled.
