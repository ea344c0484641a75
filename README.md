# Shopping assistant — a Dafny model of its services and list handlers

The shopping assistant is a browser application: users keep shopping lists,
see mock stores near them that stock what is on those lists, and set
preferences. This project models the logic below the user interface and proves
properties of it:

- **Settings store** (`SettingsStore`). One `Settings` record lives in browser
  storage under a single key. Reading falls back to the defaults. An update
  merges a partial record shallowly over the current value, then persists the
  merge and returns it. A reset persists and returns the defaults. The storage
  cell is `Absent | Empty | Malformed | Stored(Settings)`; JSON text is not
  modelled.
- **Nearby-store query** (`Stores`). Each catalog store is copied with a
  freshly computed distance. A copy is kept when it lies within the radius
  (100 m by default) and, when item names are given, when one of them matches
  an in-stock item, ignoring case. A second query looks a store up by id. The
  rounded haversine distance is a parameter `dist`, so every lemma holds for
  any distance function.
- **Geolocation service** (`Geolocation`). It keeps the id of its one watch,
  with start and an idempotent stop. It also maps platform error codes to
  messages, converts platform positions, and decides a permission request.
  The browser is an oracle: the class `Navigator` holds a support flag, hands
  out watch ids from a counter, and records the running watches and the
  `clearWatch` calls.
- **Home screen and list editor** (`Home`, `ListEditor`). The state is the
  lists, the list being edited and the editor's visibility, the user location
  and the nearby stores; for the editor, its title, items and item-form flag.
  Both are classes whose methods are the event handlers. Each list transform
  is a pure function with a lemma about it. Fresh ids (`Date.now()`) and
  timestamps are parameters.

`Seqs` gives JavaScript's `map`, `filter`, `some`, `find`, `flatMap` and
`Array.from(new Set(...))` each with its contract. `Ascii` gives
`toLowerCase` on ASCII letters. `Results` gives `Option` and `Result`.

Where the model departs from a literal reading:

- In the home screen's `ShoppingList` type an item's store field is `store`;
  the editor's items call it `storePreference`. Both are one field, `store`,
  here. Items seeded by the home screen carry no id; the editor's items do.
  So `ListItem.id` is optional, and removing an id-less item removes every
  id-less item (see `ListEditor.RemoveItemSpec`).
- The distance filter compares the integer distance with a real radius. The
  source compares JavaScript numbers.

## Model

| member | source | states |
|---|---|---|
| `SettingsStore.SettingsService.GetSettings` | src/lib/services/settings.ts:26-35 | an absent or empty cell yields exactly the defaults; a malformed one yields the defaults and stays malformed; a stored record is returned as stored; no `modifies`, so storage is never written |
| `SettingsStore.SettingsService.UpdateSettings` | src/lib/services/settings.ts:37-42 | the result is the patch merged over what a read would have returned, and the cell now stores exactly that result |
| `SettingsStore.SettingsService.ResetSettings` | src/lib/services/settings.ts:44-47 | returns the defaults and stores the defaults, whatever was stored before |
| `SettingsStore.MergeFields` | src/lib/services/settings.ts:39 | each field supplied by the patch overrides and each absent field keeps its current value; a supplied `notifications` record replaces the old one whole (shallow merge) |
| `SettingsStore.MergeChangesOnlySupplied` | src/lib/services/settings.ts:39 | a field that differs after the merge was supplied by the patch |
| `SettingsStore.MergeIdentities` | src/lib/services/settings.ts:37-42 | merging the empty patch, or the current value itself, gives the current value; merging a whole record gives that record |
| `SettingsStore.MergeComposes` | src/lib/services/settings.ts:37-42 | two successive updates equal one update by the later patch laid over the earlier; repeating an update changes nothing more |
| `SettingsStore.ToggleKeepsOtherFlags` | src/components/settings/SettingsDrawer.tsx:66-73 | the drawer's one-flag update sets that flag, takes the other two flags from the drawer's own copy and keeps every other setting; the stored flags survive only when that copy is current |
| `SettingsStore.UpdateThenGet` | src/lib/services/settings.ts:26-41 | a read after an update returns what the update returned (round trip) |
| `SettingsStore.ReapplyCurrent` | src/lib/services/settings.ts:26-42 | applying the current settings as an update leaves the observed settings unchanged, though a missing or malformed cell is now overwritten |
| `SettingsStore.ResetThenGet` | src/lib/services/settings.ts:26-47 | a read after a reset returns the defaults, whatever the prior state |
| `Geolocation.FormatErrorSpec` | src/lib/services/geolocation.ts:100-111 | the code is kept and the platform's message ignored; codes 1, 2 and 3 get their fixed messages, and exactly the other codes get "Unknown location error" |
| `Geolocation.FormatErrorDistinguishes` | src/lib/services/geolocation.ts:100-111 | the three known codes get three different messages, and no formatted error carries the unsupported-platform message |
| `Geolocation.FormatPosition` | src/lib/services/geolocation.ts:91-97 | latitude, longitude and accuracy are copied unchanged; the timestamp is the ISO rendering of the platform's timestamp |
| `Geolocation.RequestPermission` | src/lib/services/geolocation.ts:24-37 | false when the platform is unsupported or the query throws; otherwise true exactly when the state is not "denied" |
| `Geolocation.GetCurrentLocation` | src/lib/services/geolocation.ts:39-55 | unsupported: rejects with the not-supported message; otherwise resolves with the formatted position, or rejects with the formatted error |
| `Geolocation.GeolocationService.StartWatching` | src/lib/services/geolocation.ts:57-82 | unsupported: `onError` runs at most once, with code -1, only when given, and nothing changes; supported: one platform watch starts and its id overwrites `watchId`, the earlier watch left running |
| `Geolocation.GeolocationService.StopWatching` | src/lib/services/geolocation.ts:84-89 | afterwards `watchId` is none; the platform is told to clear exactly the recorded id when there is one, and is untouched otherwise, so a second stop does nothing |
| `Geolocation.RestartThenStop` | src/lib/services/geolocation.ts:71-89 | starting twice and then stopping twice (the second stop does nothing) clears only the second watch; the first keeps running |
| `Stores.RetainedIff` | src/lib/services/stores.ts:87-103 | a store is kept iff its distance is at most the radius (the radius itself included) and, when a non-empty item list is given, some requested name equals, lower-cased, the lower-cased name of an in-stock item |
| `Stores.MatchIgnoresCase` | src/lib/services/stores.ts:96-97 | lower-casing a requested name first changes no match, and names equal up to case match the same in-stock items |
| `Stores.NearbySound` | src/lib/services/stores.ts:77-103 | every returned store is a catalog entry with only `distance` changed, and that distance is the computed one from the query location; it lies within the radius and passes the item filter |
| `Stores.NearbyComplete` | src/lib/services/stores.ts:77-103 | every catalog store within the radius that passes the item filter is returned; with no item list or an empty one, every store within the radius is returned |
| `Stores.NearbyInCatalogOrder` | src/lib/services/stores.ts:77-103 | the result is a subsequence of the annotated catalog: catalog order, no sorting |
| `Stores.DefaultRadiusIs100` | src/lib/services/stores.ts:70 | with no radius the query behaves as with radius 100 |
| `Stores.OnlyStoreWithinRadiusReturned` | src/lib/services/stores.ts:88-89 | with one catalog store inside the radius and one outside and no item list, exactly the inside store is returned |
| `Stores.MilkFoundInAnyCase` | src/lib/services/stores.ts:92-99 | asking for "MILK" finds the store listing "Milk" in stock whenever that store is within the radius |
| `Stores.NoCatalogStoreStocksEggs` | src/lib/services/stores.ts:18-45 | no catalog store has "eggs", in any case, in stock |
| `Stores.EggsAreNeverFound` | src/lib/services/stores.ts:92-99 | asking for an item listed only as out of stock returns no store, for every location, radius and distance function |
| `Stores.StoreDetailsSpec` | src/lib/services/stores.ts:106-112 | the lookup returns the first catalog entry with the id, as stored, or none exactly when no entry has it |
| `Stores.StoreDetailsOfCatalog` | src/lib/services/stores.ts:110-111 | ids "1" and "2" return the two catalog entries and "3" returns none |
| `ListEditor.InitialItems` | src/components/lists/ListEditor.tsx:51 | the initial items are the default items, or the empty sequence when none are given |
| `ListEditor.Editor.constructor` | src/components/lists/ListEditor.tsx:36-52 | the initial title and items come from `defaultValues`, or from the editor's own fallback when the prop is absent; the item form starts closed |
| `ListEditor.AddItemSpec` | src/components/lists/ListEditor.tsx:54-61 | adding appends exactly one item, after the unchanged existing items; it carries the submitted name, quantity and store preference and the fresh id |
| `ListEditor.RemoveItemSpec` | src/components/lists/ListEditor.tsx:63-65 | removing drops exactly the items with the id: the rest keep their order and their number of copies, and with no such item nothing changes |
| `ListEditor.SaveEnabled` | src/components/lists/ListEditor.tsx:176 | saving is enabled iff the title is non-empty and there is at least one item |
| `ListEditor.SaveEnabledShowsRecommendations` | src/components/lists/ListEditor.tsx:143 | whenever saving is enabled the recommendations, shown only for non-empty items, are on screen |
| `ListEditor.Editor.SetTitle` | src/components/lists/ListEditor.tsx:88 | typing sets the title and changes nothing else |
| `ListEditor.Editor.OpenItemForm` | src/components/lists/ListEditor.tsx:101 | the add button opens the item form and changes nothing else |
| `ListEditor.Editor.HandleAddItem` | src/components/lists/ListEditor.tsx:54-61 | the items become the old items with the new one appended; the item form is closed and the title kept |
| `ListEditor.Editor.HandleRemoveItem` | src/components/lists/ListEditor.tsx:63-65 | the items become the old items without those carrying the id; nothing else changes |
| `ListEditor.Editor.HandleSave` | src/components/lists/ListEditor.tsx:67-70 | hands the current title and items to `onSave` unchanged, then signals the dialog closed |
| `Home.DeleteListSpec` | src/components/home.tsx:91-93 | delete removes every list with the id and keeps every other list, in order and with its number of copies |
| `Home.ReplaceListSpec` | src/components/home.tsx:96-103 | saving an edit changes only title and items of the lists with the edited id; ids, positions and the other lists are unchanged |
| `Home.AppendListSpec` | src/components/home.tsx:104-112 | saving a new list appends one list with the fresh id, title and items after the unchanged existing lists |
| `Home.AllItemNamesSpec` | src/components/home.tsx:56-58 | the collected names have no duplicates; each is some list item's name, and every list item's name is collected |
| `Home.HomeScreen.constructor` | src/components/home.tsx:26-46 | the screen starts with the one seeded list, the editor closed, no stores and the fixed start location |
| `Home.HomeScreen.EditorDefaultValues` | src/components/home.tsx:158-161 | the editor is given the edited list's title and items, or an empty title and no items |
| `Home.HomeScreen.HandleCreateList` | src/components/home.tsx:78-81 | opens the editor with no list being edited; the lists are unchanged |
| `Home.HomeScreen.HandleEditList` | src/components/home.tsx:83-89 | opens the editor on the first list with the id when one exists; otherwise the state is unchanged |
| `Home.HomeScreen.HandleDeleteList` | src/components/home.tsx:91-93 | the lists become the old lists without those carrying the id; nothing else changes |
| `Home.HomeScreen.HandleSaveList` | src/components/home.tsx:95-116 | while editing, the edited id's lists are replaced; otherwise a new list is appended; afterwards the editor is closed and no list is being edited |
| `Home.HomeScreen.SaveFromEditor` | src/components/home.tsx:154-162 | the editor's save reaches the home screen's save handler with the editor's title and items, the editor ends closed, and the location and shown stores are kept |
| `Home.HomeScreen.HandleLocationUpdate` | src/components/home.tsx:118-123 | the user location changes, to the new one, only while location sharing is on |
| `Home.HomeScreen.FetchStores` | src/components/home.tsx:50-65 | with location sharing off no store query is made and the shown stores stay; otherwise the shown stores are the query's result for the user location, the search radius and the collected item names |

## Left out

- The haversine formula and `Math.round` (src/lib/services/stores.ts:47-65). This is floating-point trigonometry; the rounded distance is the parameter `dist`.
- JSON serialisation. A stored string that parses to something that is not a full `Settings` record is not modelled. The source returns such a value as it is, without back-filling missing fields.
- `localStorage.setItem` failing (quota exceeded, storage disabled) is not modelled. In the source, `updateSettings` and `resetSettings` then throw (src/lib/services/settings.ts:40, 45).
- `Merge` treats a key present with the value `undefined` as absent. JavaScript's spread would copy the `undefined`.
- The simulated latency (`setTimeout`), `async`/`Promise` plumbing and the `try`/`catch` toast in `fetchStores`. In the model no query fails.
- The browser's position and error callbacks after `startWatching`, and real watch ids. Only `formatPosition` and `formatError`, which those callbacks apply, are modelled.
- `new Date(...).toISOString()` and `Date.now()`. They become parameters.
- The randomised recommendation data (src/components/lists/ListEditor.tsx:151-155). Only its visibility condition is modelled.
- React lifecycle. `useState` takes `defaultValues` only at mount, so a mounted editor keeps its first title and items. The model's editor is built from the defaults it is given. Effect scheduling and re-render races are not modelled.
- ListEditor.Editor.constructor: a `defaultValues` without `title` starts the source's title as `undefined`, which `handleSave` would pass on; the model uses the empty string. Both are falsy, so the save button is disabled either way, and the home screen always passes a string (src/components/home.tsx:159).
- Unicode case mapping. `toLowerCase` is modelled on ASCII letters only.
- All rendering, routing, the map widget, and the components that only display data.
