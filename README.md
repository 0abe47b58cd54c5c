# Vendor dashboard order list, in Dafny

This project models the order handling of the vendor dashboard screen of the
enatega multivendor store app. A restaurant vendor's screen does four things:

- it loads the vendor's profile and selects the first restaurant;
- it loads that restaurant's active orders;
- it keeps the local list in step with two realtime feeds: new orders are put
  in front of the list, and updates are spread into the order with the same id;
- it offers accept and reject controls on pending orders.

The model has three modules:

- `Orders` (`orders.dfy`): an order is a plain object, `map<string, Value>`.
  Object spread `{...order, ...updated}` is right-biased map union (`Merge`).
  `order.id === updated.id` is equality of the optional `id` field (`SameId`).
  The module also holds the six statuses, the colour and label tables with
  their fallbacks, and the PENDING gate on the action controls.
- `OrderList` (`order_list.dfy`): the two realtime transitions on the list,
  `Prepend` and `ApplyUpdate`. `Replay` runs a caller-chosen sequence of
  realtime callbacks.
- `Dashboard` (`dashboard.dfy`): the screen's five pieces of state as the class
  `DashboardScreen`. Its handlers are methods: profile load, order load,
  pull-to-refresh, the two feed callbacks, opening and closing the detail, and
  accept and reject.

Every awaited backend call is a parameter holding what the call returned or the
error it threw (`Result`). The accept and reject handlers return the status
change they send (`Mutation`), with the fixed 20-minute preparation time and the
fixed reason "No disponible". The order-loading handlers return the id of the
restaurant they asked orders for.

Three consequences of the code are worth stating:

- The list is not limited to the active statuses the order query filters on
  (lib/supabase/orders.ts:56). Insert events are not filtered by status, and an
  update that moves an order to DELIVERED or CANCELLED keeps it in the list
  until the next full reload (`OrderList.UpdateSetsStatus`).
- The detail view holds the very object the list held when it was opened. An
  update builds a new merged object for the list and never changes the old
  one, so the detail goes on showing the old value
  (`Dashboard.DetailIsSnapshot`).
- The refresh spinner does not always end: see Findings.

## Model

| member | source | states |
|---|---|---|
| `Orders.Field` | enatega-multivendor-store/screens/DashboardScreen.tsx:54 | property access `o[key]`: a value exactly when the key is present, and then the field's own value; otherwise undefined |
| `Orders.SameId` | enatega-multivendor-store/screens/DashboardScreen.tsx:54 | `order.id === updated.id` holds exactly when both objects lack an `id` (undefined === undefined) or both have one and the two are equal |
| `Orders.Merge` | enatega-multivendor-store/screens/DashboardScreen.tsx:54 | the merged order has the keys of both objects; a field present in the update takes the update's value; every other field keeps the order's value |
| `Orders.MergeKeepsId` | enatega-multivendor-store/screens/DashboardScreen.tsx:54 | merging an update that has the order's id leaves that id unchanged |
| `Orders.MergeIdempotent` | enatega-multivendor-store/screens/DashboardScreen.tsx:54 | spreading the same update twice gives the same object as spreading it once |
| `Orders.MergeAssociative` | enatega-multivendor-store/screens/DashboardScreen.tsx:53-55 | spreading two updates in turn equals spreading their merge once |
| `Orders.ParseStatus` | enatega-multivendor-store/screens/DashboardScreen.tsx:148-155 | a string names a status exactly when it is that status's stored name, and otherwise names none |
| `Orders.ParseName` | enatega-multivendor-store/screens/DashboardScreen.tsx:148-155 | each of the six status names parses back to its own status |
| `Orders.StatusColor` | enatega-multivendor-store/screens/DashboardScreen.tsx:147-157 | the colour is `#666` exactly when the string is not one of the six statuses; for a known status it is that status's own entry of the colour table |
| `Orders.StatusText` | enatega-multivendor-store/screens/DashboardScreen.tsx:159-169 | the label equals the input string exactly when the string is not a known status; for a known status it is that status's own fixed label from the table |
| `Orders.TablesCoverStatuses` | enatega-multivendor-store/screens/DashboardScreen.tsx:147-169 | the colour table and the label table are both keyed by exactly the six status names |
| `Orders.StatusTextDistinguishes` | enatega-multivendor-store/screens/DashboardScreen.tsx:160-167 | two statuses get the same label if and only if they are the same status |
| `Orders.StatusColorDistinguishes` | enatega-multivendor-store/screens/DashboardScreen.tsx:148-155 | two statuses get the same colour if and only if they are equal or both lie in {ACCEPTED, DELIVERED} |
| `Orders.IsActive` | enatega-multivendor-store/lib/supabase/orders.ts:56 | a status is active (PENDING, ACCEPTED, ASSIGNED, PICKED) exactly when it is neither DELIVERED nor CANCELLED |
| `Orders.OffersActions` | enatega-multivendor-store/screens/DashboardScreen.tsx:190 | the gate on the accept and reject controls (also at line 288) holds exactly when `order_status` is present and is the string "PENDING" |
| `Orders.OffersActionsIffPending` | enatega-multivendor-store/screens/DashboardScreen.tsx:190 | accept and reject are offered (on the card here, and the same test guards the detail at line 288) if and only if the order's status is PENDING; such an order is in the active set of lib/supabase/orders.ts line 56 |
| `OrderList.Prepend` | enatega-multivendor-store/screens/DashboardScreen.tsx:47 | a new order makes the list one longer, with the new order first and the old list after it unchanged |
| `OrderList.MergeIfSameId` | enatega-multivendor-store/screens/DashboardScreen.tsx:54 | the `map` callback never changes an order's id, spreads the update into an order of the same id, and returns any other order as it is |
| `OrderList.ApplyUpdate` | enatega-multivendor-store/screens/DashboardScreen.tsx:53-55 | an update keeps the list's length; each order whose id equals the update's id becomes the merge of the two; every other order stays identical in its place |
| `OrderList.UpdateKeepsIds` | enatega-multivendor-store/screens/DashboardScreen.tsx:53-55 | after an update the list holds the same ids in the same order |
| `OrderList.UpdatedFields` | enatega-multivendor-store/screens/DashboardScreen.tsx:54 | in an order the update reaches, every field of the update takes the update's value, every field missing from it keeps its prior value, and no other field appears |
| `OrderList.UpdateOfAbsentId` | enatega-multivendor-store/screens/DashboardScreen.tsx:54 | an update whose id is not in the list leaves the list unchanged |
| `OrderList.UpdateIdempotent` | enatega-multivendor-store/screens/DashboardScreen.tsx:54 | applying the same update twice gives the same list as applying it once |
| `OrderList.UpdatesCompose` | enatega-multivendor-store/screens/DashboardScreen.tsx:51-56 | two updates for one id applied in turn equal one update carrying the later fields merged over the earlier |
| `OrderList.LaterUpdateWins` | enatega-multivendor-store/screens/DashboardScreen.tsx:51-56 | after two updates for one id, the order they reach has each field from the later update, then from the earlier one, then its own; a field absent from the later update keeps its earlier value |
| `OrderList.UpdateSetsStatus` | enatega-multivendor-store/screens/DashboardScreen.tsx:53-55 | an update carrying a status string gives the reached order that status and removes nothing from the list, even when the status is outside the active set |
| `OrderList.PrependCountsId` | enatega-multivendor-store/screens/DashboardScreen.tsx:47 | a new order adds its id in front of the list's ids, so that id's count rises by one even when it is already listed |
| `OrderList.RedeliveredInsertDuplicates` | enatega-multivendor-store/screens/DashboardScreen.tsx:40-48 | an insert delivered twice leaves the same order, with the same id, in the first two places, ahead of the old list |
| `OrderList.Step` | enatega-multivendor-store/screens/DashboardScreen.tsx:40-56 | one callback: an insert makes the list one longer with the new order in front of the old list; an update keeps length and the ids in order |
| `OrderList.StepKeepsIds` | enatega-multivendor-store/screens/DashboardScreen.tsx:40-56 | after one callback of either feed the ids of the list before it are still, in order, the tail of the list's ids |
| `OrderList.Replay` | enatega-multivendor-store/screens/DashboardScreen.tsx:40-56 | over any sequence of callbacks the list never gets shorter and grows by at most one per callback (that no order is removed is `OrderList.ReplayKeepsOldIds`) |
| `OrderList.ReplayKeepsOldIds` | enatega-multivendor-store/screens/DashboardScreen.tsx:40-56 | over any sequence of insert and update callbacks no order is removed: the ids of the starting list stay, in the same order, at the end of the resulting list |
| `OrderList.ReplayLength` | enatega-multivendor-store/screens/DashboardScreen.tsx:40-56 | over any sequence of feed callbacks, the list grows by exactly the number of inserts |
| `OrderList.ReplayUpdatesKeepIds` | enatega-multivendor-store/screens/DashboardScreen.tsx:51-56 | a sequence of update callbacks alone keeps the list's ids, in the same order |
| `OrderList.ReplayConcat` | enatega-multivendor-store/screens/DashboardScreen.tsx:47-54 | each callback acts on the list the previous one left: replaying two runs one after the other equals replaying their concatenation |
| `Dashboard.DashboardScreen.constructor` | enatega-multivendor-store/screens/DashboardScreen.tsx:23-27 | at first there is no restaurant, the list is empty, no order is selected, the loading screen is on and the refresh spinner is off |
| `Dashboard.DashboardScreen.LoadProfile` | enatega-multivendor-store/screens/DashboardScreen.tsx:64-79 | a profile with a user and at least one restaurant selects the first restaurant; zero restaurants, a failed query or a null user keep the restaurant as it was; each of these three branches is reported; loading ends false in every outcome |
| `Dashboard.DashboardScreen.LoadOrders` | enatega-multivendor-store/screens/DashboardScreen.tsx:81-93 | without a restaurant nothing is asked and nothing changes; otherwise the orders are asked for that restaurant's id, the list becomes the fetched data on success and stays on failure, and the spinner ends false in both cases |
| `Dashboard.DashboardScreen.Refresh` | enatega-multivendor-store/screens/DashboardScreen.tsx:237-240 | pull to refresh raises the spinner and loads the orders; with a restaurant it ends as the order load does; without one the spinner stays up and the list is unchanged |
| `Dashboard.DashboardScreen.RefreshSettled` | enatega-multivendor-store/screens/DashboardScreen.tsx:237-240 | corrected refresh: the spinner ends false in every outcome; the list is replaced only when a restaurant is set and the fetch succeeds |
| `Dashboard.DashboardScreen.OnNewOrder` | enatega-multivendor-store/screens/DashboardScreen.tsx:47 | the insert callback puts the new order in front of the list and changes nothing else |
| `Dashboard.DashboardScreen.OnOrderUpdate` | enatega-multivendor-store/screens/DashboardScreen.tsx:51-56 | the update callback applies the update to the list and changes nothing else, the open detail included |
| `Dashboard.DashboardScreen.SelectOrder` | enatega-multivendor-store/screens/DashboardScreen.tsx:174 | tapping an order opens the detail on that order |
| `Dashboard.DashboardScreen.CloseDetail` | enatega-multivendor-store/screens/DashboardScreen.tsx:307 | closing the detail clears the selected order |
| `Dashboard.DashboardScreen.HandleAcceptOrder` | enatega-multivendor-store/screens/DashboardScreen.tsx:95-104 | sends ACCEPTED with a 20-minute preparation time; on success the detail closes and the orders reload; on failure nothing changes |
| `Dashboard.DashboardScreen.HandleRejectOrder` | enatega-multivendor-store/screens/DashboardScreen.tsx:106-128 | dismissing the dialog sends nothing and changes nothing; confirming sends CANCELLED with reason "No disponible", then on success the detail closes and the orders reload, and on failure nothing changes |
| `Dashboard.FirstOrderArrives` | enatega-multivendor-store/screens/DashboardScreen.tsx:29-48 | mount with one restaurant, an empty first load, then one insert: the orders were asked for that restaurant and the list is exactly the new order |
| `Dashboard.DetailIsSnapshot` | enatega-multivendor-store/screens/DashboardScreen.tsx:288-302 | once an order is open in the detail, an update to it changes the listed order to the merge but leaves the detail, and so its PENDING gate, on the value it had when opened |
| `Dashboard.RefreshWithoutRestaurant` | enatega-multivendor-store/screens/DashboardScreen.tsx:236-240 | after a profile load that selects no restaurant, a pull to refresh leaves the spinner on |
| `Dashboard.RefreshSettledWithoutRestaurant` | enatega-multivendor-store/screens/DashboardScreen.tsx:236-240 | the same run with the corrected refresh ends with the spinner off |

## Findings

| source | as written | input that shows it | evidently intended | confidence | as-written member | corrected member |
|---|---|---|---|---|---|---|
| enatega-multivendor-store/screens/DashboardScreen.tsx:237-240 | the refresh handler sets `refreshing` to true and calls `loadOrders`; `loadOrders` returns at line 82, before the `try`/`finally` that clears `refreshing`, when no restaurant is set | a vendor with zero restaurants, or a failed profile load, then a pull to refresh on the list, which is rendered once loading ends | the spinner comes down whatever the outcome, as it does after a failed fetch | not executed; medium | `Dashboard.RefreshWithoutRestaurant` (with `Dashboard.DashboardScreen.Refresh`) | `Dashboard.DashboardScreen.RefreshSettled` (with `Dashboard.RefreshSettledWithoutRestaurant`) |

## Left out

- Realtime subscription lifecycle (the effect at DashboardScreen.tsx:33-62): opening, tearing down and re-opening the two feeds is not modelled. Callbacks are a caller-chosen sequence (`OrderList.Replay`, or calls on the class), each run to completion.
- Async interleaving: each handler runs atomically on the current state. Stale closures, where `loadOrders` reads the restaurant of an earlier render, are not modelled.
- The effect that calls `loadOrders` when the restaurant changes (:33-37) and the mount effect that calls `loadProfile` (:29-31) are left to the caller, as `FirstOrderArrives` shows.
- Backend calls are parameters: `getVendorProfile`, `getActiveOrders`, `acceptOrder`, `rejectOrder` and the feeds' payloads. Their status filtering, ordering and single-row updates belong to the hosted database. lib/supabase/orders.ts is not part of this model beyond its active status set at line 56 (`Orders.IsActive`).
- `handleLogout` (:130-145): it only calls sign-out and navigation, both foreign calls.
- Alert texts, the modal, list rendering and styles (:171-507). Console logging is left out too, except that reading `profile.user.name` throws on a null user, which `LoadProfile` models as the error branch.
- The `if (loading)` rendering guard (:209-215): rendering only.
- `order_amount` and its `toFixed(2)` formatting: floating point. Amounts are opaque `Value`s.
- JavaScript object details. Key order is not modelled, and neither are fields whose value is `undefined`. `===` on object-valued ids (reference identity) is modelled as value equality, since ids are strings.
- `Orders.StatusColor`, `Orders.StatusText`: lookups reaching `Object.prototype` are not modelled. A status string such as `toString` would find an inherited member instead of the fallback; the model treats such a string as unknown.
- No guard against submitting accept or reject twice: the model allows two calls in a row and states nothing about them.
- The login screen, the login hook and the auth client are not part of this model.
