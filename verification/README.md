# Weekly demand board — a Dafny model

This project models the two halves of a weekly demand-tracking board.

**The demand API** (a FastAPI service over a MongoDB collection) stores "demands". A demand is a task card with:

- an id of the form `DMD-0001`;
- a description and a responsible person;
- a priority (alta, media or baixa);
- one of five organisational sub-groups;
- a board category (last week, this week or stalled);
- creation and modification timestamps.

The API supports create, list with optional filters, get, partial update, delete and bulk delete.

**The board client** (the React `App` component) does the following:

- loads all demands;
- filters them by priority and by sub-group;
- shows them in three sections, one per category;
- lets the user reorder cards inside a section;
- moves a card to another section by drag and drop (a category-only update, then a reload);
- selects cards in a delete mode and bulk-deletes them;
- creates demands from a form;
- pages through one section in a full-screen presentation view.

Modules:

- `Domain` (domain.dfy) holds the enumerations and the record types exchanged between client and server.
- `Seqs` (seqs.dfy) holds an order-preserving `Filter` with its lemmas. Both the client's `Array.filter` and the server's `find` are this filter.
- `DemandIds` (demand_ids.dfy) holds the `DMD-{n:04d}` id format, its parser and their round trip.
- `DemandStore` (store.dfy) models the API handlers. The class `Collection` holds the stored records as a `seq<Demand>` in natural order, and its methods are the handlers. Pure functions state what each handler leaves behind, and lemmas state what the handlers promise.
- `Board` (board.dfy) models the client. The class `App` has one field per state hook, and its methods are the event handlers. A handler does not perform HTTP: it returns the list of requests it issues, and the parameter `serverOk` says whether the server answered with success. The derived views (`ApplyFilters`, `DemandsByCategory`, `Reordered`, `Toggled`) are pure functions with lemmas.
- `Presentation` (presentation.dfy) models the presentation view's clamped page index as the class `PresentationMode`.
- `Scenario` (scenario.dfy) connects both halves.
  - A completed form, posted and refetched while fewer than 1000 records are stored, lands in the this-week section.
  - A dropped card's update reaches the first stored record with the card's id, which is the card itself when ids are unique. That record changes only its category and modification time, and moves to the target section. When an earlier record shares the id, that record moves instead and the dragged card stays where it was.

Card moves are not optimistic in this code. The drop sends a category-only PUT, and only a successful answer triggers a reload. Nothing is changed locally first, so there is nothing to roll back, and the model follows that. The application has none of the following features, and they are not modelled:

- rollback of a move;
- splitting comma-joined multi-value fields;
- editing observations;
- delivery dates;
- several responsibles per card.

## Model

| member | source | states |
|---|---|---|
| `DemandIds.ParseFormatRoundTrip` | backend/server.py:96-97 | reading the number back out of `DMD-{n:04d}` gives `n` for every `n`, leading zeros included |
| `DemandIds.FormatId` | backend/server.py:97 | the id starts with "DMD-" and has at least four characters after it (its number is read back by `ParseFormatRoundTrip`) |
| `DemandIds.FormatIdShape` | backend/server.py:97 | an id is "DMD-" followed only by digits, at least four of them (backend_test.py:75 checks the prefix) |
| `DemandIds.FormatIdInjective` | backend/server.py:97 | two ids are equal exactly when their sequence numbers are equal |
| `DemandStore.FirstMatch` | backend/server.py:123 | `find_one` by id finds nothing exactly when no record has the id; otherwise it finds the first record with that id |
| `DemandStore.NextId` | backend/server.py:96-97 | the id `create_demand` assigns carries the number of stored records plus one |
| `DemandStore.NewRecord` | backend/server.py:95-102 | the stored record has equal creation and modification times, and is in this week when no category is sent (the full field list is `NewRecordFields`) |
| `DemandStore.Merge` | backend/server.py:134-138 | an update never changes a record's id or creation time (the field-by-field rule is `MergeSemantics`) |
| `DemandStore.WithoutIds` | backend/server.py:152 | a record survives the bulk delete exactly when its id is not in the list (order and count are `BulkDeleteExact`) |
| `DemandStore.Listing` | backend/server.py:113-118 | a listing holds at most 1000 records, each agreeing with every supplied parameter; it is the leading part of all matching records in stored order, and it is all of them when at most 1000 match, and exactly the first 1000 when more match |
| `DemandStore.Collection.Find` | backend/server.py:130 | the scan returns the index `FirstMatch` gives: the first record with the id, or none |
| `DemandStore.Collection.Create` | backend/server.py:93-105 | the stored collection grows by exactly the returned record, appended after the existing ones; the record's id is built from the record count before the insert |
| `DemandStore.Collection.List` | backend/server.py:107-119 | the scan, stopping at the 1000th match, returns exactly `Listing` of the stored records |
| `DemandStore.Collection.Get` | backend/server.py:121-126 | an unknown id fails with NotFound; a known id returns the first record carrying it |
| `DemandStore.Collection.Update` | backend/server.py:128-141 | an unknown id fails with NotFound and leaves the collection unchanged; otherwise only the first matching record is replaced by its merge with the patch, and that record is returned |
| `DemandStore.Collection.Delete` | backend/server.py:143-148 | an unknown id fails with NotFound and changes nothing; otherwise exactly the first matching record is removed |
| `DemandStore.Collection.BulkDelete` | backend/server.py:150-153 | the collection becomes `WithoutIds` of the old one, and the reported count is the number of records removed; it never fails |
| `DemandStore.MergeKeepsFirstMatch` | backend/server.py:138-140 | after the update, reading the record back by id finds the record that was updated |
| `DemandStore.MergeSemantics` | backend/server.py:134-138 | each field takes the patch's value exactly when the patch supplies one; id and creation time never change; the modification time becomes `now` exactly when the patch is non-empty; an empty patch changes nothing |
| `DemandStore.MergeIdempotent` | backend/server.py:134-138 | applying the same patch twice gives the same record as applying it once |
| `DemandStore.CategoryOnlyUpdate` | backend/server.py:134-141 | a category-only patch returns the record with the new category and a new modification time, everything else equal (what backend_test.py:155-156 checks) |
| `DemandStore.NewRecordFields` | backend/server.py:95-102 | a created record keeps every submitted field; it is in this week when no category is sent; its two timestamps are equal; its id is "DMD-" followed by the count plus one, at least four digits |
| `DemandStore.CreateKeepsFindable` | backend/server.py:99-105 | after a create, every id stored before is found at the same position as before, and an id not stored before is found only at the new record |
| `DemandStore.BulkDeleteExact` | backend/server.py:150-153 | a record survives exactly when its id is not listed, and survivors keep their order; an empty list removes nothing; the number removed equals the number of records whose id is listed |
| `DemandStore.DeleteForgetsUniqueId` | backend/server.py:143-148 | when ids are unique, a successful delete leaves the id unknown (the 404 backend_test.py:232-233 expects) |
| `DemandStore.DeleteLeavesDuplicateFindable` | backend/server.py:145 | when two records share an id, a successful delete leaves a record that the id still finds |
| `DemandStore.CountIdReusedAfterDelete` | backend/server.py:96-97 | records created one after another have unique ids, yet after deleting any record but the newest, the next create duplicates the newest record's id |
| `DemandStore.FreshId` | backend/server.py:96-97 | corrected id: one more than the largest sequence number in use, never equal to a stored id |
| `DemandStore.MaxIdNumber` | backend/server.py:96-97 | bounds the sequence number of every well-formed stored id (used by the corrected id) |
| `DemandStore.FreshCreateKeepsIdsUnique` | backend/server.py:99-104 | creating with the corrected id keeps every id in the collection unique |
| `DemandStore.DeleteKeepsIdsUnique` | backend/server.py:143-148 | removing a record keeps the remaining ids unique |
| `DemandStore.BulkDeleteKeepsIdsUnique` | backend/server.py:150-153 | a bulk delete keeps the remaining ids unique |
| `DemandStore.UpdateKeepsIdsUnique` | backend/server.py:128-141 | an update keeps every id, so unique ids stay unique |
| `DemandStore.ListingHidesRecordsPastLimit` | backend/server.py:118 | once 1000 records exist, the unfiltered listing returns the first 1000, so any record created afterwards is never listed |
| `Board.ApplyFilters` | frontend/src/App.js:231-243 | the view is never longer than the demands, and holds a demand exactly when it is among the demands and passes both selectors |
| `Board.DemandsByCategory` | frontend/src/App.js:303-305 | a section holds a demand exactly when the view holds it with that section's category, and keeps the view's order (the order of the cards, of the reorder group and of the presentation) |
| `Board.Reordered` | frontend/src/App.js:307-311 | after a reorder the view holds a demand exactly when it was in another section or is in the new order |
| `Board.Toggled` | frontend/src/App.js:297-301 | after a toggle the id is selected exactly when it was not selected before |
| `Board.FormComplete` | frontend/src/App.js:246 | the client-side guard: a draft is posted only with a non-empty description and responsible (its effect is stated by `App.CreateDemand`) |
| `Board.ApplyFiltersIsOneFilter` | frontend/src/App.js:231-243 | the two successive filters select exactly the demands that pass both selectors, in order |
| `Board.ApplyFiltersSpec` | frontend/src/App.js:231-243 | the filtered view is an order-preserving subsequence of the demands; every element matches each selector that is not "all"; every matching demand is kept; with both selectors on "all" the view equals the demands |
| `Board.ApplyFiltersIdempotent` | frontend/src/App.js:231-243 | re-applying the same selectors to the filtered view changes nothing |
| `Board.ApplyFiltersOrderIndependent` | frontend/src/App.js:234-240 | filtering by sub-group first and by priority second gives the same view as the client's order |
| `Board.SectionsPartition` | frontend/src/App.js:303-305 | the three sections together hold each filtered demand exactly as often as the view does; a demand is in a section exactly when it has that section's category |
| `Board.ReorderedSections` | frontend/src/App.js:307-311 | after reordering section `c`, that section reads exactly the new order and every other section is unchanged |
| `Board.ReorderedPermutation` | frontend/src/App.js:307-311 | when the new order permutes section `c`, the new filtered view permutes the old one |
| `Board.ToggledMembership` | frontend/src/App.js:297-301 | toggling leaves every other id's membership as it was, and appends an absent id at the end |
| `Board.ToggledNoDup` | frontend/src/App.js:297-301 | a selection without duplicates stays without duplicates |
| `Board.ToggleTwiceFromAbsent` | frontend/src/App.js:297-301 | toggling an absent id twice gives back the identical selection |
| `Board.ToggleTwiceFromPresent` | frontend/src/App.js:297-301 | toggling a present id twice gives back the same ids; the toggled one is now last |
| `Board.App.constructor` | frontend/src/App.js:196-211 | initial state: no demands, both selectors "all", dialogs closed, no delete mode and no selection, no presentation, the default draft (`DefaultForm`: empty texts, media, the first sub-group, this week), no drag |
| `Board.App.ReceiveDemands` | frontend/src/App.js:217-229 | a successful fetch replaces the demands, and the view becomes their filtered version |
| `Board.App.SetFilterPriority` | frontend/src/App.js:341 | a priority selector different from the current one (the select reports only changes) is set, and the view is recomputed from the demands |
| `Board.App.SetFilterSubgroup` | frontend/src/App.js:356 | a sub-group selector different from the current one is set, and the view is recomputed from the demands |
| `Board.App.ClearFilters` | frontend/src/App.js:369-376 | available only while some selector is not "all"; both selectors become "all", and the view becomes every demand |
| `Board.App.HandleReorder` | frontend/src/App.js:307-311 | the view becomes the other sections' demands followed by the new order; section `c` reads the new order; other sections are untouched; the view stays a permutation of the filtered demands |
| `Board.App.EnterDeleteMode` | frontend/src/App.js:487 | delete mode is on, and only that flag changes |
| `Board.App.CancelDelete` | frontend/src/App.js:498-501 | delete mode is off and the selection is empty, with no request |
| `Board.App.ToggleSelect` | frontend/src/App.js:297-301 | the selection becomes `Toggled` of the old one, and the id is selected exactly when it was not selected before |
| `Board.App.DeleteSelected` | frontend/src/App.js:279-295 | an empty selection issues nothing and changes nothing; otherwise one bulk delete of exactly the selection is issued; on success the selection empties, delete mode ends and a refetch follows; on failure nothing changes |
| `Board.App.OpenCreateModal` | frontend/src/App.js:475 | the dialog opens and the draft is kept |
| `Board.App.CloseCreateModal` | frontend/src/App.js:586 | the dialog closes and the draft is kept |
| `Board.App.SetDescription` | frontend/src/App.js:535 | only the draft's description changes |
| `Board.App.SetPriority` | frontend/src/App.js:543 | only the draft's priority changes |
| `Board.App.SetSubgroup` | frontend/src/App.js:557 | only the draft's sub-group changes |
| `Board.App.SetResponsible` | frontend/src/App.js:574 | only the draft's responsible changes |
| `Board.App.CreateDemand` | frontend/src/App.js:245-267 | a draft with an empty description or responsible issues no POST and leaves dialog and draft as they were; otherwise the draft is posted; on success the dialog closes, the draft resets to the defaults (media, first sub-group, this week) and a refetch follows |
| `Board.App.DragStart` | frontend/src/App.js:451-453 | a drag records the card, except in delete mode, where nothing happens |
| `Board.App.DragEnd` | frontend/src/App.js:454 | the dragged card is cleared |
| `Board.App.DragOver` | frontend/src/App.js:400-403 | the hovered section is recorded |
| `Board.App.DragLeave` | frontend/src/App.js:404 | only the hovered section is cleared |
| `Board.App.Drop` | frontend/src/App.js:405-412 | a move is requested only for a dragged card from another section; both drag fields end cleared whatever happens |
| `Board.App.MoveDemand` | frontend/src/App.js:269-277 | a category-only PUT for the card, followed by a refetch only when it succeeds; no local state changes |
| `Board.App.OpenPresentation` | frontend/src/App.js:418-422 | presentation opens on a section only when that section's filtered demands are non-empty |
| `Board.App.ClosePresentation` | frontend/src/App.js:602 | presentation closes |
| `Presentation.PrevIndex` | frontend/src/App.js:159-160 | previous moves back one page, and is a no-op exactly on the first page |
| `Presentation.NextIndex` | frontend/src/App.js:169-170 | next moves forward one page, stays within the list, and is a no-op exactly on the last page |
| `Presentation.NextTimesClamps` | frontend/src/App.js:169-170 | `k` presses of next advance `k` pages, stopping at the last |
| `Presentation.PrevTimesClamps` | frontend/src/App.js:159-160 | `k` presses of previous go back `k` pages, stopping at the first |
| `Presentation.OverPaging` | frontend/src/App.js:158-177 | from any page, `n`+5 presses of next reach the last page; `n`+5 presses of previous then reach the first |
| `Presentation.AfterClicks` | frontend/src/App.js:93-97 | from any page, any run of previous/next clicks lands on a page of the list, so a non-empty section always has a card on screen; clicks in one direction never move the other way |
| `Presentation.PresentationMode.constructor` | frontend/src/App.js:93 | the view opens on page 0 |
| `Presentation.PresentationMode.Prev` | frontend/src/App.js:159 | the index becomes `PrevIndex` of the old one and stays a valid page |
| `Presentation.PresentationMode.Next` | frontend/src/App.js:169 | the index becomes `NextIndex` of the old one and stays a valid page |
| `Scenario.CreatedDemandShowsInThisWeek` | frontend/src/App.js:245-262 | a completed form, posted and refetched with both selectors on "all", yields a record numbered count+1 in this week; it appears in the this-week section and in no other, provided fewer than 1000 records were stored |
| `Scenario.DroppedCardMoves` | frontend/src/App.js:269-277 | with at most 1000 records stored, the drop's PUT reaches the first stored record with the card's id, which is the card itself when ids are unique; that record changes only its category and modification time, and every other record is untouched; refetched, it is in the target section; if it is the card, the card has left its old section, and otherwise the dragged card stays in its old section unchanged |

## Findings

| source | as written | input that shows it | evidently intended | confidence | as-written member | corrected member |
|---|---|---|---|---|---|---|
| backend/server.py:96-97 | the new id is "DMD-" followed by the zero-padded record count plus one | create DMD-0001 and DMD-0002, delete DMD-0001, create again: the new record is also DMD-0002 | every new demand gets an id that no stored demand has | high (proved; not executed) | `DemandStore.CountIdReusedAfterDelete` | `DemandStore.FreshId` |
| backend/server.py:145-148 | `delete_one` removes only the first record with the id | after the collision above, delete DMD-0002 succeeds and DMD-0002 is still found | after a successful delete the id is no longer found (backend_test.py:232-233) | high (proved; not executed) | `DemandStore.DeleteLeavesDuplicateFindable` | `DemandStore.DeleteForgetsUniqueId` |

The store's `Collection.Create` keeps the count-based id, because that is the handler as written. `FreshId` and `FreshCreateKeepsIdsUnique` give the corrected scheme. The other writes keep ids unique too: `DeleteKeepsIdsUnique`, `BulkDeleteKeepsIdsUnique` and `UpdateKeepsIdsUnique`. So with the corrected create every reachable collection has unique ids, and there `DeleteForgetsUniqueId` gives the expected 404.

## Left out

- HTTP and transport are not modelled: axios calls, FastAPI routing, the CORS middleware, the MongoDB client and environment configuration (frontend/src/App.js:15-16, backend/server.py:14-38). A client handler returns the requests it issues. The server's answer is the `serverOk` parameter. The store is a sequence whose natural order is insertion order.
- The health endpoint `GET /api/` (backend/server.py:89-91) returns a constant message, so it is not modelled.
- Every handler is modelled as one atomic step; the awaits inside a handler are not interleaved with other requests. The source can interleave them, with these consequences:
  - Two concurrent creates can read the same count (backend/server.py:96) before either inserts (backend/server.py:104), and both get the same id. This is a second route to the id collision under "## Findings".
  - An update reads, writes and reads again (backend/server.py:130, 138, 140). A delete landing in between makes the final read find nothing, so building the response fails.
  - The submit button (frontend/src/App.js:589) and the confirm-delete button (frontend/src/App.js:508-513) stay enabled while their request is pending. A second click sends the request again, and a second create posts a second demand.
- Asynchronous ordering is not modelled. Overlapping `fetchDemands` answers may arrive in any order, and the code has no guard against a stale answer. `ReceiveDemands` models one answer being applied.
- A failed fetch, create, move or delete only shows a toast and logs, so state does not change; the failure branches of the handlers state exactly that. The mount-time fetch (frontend/src/App.js:213-215) is not a separate member.
- Wall-clock time is not modelled: the server clock is the `now` parameter.
- Not modelled: rendering, styling, animation, toasts, logging, section titles, and the presentation title.
- framer-motion's reorder and drag mechanics are not modelled. `HandleReorder` requires the permutation of the section that the library hands back. Two event systems are involved:
  - `DragStart` and `DragEnd` are framer-motion's drag callbacks on a card (frontend/src/App.js:453-454).
  - `DragOver`, `DragLeave` and `Drop` are native drag events on a section (frontend/src/App.js:400-412).

  The model treats all five as independent calls that may come in any order. It does not settle whether a framer-motion drag ever produces a native drop.
- Pydantic validation is not modelled: enum membership is type correctness. The server accepts empty descriptions and responsibles; only the client refuses them (frontend/src/App.js:246).
- Board.App.ToggleSelect requires delete mode, because the checkbox that calls it is rendered only in delete mode (frontend/src/App.js:57-63).
- Presentation.PresentationMode.Prev and Presentation.PresentationMode.Next require a non-empty list, because their buttons are rendered only then (frontend/src/App.js:95). The list is fixed when the view opens. The component re-reads its section at each render, and the model does not follow the list changing while the view is open. The consequences in the source:
  - A refetch that leaves the open section with `currentIndex` cards or fewer makes `demands[currentIndex]` undefined, and reading its priority (frontend/src/App.js:98) then throws.
  - A section emptied entirely only renders nothing (frontend/src/App.js:95).
- Board.ToggleTwiceFromPresent: toggling a present id twice restores the selection's ids, not its order. The id moves to the end, so the order is restored only when the id was absent (`ToggleTwiceFromAbsent`).
- backend_test.py is a live-network client and is not modelled; it is cited only for the behaviour its assertions expect.
