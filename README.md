# Geo visualizer: map store, drawing handler and polygon area in Dafny

This project models the three pieces of the geo-visualizer map app that carry
logic, and proves properties of them:

- **The map store** (`src/store/useMapStore.ts`). One state record holds the map
  center, the zoom, two layer toggles, the list of drawn features, the selected
  tool and a loading flag. Its actions replace fields of that record. Only the
  features and the layers are persisted, under the key `map-storage`. Module
  `MapStore` (file `map_store.dfy`) has a class `Store` whose fields are the
  record. Every action is a method whose postcondition gives the whole new record
  as the old record with one field replaced. The new values come from pure
  functions (`Toggled`, `Added`, `Without`), and the lemmas are about those
  functions. Persistence is two explicit steps. `Store.Save` writes the persisted
  subset into a key-value storage map. `Store.Rehydrate` starts a store from that
  map, and falls back to the defaults when the key is missing or its value does
  not parse. The toolbar's rule that pressing the active tool deselects it is
  `ToolbarChoice`.
- **The drawing handler** (`src/components/map/DrawingHandler.tsx`). Without its
  Leaflet calls, it is a state machine over the selected tool (kept in the store),
  the buffer of polygon vertices clicked so far, and whether the dashed preview
  outline is on the map. Module `Drawing` (file `drawing.dfy`) has a class
  `DrawingHandler` with one method per event: click, double-click, right-click
  (context menu), and a change of tool (the effect's cleanup). Each method states
  its outcome for every tool. Its object invariant says the preview is shown
  exactly when at least two vertices are buffered. Commits go through
  `Store.AddFeature`. Four scenario methods build a fresh store and handler, feed
  them a sequence of events, and state the result.
- **Polygon area** (`calculateArea` in `src/utils/geometry.ts`). Module `Geometry`
  (file `geometry.dfy`) has the shoelace loop as a method, proved equal to a
  recursive definition of the sum with its wrap-around edge. Lemmas prove: short
  rings have area 0, the area is never negative, and the worked triangle has
  area 6. They also prove that rotating or reversing the ring leaves the area
  unchanged.

Shared value types (positions, features, drafts, tools, layers, the state
record) are in module `MapTypes` (file `map_types.dfy`, after `src/types/map.ts`).

Behaviour of the code a reader might not expect, and how the model treats it:

- `addFeature` returns nothing in the source. Here it returns the id it
  generated, so that callers can remove that feature.
- When the tool changes, the effect's cleanup runs with the previous tool. It
  clears the drawing only when that previous tool was not the polygon tool. So
  leaving the polygon tool keeps the buffer and the preview. Selecting the
  polygon tool again (always from another tool) clears them, so every polygon
  starts from an empty buffer. `DrawingHandler.SelectTool` states both halves.
- A right-click that cancels a polygon keeps the polygon tool armed.
- A double-click with fewer than three vertices is silently ignored.

## Model

| member | source | states |
|---|---|---|
| `MapStore.Store.constructor` | src/store/useMapStore.ts:20-28 | a new store is centered on (51.478, 7.555) at zoom 10, with both layers on, no features, no tool and not loading |
| `MapStore.Store.SetCenter` | src/store/useMapStore.ts:31 | replaces the center with any position, without validation; every other field is unchanged |
| `MapStore.Store.SetZoom` | src/store/useMapStore.ts:32 | replaces the zoom with any number, without bounds; every other field is unchanged |
| `MapStore.Toggled` | src/store/useMapStore.ts:33-36 | the toggled layer's visibility is negated and the other layer's is kept |
| `MapStore.ToggleTwiceRestores` | src/store/useMapStore.ts:33-36 | toggling the same layer twice restores the layer record |
| `MapStore.Store.ToggleLayer` | src/store/useMapStore.ts:33-36 | only the layer record changes, and it changes to the toggled record |
| `MapStore.FreshId` | src/store/useMapStore.ts:43 | the generated id is larger than every id in the list, so no feature in the list carries it |
| `MapStore.Added` | src/store/useMapStore.ts:37-46 | the list grows by one; the old list is an unchanged prefix; the new last feature has the draft's kind, coordinates and properties and an id no earlier feature has; unique ids stay unique |
| `MapStore.Store.AddFeature` | src/store/useMapStore.ts:37-46 | only the feature list changes: the draft is appended under a fresh id, which is returned; unique ids stay unique |
| `MapStore.Without` | src/store/useMapStore.ts:47-50 | a feature is kept exactly when it was in the list and its id differs; an absent id leaves the list unchanged; the list never grows |
| `MapStore.WithoutDistributes` | src/store/useMapStore.ts:49 | filtering a concatenation filters each part, so the kept features stay in their original order |
| `MapStore.WithoutKeepsUnique` | src/store/useMapStore.ts:47-50 | removing an id from a list with unique ids leaves a list with unique ids |
| `MapStore.WithoutSplice` | src/store/useMapStore.ts:49 | removing an id carried by one feature only cuts out exactly that feature |
| `MapStore.RemoveAt` | src/store/useMapStore.ts:47-50 | with unique ids, removing the id at index k gives the list without index k |
| `MapStore.RemoveUndoesAdd` | src/store/useMapStore.ts:37-50 | removing the id that adding a draft generated gives back the list from before the addition |
| `MapStore.AddedAtClock` | src/store/useMapStore.ts:37-46 | (as written) the list grows by one with the old list as prefix; the new feature carries the draft's fields and the clock reading as its id, so a clock reading already used as an id breaks uniqueness |
| `MapStore.SameMillisecondCollision` | src/store/useMapStore.ts:43 | two additions in the same millisecond share an id, and removing that id removes both, so removal does not undo the second addition |
| `MapStore.Store.RemoveFeature` | src/store/useMapStore.ts:47-50 | only the feature list changes, to the list without that id; unique ids stay unique |
| `MapStore.Store.SetSelectedTool` | src/store/useMapStore.ts:51 | replaces the selected tool with any tool or none; every other field is unchanged |
| `MapStore.Store.SetLoading` | src/store/useMapStore.ts:52 | replaces the loading flag; every other field is unchanged |
| `MapStore.Store.ClearAllFeatures` | src/store/useMapStore.ts:53 | the feature list becomes empty from any list; every other field is unchanged |
| `MapStore.AddThenRemove` | src/store/useMapStore.ts:37-50 | on a store, adding a draft and then removing the returned id restores the feature list the store held before, and the whole store state is as before |
| `MapStore.ToolbarChoice` | src/components/ui/Toolbar.tsx:54-56 | pressing the active tool gives no tool; pressing any other tool selects it |
| `MapStore.Store.SelectFromToolbar` | src/components/ui/Toolbar.tsx:54-56 | only the selected tool changes, following the toolbar rule |
| `MapStore.Store.Save` | src/store/useMapStore.ts:55-61 | storage gains the key `map-storage` holding the current features and layers; other keys are untouched |
| `MapStore.Rehydrated` | src/store/useMapStore.ts:55-61 | at start-up the center, zoom, tool and loading flag are the defaults; features and layers come from a stored record that parses; with the key missing or unparsable the whole state is the defaults |
| `MapStore.Store.Rehydrate` | src/store/useMapStore.ts:55-61 | a store started from storage holds the rehydrated state |
| `MapStore.SaveThenLoad` | src/store/useMapStore.ts:55-61 | saving any state and starting again gives the defaults with that state's features and layers |
| `MapStore.Reload` | tests/playwright/app.spec.ts:68-104 | saving a store and starting a new one from the storage keeps its features and layers, and resets center, zoom, tool and loading flag to the defaults |
| `Drawing.Listeners` | src/components/map/DrawingHandler.tsx:128-136 | a click listener exists only for the point and polygon tools; double-click and context-menu listeners only for the polygon tool |
| `Drawing.DrawingHandler.constructor` | src/components/map/DrawingHandler.tsx:9-11 | the handler starts with an empty vertex buffer and no preview |
| `Drawing.DrawingHandler.ClearDrawing` | src/components/map/DrawingHandler.tsx:14-22 | the preview is removed and the vertex buffer emptied |
| `Drawing.DrawingHandler.OnClick` | src/components/map/DrawingHandler.tsx:28-79 | point tool: exactly one point feature at the click position is added and the buffer is kept; polygon tool: the position is appended to the buffer and the store is unchanged; any other tool: nothing changes; the preview stays shown exactly when two or more vertices are buffered |
| `Drawing.DrawingHandler.OnDoubleClick` | src/components/map/DrawingHandler.tsx:82-109 | polygon tool with three or more vertices: one polygon with the buffered vertices in click order is added, the buffer and preview are cleared and the tool becomes none; otherwise nothing changes |
| `Drawing.DrawingHandler.OnContextMenu` | src/components/map/DrawingHandler.tsx:112-126 | polygon tool with a non-empty buffer: buffer and preview are cleared and the tool stays; otherwise nothing changes; the store is never touched |
| `Drawing.DrawingHandler.SelectTool` | src/components/map/DrawingHandler.tsx:138-150 | the store gets the new tool; a real change away from a tool other than polygon clears the drawing, otherwise the buffer is kept; selecting the polygon tool from another tool starts with an empty buffer |
| `Drawing.DrawingHandler.ToolbarPress` | src/components/ui/Toolbar.tsx:54-56 | the tool follows the toolbar rule; the drawing is cleared unless the polygon tool was active |
| `Drawing.PolygonHappyPath` | src/components/map/DrawingHandler.tsx:45-96 | arming the polygon tool, clicking (0,0), (4,0), (0,3) and double-clicking commits exactly one polygon with those vertices in order, clears the buffer and deselects the tool |
| `Drawing.PolygonCancel` | src/components/map/DrawingHandler.tsx:112-116 | two clicks then a right-click commit nothing, empty the buffer and leave the polygon tool selected |
| `Drawing.PolygonUnderCount` | src/components/map/DrawingHandler.tsx:83 | two clicks then a double-click commit nothing and keep the buffer and the tool |
| `Drawing.RepeatedPoints` | src/components/map/DrawingHandler.tsx:28-42 | with the point tool, two clicks commit two points with distinct ids at the clicked positions, and the tool stays selected |
| `Geometry.Area` | src/utils/geometry.ts:1-13 | the area is never negative and is 0 for fewer than three vertices |
| `Geometry.CalculateArea` | src/utils/geometry.ts:1-13 | the loop's result equals the area defined by the recursive shoelace sum, and is non-negative |
| `Geometry.SumUpToIsPath` | src/utils/geometry.ts:5-10 | before the last vertex, the loop's running sum is the sum over the open path through the vertices seen so far |
| `Geometry.ShoelaceIsClosedPath` | src/utils/geometry.ts:5-10 | the full sum is the open-path sum plus the closing edge from the last vertex back to the first |
| `Geometry.ShortRingSumIsZero` | src/utils/geometry.ts:3 | with fewer than three vertices the wrap-around sum is zero anyway |
| `Geometry.AreaIsHalfAbsoluteSum` | src/utils/geometry.ts:3-12 | for every ring, the area is half the absolute shoelace sum |
| `Geometry.RotateOnce` | src/utils/geometry.ts:6-7 | moving the first vertex to the end leaves the sum unchanged |
| `Geometry.RotationKeepsSum` | src/utils/geometry.ts:6-7 | starting the ring at any vertex leaves the sum unchanged |
| `Geometry.RotationKeepsArea` | src/utils/geometry.ts:6-12 | starting the ring at any vertex leaves the area unchanged |
| `Geometry.ReversePathSum` | src/utils/geometry.ts:8-9 | reversing an open path negates its sum |
| `Geometry.ReverseNegatesSum` | src/utils/geometry.ts:8-9 | reversing the ring negates the shoelace sum |
| `Geometry.ReverseKeepsArea` | src/utils/geometry.ts:8-12 | reversing the ring leaves the area unchanged |
| `Geometry.TriangleSum` | src/__tests__/geometry.test.ts:6-14 | the shoelace sum of (0,0), (4,0), (0,3) is 12 |
| `Geometry.TriangleArea` | src/__tests__/geometry.test.ts:6-14 | the loop computes area 6 for (0,0), (4,0), (0,3) |

## Left out

- `calculateDistance` (haversine over sine, cosine, square root and arctangent) is not part of this model: Dafny has no theory of these functions.
- Numbers are exact reals, not IEEE doubles: rounding, `NaN` and infinities are not modelled.
- The `Store` class carries no object invariant that ids are unique. `AddFeature` and `RemoveFeature` keep unique ids unique, but `Rehydrate` accepts a stored list with repeated ids as it is, as the source does.
- Feature ids are natural numbers. The generated id is one more than the largest id in the list, or 0 for an empty list, not a time string, which fixes the collision listed under Findings.
- `MapStore.FreshId`: the generated id is fresh only for the current list, not across all time. An id freed by removing the newest feature can be handed out again.
- The feature name (built from the locale time) and `createdAt` (the current date) are opaque inputs to the handler's methods. The handler never sets `description`.
- The JSON and `localStorage` mechanics of the persistence middleware are not modelled. Nor is the fact that a `Date` read back from JSON is a string. Saving is an explicit call, where the middleware writes after every update. Storage is a map from key to either a parsed record or unparsable text. A stored value is assumed to have exactly the persisted shape (features and layers): the middleware's shallow merge, under which a record missing a field keeps that field's default and extra keys such as `center` override the defaults, is not modelled.
- Leaflet side effects are not modelled: vertex markers, popups, the `preventDefault` on right-click and `console.log`. The preview polygon is kept only as the flag `previewShown`. Attaching and detaching listeners becomes a dispatch on the selected tool (`Drawing.Listeners`).
- Leaflet fires two click events before every double-click. The model takes events as they are delivered, so a caller feeds those clicks explicitly.
- `Drawing.DrawingHandler.SelectTool`: while a tool other than polygon is selected, every `clearDrawing` stores fresh empty arrays, which are dependencies of the effect, so the effect and its cleanup re-run without end (src/components/map/DrawingHandler.tsx:20-21, 146-150). The model runs the cleanup once. Every further run only clears an already empty buffer, which changes no state the model covers; the render churn itself is not modelled. The stale-closure timing between cleanup and re-render is not modelled: events are handled one at a time against the current state.
- The rectangle tool and the rectangle feature kind are declared but never produced. They are in the types, and with the rectangle tool selected no listener is attached.
- React rendering, the sidebar, the feature layer, the search bar and geocoding are not part of this model.

## Findings

| source | as written | input that shows it | evidently intended | confidence | as-written member | corrected member |
|---|---|---|---|---|---|---|
| src/store/useMapStore.ts:43 | the new feature's id is `Date.now().toString()` | two `addFeature` calls in the same millisecond, then `removeFeature` of the returned id | every feature gets an id no other feature has, so removing it removes that feature only | not executed; high | `MapStore.AddedAtClock`, `MapStore.SameMillisecondCollision` | `MapStore.Added`, `MapStore.RemoveUndoesAdd` |
