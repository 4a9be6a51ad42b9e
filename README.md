# Video grid layout engine, modelled in Dafny

`src/App.tsx` of the video-carousel test app shows a single row of 16:9 video
tiles in a container the user can drag to resize. Under the React markup there
is a small layout engine, and this project models it:

- **Visible count** (module `Layout`). The number of tiles shown is the number
  of participants, capped by how many 160-wide tiles with 8-wide gaps fit in the
  container width (a floor), and capped at 8.
- **Tile sizing** (module `Layout`). With no tiles, the tile is 0 by 0.
  Otherwise the width left after the gaps is split evenly. The 16:9 height is
  capped at the container height, and the width is derived again from the
  capped height. The reported window is always the container size.
- **Auto-fit** (module `AutoFit`). When the participant count changes, the
  container width is adjusted to a row of 320-wide tiles:
  - on a decrease it only shrinks;
  - on an increase it never passes the width the user last chose by dragging.
- **Drag resize** (module `Resize`). A mouse-down on the handle registers a move
  listener and an up listener on the document. Both capture the pointer and the
  container size at that moment. Each move reports the start size plus the
  pointer offset, floored at 160 by 90. A mouse-up clears the resizing flag and
  removes the listeners.
- **The page state** (module `App`). Class `VideoGridApp` holds the React state
  of both components:
  - the participant count, `maxWidth`, `maxHeight` and `lastSavedMaxWidth`;
  - the previous participant count and `isResizing`;
  - the document's listener list.

  Its methods are the handlers and the participant-count change. The derived
  values, tiles shown and tile size, are functions of the current state.

The class invariant `Valid()` holds after every handler:
- `160 <= maxWidth <= lastSavedMaxWidth`;
- `maxHeight >= 90`;
- the listeners consist of whole drag sessions, and they are present exactly
  while `isResizing` is true.

From this invariant, `Grid` proves that every tile shown is at least 160 by 90,
is exactly 16:9, and that the row fits the container.

Widths and heights are Dafny `real`s. The floor of the visible-count rule is
`real.Floor`. Participant counts are `nat`.

Document listeners are a sequence in registration order. Each listener carries
the number of the mouse-down that created it, which stands for closure identity.
So a second mouse-down during a drag is modelled as the code behaves:
- both sessions' listeners stay registered;
- a move reports once per session, and the last report wins;
- a mouse-up runs every up handler, and each removes its own pair, so nothing
  is left.

## Model

| member | source | states |
|---|---|---|
| `Layout.MaxVideosDisplayed` | src/App.tsx:61-63 | the result is the largest integer k with k*(160+8) <= maxWidth+8 (the floor, both bounds) |
| `Layout.VisibleCount` | src/App.tsx:61-68 | tiles shown never exceed the participants or 8; they are never negative for maxWidth >= -8; they fit at minimum width (`count*160 + (count-1)*8 <= maxWidth`); and no larger count within both caps fits, so the count is the largest that fits |
| `Layout.NoParticipantsNoTiles` | src/App.tsx:64-68 | with no participants no tile is shown |
| `Layout.TileSize` | src/App.tsx:234-272 | the window is maxWidth by maxHeight unchanged; zero tiles give a 0 by 0 tile; with tiles, width*9 == height*16 exactly and the height is at most maxHeight |
| `Layout.TileSizeFitsRow` | src/App.tsx:252-261 | `n*videoWidth + (n-1)*8 <= maxWidth`, and one bound is tight: either the tile is as tall as the window or the row is exactly as wide |
| `Layout.TileSizeIsLargest` | src/App.tsx:252-261 | every 16:9 tile no taller than the window whose row of n fits is no wider and no taller than the tile chosen |
| `Layout.TileSizeAtLeastMinimum` | src/App.tsx:252-261 | when n tiles fit at minimum width and the window is at least 90 tall, the tile is at least 160 by 90 |
| `Layout.InitialLayout` | src/App.tsx:42-47 | the opening state (8 participants, 1200 by 300) shows 7 tiles of 1152/7 by 648/7 |
| `AutoFit.OptimalWindowWidth` | src/App.tsx:82-84 | the row of n >= 1 comfortable tiles is at least 320 wide |
| `AutoFit.AutoFitWidth` | src/App.tsx:78-104 | decrease: never grows; shrinks to the row of 320-wide tiles when that is narrower, and leaves the width unchanged otherwise; no change or a drop to 0: width unchanged; increase: the smaller of the row and the last dragged width; the width stays in [160, lastSavedMaxWidth] |
| `AutoFit.DecreaseKeepsVisible` | src/App.tsx:80-90 | after a decrease to n > 0 the tiles shown are min(n, tiles shown before): shrinking hides no remaining participant that was shown |
| `AutoFit.RowFitsShowsAll` | src/App.tsx:83-84 | a container at least the comfortable row of n shows min(n, 8) tiles |
| `AutoFit.IncreaseShowsAll` | src/App.tsx:92-101 | an increase whose comfortable row is within the last dragged width shows min(n, 8) tiles |
| `AutoFit.IncreaseCappedExample` | src/App.tsx:92-101 | 4 to 10 participants: the row 3272 is capped at the last dragged width 1200 |
| `AutoFit.IncreaseCanShrink` | src/App.tsx:98-100 | an increase can narrow the container (1 to 2 participants at 1200 gives 648) |
| `Resize.Resized` | src/App.tsx:285-290 | each axis is the larger of the minimum (160, 90) and start size plus pointer offset: at least both, equal to one |
| `Resize.ResizedAtStart` | src/App.tsx:286-290 | returning the pointer to the start reports the start size |
| `Resize.ResizedExample` | src/App.tsx:286-290 | from 800 by 600, an offset of (+50, -20) reports 850 by 580 |
| `Resize.Unsubscribe` | src/App.tsx:297-298 | no listener of the session remains, every listener of another session is kept, and the list does not grow |
| `Resize.UnsubscribeAbsent` | src/App.tsx:297-298 | removing listeners that are not registered leaves the list unchanged |
| `Resize.MoveEmissions` | src/App.tsx:285-293 | every size a move reports is at least 160 by 90 |
| `Resize.PairedSubscribe` | src/App.tsx:301-302 | registering a new session's move and up handler keeps the list made of whole, distinctly numbered sessions |
| `Resize.UnsubscribeSession` | src/App.tsx:295-302 | the up handler of the session just added removes exactly the two listeners its mouse-down registered |
| `Resize.DispatchUp` | src/App.tsx:295-299 | running the up handlers of a mouse-up never registers a listener: the list only loses listeners |
| `Resize.UnsubscribeFirstSession` | src/App.tsx:295-299 | the up handler of the oldest session removes exactly that session's two listeners |
| `Resize.DispatchUpClears` | src/App.tsx:295-299 | a mouse-up removes every registered listener |
| `Resize.PairedHasUpHandler` | src/App.tsx:295-296 | a mouse-up runs an up handler, clearing `isResizing`, exactly when some listener is registered |
| `Resize.MoveEmissionsPerSession` | src/App.tsx:285-302 | a move reports once per live session, so nothing once no session is left |
| `Resize.MoveEmissionsAppend` | src/App.tsx:285-302 | a move reports the reports of the older sessions, then the clamped size relative to the newest session's start, which is therefore the last report |
| `Resize.SingleSessionMove` | src/App.tsx:285-293 | with one session, a move reports exactly the clamped size relative to that session's start |
| `App.VideoGridApp.constructor` | src/App.tsx:42-57 | the first state: 8 participants, 1200 by 300, last saved width 1200, not resizing, no listeners |
| `App.VideoGridApp.VideosToShow` | src/App.tsx:60-75 | tiles shown are a natural number at most the participants and 8, fitting at minimum width, and the largest such count |
| `App.VideoGridApp.Grid` | src/App.tsx:234-272 | window is the container; with tiles shown, each is at least 160 by 90, exactly 16:9, no taller than the container, and the row fits its width |
| `App.VideoGridApp.SetNumParticipants` | src/App.tsx:78-104 | the width becomes `AutoFitWidth` of the old count, width and last dragged width; the previous count is recorded; height, last dragged width and listeners are unchanged; the invariant is kept |
| `App.VideoGridApp.HandleResize` | src/App.tsx:117-124 | sets width, height and last dragged width to the reported size and nothing else |
| `App.VideoGridApp.MouseDown` | src/App.tsx:275-305 | sets `isResizing`; appends a move handler capturing pointer and container size, then its up handler; keeps the invariant |
| `App.VideoGridApp.MouseMove` | src/App.tsx:285-293 | reports `MoveEmissions` of the registered handlers, nothing when not resizing; the last report becomes width, height and last dragged width; listeners unchanged |
| `App.VideoGridApp.MouseUp` | src/App.tsx:295-299 | the listener list after every up handler has run is empty and `isResizing` is false; sizes unchanged |

## Left out

- Markup, styles and CSS transitions (src/App.tsx:126-145, 307-342) are
  presentation only.
- `ControlPanel` (src/App.tsx:148-216) is presentation only. This covers its
  rounding and `toFixed` display.
- React scheduling is not modelled: effect order, re-render timing and
  `useCallback` dependency lists. Each effect is a function of the current
  state. The one-render lag between `videosToShow` and the tile sizing is
  therefore not modelled.
- The auto-fit effect also re-runs when `maxWidth` or `lastSavedMaxWidth`
  change (src/App.tsx:104). At that point the previous count already equals
  the current one, and `AutoFitWidth` proves that case leaves the width alone.
  So `HandleResize` is not followed by an auto-fit step.
- The auto-fit runs even during a drag: the code has no guard for that, and
  neither does the model.
- `handleDimensionsChange` (src/App.tsx:106-115) only copies the grid's sizes
  into the application state. `Grid` is that value.
- The browser's event system is not modelled: `addEventListener` and
  `removeEventListener` become edits of the listener sequence, and
  `preventDefault` is dropped.
- `App.VideoGridApp.MouseMove`: calls `HandleResize` once, with the last report
  of the move. When several sessions are alive, each earlier report is written
  and then overwritten field by field, so the final state is the same.
- `handleMouseDown` captures the container size of the render that created it.
  The model takes the current state, which is the same once React has
  re-rendered.
- Parsing of the participant input (`parseInt(...) || 0`, src/App.tsx:173) is
  not modelled: the count is a given natural number.
- IEEE-754 rounding is not modelled: sizes are exact reals.
- A multi-row grid search and pagination are not in src/App.tsx, so they are
  not modelled.
