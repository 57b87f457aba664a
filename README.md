# Map screen: overlay card and location toggle

A Dafny model of the two small state machines in the iOS map screen described by
`Map/OverlayViewController.swift` and `Map/ViewController.swift`.

- **Overlay card** (module `OverlayCard`, file `overlay_card.dfy`). The bottom card has
  three states: collapsed, expanded and fully expanded. A tap on its drag handle cycles
  through them. Beginning a search moves it to fully expanded, and the cancel button moves
  it back to expanded. Every assignment of the state runs a property observer. That
  observer drops search-bar focus when the new state is not fully expanded. It then starts
  a group of three property animators (frame, corner radius, blur), unless a group is
  already running. When a group completes, the card has that group's target geometry:
  its y-origin is the screen height less the state's height, clamped to at least 40. Its
  corner radius is the height divided by 40, and blur is on only when fully expanded. A
  search response replaces the list of places wholesale. The result table shows one row
  per place.
- **Map screen** (module `MapScreen`, file `map_screen.dfy`). A request flag controls
  location updates. Storing to it starts or stops updates and sets the button icon, but
  only with authorisation. Without authorisation it only asks for when-in-use
  authorisation. The flag takes the new value in both cases. The screen keeps a single
  optional location. A batch of updates stores its last location if none is stored yet,
  or if both its latitude and its longitude differ from the stored one. Otherwise the map
  is re-centred on the stored location. Storing a location centres the map on it with a
  1000 m × 1000 m region. A tap on the map, or a touch moving over the screen, pushes a
  fully expanded card down to expanded. A touch move also withdraws an active location
  request.

`Wrappers` (file `wrappers.dfy`) holds the `Option` type that stands for Swift optionals.

The view controllers are Dafny classes whose fields stand for the UI state the source
changes. The search bar's first-responder status and cancel button are fields. So are the
animator list, the card's y-origin, corner radius and blur flag, and the item list. The
location manager becomes its authorisation status plus a log of the calls made on it
(`managerCalls`). The map view becomes the region it shows. Frame heights and the screen
height are `real` values held in a `Layout`. Each event handler is a method. Its contract
gives the new state, and for the card state it ties the result to the reference transition
function `NextState`. Lemmas about `Run` (`NextState` folded over an event sequence) and
about `StoredAfterBatches` state what holds across many events.

Two consequences of the code as written are proved:

- The animator gate ignores a state change that arrives while a group is still running.
  The state still changes, but the card ends at the earlier target. `TwoQuickTaps` proves
  that after two quick taps and the completion, the card shows the state after one tap and
  is in the state after two.
- A new location replaces the stored one only when *both* coordinates differ. A move due
  north or due east is therefore never stored, and the map is re-centred on the old
  location (`StoredAfter`, last ensures; `MoveAlongOneAxisIsIgnored`).

The card's observer changes the focus and the cancel button only when the search bar is
first responder. A non-fully-expanded assignment therefore hides the cancel button only
if the bar was focused, and the contracts say exactly that.

## Model

| member | source | states |
|---|---|---|
| `OverlayCard.Tapped` | Map/OverlayViewController.swift:181-187 | A tap always changes the state and advances its rank by one, modulo three (collapsed → expanded → fully expanded → collapsed). |
| `OverlayCard.Demoted` | Map/ViewController.swift:181-183 | A map-side demotion turns fully expanded into expanded and leaves collapsed and expanded alone. So it never leaves the card fully expanded and never raises it. |
| `OverlayCard.NextState` | Map/OverlayViewController.swift:61-187 | The card's one-event transition, which every handler is proved against. A map tap or touch move never raises the card or leaves it fully expanded. The card ends fully expanded exactly after a search begins, after a tap from expanded, or after a pan while it is already fully expanded. |
| `OverlayCard.RunConcat` | Map/OverlayViewController.swift:181-187 | `Run` folds `NextState` over a sequence of events. Running two sequences one after the other equals running their concatenation. The multi-event lemmas rest on this. |
| `OverlayCard.TapsHavePeriodThree` | Map/OverlayViewController.swift:181-187 | n taps act like n mod 3 taps; a multiple of three taps returns the card to its starting state. |
| `OverlayCard.MapSideEventsOnlyDemote` | Map/ViewController.swift:181-183 | Any sequence of map taps and touch moves never raises the card, and a non-empty one leaves it below fully expanded. |
| `OverlayCard.MapSideEventLast` | Map/ViewController.swift:111-115 | After any history of events, a final touch move or map tap leaves the card below fully expanded. |
| `OverlayCard.SearchThenCancel` | Map/OverlayViewController.swift:61-81 | After any history, beginning a search and pressing cancel leaves the card expanded. |
| `OverlayCard.Height` | Map/OverlayViewController.swift:86-91 | With non-negative sub-view heights, every state's height is non-negative, and the collapsed card is at least 20 tall. |
| `OverlayCard.HeightsOrdered` | Map/OverlayViewController.swift:86-91 | With non-negative sub-view heights, fully expanded is at least as tall as expanded. Collapsed is no taller than expanded exactly when the collection view is at least 20 tall. |
| `OverlayCard.YOrigin` | Map/OverlayViewController.swift:93-96 | The y-origin is at least 40 and at least screen height − height, and equals one of the two. So it is exactly screen height − height whenever that is ≥ 40, and the card always reaches the screen's bottom edge. |
| `OverlayCard.FullyExpandedSitsHigher` | Map/OverlayViewController.swift:86-96 | With non-negative heights, the fully expanded card's top edge is never below the expanded card's. |
| `OverlayCard.CornerRadiusFollowsHeight` | Map/OverlayViewController.swift:129 | The corner radius (height / 40) orders states as their heights do, and is never negative for a laid-out card. |
| `OverlayCard.AnimatorsFor` | Map/OverlayViewController.swift:106-112 | A started group is exactly three animators of three different kinds (frame, corner radius, visual effect), all aimed at the same target state. |
| `OverlayCard.Cells` | Map/OverlayViewController.swift:151-157 | The table rows are one cell per item, in order. Each cell shows the item's name, placemark title and phone number. |
| `OverlayCard.OverlayViewController.constructor` | Map/OverlayViewController.swift:37-56 | A new card is collapsed, unfocused, with no cancel button, no running animators and no items. |
| `OverlayCard.OverlayViewController.SetCardState` | Map/OverlayViewController.swift:37-47 | The state takes the new value. Any other state than fully expanded drops focus, and hides the cancel button if the bar was focused. Fully expanded leaves focus and the button alone. The animator-gate rule of `StartAnimators` applies. |
| `OverlayCard.OverlayViewController.StartAnimators` | Map/OverlayViewController.swift:101-113 | With animators running nothing starts and the list is unchanged; with none, exactly the three animators for the target are added. |
| `OverlayCard.OverlayViewController.AnimatorsCompleted` | Map/OverlayViewController.swift:115-134 | After completion the list is empty. The y-origin is `YOrigin` of the group's target (so ≥ 40), the corner radius is its height / 40, and blur is on iff the target is fully expanded. |
| `OverlayCard.OverlayViewController.SearchBarShouldBeginEditing` | Map/OverlayViewController.swift:61-67 | Returns true and ends fully expanded with the cancel button shown. The state is not re-assigned (no animators start) when it was already fully expanded. Focus is untouched. |
| `OverlayCard.OverlayViewController.SearchBarBecameFirstResponder` | Map/OverlayViewController.swift:61-66 | The bar is focused once editing may begin; this is the framework's step after should-begin returns true. |
| `OverlayCard.OverlayViewController.SearchTextDidChange` | Map/OverlayViewController.swift:69-72 | Each text change starts one new search whose query is that text. |
| `OverlayCard.OverlayViewController.SearchCompleted` | Map/OverlayViewController.swift:72-76 | An error leaves the item list unchanged, even with a response. A response without error replaces it wholesale, and the table then has one row per new item showing that item. |
| `OverlayCard.OverlayViewController.SearchBarCancelButtonClicked` | Map/OverlayViewController.swift:79-81 | The card is assigned expanded, and search focus is dropped. |
| `OverlayCard.OverlayViewController.HandleTapGesture` | Map/OverlayViewController.swift:181-187 | The card is assigned `Tapped` of its old state, with the observer's effects. |
| `OverlayCard.OverlayViewController.HandlePanGesture` | Map/OverlayViewController.swift:190-197 | The pan only logs a line for began, changed and ended and nothing otherwise; it changes no state. |
| `OverlayCard.OverlayViewController.NumberOfRows` | Map/OverlayViewController.swift:147-149 | The row count equals the number of table cells, one per item. |
| `OverlayCard.OverlayViewController.CellForRow` | Map/OverlayViewController.swift:151-157 | The cell for a row is that row of `Cells` of the item list. |
| `OverlayCard.TwoQuickTaps` | Map/OverlayViewController.swift:101-113 | Two taps then completion: the state is two steps on, but the card's y-origin and blur are those of one step on, and the two differ. |
| `MapScreen.IsUpdatingIffStartedSinceLastStop` | Map/ViewController.swift:40-48 | The update status read from the call log (the last start or stop decides) agrees with the reference reading: some start in the log has no stop after it. |
| `MapScreen.IconFor` | Map/ViewController.swift:43-48 | The button icon is `location.fill` exactly when a location is requested, and `location` exactly when it is not. |
| `MapScreen.RegionAroundIdentifiesCentre` | Map/ViewController.swift:54 | The region set around a coordinate spans 1000 m by 1000 m, and two such regions are equal only for the same centre. |
| `MapScreen.MoveAlongOneAxisIsIgnored` | Map/ViewController.swift:86-87 | Under the both-differ rule, a move that keeps the latitude or keeps the longitude is no move. A batch ending in such a location leaves the stored location as it was. |
| `MapScreen.LocationRequestCall` | Map/ViewController.swift:34-48 | A store to the flag asks for authorisation exactly when not authorised. With authorisation it starts updates iff the new value is true. |
| `MapScreen.StoredAfter` | Map/ViewController.swift:83-95 | An empty batch keeps the stored location. The first location is always stored. A later one replaces the stored one iff both coordinates differ. |
| `MapScreen.StoredLocationWasDelivered` | Map/ViewController.swift:83-95 | After any batches, the stored location is the initial one or the last location of one of the batches. |
| `MapScreen.StoredLocationIsNeverCleared` | Map/ViewController.swift:83-95 | Once a location is stored, or once some non-empty batch arrives, a location stays stored. |
| `MapScreen.ViewController.constructor` | Map/ViewController.swift:15-34 | A new screen has not requested a location, stored none and made no manager calls. |
| `MapScreen.ViewController.HasLocationAccess` | Map/ViewController.swift:26-33 | Access is granted iff the status is always or when-in-use. Otherwise it is denied and authorisation is requested once. |
| `MapScreen.ViewController.SetRequestCurrentLocation` | Map/ViewController.swift:34-50 | The flag always takes the new value. With authorisation, true starts updates with the `location.fill` icon and false stops them with `location`. Without it, updates and icon stay as they were and authorisation is requested. |
| `MapScreen.ViewController.UpdateRegion` | Map/ViewController.swift:73-75 | The map shows the given region. |
| `MapScreen.ViewController.SetLocation` | Map/ViewController.swift:51-57 | The location takes the new value. A non-nil one re-centres the map on it with a 1000 m × 1000 m span, and nil leaves the region alone. |
| `MapScreen.ViewController.DidUpdateLocations` | Map/ViewController.swift:83-95 | The stored location becomes `StoredAfter` of the old one and the batch. An empty batch leaves the region alone, and any other leaves the map centred on the stored location. |
| `MapScreen.ViewController.DidChangeAuthorization` | Map/ViewController.swift:97-102 | The flag becomes true iff the new status is always or when-in-use. Updates start in that case. Otherwise authorisation is requested and nothing stops. |
| `MapScreen.ViewController.CurrentLocationButtonAction` | Map/ViewController.swift:66-68 | The button flips the request flag, with the observer's effects. |
| `MapScreen.ViewController.ViewWillAppear` | Map/ViewController.swift:130-133 | Before appearing, the screen stores true to the request flag. |
| `MapScreen.ViewController.ViewDidAppear` | Map/ViewController.swift:135-138 | After appearing, the screen stores false to the request flag. |
| `MapScreen.ViewController.TouchesMoved` | Map/ViewController.swift:111-115 | An active request is withdrawn (flag false, with the observer's effects); an inactive one is not touched. A fully expanded card is assigned expanded, and any other card is left untouched. |
| `MapScreen.ViewController.MapViewTapGesture` | Map/ViewController.swift:181-183 | A fully expanded card is assigned expanded; any other card is left untouched. |

## Left out

- Rendering and animation physics: view hierarchy, outlets, nib registration, durations, damping and curves. Only the end state of an animation group is modelled.
- `OverlayCard.OverlayViewController.AnimatorsCompleted`: the three animators complete together in one step. In the source, the frame animator's completion clears the list, and the other two finish on their own at the same duration.
- Gesture-recogniser wiring and delegate forwarding: `viewWillAppear` of the overlay, `addGestureRecognizers`, and the two `handleOverlay…GestureRecognizer` forwarders. The map's pan handler only logs.
- View setup: `viewDidLoad` of both controllers, `configureUI`, `configureVisualEffectView` and `configureOverlayViewController`. The card's initial y-origin is a constructor parameter. The empty `infoButtonAction` is also left out.
- The local search service: `MKLocalSearch` and its request are foreign. Only the start of a search (query and count) and the completion handler (error or item list) are modelled. The handler's `self != nil` guard and the table's `reloadData` are not modelled.
- Location manager behaviour and the permission prompt are foreign calls, recorded only as entries of `managerCalls`. The framework's own stopping of updates when access is revoked is not modelled.
- Floating point: `CGFloat` and `CLLocationDegrees` become `real`, with exact comparisons. A `CLLocation` is reduced to its coordinate.
- Console logs: three are not modelled. These are the animator gate's refusal (Map/OverlayViewController.swift:103), the search error's description (Map/OverlayViewController.swift:74) and the unauthorised-access message (Map/ViewController.swift:37). They have no effect on state. Only the pan handler's log is returned as a value.
- `cellForRowAt` returns a blank cell when dequeuing a `MapItemTableViewCell` fails (Map/OverlayViewController.swift:152). That fallback is not modelled: the row's contents are always the item's cell.
- `Map/MapItemTableViewCell.swift`: its properties forward to labels, and the call button only logs. A row's contents are the `Cell` value instead.
