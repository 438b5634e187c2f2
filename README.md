# MapRoutes map screen, modelled in Dafny

MapRoutes is a small map app. It shows the user's position, searches for places by
free text, lists the results, and puts a pin on the result the user taps. All of its
logic is in the view-model `MapViewModel`, a class whose methods are short
transitions of five fields: `mapType`, `searchText`, `places`, `region` and
`permissionDenied`. These methods also drive the map view. The home screen,
`HomeView`, adds a debounced search, the rule for when results are shown, and the
wiring of taps and buttons to view-model methods.

The model has five modules:

- `Wrappers` (Wrappers.dfy): `Option`, used for Swift's optionals.
- `Platform` (Platform.dfy): MapKit and CoreLocation reduced to plain state.
  - A coordinate is a value compared only for equality.
  - A region is a centre plus two spans in metres.
  - `MapSurface` stands for `MKMapView`. It holds the pins the app added, the displayed region and the map type.
  - `LocationManager` stands for `CLLocationManager`. It holds the authorization status and a log of the commands issued to it.
- `Model` (PlaceModel.dfy): `Place`, the search-result record (an opaque id plus a placemark), and `ToPlaces`, which builds the result list from a search reply.
- `ViewModel` (MapViewModel.dfy): class `MapViewModel`.
  - `State()` gathers its fields and the map surface into one value.
  - Every method's `ensures` gives the whole new `State()` in terms of the old one, so "nothing else changes" is part of each contract.
  - `Valid()` is the invariant every method keeps: the map shows the view-model's map type, and carries at most one pin.
- `View` (HomeView.dfy): the pure parts of the home screen and class `HomeView`.
  - The pure parts are the visibility predicate, the row label, the icon choice, and the debounce as functions over the list of pending checks.
  - `HomeView` holds the view-model, the location manager and the pending checks. Its methods are the user's edits and taps, the firing of one delayed check, and the firing of all pending checks in turn.

Asynchrony is made explicit. The search reply is an input to its own step,
`SearchCompleted`. Each delayed debounce check is an entry in `pending`, and it runs
when `FirePendingCheck` is called. All checks wait the same 0.3 s, so they fire
first in, first out. Each result's random `UUID` is supplied by the caller (`ids`).

What the code does, where a reader might expect otherwise:

- `selectPlace` does not clear `places`. The list is hidden because the text becomes "". Clearing the text is itself a change, so it schedules a check capturing "". When that check fires, and if the text is still empty by then, `searchQuery` runs with the empty text and empties `places`. If the user types again before it fires, the check is stale and does nothing. `View.SearchAndSelect` walks through this. One might expect selecting a place to clear the result list; the code does not.
- A denied authorization toggles `permissionDenied` rather than setting it. The alert's binding to `permissionDenied` (HomeView.swift:90) sets the flag back to false when the alert is dismissed. The alert is not modelled, so no sequence of model steps resets the flag that way.
- `searchQuery` searches even when the text is empty.
- `updateMapType` sends every map type other than standard to standard. `MapType` therefore has all six MapKit cases.
- The debounce is a staleness check, not a cancellation. A debounce is usually expected to issue at most one search per quiet period. This one does not when the text returns to a value an earlier pending check captured. `View.ReturningToPendingTextSearchesTwice` shows two searches for "a", "ab", "a". `View.QuietPeriodSearchesOnce` gives the condition under which exactly one search is issued.

## Model

| member | source | states |
|---|---|---|
| `Platform.Remaining` | MapRoutes/MapRoutes/ViewModel/MapViewModel.swift:88 | removing annotations keeps exactly those on the map that are not in the removed list, and never adds any |
| `Platform.RemainingNone` | MapRoutes/MapRoutes/ViewModel/MapViewModel.swift:88 | removing a list that covers every annotation on the map leaves no annotation |
| `Model.ToPlaces` | MapRoutes/MapRoutes/ViewModel/MapViewModel.swift:68-70 | a reply becomes one place per map item, in reply order; place i holds item i's placemark and the i-th fresh id |
| `ViewModel.NextMapTypeToggles` | MapRoutes/MapRoutes/ViewModel/MapViewModel.swift:32-40 | standard goes to hybrid and every other type to standard; the type always changes; two toggles from standard (or hybrid) come back |
| `ViewModel.MapViewModel.constructor` | MapRoutes/MapRoutes/ViewModel/MapViewModel.swift:14-29 | starts with no region, no denial, standard type, empty text, no results, an empty map showing the standard type |
| `ViewModel.MapViewModel.UpdateMapType` | MapRoutes/MapRoutes/ViewModel/MapViewModel.swift:32-40 | the type becomes the toggled type, the map shows that same type, and nothing else changes |
| `ViewModel.MapViewModel.FocusLocation` | MapRoutes/MapRoutes/ViewModel/MapViewModel.swift:43-53 | with no stored region nothing changes; otherwise the map's displayed region becomes exactly the stored region and nothing else changes |
| `ViewModel.MapViewModel.SearchQuery` | MapRoutes/MapRoutes/ViewModel/MapViewModel.swift:56-63 | the results are emptied at once and the current text, even "", is sent as a query; nothing else changes |
| `ViewModel.MapViewModel.SearchCompleted` | MapRoutes/MapRoutes/ViewModel/MapViewModel.swift:63-71 | a nil reply changes nothing; any other reply replaces the results by `ToPlaces` of its items, and nothing else changes |
| `ViewModel.MapViewModel.SelectPlace` | MapRoutes/MapRoutes/ViewModel/MapViewModel.swift:75-100 | the text always becomes ""; without a coordinate nothing else changes; with one, the only pin is at that coordinate with the placemark's name or "No Name" as title, the displayed region is that coordinate with 1000 m spans, and `region` and `places` are kept |
| `ViewModel.MapViewModel.LocationManagerDidChangeAuthorization` | MapRoutes/MapRoutes/ViewModel/MapViewModel.swift:102-119 | not determined issues one authorization request, denied flips `permissionDenied`, when-in-use issues one location request, any other status does nothing; no other field changes |
| `ViewModel.MapViewModel.DidFailWithError` | MapRoutes/MapRoutes/ViewModel/MapViewModel.swift:121-124 | a location error changes no state and issues no new command |
| `ViewModel.MapViewModel.DidUpdateLocations` | MapRoutes/MapRoutes/ViewModel/MapViewModel.swift:126-140 | an empty batch changes nothing; otherwise `region` and the displayed region both become the last fix's coordinate with 10000 m spans, and nothing else changes |
| `View.MapTypeIconNamesNextType` | MapRoutes/MapRoutes/View/HomeView.swift:70-71 | the button shows "network" exactly when a tap switches to hybrid, and "map" exactly when it switches to standard |
| `View.RowLabelAndPinTitle` | MapRoutes/MapRoutes/View/HomeView.swift:41 | a named place's row label is its name and equals its pin title; an unnamed place's row is "" while its pin says "No Name" |
| `View.EditKeepsSettled` | MapRoutes/MapRoutes/View/HomeView.swift:96-101 | after any edit, the last pending check (if any) captured the current text |
| `View.FireAllCounts` | MapRoutes/MapRoutes/View/HomeView.swift:101-106 | when the pending checks fire with the text unchanged, each query issued is the current text, one per check that captured it |
| `View.FireAllAppend` | MapRoutes/MapRoutes/View/HomeView.swift:101-106 | the checks fire one after another: firing a list and then one more check issues the list's queries followed by that check's |
| `View.FireAllNone` | MapRoutes/MapRoutes/View/HomeView.swift:101-106 | if no pending check captured the current text, firing them all issues no search |
| `View.QuietPeriodSearchesFinalText` | MapRoutes/MapRoutes/View/HomeView.swift:96-106 | once edits stop with checks pending, at least one search is issued, and only for the final text |
| `View.QuietPeriodSearchesOnce` | MapRoutes/MapRoutes/View/HomeView.swift:96-106 | if no earlier pending check captured the final text, exactly one search is issued, for that text |
| `View.ReturningToPendingTextSearchesTwice` | MapRoutes/MapRoutes/View/HomeView.swift:96-106 | editing "a", "ab", "a" within one delay leaves three checks, and firing them issues two searches for "a" |
| `View.HomeView.constructor` | MapRoutes/MapRoutes/View/HomeView.swift:12-14 | a fresh view-model in its initial state, a fresh location manager with no commands, and no pending check |
| `View.HomeView.SearchTextChanged` | MapRoutes/MapRoutes/View/HomeView.swift:96-101 | a change of the text schedules exactly one check capturing the new text and keeps the earlier ones; no change schedules nothing |
| `View.HomeView.EditSearchText` | MapRoutes/MapRoutes/View/HomeView.swift:28 | the field writes the view-model's text, nothing else in it changes, and the change handler's scheduling follows |
| `View.HomeView.FirePendingCheck` | MapRoutes/MapRoutes/View/HomeView.swift:101-106 | the oldest check is removed; it runs `SearchQuery` exactly when its captured text equals the current text, and otherwise changes nothing |
| `View.HomeView.FireAllPending` | MapRoutes/MapRoutes/View/HomeView.swift:96-106 | once typing stops, all pending checks fire oldest first; the queries sent are exactly `FireAll` of the pending list and the current text, so the quiet-period lemmas hold of the class; results are emptied if any search ran and kept otherwise, and nothing else in the view-model changes |
| `View.HomeView.TapRow` | MapRoutes/MapRoutes/View/HomeView.swift:37-46 | a tap on a shown row has exactly `SelectPlace`'s effect for that place, hides the list, and schedules a check capturing "" |
| `View.HomeView.TapLocationButton` | MapRoutes/MapRoutes/View/HomeView.swift:62 | the location button has exactly `FocusLocation`'s effect |
| `View.HomeView.TapMapTypeButton` | MapRoutes/MapRoutes/View/HomeView.swift:70-71 | the map-type button has exactly `UpdateMapType`'s effect, and the icon is then chosen from the new type |
| `View.SearchAndSelect` | MapRoutes/MapRoutes/View/HomeView.swift:96-106 | "coffee" answered with three items, then a tap on the second: three results survive the tap, one pin sits on the second item, and the check set off by the cleared text finally empties the results with an empty-text query |

## Left out

- `MKLocalSearch`: the search algorithm and its asynchronous delivery are not modelled. The reply is the input of `SearchCompleted`. Replies arriving out of order are not modelled.
- Each result's `UUID().uuidString` is random. It is a parameter (`ids`).
- The compactMap at MapViewModel.swift:68 never drops an item, because `PlaceModel(placemark:)` always succeeds. `ToPlaces` is therefore a plain map.
- Converting metres to degrees, coordinate arithmetic and `CLLocationDegrees` doubles are not modelled. A coordinate is compared only for equality.
- The `setVisibleMapRect` animation calls (MapViewModel.swift:52, 99, 139) only re-assign the visible rectangle, so the model has no state for them. The `animated:` flag of `setRegion` is not modelled.
- The user-location annotation that MapKit manages is left out. The annotation list holds only the pins the app adds.
- `DispatchQueue` timing and the 0.3 s clock are left out. Checks fire when `FirePendingCheck` is called, oldest first.
- SwiftUI layout, the alert and the Settings URL are UI and OS calls and are not modelled. So are the `onAppear` delegate wiring with its authorization request, and the previews (HomeView.swift:15-95 apart from the lines cited under "## Model", and 113-117).
- MapRoutes/MapRoutes/View/MapView.swift is not part of this model. It only bridges UIKit and styles pins.
- Texts are compared by their Unicode scalars, as Dafny's `==` on strings does. Swift's `String ==` treats canonically equivalent forms as equal (for example a precomposed "é" and "e" followed by a combining accent). The model therefore assumes every text is in one normal form. Without that, an edit between two equivalent forms would schedule a check in the model but not in the app.
- The `print` of the error text in the location-error handler is left out.
