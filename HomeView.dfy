/**
 * HomeView: the search field with its debounced search, the result rows, and the
 * two buttons. The 0.3 s delayed checks are a first-in first-out list of the texts
 * they captured; they all wait the same delay, so they fire in the order they
 * were scheduled.
 */
module View {
  import opened Wrappers
  import opened Platform
  import opened Model
  import opened ViewModel

  /** The result list is shown only when there are results and the text is not empty. */
  predicate ResultsVisible(places: seq<Place>, searchText: string)
  {
    places != [] && searchText != ""
  }

  /** The label of a result row: the placemark's name, or nothing. */
  function RowLabel(place: Place): string
  {
    place.placemark.name.GetOr("")
  }

  /** The symbol on the map-type button. */
  function MapTypeIcon(t: MapType): string
  {
    if t == Standard then "network" else "map"
  }

  /** The button shows "network" exactly when tapping it switches to hybrid, "map" when it switches to standard. */
  lemma MapTypeIconNamesNextType(t: MapType)
    ensures MapTypeIcon(t) == "network" <==> NextMapType(t) == Hybrid
    ensures MapTypeIcon(t) == "map" <==> NextMapType(t) == Standard
  {
  }

  /** A named place's row reads as its pin's title; an unnamed one's row is blank while its pin says "No Name". */
  lemma RowLabelAndPinTitle(place: Place)
    ensures place.placemark.name.Some? ==> RowLabel(place) == PinTitle(place.placemark) == place.placemark.name.value
    ensures place.placemark.name.None? ==> RowLabel(place) == "" && PinTitle(place.placemark) == NoName
  {
  }

  /**
   * The pending checks after the text goes from `current` to `value`: the change
   * handler runs only on an actual change and then schedules one check capturing
   * the new text; earlier checks stay pending.
   */
  function AfterEdit(pending: seq<string>, current: string, value: string): seq<string>
  {
    if value == current then pending else pending + [value]
  }

  /** The queries one check issues when it fires: the current text if it still equals the captured one. */
  function FireOne(captured: string, current: string): seq<string>
  {
    if captured == current then [current] else []
  }

  /** The queries issued when every pending check fires, in order, while the text stays `current`. */
  function FireAll(pending: seq<string>, current: string): seq<string>
  {
    if pending == [] then [] else FireOne(pending[0], current) + FireAll(pending[1..], current)
  }

  /** When any check is pending, the last one scheduled captured the current text. */
  predicate Settled(pending: seq<string>, current: string)
  {
    pending == [] || pending[|pending| - 1] == current
  }

  lemma EditKeepsSettled(pending: seq<string>, current: string, value: string)
    requires Settled(pending, current)
    ensures Settled(AfterEdit(pending, current, value), value)
  {
  }

  /** Every query issued by firing the pending checks is the current text, once per check that captured it. */
  lemma {:induction false} FireAllCounts(pending: seq<string>, current: string)
    ensures |FireAll(pending, current)| == multiset(pending)[current]
    ensures forall q :: q in FireAll(pending, current) ==> q == current
  {
    if pending != [] {
      FireAllCounts(pending[1..], current);
      assert pending == [pending[0]] + pending[1..];
      assert multiset(pending) == multiset([pending[0]]) + multiset(pending[1..]);
    }
  }

  /** Firing a list of checks and then one more issues the list's queries, then that check's. */
  lemma {:induction false} FireAllAppend(pending: seq<string>, captured: string, current: string)
    ensures FireAll(pending + [captured], current) == FireAll(pending, current) + FireOne(captured, current)
  {
    if pending != [] {
      assert (pending + [captured])[1..] == pending[1..] + [captured];
      FireAllAppend(pending[1..], captured, current);
    }
  }

  /** Checks none of which captured the current text issue no search. */
  lemma {:induction false} FireAllNone(pending: seq<string>, current: string)
    requires current !in pending
    ensures FireAll(pending, current) == []
  {
    if pending != [] {
      assert pending[0] in pending;
      FireAllNone(pending[1..], current);
    }
  }

  /** Once typing stops, the pending checks issue at least one search, and only for the final text. */
  lemma QuietPeriodSearchesFinalText(pending: seq<string>, current: string)
    requires Settled(pending, current) && pending != []
    ensures |FireAll(pending, current)| >= 1
    ensures forall q :: q in FireAll(pending, current) ==> q == current
  {
    var n := |pending| - 1;
    assert pending == pending[..n] + [current];
    FireAllAppend(pending[..n], current, current);
    FireAllCounts(pending, current);
  }

  /** If the final text was captured by no earlier pending check, exactly one search is issued. */
  lemma QuietPeriodSearchesOnce(pending: seq<string>, current: string)
    requires Settled(pending, current) && pending != []
    requires current !in pending[..|pending| - 1]
    ensures FireAll(pending, current) == [current]
  {
    var n := |pending| - 1;
    assert pending == pending[..n] + [current];
    FireAllAppend(pending[..n], current, current);
    FireAllNone(pending[..n], current);
  }

  /** Typing "a", "ab", then back to "a" inside one delay leaves two checks that both match: two searches. */
  lemma ReturningToPendingTextSearchesTwice()
    ensures
      var p1 := AfterEdit([], "", "a");
      var p2 := AfterEdit(p1, "a", "ab");
      var p3 := AfterEdit(p2, "ab", "a");
      p3 == ["a", "ab", "a"] && FireAll(p3, "a") == ["a", "a"]
  {
  }

  class HomeView {
    const mapData: MapViewModel
    const locationManager: LocationManager
    /** The texts captured by the delayed checks not fired yet, first to fire first. */
    var pending: seq<string>

    ghost predicate Valid()
      reads this, mapData, mapData.mapView
    {
      mapData.Valid() && Settled(pending, mapData.searchText)
    }

    constructor (status: AuthorizationStatus)
      ensures Valid() && fresh(mapData) && fresh(mapData.mapView) && fresh(locationManager)
      ensures mapData.State() == ViewState(None, false, Standard, "", [], [], [], None, Standard)
      ensures pending == []
      ensures locationManager.authorizationStatus == status && locationManager.commands == []
    {
      mapData := new MapViewModel();
      locationManager := new LocationManager(status);
      pending := [];
    }

    /** The change handler: one delayed check per change, capturing the new text. */
    method SearchTextChanged(oldText: string)
      requires mapData.Valid() && Settled(pending, oldText)
      modifies this
      ensures Valid()
      ensures pending == AfterEdit(old(pending), oldText, mapData.searchText)
    {
      if mapData.searchText != oldText {
        pending := pending + [mapData.searchText];
      }
    }

    /** The user edits the search field, which writes the view-model's text. */
    method EditSearchText(value: string)
      requires Valid()
      modifies this, mapData
      ensures Valid()
      ensures pending == AfterEdit(old(pending), old(mapData.searchText), value)
      ensures mapData.State() == old(mapData.State()).(searchText := value)
    {
      var oldText := mapData.searchText;
      mapData.searchText := value;
      SearchTextChanged(oldText);
    }

    /** The oldest delayed check fires: it searches only if its text is still the current one. */
    method FirePendingCheck() returns (searched: bool)
      requires Valid() && pending != []
      modifies this, mapData
      ensures Valid()
      ensures pending == old(pending)[1..]
      ensures searched <==> old(pending)[0] == mapData.searchText
      ensures mapData.searchRequests == old(mapData.searchRequests) + FireOne(old(pending)[0], mapData.searchText)
      ensures searched ==> mapData.State() == old(mapData.State()).(places := [], searchRequests := mapData.searchRequests)
      ensures !searched ==> mapData.State() == old(mapData.State())
    {
      var value := pending[0];
      pending := pending[1..];
      searched := value == mapData.searchText;
      if searched {
        mapData.SearchQuery();
      }
    }

    /**
     * Typing has stopped: every pending check fires in turn. The queries sent are
     * those `FireAll` gives for the pending list and the unchanged text.
     */
    method FireAllPending()
      requires Valid()
      modifies this, mapData
      ensures Valid()
      ensures pending == []
      ensures mapData.searchText == old(mapData.searchText)
      ensures mapData.searchRequests == old(mapData.searchRequests) + FireAll(old(pending), mapData.searchText)
      ensures FireAll(old(pending), mapData.searchText) != [] ==> mapData.places == []
      ensures FireAll(old(pending), mapData.searchText) == [] ==> mapData.places == old(mapData.places)
      ensures mapData.State() == old(mapData.State()).(places := mapData.places, searchRequests := mapData.searchRequests)
    {
      ghost var p0, t := pending, mapData.searchText;
      ghost var s0 := mapData.State();
      ghost var sent: seq<string> := [];
      var k := 0;
      while pending != []
        invariant Valid()
        invariant 0 <= k <= |p0| && pending == p0[k..]
        invariant sent == FireAll(p0[..k], t)
        invariant mapData.State() == s0.(places := mapData.places, searchRequests := s0.searchRequests + sent)
        invariant sent != [] ==> mapData.places == []
        invariant sent == [] ==> mapData.places == s0.places
        decreases |pending|
      {
        var searched := FirePendingCheck();
        FireAllAppend(p0[..k], p0[k], t);
        assert p0[..k + 1] == p0[..k] + [p0[k]];
        sent := sent + FireOne(p0[k], t);
        k := k + 1;
      }
      assert p0[..k] == p0;
    }

    /**
     * A tap on a result row selects that place. Clearing the text is itself a
     * change, so it schedules a check capturing "".
     */
    method TapRow(place: Place)
      requires Valid()
      requires ResultsVisible(mapData.places, mapData.searchText) && place in mapData.places
      modifies this, mapData, mapData.mapView
      ensures Valid()
      ensures pending == old(pending) + [""]
      ensures !ResultsVisible(mapData.places, mapData.searchText)
      ensures place.placemark.location.None? ==> mapData.State() == old(mapData.State()).(searchText := "")
      ensures place.placemark.location.Some? ==>
        var c := place.placemark.location.value.coordinate;
        mapData.State() == old(mapData.State()).(
          searchText := "",
          annotations := [Annotation(c, PinTitle(place.placemark))],
          displayedRegion := Some(Region(c, PlaceSpanMeters, PlaceSpanMeters)))
    {
      var oldText := mapData.searchText;
      mapData.SelectPlace(place);
      SearchTextChanged(oldText);
    }

    /** The location button recenters on the stored region. */
    method TapLocationButton()
      requires Valid()
      modifies mapData.mapView
      ensures Valid()
      ensures old(mapData.region).None? ==> mapData.State() == old(mapData.State())
      ensures old(mapData.region).Some? ==> mapData.State() == old(mapData.State()).(displayedRegion := old(mapData.region))
    {
      mapData.FocusLocation();
    }

    /** The map-type button toggles the map type; its icon then shows the new type's next step. */
    method TapMapTypeButton() returns (icon: string)
      requires Valid()
      modifies mapData, mapData.mapView
      ensures Valid()
      ensures mapData.mapType == NextMapType(old(mapData.mapType))
      ensures mapData.State() == old(mapData.State()).(mapType := mapData.mapType, shownMapType := mapData.mapType)
      ensures icon == MapTypeIcon(mapData.mapType)
    {
      mapData.UpdateMapType();
      icon := MapTypeIcon(mapData.mapType);
    }
  }

  /**
   * Typing "coffee", the search answering with three items, a tap on the second
   * row, and the check scheduled by that tap firing. The results survive the tap
   * and are emptied only by the search the cleared text sets off.
   */
  method SearchAndSelect(first: MapItem, second: MapItem, third: MapItem, ids: seq<string>, c: Coordinate)
    returns (requests: seq<string>, shownAfterTap: nat, pins: seq<Annotation>, resultsAtEnd: seq<Place>)
    requires |ids| == 3 && second.placemark.location == Some(Location(c))
    ensures requests == ["coffee", ""]
    ensures shownAfterTap == 3
    ensures pins == [Annotation(c, PinTitle(second.placemark))]
    ensures resultsAtEnd == []
  {
    var view := new HomeView(AuthorizedWhenInUse);
    view.EditSearchText("coffee");
    var searched := view.FirePendingCheck();
    view.mapData.SearchCompleted(Some([first, second, third]), ids);
    var picked := view.mapData.places[1];
    assert picked.placemark == second.placemark;
    view.TapRow(picked);
    shownAfterTap := |view.mapData.places|;
    searched := view.FirePendingCheck();
    requests := view.mapData.searchRequests;
    pins := view.mapData.mapView.annotations;
    resultsAtEnd := view.mapData.places;
  }
}
