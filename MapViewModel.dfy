/**
 * MapViewModel: the state behind the map screen and the delegate of the location
 * manager. Every method is one short transition of its fields and of the map surface.
 */
module ViewModel {
  import opened Wrappers
  import opened Platform
  import opened Model

  /** Span, in metres, of the region shown around a selected place. */
  const PlaceSpanMeters: nat := 1000
  /** Span, in metres, of the region built around a location fix. */
  const LocationSpanMeters: nat := 10000
  /** Pin title for a place whose placemark has no name. */
  const NoName: string := "No Name"

  /** The map type after the toggle: standard becomes hybrid, anything else standard. */
  function NextMapType(t: MapType): MapType
  {
    if t == Standard then Hybrid else Standard
  }

  /** The toggle switches between standard and hybrid, and two taps from standard come back. */
  lemma NextMapTypeToggles(t: MapType)
    ensures NextMapType(Standard) == Hybrid && NextMapType(Hybrid) == Standard
    ensures t != Standard ==> NextMapType(t) == Standard
    ensures t == Standard || t == Hybrid ==> NextMapType(NextMapType(t)) == t
    ensures NextMapType(t) != t
  {
  }

  /** The title of the pin put on a selected place. */
  function PinTitle(p: Placemark): string
  {
    p.name.GetOr(NoName)
  }

  /** Everything the view-model and its map surface hold, as one value. */
  datatype ViewState = ViewState(
    region: Option<Region>,
    permissionDenied: bool,
    mapType: MapType,
    searchText: string,
    places: seq<Place>,
    searchRequests: seq<string>,
    annotations: seq<Annotation>,
    displayedRegion: Option<Region>,
    shownMapType: MapType)

  class MapViewModel {
    /** The map surface; the view-model never replaces it. */
    const mapView: MapSurface
    /** The region built from the last location fix; nil until the first fix. */
    var region: Option<Region>
    var permissionDenied: bool
    var mapType: MapType
    var searchText: string
    var places: seq<Place>
    /** The query texts handed to the place-search service, oldest first. */
    var searchRequests: seq<string>

    ghost function State(): ViewState
      reads this, mapView
    {
      ViewState(region, permissionDenied, mapType, searchText, places, searchRequests,
                mapView.annotations, mapView.displayedRegion, mapView.mapType)
    }

    /** The map shows the view-model's map type, and carries at most one pin. */
    ghost predicate Valid()
      reads this, mapView
    {
      mapView.mapType == mapType && |mapView.annotations| <= 1
    }

    constructor ()
      ensures fresh(mapView) && Valid()
      ensures State() == ViewState(None, false, Standard, "", [], [], [], None, Standard)
    {
      mapView := new MapSurface();
      region := None;
      permissionDenied := false;
      mapType := Standard;
      searchText := "";
      places := [];
      searchRequests := [];
    }

    /** Toggles the map type and applies it to the map. */
    method UpdateMapType()
      requires Valid()
      modifies this, mapView
      ensures Valid()
      ensures mapType == NextMapType(old(mapType)) && mapView.mapType == mapType
      ensures State() == old(State()).(mapType := mapType, shownMapType := mapType)
    {
      if mapType == Standard {
        mapType := Hybrid;
        mapView.SetMapType(mapType);
      } else {
        mapType := Standard;
        mapView.SetMapType(mapType);
      }
    }

    /** Moves the map back to the stored region, if there is one. */
    method FocusLocation()
      requires Valid()
      modifies mapView
      ensures Valid()
      ensures old(region).None? ==> State() == old(State())
      ensures old(region).Some? ==> State() == old(State()).(displayedRegion := old(region))
    {
      if region.None? {
        return;
      }
      mapView.SetRegion(region.value);
    }

    /**
     * Starts a search for the current text: empties the results at once and hands
     * the text, whatever it is, to the search service.
     */
    method SearchQuery()
      requires Valid()
      modifies this
      ensures Valid()
      ensures places == [] && searchRequests == old(searchRequests) + [searchText]
      ensures State() == old(State()).(places := [], searchRequests := searchRequests)
    {
      places := [];
      searchRequests := searchRequests + [searchText];
    }

    /**
     * The search service's reply arrives: nil leaves the results as they are,
     * otherwise they become one place per map item, in reply order.
     */
    method SearchCompleted(reply: Option<seq<MapItem>>, ids: seq<string>)
      requires Valid()
      requires reply.Some? ==> |ids| == |reply.value|
      modifies this
      ensures Valid()
      ensures reply.None? ==> State() == old(State())
      ensures reply.Some? ==> State() == old(State()).(places := ToPlaces(reply.value, ids))
    {
      if reply.None? {
        return;
      }
      places := ToPlaces(reply.value, ids);
    }

    /**
     * Selects a search result: always clears the text; when the place has a
     * coordinate, replaces every pin by one on it and shows 1000 m around it.
     */
    method SelectPlace(place: Place)
      requires Valid()
      modifies this, mapView
      ensures Valid()
      ensures place.placemark.location.None? ==> State() == old(State()).(searchText := "")
      ensures place.placemark.location.Some? ==>
        var c := place.placemark.location.value.coordinate;
        State() == old(State()).(
          searchText := "",
          annotations := [Annotation(c, PinTitle(place.placemark))],
          displayedRegion := Some(Region(c, PlaceSpanMeters, PlaceSpanMeters)))
    {
      searchText := "";

      if place.placemark.location.None? {
        return;
      }
      var coordinate := place.placemark.location.value.coordinate;

      var pointAnnotation := Annotation(coordinate, PinTitle(place.placemark));

      RemainingNone(mapView.annotations, mapView.annotations);
      mapView.RemoveAnnotations(mapView.annotations);

      mapView.AddAnnotation(pointAnnotation);

      var coordinateRegion := Region(coordinate, PlaceSpanMeters, PlaceSpanMeters);
      mapView.SetRegion(coordinateRegion);
    }

    /**
     * The authorization status changed: not determined asks for permission, denied
     * flips the alert flag, when-in-use asks for one fix, and the rest do nothing.
     */
    method LocationManagerDidChangeAuthorization(manager: LocationManager)
      requires Valid()
      modifies this, manager
      ensures Valid()
      ensures manager.authorizationStatus == old(manager.authorizationStatus)
      ensures manager.commands == old(manager.commands) + match manager.authorizationStatus {
        case NotDetermined => [RequestWhenInUseAuthorization]
        case AuthorizedWhenInUse => [RequestLocation]
        case _ => []
      }
      ensures State() == old(State()).(
        permissionDenied := if manager.authorizationStatus == Denied then !old(permissionDenied) else old(permissionDenied))
    {
      match manager.authorizationStatus {
        case NotDetermined =>
          manager.RequestAuthorization();
        case Denied =>
          permissionDenied := !permissionDenied;
        case AuthorizedWhenInUse =>
          manager.RequestOneLocation();
        case _ =>
      }
    }

    /** Location fetching failed; the error is only logged, nothing is retried or changed. */
    method DidFailWithError(manager: LocationManager, error: string)
      requires Valid()
      ensures Valid()
      ensures unchanged(this, mapView, manager)
    {
    }

    /**
     * New fixes arrived, most recent last: an empty batch changes nothing; otherwise
     * the region becomes 10000 m around the last fix and the map shows it.
     */
    method DidUpdateLocations(locations: seq<Location>)
      requires Valid()
      modifies this, mapView
      ensures Valid()
      ensures locations == [] ==> State() == old(State())
      ensures locations != [] ==>
        var r := Region(locations[|locations| - 1].coordinate, LocationSpanMeters, LocationSpanMeters);
        State() == old(State()).(region := Some(r), displayedRegion := Some(r))
    {
      if locations == [] {
        return;
      }
      var location := locations[|locations| - 1];

      region := Some(Region(location.coordinate, LocationSpanMeters, LocationSpanMeters));

      mapView.SetRegion(region.value);
    }
  }
}
