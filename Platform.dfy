/**
 * The parts of MapKit and CoreLocation that the view-model talks to, reduced to
 * plain state: coordinates are compared only for equality, a region is a centre
 * with two spans in metres, the map surface is the list of pins the app added, its
 * displayed region and its map type, and the location manager is a log of the
 * commands it was given.
 */
module Platform {
  import opened Wrappers

  /** CLLocationCoordinate2D; no arithmetic on it is modelled. */
  datatype Coordinate = Coordinate(latitude: real, longitude: real)

  /** CLLocation, of which only the coordinate is read. */
  datatype Location = Location(coordinate: Coordinate)

  /** CLPlacemark: an optional name and an optional location. */
  datatype Placemark = Placemark(name: Option<string>, location: Option<Location>)

  /** MKMapItem as delivered in a search response. */
  datatype MapItem = MapItem(placemark: Placemark)

  /** MKCoordinateRegion(center:latitudinalMeters:longitudinalMeters:). */
  datatype Region = Region(center: Coordinate, latitudinalMeters: nat, longitudinalMeters: nat)

  /** MKMapType, with all of its cases. */
  datatype MapType = Standard | Satellite | Hybrid | SatelliteFlyover | HybridFlyover | MutedStandard

  /** MKPointAnnotation: a pin at a coordinate with a title. */
  datatype Annotation = Annotation(coordinate: Coordinate, title: string)

  /** CLAuthorizationStatus. */
  datatype AuthorizationStatus = NotDetermined | Restricted | Denied | AuthorizedAlways | AuthorizedWhenInUse

  /** The requests the app can make of a CLLocationManager. */
  datatype LocationCommand = RequestWhenInUseAuthorization | RequestLocation

  /** The annotations of `shown` left after removing every annotation in `removed`, in their order. */
  function Remaining(shown: seq<Annotation>, removed: seq<Annotation>): (r: seq<Annotation>)
    ensures |r| <= |shown|
    ensures forall a :: a in r <==> a in shown && a !in removed
  {
    if shown == [] then []
    else if shown[0] in removed then Remaining(shown[1..], removed)
    else [shown[0]] + Remaining(shown[1..], removed)
  }

  /** Removing a list that covers every annotation on the map leaves none. */
  lemma {:induction false} RemainingNone(shown: seq<Annotation>, removed: seq<Annotation>)
    requires forall a :: a in shown ==> a in removed
    ensures Remaining(shown, removed) == []
  {
    if shown != [] {
      assert shown[0] in shown;
      forall a | a in shown[1..] ensures a in removed {
        assert a in shown;
      }
      RemainingNone(shown[1..], removed);
    }
  }

  /** MKMapView, with the state the app reads or writes. */
  class MapSurface {
    var annotations: seq<Annotation>
    /** None until the app first sets a region (the platform's default view). */
    var displayedRegion: Option<Region>
    var mapType: MapType

    constructor ()
      ensures annotations == [] && displayedRegion == None && mapType == Standard
    {
      annotations := [];
      displayedRegion := None;
      mapType := Standard;
    }

    /** setRegion(_:animated:) */
    method SetRegion(r: Region)
      modifies this
      ensures displayedRegion == Some(r)
      ensures annotations == old(annotations) && mapType == old(mapType)
    {
      displayedRegion := Some(r);
    }

    /** addAnnotation(_:) */
    method AddAnnotation(a: Annotation)
      modifies this
      ensures annotations == old(annotations) + [a]
      ensures displayedRegion == old(displayedRegion) && mapType == old(mapType)
    {
      annotations := annotations + [a];
    }

    /** removeAnnotations(_:) */
    method RemoveAnnotations(removed: seq<Annotation>)
      modifies this
      ensures annotations == Remaining(old(annotations), removed)
      ensures displayedRegion == old(displayedRegion) && mapType == old(mapType)
    {
      annotations := Remaining(annotations, removed);
    }

    /** The `mapType` property setter. */
    method SetMapType(t: MapType)
      modifies this
      ensures mapType == t
      ensures annotations == old(annotations) && displayedRegion == old(displayedRegion)
    {
      mapType := t;
    }
  }

  /** CLLocationManager: its current authorization status and the commands issued to it. */
  class LocationManager {
    var authorizationStatus: AuthorizationStatus
    var commands: seq<LocationCommand>

    constructor (status: AuthorizationStatus)
      ensures authorizationStatus == status && commands == []
    {
      authorizationStatus := status;
      commands := [];
    }

    /** requestWhenInUseAuthorization() */
    method RequestAuthorization()
      modifies this
      ensures commands == old(commands) + [RequestWhenInUseAuthorization]
      ensures authorizationStatus == old(authorizationStatus)
    {
      commands := commands + [RequestWhenInUseAuthorization];
    }

    /** requestLocation() */
    method RequestOneLocation()
      modifies this
      ensures commands == old(commands) + [RequestLocation]
      ensures authorizationStatus == old(authorizationStatus)
    {
      commands := commands + [RequestLocation];
    }
  }
}
