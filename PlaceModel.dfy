/** PlaceModel: one search result, an opaque identifier and the placemark it was made from. */
module Model {
  import opened Platform

  /** The identifier is `UUID().uuidString`, generated afresh for each result. */
  datatype Place = Place(id: string, placemark: Placemark)

  /**
   * The result list built from a search response: one place per map item, in the
   * response's order, each holding that item's placemark. The identifiers the
   * platform would generate are passed in as `ids`, one per item.
   */
  function ToPlaces(items: seq<MapItem>, ids: seq<string>): (r: seq<Place>)
    requires |ids| == |items|
    ensures |r| == |items|
    ensures forall i :: 0 <= i < |items| ==> r[i].placemark == items[i].placemark && r[i].id == ids[i]
  {
    if items == [] then []
    else [Place(ids[0], items[0].placemark)] + ToPlaces(items[1..], ids[1..])
  }
}
