/** The geographic dataset: administrative regions with properties and polygon coordinates.
    A polygon is a sequence of rings and a ring a sequence of `[lon, lat]` points. */
module Geo {
  import opened Wrappers
  import JsArray

  type Point = (real, real)
  type Ring = seq<Point>
  type Polygon = seq<Ring>

  datatype Properties = Properties(name: string, adcode: int, center: Point)

  /** One sub-region of a dataset; `coordinates` is its `geometry.coordinates`. */
  datatype Feature = Feature(properties: Properties, coordinates: seq<Polygon>)

  /** One dataset: a region, its boundary and the features it is divided into. */
  datatype GeoJson = GeoJson(properties: Properties, features: seq<Feature>, coordinates: seq<Polygon>)

  const CityNotFound: string := "city not found"

  /** The `city` getter: the first dataset whose adcode is `adcode`, or the
      "city not found" error when there is none. */
  function City(geos: seq<GeoJson>, adcode: int): (r: Result<GeoJson, string>)
    ensures r.Failure? <==> forall i :: 0 <= i < |geos| ==> geos[i].properties.adcode != adcode
    ensures r.Failure? ==> r.error == CityNotFound
    ensures r.Success? ==>
      exists i :: 0 <= i < |geos| && geos[i] == r.value && r.value.properties.adcode == adcode &&
        forall j :: 0 <= j < i ==> geos[j].properties.adcode != adcode
  {
    match JsArray.FindIndex(geos, (g: GeoJson) => g.properties.adcode == adcode)
    case None => Failure(CityNotFound)
    case Some(i) => Success(geos[i])
  }

  /** Every ring of every polygon, in the order the builders visit them. */
  function Rings(coordinates: seq<Polygon>): seq<Ring> {
    if coordinates == [] then []
    else Rings(coordinates[..|coordinates| - 1]) + coordinates[|coordinates| - 1]
  }
}
