/**
 * Geocoding of free-text addresses, restricted to a fixed box around Alicante.
 * The geocoding service is an oracle: a function from the query text to its answer.
 */
module Geocodificador {
  import opened Wrappers

  /** Latitude and longitude, in degrees. */
  type Coord = (real, real)

  /** What one request to the geocoding service produces. */
  datatype Answer =
    | NoMatch                        // the service found nothing
    | Match(lat: real, lon: real)    // the first hit
    | ServiceError                   // the request raised (timeout, refused, ...)

  const MinLat: real := 38.22
  const MaxLat: real := 38.40
  const MinLon: real := -0.51
  const MaxLon: real := -0.43

  /** The box a coordinate must fall in to be accepted. */
  predicate InBox(c: Coord)
  {
    MinLat <= c.0 <= MaxLat && MinLon <= c.1 <= MaxLon
  }

  /** The text sent to the service for an address. */
  function Query(direccion: string): (q: string)
    ensures |q| == |direccion| + |", Alicante, Spain"|
    ensures q[..|direccion|] == direccion && q[|direccion|..] == ", Alicante, Spain"
  {
    direccion + ", Alicante, Spain"
  }

  /** `obtener_coordenadas`: the service's hit for the address if it lies in the box, else None. */
  function ObtenerCoordenadas(direccion: string, geocode: string -> Answer): (r: Option<Coord>)
    ensures r.Some? ==> InBox(r.value)
    ensures r.Some? <==> geocode(Query(direccion)).Match? && InBox((geocode(Query(direccion)).lat, geocode(Query(direccion)).lon))
    ensures r.Some? ==> geocode(Query(direccion)) == Match(r.value.0, r.value.1)
  {
    match geocode(Query(direccion))
    case Match(lat, lon) => if InBox((lat, lon)) then Some((lat, lon)) else None
    case NoMatch => None
    case ServiceError => None
  }

  /** The address only matters through the query: two addresses with the same query get the same answer. */
  lemma QueryDeterminesAnswer(a: string, b: string, geocode: string -> Answer)
    requires Query(a) == Query(b)
    ensures a == b
    ensures ObtenerCoordenadas(a, geocode) == ObtenerCoordenadas(b, geocode)
  {
    assert a == Query(a)[..|a|];
    assert |a| == |b|;
  }
}
