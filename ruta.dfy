/**
 * A route: origin, intermediate stops and destination given as addresses, a transport mode,
 * and what is computed from them (distance, duration, difficulty, per-leg lists), together with
 * the JSON document the route is saved as.
 *
 * The street graph and its shortest-path queries are oracles bundled in `World`.
 */
module Ruta {
  import opened Wrappers
  import opened Text
  import Json
  import Geo = Geocodificador
  import Seqs
  import Fechas

  type Coord = Geo.Coord

  /** A node of the street graph. */
  type Node = int

  /** The libraries a route is computed with. */
  datatype World = World(
    geocode: string -> Geo.Answer,            // the geocoding service
    nearest: Coord -> Node,                   // nearest graph node to a coordinate
    pathLength: (Node, Node) -> Option<real>, // shortest-path length in metres; None: no path
    path: (Node, Node) -> Option<seq<Node>>,  // the shortest path itself; None: no path
    formatKm: real -> string)                 // "%.2f" formatting of a float

  // ----- difficulty and duration -----

  /** Speeds (km/h) of `calcular_duracion`. */
  function Velocidad(modo: string): Option<real>
  {
    if modo == "walk" then Some(5.0)
    else if modo == "bike" then Some(15.0)
    else if modo == "drive" then Some(30.0)
    else None
  }

  /** Speeds (km/h) of the per-leg times in `guardar_en_json`: driving is twice as fast here. */
  function VelocidadTramo(modo: string): Option<real>
  {
    if modo == "walk" then Some(5.0)
    else if modo == "bike" then Some(15.0)
    else if modo == "drive" then Some(60.0)
    else None
  }

  predicate ModoValido(modo: string)
  {
    modo == "walk" || modo == "bike" || modo == "drive"
  }

  lemma VelocidadPositiva(modo: string)
    requires ModoValido(modo)
    ensures VelocidadTramo(modo).Some? && VelocidadTramo(modo).value > 0.0
  {
  }

  function Rango(dificultad: string): nat
  {
    if dificultad == "bajo" then 0 else if dificultad == "medio" then 1 else 2
  }

  /** `calcular_dificultad`: below 10 km low, below 20 km medium, otherwise high. */
  function CalcularDificultad(distancia: real): (d: string)
    ensures d == "bajo" <==> distancia < 10.0
    ensures d == "medio" <==> 10.0 <= distancia < 20.0
    ensures d == "alto" <==> 20.0 <= distancia
  {
    if distancia < 10.0 then "bajo"
    else if distancia < 20.0 then "medio"
    else "alto"
  }

  /** A longer route is never easier. */
  lemma DificultadMonotona(a: real, b: real)
    requires a <= b
    ensures Rango(CalcularDificultad(a)) <= Rango(CalcularDificultad(b))
  {
  }

  /** `calcular_duracion`: hours at the mode's speed; ValueError for an unknown mode. */
  function CalcularDuracion(distancia: real, modo: string): (r: Result<real>)
    ensures r.Ok? <==> ModoValido(modo)
    ensures r.Ok? ==> r.value * Velocidad(modo).value == distancia
    ensures r.Err? ==> r.error.ValueError?
  {
    match Velocidad(modo)
    case Some(v) => Ok(distancia / v)
    case None => Err(ValueError("Modo de transporte no válido. Usa 'walk', 'bike' o 'drive'."))
  }

  /** Python's `int(x)` on a float: truncation toward zero. */
  function Trunc(x: real): (n: int)
    ensures x >= 0.0 ==> n as real <= x < n as real + 1.0
    ensures x < 0.0 ==> n as real - 1.0 < x <= n as real
  {
    if x >= 0.0 then x.Floor else -((-x).Floor)
  }

  /** The duration text of the saved document: "H h M min", or "M min" below one hour. */
  function DuracionStr(duracion: real): string
  {
    var horas := Trunc(duracion);
    var minutos := Trunc((duracion - horas as real) * 60.0);
    if horas > 0 then IntToString(horas) + " h " + IntToString(minutos) + " min"
    else IntToString(minutos) + " min"
  }

  /** For a non-negative duration the two numbers are whole hours and minutes 0..59 below it. */
  lemma DuracionStrPartes(d: real)
    requires d >= 0.0
    ensures var h := Trunc(d); var m := Trunc((d - h as real) * 60.0);
      && 0 <= h && 0 <= m <= 59
      && h as real + m as real / 60.0 <= d < h as real + (m as real + 1.0) / 60.0
      && DuracionStr(d) == if h > 0 then NatToString(h) + " h " + NatToString(m) + " min"
                           else NatToString(m) + " min"
  {
  }

  // ----- legs -----

  /** The graph nodes visited, in order: origin, each intermediate point, destination. */
  function RutaNodos(origen: Coord, intermedios: seq<Coord>, destino: Coord, nearest: Coord -> Node): (n: seq<Node>)
    ensures |n| == |intermedios| + 2
    ensures n[0] == nearest(origen) && n[|n| - 1] == nearest(destino)
    ensures forall i :: 0 <= i < |intermedios| ==> n[i + 1] == nearest(intermedios[i])
  {
    [nearest(origen)] + seq(|intermedios|, i requires 0 <= i < |intermedios| => nearest(intermedios[i])) + [nearest(destino)]
  }

  /** Total length of the consecutive legs of `nodos`, or None when some leg has no path. */
  function SumaTramos(nodos: seq<Node>, len: (Node, Node) -> Option<real>): Option<real>
    decreases |nodos|
  {
    if |nodos| < 2 then Some(0.0)
    else
      var antes := SumaTramos(nodos[..|nodos| - 1], len);
      var tramo := len(nodos[|nodos| - 2], nodos[|nodos| - 1]);
      if antes.Some? && tramo.Some? then Some(antes.value + tramo.value) else None
  }

  /** Once a prefix of the legs fails, the whole sum fails. */
  /** One more leg: its length is added, or the sum fails with it. */
  lemma SumaTramosPaso(nodos: seq<Node>, i: nat, len: (Node, Node) -> Option<real>)
    requires i + 1 < |nodos|
    ensures var antes, tramo := SumaTramos(nodos[..i + 1], len), len(nodos[i], nodos[i + 1]);
      SumaTramos(nodos[..i + 2], len) == if antes.Some? && tramo.Some? then Some(antes.value + tramo.value) else None
  {
    var p := nodos[..i + 2];
    assert p[..|p| - 1] == nodos[..i + 1] && p[|p| - 2] == nodos[i] && p[|p| - 1] == nodos[i + 1];
  }

  lemma {:induction false} SumaTramosFallo(nodos: seq<Node>, k: nat, len: (Node, Node) -> Option<real>)
    requires k <= |nodos|
    requires SumaTramos(nodos[..k], len).None?
    ensures SumaTramos(nodos, len).None?
    decreases |nodos| - k
  {
    if k < |nodos| {
      assert nodos[..k + 1][..k] == nodos[..k];
      SumaTramosFallo(nodos, k + 1, len);
    } else {
      assert nodos[..k] == nodos;
    }
  }

  /** Splitting the waypoints at a shared point splits the total length. */
  lemma {:induction false} SumaTramosPartida(p: seq<Node>, x: Node, q: seq<Node>, len: (Node, Node) -> Option<real>)
    requires SumaTramos(p + [x], len).Some? && SumaTramos([x] + q, len).Some?
    ensures SumaTramos(p + [x] + q, len) == Some(SumaTramos(p + [x], len).value + SumaTramos([x] + q, len).value)
    decreases |q|
  {
    if q == [] {
      assert p + [x] + q == p + [x];
      assert SumaTramos([x], len) == Some(0.0);
    } else {
      var q' := q[..|q| - 1];
      var y := q[|q| - 1];
      assert ([x] + q)[..|[x] + q| - 1] == [x] + q';
      assert (p + [x] + q)[..|p + [x] + q| - 1] == p + [x] + q';
      var a := if |q'| == 0 then x else q'[|q'| - 1];
      assert ([x] + q)[|[x] + q| - 2] == a;
      assert (p + [x] + q)[|p + [x] + q| - 2] == a;
      SumaTramosPartida(p, x, q', len);
    }
  }

  /** Non-negative leg lengths give a non-negative total. */
  lemma {:induction false} SumaTramosNoNegativa(nodos: seq<Node>, len: (Node, Node) -> Option<real>)
    requires forall a, b :: len(a, b).Some? ==> len(a, b).value >= 0.0
    requires SumaTramos(nodos, len).Some?
    ensures SumaTramos(nodos, len).value >= 0.0
    decreases |nodos|
  {
    if |nodos| >= 2 {
      SumaTramosNoNegativa(nodos[..|nodos| - 1], len);
    }
  }

  /** The distance of a route in km, or the exception `calcular_distancia` raises. */
  function DistanciaTotal(origen: Option<Coord>, intermedios: seq<Coord>, destino: Option<Coord>, w: World): Result<real>
  {
    if origen.None? || destino.None? then Err(TypeError)
    else match SumaTramos(RutaNodos(origen.value, intermedios, destino.value, w.nearest), w.pathLength)
      case None => Err(NoPath)
      case Some(total) => Ok(total / 1000.0)
  }

  /** A sum that fails has a leg, between two consecutive nodes, with no path. */
  lemma {:induction false} SumaTramosSinCamino(nodos: seq<Node>, len: (Node, Node) -> Option<real>)
    requires SumaTramos(nodos, len).None?
    ensures exists i :: 0 <= i < |nodos| - 1 && len(nodos[i], nodos[i + 1]).None?
    decreases |nodos|
  {
    var init := nodos[..|nodos| - 1];
    if SumaTramos(init, len).None? {
      SumaTramosSinCamino(init, len);
      var i :| 0 <= i < |init| - 1 && len(init[i], init[i + 1]).None?;
      assert nodos[i] == init[i] && nodos[i + 1] == init[i + 1];
    } else {
      assert len(nodos[|nodos| - 2], nodos[|nodos| - 1]).None?;
    }
  }

  /** When every two nodes are joined by a path, the sum is defined. */
  lemma {:induction false} SumaTramosTotal(nodos: seq<Node>, len: (Node, Node) -> Option<real>)
    requires forall a, b :: len(a, b).Some?
    ensures SumaTramos(nodos, len).Some?
    decreases |nodos|
  {
    if |nodos| >= 2 {
      SumaTramosTotal(nodos[..|nodos| - 1], len);
    }
  }

  /**
   * Why `calcular_distancia` raises: TypeError exactly when an end was not placed, otherwise
   * NoPath, and then some leg of the route has no path.
   */
  lemma DistanciaFallos(origen: Option<Coord>, intermedios: seq<Coord>, destino: Option<Coord>, w: World)
    ensures var d := DistanciaTotal(origen, intermedios, destino, w);
      && (d.Err? ==> d.error == TypeError || d.error == NoPath)
      && (d == Err(TypeError) <==> origen.None? || destino.None?)
      && (d == Err(NoPath) ==> exists a, b :: w.pathLength(a, b).None?)
  {
    var d := DistanciaTotal(origen, intermedios, destino, w);
    if d == Err(NoPath) {
      var nodos := RutaNodos(origen.value, intermedios, destino.value, w.nearest);
      SumaTramosSinCamino(nodos, w.pathLength);
      var i :| 0 <= i < |nodos| - 1 && w.pathLength(nodos[i], nodos[i + 1]).None?;
    }
  }

  /**
   * The condition under which `guardar_en_json` writes the route built from these addresses: the
   * ends are placed, every leg has a path, and the mode is one of the three.
   */
  predicate Guardable(origen: string, intermedios: seq<string>, destino: string, modo: string, w: World)
  {
    && DistanciaTotal(Geo.ObtenerCoordenadas(origen, w.geocode), PuntosIntermedios(intermedios, w.geocode),
                      Geo.ObtenerCoordenadas(destino, w.geocode), w).Ok?
    && ModoValido(modo)
  }

  /** Placed ends, a graph where every two nodes are joined, and a valid mode make a route savable. */
  lemma GuardableCompleto(origen: string, intermedios: seq<string>, destino: string, modo: string, w: World)
    requires Geo.ObtenerCoordenadas(origen, w.geocode).Some? && Geo.ObtenerCoordenadas(destino, w.geocode).Some?
    requires forall a, b :: w.pathLength(a, b).Some?
    requires ModoValido(modo)
    ensures Guardable(origen, intermedios, destino, modo, w)
  {
    var o, d := Geo.ObtenerCoordenadas(origen, w.geocode), Geo.ObtenerCoordenadas(destino, w.geocode);
    SumaTramosTotal(RutaNodos(o.value, PuntosIntermedios(intermedios, w.geocode), d.value, w.nearest), w.pathLength);
  }

  /** The shortest paths of the legs that have one. */
  function TramosCamino(nodos: seq<Node>, w: World): seq<seq<Node>>
    decreases |nodos|
  {
    if |nodos| < 2 then []
    else
      var a, b := nodos[|nodos| - 2], nodos[|nodos| - 1];
      TramosCamino(nodos[..|nodos| - 1], w) + (if w.path(a, b).Some? then [w.path(a, b).value] else [])
  }

  /** The km of the legs whose path and length were both found. */
  function TramosKm(nodos: seq<Node>, w: World): (r: seq<real>)
    ensures |r| <= if |nodos| < 2 then 0 else |nodos| - 1
    decreases |nodos|
  {
    if |nodos| < 2 then []
    else
      var a, b := nodos[|nodos| - 2], nodos[|nodos| - 1];
      TramosKm(nodos[..|nodos| - 1], w)
        + (if w.path(a, b).Some? && w.pathLength(a, b).Some? then [w.pathLength(a, b).value / 1000.0] else [])
  }

  /** Hours for each leg at a speed. */
  function Tiempos(kms: seq<real>, velocidad: real): (r: seq<real>)
    requires velocidad > 0.0
    ensures |r| == |kms|
    ensures forall i :: 0 <= i < |kms| ==> r[i] * velocidad == kms[i]
  {
    seq(|kms|, i requires 0 <= i < |kms| => kms[i] / velocidad)
  }

  function Suma(xs: seq<real>): real
  {
    if xs == [] then 0.0 else Suma(xs[..|xs| - 1]) + xs[|xs| - 1]
  }

  /** When every leg has a path, the per-leg km add up to the route's distance. */
  lemma {:induction false} TramosSuman(nodos: seq<Node>, w: World)
    requires forall a, b :: w.path(a, b).Some? && w.pathLength(a, b).Some?
    ensures SumaTramos(nodos, w.pathLength).Some?
    ensures |TramosKm(nodos, w)| == if |nodos| < 2 then 0 else |nodos| - 1
    ensures Suma(TramosKm(nodos, w)) == SumaTramos(nodos, w.pathLength).value / 1000.0
    decreases |nodos|
  {
    if |nodos| >= 2 {
      var init := nodos[..|nodos| - 1];
      TramosSuman(init, w);
      var k := TramosKm(nodos, w);
      assert k[..|k| - 1] == TramosKm(init, w);
    }
  }

  /** Summing the per-leg hours: equal to the route duration for walk and bike, half of it for drive. */
  lemma TiemposSuman(kms: seq<real>, modo: string)
    requires ModoValido(modo)
    ensures Suma(Tiempos(kms, VelocidadTramo(modo).value)) * VelocidadTramo(modo).value == Suma(kms)
    ensures modo != "drive" ==> Suma(Tiempos(kms, VelocidadTramo(modo).value)) == CalcularDuracion(Suma(kms), modo).value
    ensures modo == "drive" ==> 2.0 * Suma(Tiempos(kms, VelocidadTramo(modo).value)) == CalcularDuracion(Suma(kms), modo).value
  {
    var v := VelocidadTramo(modo).value;
    TiemposPorVelocidad(kms, v);
    var s := Suma(kms);
    var h := CalcularDuracion(s, modo).value;
    var t := Suma(Tiempos(kms, v));
    if modo == "drive" {
      MismaDistancia(s, t, 60.0, h, 30.0);
    } else {
      MismaDistancia(s, t, v, h, v);
    }
  }

  /** Two durations covering the same distance at speeds `a` and `b`: `t * a == h * b`. */
  lemma MismaDistancia(s: real, t: real, a: real, h: real, b: real)
    requires a > 0.0 && b > 0.0 && t * a == s && h * b == s
    ensures a == b ==> t == h
    ensures a == 2.0 * b ==> 2.0 * t == h
  {
    if a == b {
      assert (t - h) * a == 0.0;
    }
    if a == 2.0 * b {
      assert (2.0 * t - h) * b == 0.0;
    }
  }

  /** At a fixed speed, the per-leg hours add up to the total distance over that speed. */
  lemma {:induction false} TiemposPorVelocidad(kms: seq<real>, v: real)
    requires v > 0.0
    ensures Suma(Tiempos(kms, v)) * v == Suma(kms)
    decreases |kms|
  {
    if kms != [] {
      var init := kms[..|kms| - 1];
      TiemposPorVelocidad(init, v);
      var t := Tiempos(kms, v);
      assert t[..|t| - 1] == Tiempos(init, v);
      assert Suma(t) * v == Suma(Tiempos(init, v)) * v + t[|t| - 1] * v;
    }
  }

  // ----- the saved document and the exported files -----

  /** The JSON document written to `rutas/<nombre>.json`. */
  datatype Documento = Documento(
    nombre: string,
    ubicacion: Coord,
    distancia: string,
    duracion: string,
    dificultad: string,
    fechaRegistro: string,
    origen: string,
    puntosIntermedios: seq<string>,
    destino: string,
    modoTransporte: string)

  /** The document as the dictionary `json.load` gives back. */
  function ComoRegistro(d: Documento): (r: Json.Record)
    ensures "distancia" in r && r["distancia"] == Json.Str(d.distancia)
    ensures "duracion" in r && r["duracion"] == Json.Str(d.duracion)
    ensures "dificultad" in r && r["dificultad"] == Json.Str(d.dificultad)
    ensures "modo_transporte" in r && r["modo_transporte"] == Json.Str(d.modoTransporte)
    ensures "nombre" in r && r["nombre"] == Json.Str(d.nombre)
    ensures "origen" in r && r["origen"] == Json.Str(d.origen)
    ensures "destino" in r && r["destino"] == Json.Str(d.destino)
    ensures "fecha_registro" in r && r["fecha_registro"] == Json.Str(d.fechaRegistro)
    ensures r.Keys == {"nombre", "ubicacion", "distancia", "duracion", "dificultad", "fecha_registro",
                       "origen", "puntos_intermedios", "destino", "modo_transporte"}
  {
    map[
      "nombre" := Json.Str(d.nombre),
      "ubicacion" := Json.Other,
      "distancia" := Json.Str(d.distancia),
      "duracion" := Json.Str(d.duracion),
      "dificultad" := Json.Str(d.dificultad),
      "fecha_registro" := Json.Str(d.fechaRegistro),
      "origen" := Json.Str(d.origen),
      "puntos_intermedios" := Json.Other,
      "destino" := Json.Str(d.destino),
      "modo_transporte" := Json.Str(d.modoTransporte)]
  }

  /** The (latitude, longitude) box `random.uniform` draws a new route's location from. */
  predicate UbicacionInicial(c: Coord)
  {
    38.3 <= c.0 <= 38.4 && -0.5 <= c.1 <= -0.3
  }

  /** `exportar_pdf` writes `static/<nombre>.pdf`. */
  function RutaPdf(nombre: string): string { "static/" + nombre + ".pdf" }

  /** `generar_mapa` writes `static/rutas_<etiqueta>.html`. */
  function RutaHtml(etiqueta: string): string { "static/rutas_" + etiqueta + ".html" }

  /** `exportar_gpx` writes `static/rutas_<etiqueta>.gpx`. */
  function RutaGpx(etiqueta: string): string { "static/rutas_" + etiqueta + ".gpx" }

  /** The geocoded intermediate points: those the geocoder places in the box, in input order. */
  function PuntosIntermedios(direcciones: seq<string>, geocode: string -> Geo.Answer): (r: seq<Coord>)
    ensures |r| <= |direcciones|
    ensures forall k :: 0 <= k < |r| ==> Geo.InBox(r[k])
    ensures (forall i :: 0 <= i < |direcciones| ==> Geo.ObtenerCoordenadas(direcciones[i], geocode).Some?) ==>
      |r| == |direcciones| &&
      forall i :: 0 <= i < |direcciones| ==> r[i] == Geo.ObtenerCoordenadas(direcciones[i], geocode).value
    decreases |direcciones|
  {
    if direcciones == [] then []
    else
      var c := Geo.ObtenerCoordenadas(direcciones[|direcciones| - 1], geocode);
      PuntosIntermedios(direcciones[..|direcciones| - 1], geocode) + (if c.Some? then [c.value] else [])
  }

  /** The addresses the geocoder places in the box, in input order. */
  function Colocadas(direcciones: seq<string>, geocode: string -> Geo.Answer): seq<string>
  {
    Seqs.Filter(direcciones, d => Geo.ObtenerCoordenadas(d, geocode).Some?)
  }

  /** The intermediates are the coordinates of exactly the placed addresses, one for each, in order. */
  lemma {:induction false} PuntosColocados(direcciones: seq<string>, geocode: string -> Geo.Answer)
    ensures |PuntosIntermedios(direcciones, geocode)| == |Colocadas(direcciones, geocode)|
    ensures forall k :: 0 <= k < |Colocadas(direcciones, geocode)| ==>
      Geo.ObtenerCoordenadas(Colocadas(direcciones, geocode)[k], geocode) == Some(PuntosIntermedios(direcciones, geocode)[k])
    decreases |direcciones|
  {
    if direcciones != [] {
      var init, last := direcciones[..|direcciones| - 1], direcciones[|direcciones| - 1];
      PuntosColocados(init, geocode);
      var c := Geo.ObtenerCoordenadas(last, geocode);
      var f, f0 := Colocadas(direcciones, geocode), Colocadas(init, geocode);
      var p, p0 := PuntosIntermedios(direcciones, geocode), PuntosIntermedios(init, geocode);
      assert f == f0 + (if c.Some? then [last] else []);
      assert p == p0 + (if c.Some? then [c.value] else []);
      forall k | 0 <= k < |f|
        ensures Geo.ObtenerCoordenadas(f[k], geocode) == Some(p[k])
      {
        if k < |f0| {
          assert f[k] == f0[k] && p[k] == p0[k];
        }
      }
    }
  }

  /** The per-leg loop of `guardar_en_json`: paths, km and hours of each leg that has a path. */
  method CalcularTramos(nodos: seq<Node>, w: World, v: real) returns (rs: seq<seq<Node>>, ds: seq<real>, ts: seq<real>)
    requires v > 0.0
    ensures rs == TramosCamino(nodos, w)
    ensures ds == TramosKm(nodos, w)
    ensures ts == Tiempos(ds, v)
  {
    rs, ds, ts := [], [], [];
    if |nodos| < 2 {
      return;
    }
    var i := 0;
    while i < |nodos| - 1
      invariant 0 <= i <= |nodos| - 1
      invariant rs == TramosCamino(nodos[..i + 1], w)
      invariant ds == TramosKm(nodos[..i + 1], w)
      invariant ts == Tiempos(ds, v)
    {
      assert nodos[..i + 2][..i + 1] == nodos[..i + 1];
      var a, b := nodos[i], nodos[i + 1];
      var camino := w.path(a, b);
      if camino.Some? {
        rs := rs + [camino.value];
        var metros := w.pathLength(a, b);
        if metros.Some? {
          var km := metros.value / 1000.0;
          ds := ds + [km];
          ts := ts + [km / v];
        }
      }
      i := i + 1;
    }
    assert nodos[..i + 1] == nodos;
  }

  class Ruta {
    const nombre: string
    const ubicacion: Coord
    const modoTransporte: string
    const fechaRegistro: Fechas.DateTime  // datetime.now() at creation
    const timestamp: int                // int(time.time()) at creation
    const origenNombre: string
    const destinoNombre: string
    const puntosIntermediosNombres: seq<string>
    const origen: Option<Coord>
    const destino: Option<Coord>
    const puntosIntermedios: seq<Coord>
    var distancia: real
    var duracion: real
    var dificultad: string
    var rutas: seq<seq<Node>>
    var distancias: seq<real>
    var tiemposEstimados: seq<real>

    /** Geocodes the three kinds of points; unplaceable intermediate points are dropped. */
    constructor (nombre: string, ubicacion: Coord, distancia: real, duracion: real, dificultad: string,
                 origen: string, puntosIntermedios: seq<string>, destino: string, modoTransporte: string,
                 fechaRegistro: Fechas.DateTime, timestamp: int, geocode: string -> Geo.Answer)
      ensures this.nombre == nombre && this.ubicacion == ubicacion && this.modoTransporte == modoTransporte
      ensures this.distancia == distancia && this.duracion == duracion && this.dificultad == dificultad
      ensures this.fechaRegistro == fechaRegistro && this.timestamp == timestamp
      ensures origenNombre == origen && destinoNombre == destino && puntosIntermediosNombres == puntosIntermedios
      ensures this.origen == Geo.ObtenerCoordenadas(origen, geocode)
      ensures this.destino == Geo.ObtenerCoordenadas(destino, geocode)
      ensures this.puntosIntermedios == PuntosIntermedios(puntosIntermedios, geocode)
      ensures rutas == [] && distancias == [] && tiemposEstimados == []
    {
      this.nombre := nombre;
      this.ubicacion := ubicacion;
      this.distancia := distancia;
      this.duracion := duracion;
      this.dificultad := dificultad;
      this.modoTransporte := modoTransporte;
      this.fechaRegistro := fechaRegistro;
      this.timestamp := timestamp;
      this.origenNombre := origen;
      this.destinoNombre := destino;
      this.puntosIntermediosNombres := puntosIntermedios;
      this.origen := Geo.ObtenerCoordenadas(origen, geocode);
      this.destino := Geo.ObtenerCoordenadas(destino, geocode);
      this.puntosIntermedios := PuntosIntermedios(puntosIntermedios, geocode);
      rutas, distancias, tiemposEstimados := [], [], [];
    }

    /** `calcular_distancia`: sum of the shortest legs origin -> stops -> destination, in km. */
    method CalcularDistancia(w: World) returns (r: Result<real>)
      ensures r == DistanciaTotal(origen, puntosIntermedios, destino, w)
    {
      if origen.None? || destino.None? {
        return Err(TypeError);
      }
      var nodos := RutaNodos(origen.value, puntosIntermedios, destino.value, w.nearest);
      var total := 0.0;
      var i := 0;
      while i < |nodos| - 1
        invariant 0 <= i <= |nodos| - 1
        invariant SumaTramos(nodos[..i + 1], w.pathLength) == Some(total)
      {
        var tramo := w.pathLength(nodos[i], nodos[i + 1]);
        SumaTramosPaso(nodos, i, w.pathLength);
        if tramo.None? {
          SumaTramosFallo(nodos, i + 2, w.pathLength);
          return Err(NoPath);
        }
        total := total + tramo.value;
        i := i + 1;
      }
      assert nodos[..i + 1] == nodos;
      return Ok(total / 1000.0);
    }

    /**
     * `guardar_en_json`: recomputes distance, difficulty and duration, returns the saved document,
     * and refills the per-leg lists. An exception leaves the fields set so far.
     */
    method GuardarEnJson(w: World) returns (r: Result<Documento>)
      modifies this
      ensures var d := DistanciaTotal(origen, puntosIntermedios, destino, w);
        && (d.Err? ==> r == Err(d.error) && distancia == old(distancia) && dificultad == old(dificultad)
                       && duracion == old(duracion) && rutas == old(rutas) && distancias == old(distancias)
                       && tiemposEstimados == old(tiemposEstimados))
        && (d.Ok? ==> distancia == d.value && dificultad == CalcularDificultad(d.value))
        && (d.Ok? && !ModoValido(modoTransporte) ==>
              r == Err(CalcularDuracion(d.value, modoTransporte).error) && duracion == old(duracion)
              && rutas == old(rutas) && distancias == old(distancias) && tiemposEstimados == old(tiemposEstimados))
        && (d.Ok? && ModoValido(modoTransporte) ==>
              var nodos := RutaNodos(origen.value, puntosIntermedios, destino.value, w.nearest);
              && duracion == CalcularDuracion(d.value, modoTransporte).value
              && r == Ok(Documento(nombre, ubicacion, w.formatKm(distancia) + " km", DuracionStr(duracion),
                                   dificultad, Fechas.Strftime(fechaRegistro), origenNombre, puntosIntermediosNombres,
                                   destinoNombre, modoTransporte))
              && rutas == TramosCamino(nodos, w)
              && distancias == TramosKm(nodos, w)
              && tiemposEstimados == Tiempos(distancias, VelocidadTramo(modoTransporte).value))
    {
      var d := CalcularDistancia(w);
      if d.Err? {
        return Err(d.error);
      }
      distancia := d.value;
      dificultad := CalcularDificultad(distancia);
      var dur := CalcularDuracion(distancia, modoTransporte);
      if dur.Err? {
        return Err(dur.error);
      }
      duracion := dur.value;
      var doc := Documento(nombre, ubicacion, w.formatKm(distancia) + " km", DuracionStr(duracion),
                           dificultad, Fechas.Strftime(fechaRegistro), origenNombre, puntosIntermediosNombres,
                           destinoNombre, modoTransporte);
      var nodos := RutaNodos(origen.value, puntosIntermedios, destino.value, w.nearest);
      VelocidadPositiva(modoTransporte);
      rutas, distancias, tiemposEstimados := CalcularTramos(nodos, w, VelocidadTramo(modoTransporte).value);
      return Ok(doc);
    }
  }
}
