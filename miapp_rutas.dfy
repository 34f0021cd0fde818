/**
 * The route side of `miapp.py`: its `GestorRutas` filters over the records read from the
 * `rutas/` folder (keys `dificultad`, `distancia_km`, `duracion_horas`, `modo`), the fixed
 * arithmetic of its `RutaManual`, and its `RutaAuto`, which chains consecutive addresses.
 */
module MiappRutas {
  import opened Wrappers
  import opened Text
  import opened Seqs
  import Json
  import Fechas
  import G = GestorRutas

  type Record = Json.Record

  // ----- text filters -----

  /** `r.get(clave, '').lower() == valor.lower()`, for a field that is absent or text. */
  predicate Igual(r: Record, clave: string, valor: string)
  {
    Lower(G.TextoDe(r, clave)) == Lower(valor)
  }

  function Coincide(clave: string, valor: string): Record -> bool
  {
    x => Igual(x, clave, valor)
  }

  /**
   * `filtrar_por_dificultad` (clave "dificultad") and `filtrar_por_transporte` (clave "modo"):
   * the records whose field equals the value ignoring case, a missing field reading as "".
   * A field that is not text makes `.lower()` raise.
   */
  function PorCampo(rutas: seq<Record>, clave: string, valor: string): (r: Result<seq<Record>>)
    ensures r.Ok? <==> forall i :: 0 <= i < |rutas| ==> G.CampoTexto(rutas[i], clave)
    ensures r.Err? ==> r.error == AttributeError
    ensures r.Ok? ==> Subseq(r.value, rutas)
    ensures r.Ok? ==> forall i :: 0 <= i < |rutas| ==> (rutas[i] in r.value <==> Igual(rutas[i], clave, valor))
    ensures r.Ok? ==> forall y :: Ocurrencias(r.value, y) == if Igual(y, clave, valor) then Ocurrencias(rutas, y) else 0
  {
    if exists i :: 0 <= i < |rutas| && !G.CampoTexto(rutas[i], clave) then Err(AttributeError)
    else
      FilterSubseq(rutas, Coincide(clave, valor));
      FilterCount(rutas, Coincide(clave, valor));
      Ok(Filter(rutas, Coincide(clave, valor)))
  }

  /** The difficulty filter is the same in both revisions of the catalogue. */
  lemma PorCampoDificultad(rutas: seq<Record>, dificultad: string)
    ensures PorCampo(rutas, "dificultad", dificultad) == G.PorDificultad(rutas, dificultad)
  {
    FilterCongruent(rutas, Coincide("dificultad", dificultad), x => G.MismaDificultad(x, dificultad));
  }

  // ----- numeric filters -----

  /** `float(v)`: numbers as they are, booleans as 1.0 and 0.0, text through the parser, anything else raises. */
  function Float(v: Json.Value, parseFloat: string -> Option<real>): Result<real>
  {
    match v
    case Num(x) => Ok(x)
    case Str(s) =>
      if parseFloat(s).Some? then Ok(parseFloat(s).value)
      else Err(ValueError("could not convert string to float: '" + s + "'"))
    case Bool(b) => Ok(if b then 1.0 else 0.0)
    case Other => Err(TypeError)
  }

  /** `float(r.get(clave, 0))`. */
  function NumeroDe(r: Record, clave: string, parseFloat: string -> Option<real>): Result<real>
  {
    Float(Json.Get(r, clave, Json.Num(0.0)), parseFloat)
  }

  predicate Cabe(r: Record, clave: string, max: real, parseFloat: string -> Option<real>)
  {
    NumeroDe(r, clave, parseFloat).Ok? && NumeroDe(r, clave, parseFloat).value <= max
  }

  function Dentro(clave: string, max: real, parseFloat: string -> Option<real>): Record -> bool
  {
    x => Cabe(x, clave, max, parseFloat)
  }

  /** The exception of the first record whose field `float` cannot read, if any. */
  function PrimerFallo(rutas: seq<Record>, clave: string, parseFloat: string -> Option<real>): (r: Option<Error>)
    ensures r.None? <==> forall i :: 0 <= i < |rutas| ==> NumeroDe(rutas[i], clave, parseFloat).Ok?
    ensures r.Some? ==> exists i :: 0 <= i < |rutas| && NumeroDe(rutas[i], clave, parseFloat) == Err(r.value)
                          && forall j :: 0 <= j < i ==> NumeroDe(rutas[j], clave, parseFloat).Ok?
  {
    if rutas == [] then None
    else if NumeroDe(rutas[0], clave, parseFloat).Err? then
      Some(NumeroDe(rutas[0], clave, parseFloat).error)
    else
      var r := PrimerFallo(rutas[1..], clave, parseFloat);
      assert forall i :: 1 <= i < |rutas| ==> rutas[i] == rutas[1..][i - 1];
      if r.Some? then
        var i :| 0 <= i < |rutas[1..]| && NumeroDe(rutas[1..][i], clave, parseFloat) == Err(r.value)
                  && forall j :: 0 <= j < i ==> NumeroDe(rutas[1..][j], clave, parseFloat).Ok?;
        assert forall j :: 0 <= j < i + 1 ==> NumeroDe(rutas[j], clave, parseFloat).Ok?;
        r
      else r
  }

  /**
   * `filtrar_por_distancia` (clave "distancia_km") and `filtrar_por_duracion` (clave
   * "duracion_horas"): the records whose number is at most `max`, a missing field counting as 0.
   * The comprehension stops at the first record `float` cannot read and raises its exception.
   */
  function Hasta(rutas: seq<Record>, clave: string, max: real, parseFloat: string -> Option<real>): (r: Result<seq<Record>>)
    ensures r.Ok? <==> forall i :: 0 <= i < |rutas| ==> NumeroDe(rutas[i], clave, parseFloat).Ok?
    ensures r.Err? ==> exists i :: 0 <= i < |rutas| && NumeroDe(rutas[i], clave, parseFloat) == Err(r.error)
                          && forall j :: 0 <= j < i ==> NumeroDe(rutas[j], clave, parseFloat).Ok?
    ensures r.Ok? ==> Subseq(r.value, rutas)
    ensures r.Ok? ==> forall i :: 0 <= i < |rutas| ==>
      (rutas[i] in r.value <==> NumeroDe(rutas[i], clave, parseFloat).value <= max)
    ensures r.Ok? ==> forall y :: Ocurrencias(r.value, y) == if Cabe(y, clave, max, parseFloat) then Ocurrencias(rutas, y) else 0
  {
    var fallo := PrimerFallo(rutas, clave, parseFloat);
    if fallo.Some? then Err(fallo.value)
    else
      FilterSubseq(rutas, Dentro(clave, max, parseFloat));
      FilterCount(rutas, Dentro(clave, max, parseFloat));
      Ok(Filter(rutas, Dentro(clave, max, parseFloat)))
  }

  /** A larger limit never drops a record, and whether the filter raises does not depend on it. */
  lemma HastaMonotona(rutas: seq<Record>, clave: string, a: real, b: real, parseFloat: string -> Option<real>)
    requires a <= b
    ensures Hasta(rutas, clave, a, parseFloat).Ok? == Hasta(rutas, clave, b, parseFloat).Ok?
    ensures Hasta(rutas, clave, a, parseFloat).Ok? ==>
      Subseq(Hasta(rutas, clave, a, parseFloat).value, Hasta(rutas, clave, b, parseFloat).value)
  {
    if PrimerFallo(rutas, clave, parseFloat).None? {
      FilterMonotone(rutas, Dentro(clave, a, parseFloat), Dentro(clave, b, parseFloat));
    }
  }

  // ----- `RutaManual` -----

  /** A point as the request gives it: an address, or the dictionary `RutaAuto` builds. */
  datatype Lugar = Texto(direccion: string) | Marcado(lat: int, lng: int, direccion: string)

  /** The dictionary `crear_ruta_desde_datos` returns and writes to `rutas/<nombre>.json`. */
  datatype RutaCreada = RutaCreada(nombre: string, origen: Lugar, destino: Lugar, puntosIntermedios: seq<Lugar>,
                                   modo: string, distanciaKm: real, duracionHoras: real, dificultad: string,
                                   fechaCreacion: string, creador: Option<string>)

  /** The fixed distance every route of this revision gets. */
  const DistanciaEjemplo: real := 10.0

  /** Speed in km/h: walk 5, bike 15, drive 60, any other mode 5. */
  function Velocidad(modo: string): (v: real)
    ensures v > 0.0
    ensures v == 15.0 <==> modo == "bike"
    ensures v == 60.0 <==> modo == "drive"
    ensures v == 5.0 <==> modo != "bike" && modo != "drive"
  {
    if modo == "walk" then 5.0 else if modo == "bike" then 15.0 else if modo == "drive" then 60.0 else 5.0
  }

  /** Difficulty by distance: below 5 km `bajo`, below 15 km `medio`, otherwise `alto`. */
  function Dificultad(km: real): (d: string)
    ensures d == "bajo" <==> km < 5.0
    ensures d == "medio" <==> 5.0 <= km < 15.0
    ensures d == "alto" <==> km >= 15.0
  {
    if km < 5.0 then "bajo" else if km < 15.0 then "medio" else "alto"
  }

  /** `strftime("%Y%m%d%H%M%S")`. */
  function Compacto(dt: Fechas.DateTime): (s: string)
    ensures |s| == 14 && AllDigits(s)
  {
    Fechas.Pad(dt.year, 4) + Fechas.Pad(dt.month, 2) + Fechas.Pad(dt.day, 2)
      + Fechas.Pad(dt.hour, 2) + Fechas.Pad(dt.minute, 2) + Fechas.Pad(dt.second, 2)
  }

  /** The name of a route created without one (or with an empty one). */
  function NombrePorDefecto(ahora: Fechas.DateTime): string
  {
    "Ruta_" + Compacto(ahora)
  }

  /** `RutaManual.crear_ruta_desde_datos`, without the file write; `ahora` is the clock reading. */
  function RutaDesdeDatos(origen: Lugar, destino: Lugar, modo: string, nombre: Option<string>,
                          puntosIntermedios: Option<seq<Lugar>>, username: Option<string>,
                          ahora: Fechas.DateTime): (r: RutaCreada)
    ensures r.nombre == if nombre.Some? && nombre.value != "" then nombre.value else NombrePorDefecto(ahora)
    ensures r.origen == origen && r.destino == destino && r.modo == modo && r.creador == username
    ensures r.puntosIntermedios == if puntosIntermedios.Some? then puntosIntermedios.value else []
    ensures r.distanciaKm == DistanciaEjemplo && r.duracionHoras * Velocidad(modo) == r.distanciaKm
    ensures r.dificultad == "medio"
    ensures r.fechaCreacion == Fechas.Strftime(ahora)
  {
    var intermedios := if puntosIntermedios.Some? then puntosIntermedios.value else [];
    var n := if nombre.Some? && nombre.value != "" then nombre.value else NombrePorDefecto(ahora);
    var km := DistanciaEjemplo;
    RutaCreada(n, origen, destino, intermedios, modo, km, km / Velocidad(modo), Dificultad(km),
               Fechas.Strftime(ahora), username)
  }

  /** The JSON value a point is written as. */
  function ValorLugar(l: Lugar): Json.Value
  {
    match l
    case Texto(s) => Json.Str(s)
    case Marcado(_, _, _) => Json.Other
  }

  /** The record `json.dump` writes for a created route, as the filters read it back. */
  function Registro(r: RutaCreada): (j: Record)
    ensures "nombre" in j && "distancia_km" in j && "duracion_horas" in j && "dificultad" in j && "modo" in j
  {
    map["nombre" := Json.Str(r.nombre), "origen" := ValorLugar(r.origen), "destino" := ValorLugar(r.destino),
        "puntos_intermedios" := Json.Other, "modo" := Json.Str(r.modo), "distancia_km" := Json.Num(r.distanciaKm),
        "duracion_horas" := Json.Num(r.duracionHoras), "dificultad" := Json.Str(r.dificultad),
        "fecha_creacion" := Json.Str(r.fechaCreacion),
        "creador" := if r.creador.Some? then Json.Str(r.creador.value) else Json.Other]
  }

  /**
   * A route this revision creates passes its own filters exactly by its 10 km, its duration
   * 10 / speed, its difficulty `medio` and its mode; none of them raises on it.
   */
  lemma CreadaEnFiltros(r: RutaCreada, origen: Lugar, destino: Lugar, modo: string, nombre: Option<string>,
                        puntos: Option<seq<Lugar>>, username: Option<string>, ahora: Fechas.DateTime,
                        max: real, valor: string, parseFloat: string -> Option<real>)
    requires r == RutaDesdeDatos(origen, destino, modo, nombre, puntos, username, ahora)
    ensures Cabe(Registro(r), "distancia_km", max, parseFloat) <==> 10.0 <= max
    ensures Cabe(Registro(r), "duracion_horas", max, parseFloat) <==> 10.0 / Velocidad(modo) <= max
    ensures G.CampoTexto(Registro(r), "dificultad") && G.CampoTexto(Registro(r), "modo")
    ensures Igual(Registro(r), "dificultad", valor) <==> Lower("medio") == Lower(valor)
    ensures Igual(Registro(r), "modo", valor) <==> Lower(modo) == Lower(valor)
  {
    var v := Velocidad(modo);
    assert r.duracionHoras == 10.0 / v;
  }

  /** The folder of route files, by route name, and the files under `static/`. */
  class Carpetas {
    var rutas: map<string, Record>
    var estaticos: set<string>

    constructor (rutas: map<string, Record>, estaticos: set<string>)
      ensures this.rutas == rutas && this.estaticos == estaticos
    {
      this.rutas := rutas;
      this.estaticos := estaticos;
    }
  }

  /** `RutaManual.crear_ruta_desde_datos`: builds the route and writes `rutas/<nombre>.json`. */
  method CrearRutaDesdeDatos(carpetas: Carpetas, origen: Lugar, destino: Lugar, modo: string, nombre: Option<string>,
                             puntosIntermedios: Option<seq<Lugar>>, username: Option<string>, ahora: Fechas.DateTime)
    returns (ruta: RutaCreada)
    modifies carpetas
    ensures ruta == RutaDesdeDatos(origen, destino, modo, nombre, puntosIntermedios, username, ahora)
    ensures carpetas.rutas == old(carpetas.rutas)[ruta.nombre := Registro(ruta)]
    ensures carpetas.estaticos == old(carpetas.estaticos)
  {
    ruta := RutaDesdeDatos(origen, destino, modo, nombre, puntosIntermedios, username, ahora);
    carpetas.rutas := carpetas.rutas[ruta.nombre := Registro(ruta)];
  }

  // ----- `RutaAuto` -----

  const FaltanDirecciones := "Se requieren al menos dos direcciones"

  /** The name of the route made in iteration `i`. */
  function NombreAuto(ahora: Fechas.DateTime, i: nat): string
  {
    "RutaAuto_" + Compacto(ahora) + "_" + NatToString(i)
  }

  function MensajeAuto(nombre: string): string
  {
    "Ruta '" + nombre + "' creada exitosamente"
  }

  /** `len(range(min(cantidad, n - 1)))`. */
  function Cuantas(cantidad: int, n: nat): (r: nat)
    ensures n >= 1 ==> r <= n - 1
    ensures cantidad >= 0 ==> r <= cantidad
    ensures cantidad >= 0 && n >= 1 ==> r == cantidad || r == n - 1
    ensures cantidad <= 0 || n <= 1 ==> r == 0
  {
    var m := if cantidad <= n - 1 then cantidad else n - 1;
    if m < 0 then 0 else m
  }

  /** The route of iteration `i`: from address `i` to address `i + 1`, on foot. */
  function Tramo(direcciones: seq<string>, i: nat, ahora: Fechas.DateTime): RutaCreada
    requires i + 1 < |direcciones|
  {
    RutaDesdeDatos(Marcado(0, 0, direcciones[i]), Marcado(0, 0, direcciones[i + 1]), "walk",
                   Some(NombreAuto(ahora, i)), None, None, ahora)
  }

  /** The routes of the first `k` iterations: route `j` joins addresses `j` and `j + 1`. */
  function Tramos(direcciones: seq<string>, k: nat, ahora: Fechas.DateTime): (r: seq<RutaCreada>)
    requires k < |direcciones|
    ensures |r| == k
    ensures forall j :: 0 <= j < k ==> r[j] == Tramo(direcciones, j, ahora)
  {
    if k == 0 then [] else Tramos(direcciones, k - 1, ahora) + [Tramo(direcciones, k - 1, ahora)]
  }

  /** The messages of the first `k` iterations. */
  function MensajesAuto(ahora: Fechas.DateTime, k: nat): (r: seq<string>)
    ensures |r| == k
    ensures forall j :: 0 <= j < k ==> r[j] == MensajeAuto(NombreAuto(ahora, j))
  {
    if k == 0 then [] else MensajesAuto(ahora, k - 1) + [MensajeAuto(NombreAuto(ahora, k - 1))]
  }

  /** One more iteration appends its route and its message. */
  lemma TramosPaso(direcciones: seq<string>, i: nat, ahora: Fechas.DateTime)
    requires i + 1 < |direcciones|
    ensures Tramos(direcciones, i + 1, ahora) == Tramos(direcciones, i, ahora) + [Tramo(direcciones, i, ahora)]
    ensures MensajesAuto(ahora, i + 1) == MensajesAuto(ahora, i) + [MensajeAuto(NombreAuto(ahora, i))]
  {
  }

  /** The route folder after writing the routes in order. */
  function Escritas(m: map<string, Record>, rutas: seq<RutaCreada>): map<string, Record>
    decreases |rutas|
  {
    if rutas == [] then m
    else Escritas(m, rutas[..|rutas| - 1])[rutas[|rutas| - 1].nombre := Registro(rutas[|rutas| - 1])]
  }

  lemma EscritasSnoc(m: map<string, Record>, rutas: seq<RutaCreada>, r: RutaCreada)
    ensures Escritas(m, rutas + [r]) == Escritas(m, rutas)[r.nombre := Registro(r)]
  {
    assert (rutas + [r])[..|rutas|] == rutas;
  }

  /** One iteration of `generar_rutas_desde_direcciones`: route `i` created and written. */
  method CrearTramo(carpetas: Carpetas, direcciones: seq<string>, i: nat, ahora: Fechas.DateTime)
    returns (ruta: RutaCreada)
    requires i + 1 < |direcciones|
    modifies carpetas
    ensures ruta == Tramo(direcciones, i, ahora)
    ensures carpetas.rutas == old(carpetas.rutas)[ruta.nombre := Registro(ruta)]
    ensures carpetas.estaticos == old(carpetas.estaticos)
  {
    var origen := Marcado(0, 0, direcciones[i]);
    var destino := Marcado(0, 0, direcciones[i + 1]);
    var nombre := NombreAuto(ahora, i);
    ruta := CrearRutaDesdeDatos(carpetas, origen, destino, "walk", Some(nombre), None, None, ahora);
  }

  /**
   * `RutaAuto.generar_rutas_desde_direcciones`: fewer than two addresses give the one-element
   * error list; otherwise min(cantidad, n - 1) routes, route `i` joining addresses `i` and `i + 1`,
   * each written to its file and announced by one message.
   */
  method GenerarRutasDesdeDirecciones(carpetas: Carpetas, direcciones: seq<string>, cantidad: int, ahora: Fechas.DateTime)
    returns (mensajes: seq<string>, creadas: seq<RutaCreada>)
    modifies carpetas
    ensures |direcciones| < 2 ==> mensajes == [FaltanDirecciones] && creadas == []
    ensures |direcciones| >= 2 ==>
      && creadas == Tramos(direcciones, Cuantas(cantidad, |direcciones|), ahora)
      && mensajes == MensajesAuto(ahora, Cuantas(cantidad, |direcciones|))
    ensures carpetas.rutas == Escritas(old(carpetas.rutas), creadas)
    ensures carpetas.estaticos == old(carpetas.estaticos)
  {
    if |direcciones| < 2 {
      return [FaltanDirecciones], [];
    }
    mensajes, creadas := [], [];
    var total := Cuantas(cantidad, |direcciones|);
    assert total < |direcciones|;
    var i := 0;
    while i < total
      invariant 0 <= i <= total < |direcciones|
      invariant creadas == Tramos(direcciones, i, ahora) && mensajes == MensajesAuto(ahora, i)
      invariant carpetas.rutas == Escritas(old(carpetas.rutas), creadas)
      invariant carpetas.estaticos == old(carpetas.estaticos)
    {
      var ruta := CrearTramo(carpetas, direcciones, i, ahora);
      EscritasSnoc(old(carpetas.rutas), creadas, ruta);
      TramosPaso(direcciones, i, ahora);
      creadas := creadas + [ruta];
      mensajes := mensajes + [MensajeAuto(NombreAuto(ahora, i))];
      i := i + 1;
    }
  }

  /** Generated names carry no quote character. */
  lemma NombreAutoSinComilla(ahora: Fechas.DateTime, i: nat)
    ensures '\'' !in NombreAuto(ahora, i)
  {
    var c, d := Compacto(ahora), NatToString(i);
    assert forall k :: 0 <= k < |c| ==> c[k] != '\'';
    assert forall k :: 0 <= k < |d| ==> d[k] != '\'';
  }

  /** The message around a name: "Ruta ", a quote, the name, a quote, " ", "creada", " exitosamente". */
  lemma MensajePartes(nombre: string)
    ensures MensajeAuto(nombre) == "Ruta " + ['\''] + nombre + ['\''] + " " + "creada" + " exitosamente"
  {
    assert "Ruta '" == "Ruta " + ['\''];
    assert "' creada exitosamente" == ['\''] + " " + "creada" + " exitosamente";
  }

  /**
   * Name recovery: the message contains "creada" and `split("'")[1]` gives back the route name,
   * for any name without a quote.
   */
  lemma RecuperarNombre(nombre: string)
    requires '\'' !in nombre
    ensures IsInfix("creada", MensajeAuto(nombre))
    ensures |SplitOn(MensajeAuto(nombre), '\'')| >= 2 && SplitOn(MensajeAuto(nombre), '\'')[1] == nombre
  {
    MensajePartes(nombre);
    var q := ['\''];
    var cola := " " + "creada" + " exitosamente";
    var m := MensajeAuto(nombre);
    assert m == "Ruta " + q + (nombre + q + cola);
    assert '\'' !in "Ruta ";
    SplitOnPrefix("Ruta ", '\'', nombre + q + cola);
    SplitOnPrefix(nombre, '\'', cola);
    var antes := "Ruta " + q + nombre + q + " ";
    assert m == antes + "creada" + " exitosamente";
    assert m[|antes|..|antes| + 6] == "creada";
    InfixAt("creada", m, |antes|);
  }

  /** The error text splits after its last character before the first 'c'. */
  lemma FaltanPartes()
    ensures FaltanDirecciones == "Se requieren al menos dos dire" + "cciones"
    ensures 'c' !in "Se requieren al menos dos dire"
  {
  }

  lemma CcionesSinCreada()
    ensures !IsInfix("creada", "cciones")
  {
    SinPar("creada", "cciones");
  }

  /** The error list of `RutaAuto` does not contain "creada". */
  lemma FaltanSinCreada()
    ensures !IsInfix("creada", FaltanDirecciones)
  {
    FaltanPartes();
    InfixSkip("creada", "Se requieren al menos dos dire", "cciones");
    CcionesSinCreada();
  }
}
