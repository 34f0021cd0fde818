/**
 * The HTTP handlers over routes: creating a route by hand or at random (both behind a login),
 * listing the stored routes through up to four filters, and the download paths of a route's files.
 */
module ApiRutas {
  import opened Wrappers
  import opened Text
  import opened Seqs
  import opened Json
  import opened GestorRutas
  import Fechas
  import R = Ruta
  import RM = RutaManual
  import RA = RutaAuto
  import U = Usuario

  datatype Cuerpo =
    | ListaRutas(rutas: seq<Record>)
    | Fallo(error: string)                               // {"error": ...}
    | Excepcion(e: Error)                                // uncaught: the framework's error page
    | RutaCreada(mensaje: string, pdf: string, gpx: string, html: string)
    | RutasGeneradas(mensaje: string, resultado: RA.Salida)

  datatype Respuesta = Respuesta(status: int, cuerpo: Cuerpo)

  // ----- obtener_rutas_filtradas -----

  /** The four query parameters, each possibly absent. */
  datatype Consulta = Consulta(dificultad: Option<string>, maxKm: Option<string>, maxHoras: Option<string>,
                               transporte: Option<string>)

  /** A parameter takes part when it is given and not empty. */
  predicate Presente(p: Option<string>)
  {
    p.Some? && p.value != []
  }

  /** What `float(s)` raises on a text that is not a number. */
  function NoFloat(s: string): Error
  {
    ValueError("could not convert string to float: '" + s + "'")
  }

  predicate PasaDificultad(x: Record, c: Consulta)
  {
    Presente(c.dificultad) ==> MismaDificultad(x, c.dificultad.value)
  }

  predicate PasaDistancia(x: Record, c: Consulta, pf: string -> Option<real>)
  {
    Presente(c.maxKm) ==> pf(c.maxKm.value).Some? && DentroDeDistancia(x, pf(c.maxKm.value).value, pf)
  }

  predicate PasaDuracion(x: Record, c: Consulta, pf: string -> Option<real>)
  {
    Presente(c.maxHoras) ==> pf(c.maxHoras.value).Some? && DentroDeDuracion(x, pf(c.maxHoras.value).value)
  }

  predicate PasaTransporte(x: Record, c: Consulta)
  {
    Presente(c.transporte) ==> MismoModo(x, c.transporte.value)
  }

  /** A route passes the query: it meets every filter the query applies. */
  predicate Cumple(x: Record, c: Consulta, pf: string -> Option<real>)
  {
    PasaDificultad(x, c) && PasaDistancia(x, c, pf) && PasaDuracion(x, c, pf) && PasaTransporte(x, c)
  }

  /** The filters applied up to each stage, as predicates. */
  function Hasta1(c: Consulta): Record -> bool
  {
    x => PasaDificultad(x, c)
  }

  function Hasta2(c: Consulta, pf: string -> Option<real>): Record -> bool
  {
    x => PasaDificultad(x, c) && PasaDistancia(x, c, pf)
  }

  function Hasta3(c: Consulta, pf: string -> Option<real>): Record -> bool
  {
    x => PasaDificultad(x, c) && PasaDistancia(x, c, pf) && PasaDuracion(x, c, pf)
  }

  function Todos(c: Consulta, pf: string -> Option<real>): Record -> bool
  {
    x => Cumple(x, c, pf)
  }

  /** The reference answer: the stored routes that pass the query, in their stored order. */
  function Seleccion(todas: seq<Record>, c: Consulta, pf: string -> Option<real>): seq<Record>
  {
    Filter(todas, Todos(c, pf))
  }

  /** The difficulty filter replaces the list with the manager's answer. */
  function Etapa1(todas: seq<Record>, c: Consulta): Result<seq<Record>>
  {
    if Presente(c.dificultad) then PorDificultad(todas, c.dificultad.value) else Ok(todas)
  }

  /**
   * The distance filter keeps the running routes found in the manager's answer. The limit is
   * parsed inside the comprehension, so an empty running list never parses it.
   */
  function Etapa2(todas: seq<Record>, l: seq<Record>, c: Consulta, pf: string -> Option<real>): Result<seq<Record>>
  {
    if !Presente(c.maxKm) || l == [] then Ok(l)
    else match pf(c.maxKm.value)
      case None => Err(NoFloat(c.maxKm.value))
      case Some(v) => Ok(Retener(l, PorDistancia(todas, v, pf)))
  }

  function Etapa3(todas: seq<Record>, l: seq<Record>, c: Consulta, pf: string -> Option<real>): Result<seq<Record>>
  {
    if !Presente(c.maxHoras) || l == [] then Ok(l)
    else match pf(c.maxHoras.value)
      case None => Err(NoFloat(c.maxHoras.value))
      case Some(v) => Ok(Retener(l, PorDuracion(todas, v)))
  }

  /** The transport filter, evaluated (and so able to raise) only when some route is left. */
  function Etapa4(todas: seq<Record>, l: seq<Record>, c: Consulta): Result<seq<Record>>
  {
    if !Presente(c.transporte) || l == [] then Ok(l)
    else match PorTransporte(todas, c.transporte.value)
      case Err(e) => Err(e)
      case Ok(m) => Ok(Retener(l, m))
  }

  /** The running list after the first three filters. */
  function HastaDuracion(todas: seq<Record>, c: Consulta, pf: string -> Option<real>): Result<seq<Record>>
  {
    match Etapa1(todas, c)
    case Err(e) => Err(e)
    case Ok(l1) =>
      match Etapa2(todas, l1, c, pf)
      case Err(e) => Err(e)
      case Ok(l2) => Etapa3(todas, l2, c, pf)
  }

  /**
   * `obtener_rutas_filtradas`: 400 only for an unknown mode met while some route is left; the
   * exceptions of the other filters escape as 500.
   */
  function Filtradas(todas: seq<Record>, c: Consulta, pf: string -> Option<real>): (r: Respuesta)
    ensures r.status == 200 || r.status == 400 || r.status == 500
    ensures !Presente(c.dificultad) && !Presente(c.maxKm) && !Presente(c.maxHoras) && !Presente(c.transporte) ==>
      r == Respuesta(200, ListaRutas(todas))
    ensures r.status == 400 <==>
      var h := HastaDuracion(todas, c, pf);
      h.Ok? && h.value != [] && Presente(c.transporte)
      && PorTransporte(todas, c.transporte.value).Err? && PorTransporte(todas, c.transporte.value).error.ValueError?
    ensures r.status == 400 ==> r.cuerpo == Fallo("Modo de transporte no válido")
    ensures r.status == 200 ==> r.cuerpo.ListaRutas?
    ensures r.status == 500 ==> r.cuerpo.Excepcion?
  {
    match HastaDuracion(todas, c, pf)
    case Err(e) => Respuesta(500, Excepcion(e))
    case Ok(l3) =>
      match Etapa4(todas, l3, c)
      case Err(ValueError(_)) => Respuesta(400, Fallo("Modo de transporte no válido"))
      case Err(e) => Respuesta(500, Excepcion(e))
      case Ok(l) => Respuesta(200, ListaRutas(l))
  }

  lemma Etapa1Seleccion(todas: seq<Record>, c: Consulta)
    requires Etapa1(todas, c).Ok?
    ensures Etapa1(todas, c).value == Filter(todas, Hasta1(c))
  {
    if Presente(c.dificultad) {
      var d := c.dificultad.value;
      FilterCongruent(todas, x => MismaDificultad(x, d), Hasta1(c));
    } else {
      FilterAll(todas, Hasta1(c));
    }
  }

  lemma Etapa2Seleccion(todas: seq<Record>, l: seq<Record>, c: Consulta, pf: string -> Option<real>)
    requires l == Filter(todas, Hasta1(c)) && Etapa2(todas, l, c, pf).Ok?
    ensures Etapa2(todas, l, c, pf).value == Filter(todas, Hasta2(c, pf))
  {
    if !Presente(c.maxKm) {
      FilterCongruent(todas, Hasta1(c), Hasta2(c, pf));
    } else if l == [] {
      FilterEmpty(todas, Hasta1(c), Hasta2(c, pf));
    } else {
      var v := pf(c.maxKm.value).value;
      PorDistanciaExacta(todas, v, pf);
      RetenerFiltro(todas, Hasta1(c), PorDistancia(todas, v, pf), x => DentroDeDistancia(x, v, pf), Hasta2(c, pf));
    }
  }

  lemma Etapa3Seleccion(todas: seq<Record>, l: seq<Record>, c: Consulta, pf: string -> Option<real>)
    requires l == Filter(todas, Hasta2(c, pf)) && Etapa3(todas, l, c, pf).Ok?
    ensures Etapa3(todas, l, c, pf).value == Filter(todas, Hasta3(c, pf))
  {
    if !Presente(c.maxHoras) {
      FilterCongruent(todas, Hasta2(c, pf), Hasta3(c, pf));
    } else if l == [] {
      FilterEmpty(todas, Hasta2(c, pf), Hasta3(c, pf));
    } else {
      var v := pf(c.maxHoras.value).value;
      PorDuracionExacta(todas, v);
      RetenerFiltro(todas, Hasta2(c, pf), PorDuracion(todas, v), x => DentroDeDuracion(x, v), Hasta3(c, pf));
    }
  }

  lemma Etapa4Seleccion(todas: seq<Record>, l: seq<Record>, c: Consulta, pf: string -> Option<real>)
    requires l == Filter(todas, Hasta3(c, pf)) && Etapa4(todas, l, c).Ok?
    ensures Etapa4(todas, l, c).value == Seleccion(todas, c, pf)
  {
    if !Presente(c.transporte) {
      FilterCongruent(todas, Hasta3(c, pf), Todos(c, pf));
    } else if l == [] {
      FilterEmpty(todas, Hasta3(c, pf), Todos(c, pf));
    } else {
      var t := c.transporte.value;
      var m := PorTransporte(todas, t).value;
      RetenerFiltro(todas, Hasta3(c, pf), m, x => MismoModo(x, t), Todos(c, pf));
    }
  }

  /** The running list after three filters is the selection by those three. */
  lemma HastaDuracionSeleccion(todas: seq<Record>, c: Consulta, pf: string -> Option<real>)
    requires HastaDuracion(todas, c, pf).Ok?
    ensures HastaDuracion(todas, c, pf).value == Filter(todas, Hasta3(c, pf))
  {
    var l1 := Etapa1(todas, c).value;
    Etapa1Seleccion(todas, c);
    var l2 := Etapa2(todas, l1, c, pf).value;
    Etapa2Seleccion(todas, l1, c, pf);
    Etapa3Seleccion(todas, l2, c, pf);
  }

  /**
   * The composed filters answer exactly the reference selection: the stored routes meeting every
   * applied filter, in stored order.
   */
  lemma FiltradasSeleccion(todas: seq<Record>, c: Consulta, pf: string -> Option<real>)
    requires Filtradas(todas, c, pf).status == 200
    ensures Filtradas(todas, c, pf).cuerpo == ListaRutas(Seleccion(todas, c, pf))
  {
    var l3 := HastaDuracion(todas, c, pf).value;
    HastaDuracionSeleccion(todas, c, pf);
    Etapa4Seleccion(todas, l3, c, pf);
  }

  /**
   * The 500 answers: a route whose difficulty or mode is not text, or a limit that is not a
   * number while some route is still left.
   */
  lemma FiltradasFallos(todas: seq<Record>, c: Consulta, pf: string -> Option<real>)
    requires Filtradas(todas, c, pf).status == 500
    ensures var e := Filtradas(todas, c, pf).cuerpo.e;
      || (e == AttributeError && Presente(c.dificultad)
          && exists i :: 0 <= i < |todas| && !CampoTexto(todas[i], "dificultad"))
      || (e == AttributeError && Presente(c.transporte)
          && exists i :: 0 <= i < |todas| && !CampoTexto(todas[i], "modo_transporte"))
      || (Presente(c.maxKm) && pf(c.maxKm.value).None? && e == NoFloat(c.maxKm.value))
      || (Presente(c.maxHoras) && pf(c.maxHoras.value).None? && e == NoFloat(c.maxHoras.value))
  {
    match HastaDuracion(todas, c, pf)
    case Err(_) =>
      if Etapa1(todas, c).Ok? {
        var l1 := Etapa1(todas, c).value;
        if Etapa2(todas, l1, c, pf).Ok? {
          var l2 := Etapa2(todas, l1, c, pf).value;
          assert Etapa3(todas, l2, c, pf).Err?;
        }
      }
    case Ok(l3) =>
      TransporteFallo(todas, c.transporte.value);
  }

  /** The mode filter fails without a ValueError only on a route whose mode is not text. */
  lemma TransporteFallo(todas: seq<Record>, modo: string)
    requires PorTransporte(todas, modo).Err? && !PorTransporte(todas, modo).error.ValueError?
    ensures PorTransporte(todas, modo) == Err(AttributeError)
  {
  }

  /** With nothing left after three filters, the mode is never looked at: any mode answers 200 and []. */
  lemma TransporteSinSupervivientes(todas: seq<Record>, c: Consulta, pf: string -> Option<real>)
    requires HastaDuracion(todas, c, pf) == Ok([])
    ensures Filtradas(todas, c, pf) == Respuesta(200, ListaRutas([]))
  {
  }

  /** Every filter the query adds keeps the answer a subsequence of the answer without it. */
  predicate Amplia(c2: Consulta, c: Consulta)
  {
    && (Presente(c.dificultad) ==> c2.dificultad == c.dificultad)
    && (Presente(c.maxKm) ==> c2.maxKm == c.maxKm)
    && (Presente(c.maxHoras) ==> c2.maxHoras == c.maxHoras)
    && (Presente(c.transporte) ==> c2.transporte == c.transporte)
  }

  lemma SeleccionMonotona(todas: seq<Record>, c: Consulta, c2: Consulta, pf: string -> Option<real>)
    requires Amplia(c2, c)
    ensures Subseq(Seleccion(todas, c2, pf), Seleccion(todas, c, pf))
  {
    FilterMonotone(todas, Todos(c2, pf), Todos(c, pf));
  }

  /** The answer is a subsequence of the stored routes and of the difficulty filter's own output. */
  lemma SeleccionEnDificultad(todas: seq<Record>, c: Consulta, pf: string -> Option<real>)
    ensures Subseq(Seleccion(todas, c, pf), todas)
    ensures Presente(c.dificultad) && PorDificultad(todas, c.dificultad.value).Ok? ==>
      Subseq(Seleccion(todas, c, pf), PorDificultad(todas, c.dificultad.value).value)
  {
    FilterSubseq(todas, Todos(c, pf));
    if Presente(c.dificultad) {
      var d := c.dificultad.value;
      FilterMonotone(todas, Todos(c, pf), x => MismaDificultad(x, d));
    }
  }

  /** The answer is a subsequence of the distance filter's own output. */
  lemma SeleccionEnDistancia(todas: seq<Record>, c: Consulta, pf: string -> Option<real>)
    requires Presente(c.maxKm) && pf(c.maxKm.value).Some?
    ensures Subseq(Seleccion(todas, c, pf), PorDistancia(todas, pf(c.maxKm.value).value, pf))
  {
    var v := pf(c.maxKm.value).value;
    FilterMonotone(todas, Todos(c, pf), x => DentroDeDistancia(x, v, pf));
  }

  /** The answer is a subsequence of the duration filter's own output. */
  lemma SeleccionEnDuracion(todas: seq<Record>, c: Consulta, pf: string -> Option<real>)
    requires Presente(c.maxHoras) && pf(c.maxHoras.value).Some?
    ensures Subseq(Seleccion(todas, c, pf), PorDuracion(todas, pf(c.maxHoras.value).value))
  {
    var v := pf(c.maxHoras.value).value;
    FilterMonotone(todas, Todos(c, pf), x => DentroDeDuracion(x, v));
  }

  /** The answer is a subsequence of the transport filter's own output. */
  lemma SeleccionEnTransporte(todas: seq<Record>, c: Consulta, pf: string -> Option<real>)
    requires Presente(c.transporte) && PorTransporte(todas, c.transporte.value).Ok?
    ensures Subseq(Seleccion(todas, c, pf), PorTransporte(todas, c.transporte.value).value)
  {
    var t := c.transporte.value;
    FilterMonotone(todas, Todos(c, pf), x => MismoModo(x, t));
  }

  // ----- crear_manual -----

  /** The keys of the dictionary `crear_ruta_desde_datos` returns, in insertion order. */
  const ClavesResultado := ["nombre", "origen", "destino", "modo", "puntos_intermedios", "archivos"]

  /** `a, b, c = d` on a dictionary: unpacking iterates the keys. */
  function DesempaquetarTres(claves: seq<string>): (r: Result<(string, string, string)>)
    ensures r.Ok? <==> |claves| == 3
  {
    if |claves| == 3 then Ok((claves[0], claves[1], claves[2]))
    else if |claves| > 3 then Err(ValueError("too many values to unpack (expected 3)"))
    else Err(ValueError("not enough values to unpack (expected 3, got " + NatToString(|claves|) + ")"))
  }

  /** The answer to a created route as the handler writes it: unpack the dictionary into three names. */
  function RespuestaCreadaAsWritten(res: RM.Resultado): Respuesta
  {
    match DesempaquetarTres(ClavesResultado)
    case Ok((pdf, gpx, html)) => Respuesta(200, RutaCreada("Ruta creada", pdf, gpx, html))
    case Err(e) => Respuesta(500, Fallo(ErrorText(e)))
  }

  /** Counterexample: every route the handler creates is answered with 500, the unpacking error. */
  lemma RespuestaCreadaAsWrittenFalla(res: RM.Resultado)
    ensures RespuestaCreadaAsWritten(res) == Respuesta(500, Fallo("too many values to unpack (expected 3)"))
  {
  }

  /** The answer to a created route, reading the three paths from the "archivos" entry. */
  function RespuestaCreada(res: RM.Resultado): (r: Respuesta)
    ensures r.status == 200 && r.cuerpo.RutaCreada?
    ensures r.cuerpo.pdf == res.archivos.pdf && r.cuerpo.gpx == res.archivos.gpx && r.cuerpo.html == res.archivos.html
  {
    Respuesta(200, RutaCreada("Ruta creada", res.archivos.pdf, res.archivos.gpx, res.archivos.html))
  }

  /**
   * `crear_manual`, with the answer read from "archivos" and the logged-in user's name passed to
   * the association. 403 when the credentials match no record, before any route is made.
   */
  method CrearManual(almacen: U.Almacen, username: string, password: string, origen: string,
                     intermedios: seq<string>, destino: string, modo: string, nombre: Option<string>,
                     w: R.World, ahora: Fechas.DateTime, segundos: int, timestamp: int)
    returns (r: Respuesta)
    modifies almacen
    ensures var cargados := U.CargarDe(old(almacen.archivo));
      && (cargados.Err? ==> r == Respuesta(500, Excepcion(cargados.error)) && almacen.archivo == old(almacen.archivo))
      && (cargados.Ok? && U.PrimeraSesion(cargados.value, username, password).None? ==>
            r == Respuesta(403, Fallo("Credenciales inválidas")) && almacen.archivo == old(almacen.archivo))
      && (cargados.Ok? && U.PrimeraSesion(cargados.value, username, password).Some? ==>
            var n := RM.NombreRuta(nombre, segundos);
            && (r.status == 200 || r.status == 500)
            && (r.status == 200 <==> R.Guardable(origen, intermedios, destino, modo, w)
                                     && RM.Asociado(old(almacen.archivo), RM.Nombre(username), n).Ok?)
            && (r.status == 500 ==> r.cuerpo.Fallo? && |r.cuerpo.error| >= 24
                                     && r.cuerpo.error[..24] == "Error al crear la ruta: ")
            && (r.status == 200 ==>
                  && r == RespuestaCreada(RM.Resultado(n, origen, destino, modo, intermedios, RM.ArchivosDe(n, timestamp)))
                  && RM.Asociado(old(almacen.archivo), RM.Nombre(username), n).Ok?
                  && almacen.archivo == RM.Asociado(old(almacen.archivo), RM.Nombre(username), n).value))
  {
    ghost var archivo0 := almacen.archivo;
    var usuario := almacen.IniciarSesion(username, password, ahora);
    if usuario.Err? {
      return Respuesta(500, Excepcion(usuario.error));
    }
    if usuario.value.None? {
      return Respuesta(403, Fallo("Credenciales inválidas"));
    }
    var quien := RM.Nombre(usuario.value.value.username);
    assert quien == RM.Nombre(username);
    var res, guardado := RM.CrearRutaDesdeDatos(origen, intermedios, destino, modo, nombre, quien, w, almacen,
                                                 ahora, segundos, timestamp);
    if res.Err? {
      ghost var e :| res.error == RM.Envuelto(e);
      return Respuesta(500, Fallo(res.error.msg));
    }
    ghost var n := RM.NombreRuta(nombre, segundos);
    assert guardado.Some?;
    assert RM.Asociado(archivo0, quien, n).Ok?;
    assert res.value == RM.Resultado(n, origen, destino, modo, intermedios, RM.ArchivosDe(n, timestamp));
    return RespuestaCreada(res.value);
  }

  // ----- crear_auto -----

  /** Python's `int(v)` on a JSON value: floats truncate, booleans give 1 and 0, text must spell an integer. */
  function Entero(v: Value): (r: Result<int>)
    ensures v.Num? ==> r == Ok(R.Trunc(v.x))
    ensures v.Num? ==> r.Ok? && (v.x >= 0.0 ==> 0 <= r.value && r.value as real <= v.x < r.value as real + 1.0)
    ensures v.Str? ==> (r.Ok? <==> ParseInt(v.s).Some?)
    ensures v.Str? && ParseInt(v.s).Some? ==> r == Ok(ParseInt(v.s).value)
    ensures v.Str? && ParseInt(v.s).None? ==> r.Err? && r.error.ValueError?
    ensures v.Bool? ==> r == Ok(if v.b then 1 else 0)
    ensures v.Other? ==> r == Err(TypeError)
  {
    match v
    case Num(x) => Ok(R.Trunc(x))
    case Str(s) =>
      (match ParseInt(s)
       case Some(n) => Ok(n)
       case None => Err(ValueError("invalid literal for int() with base 10: '" + s + "'")))
    case Bool(b) => Ok(if b then 1 else 0)
    case Other => Err(TypeError)
  }

  /** A count written as a JSON number or as its decimal text reads back as itself. */
  lemma EnteroIdaVuelta(n: nat)
    ensures Entero(Num(n as real)) == Ok(n)
    ensures Entero(Str(NatToString(n))) == Ok(n)
  {
    ParseNatToString(n);
  }

  /**
   * `crear_auto`: 403 before anything is generated when the credentials match no record;
   * otherwise the generator's answer, or 500 with the text of its exception.
   */
  method CrearAuto(almacen: U.Almacen, username: string, password: string, direcciones: seq<string>,
                   cantidad: Value, w: R.World, ahora: Fechas.DateTime, reloj: int)
    returns (r: Respuesta, guardadas: seq<R.Documento>)
    ensures var cargados := U.CargarDe(almacen.archivo);
      && (cargados.Err? ==> r == Respuesta(500, Excepcion(cargados.error)) && guardadas == [])
      && (cargados.Ok? && U.PrimeraSesion(cargados.value, username, password).None? ==>
            r == Respuesta(403, Fallo("Credenciales inválidas")) && guardadas == [])
      && (cargados.Ok? && U.PrimeraSesion(cargados.value, username, password).Some? ==>
            && (r.status == 200 || r.status == 500)
            && (Entero(cantidad).Err? ==> r == Respuesta(500, Fallo(ErrorText(Entero(cantidad).error))) && guardadas == [])
            && (r.status == 500 ==> r.cuerpo.Fallo?)
            && (Entero(cantidad).Ok? && (|direcciones| < 2 || (RA.Distintas(direcciones) && RA.Completas(direcciones, w))) ==>
                  r.status == 200)
            && (Entero(cantidad).Ok? && r.status == 500 ==>
                  exists e :: r.cuerpo == Fallo(ErrorText(e)) && RA.Explicado(e, direcciones, w))
            && (r.status == 200 ==>
                  var n := Entero(cantidad).value;
                  && r.cuerpo.RutasGeneradas? && r.cuerpo.mensaje == "Rutas automáticas generadas"
                  && (|direcciones| < 2 ==> r.cuerpo.resultado == RA.Aviso(RA.AvisoPocas) && guardadas == [])
                  && (|direcciones| >= 2 ==> r.cuerpo.resultado == RA.Creadas(RA.Mensajes(|guardadas|))
                                              && |guardadas| == (if n < 0 then 0 else n))))
      && RA.Generadas(guardadas, direcciones, ahora)
  {
    var usuario := almacen.IniciarSesion(username, password, ahora);
    if usuario.Err? {
      return Respuesta(500, Excepcion(usuario.error)), [];
    }
    if usuario.value.None? {
      return Respuesta(403, Fallo("Credenciales inválidas")), [];
    }
    var generador := new RA.RutaAuto("rutas");
    var n := Entero(cantidad);
    if n.Err? {
      return Respuesta(500, Fallo(ErrorText(n.error))), [];
    }
    var resultado;
    resultado, guardadas := generador.GenerarRutasDesdeDirecciones(direcciones, n.value, w, ahora, reloj);
    if resultado.Err? {
      assert RA.Explicado(resultado.error, direcciones, w);
      return Respuesta(500, Fallo(ErrorText(resultado.error))), guardadas;
    }
    return Respuesta(200, RutasGeneradas("Rutas automáticas generadas", resultado.value)), guardadas;
  }

  // ----- downloads -----

  /** `descargar_pdf`: the file under `static` the request resolves to. */
  function DescargarPdf(nombre: string): (ruta: string)
    ensures ruta == R.RutaPdf(nombre)
  {
    "static/" + nombre + ".pdf"
  }

  /** `descargar_html`: the map saved under the route's name. */
  function DescargarHtml(nombre: string): (ruta: string)
    ensures ruta == R.RutaHtml(nombre)
  {
    "static/" + "rutas_" + nombre + ".html"
  }

  /** A route created by hand is downloadable as PDF under its name: the exporter's own path. */
  lemma DescargaPdfCreada(res: RM.Resultado, timestamp: int)
    requires res.archivos == RM.ArchivosDe(res.nombre, timestamp)
    ensures DescargarPdf(res.nombre) == res.archivos.pdf == RespuestaCreada(res).cuerpo.pdf
  {
  }
}
