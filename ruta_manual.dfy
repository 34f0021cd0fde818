/**
 * `RutaManual.crear_ruta_desde_datos`: builds a route from the addresses a user typed, saves it,
 * names its exported files and, when a user is given, adds the route's name to that user's list.
 * Every exception is re-raised as "Error al crear la ruta: ...".
 */
module RutaManual {
  import opened Wrappers
  import opened Text
  import Fechas
  import Geo = Geocodificador
  import R = Ruta
  import U = Usuario

  /**
   * The `username` argument: absent, a string, or (as the HTTP handler passes it) a user object,
   * which is truthy and equal to no stored username.
   */
  datatype Quien = Nadie | Nombre(u: string) | Objeto

  /** Python truthiness of the argument: None and "" are false. */
  predicate Verdadero(q: Quien)
  {
    q.Objeto? || (q.Nombre? && q.u != [])
  }

  /** `usuario['username'] == username` for a stored record. */
  predicate Coincide(username: string, q: Quien)
  {
    q.Nombre? && q.u == username
  }

  /** The files the three exporters report. */
  datatype Archivos = Archivos(pdf: string, gpx: string, html: string)

  /** The dictionary the operation returns. */
  datatype Resultado = Resultado(nombre: string, origen: string, destino: string, modo: string,
                                 puntosIntermedios: seq<string>, archivos: Archivos)

  const Prefijo := "ruta_manual_"

  /** The route's name: the given one when it is truthy, otherwise one made from the clock's seconds. */
  function NombreRuta(nombre: Option<string>, segundos: int): (r: string)
    ensures nombre.Some? && nombre.value != [] ==> r == nombre.value
  {
    if nombre.Some? && nombre.value != [] then nombre.value else Prefijo + IntToString(segundos)
  }

  /** A generated name starts with the prefix, and the seconds read back from the rest of it. */
  lemma NombreRutaSegundos(nombre: Option<string>, segundos: nat)
    requires nombre.None? || nombre.value == []
    ensures var r := NombreRuta(nombre, segundos);
      |r| > |Prefijo| && r[..|Prefijo|] == Prefijo && ParseInt(r[|Prefijo|..]) == Some(segundos)
  {
    var r := NombreRuta(nombre, segundos);
    assert r == Prefijo + NatToString(segundos);
    assert r[|Prefijo|..] == NatToString(segundos);
    ParseNatToString(segundos);
  }

  /** Where the exporters put the files: the PDF under the name, GPX and HTML under the timestamp. */
  function ArchivosDe(nombre: string, timestamp: int): (a: Archivos)
    ensures a.pdf == R.RutaPdf(nombre)
    ensures a.gpx == R.RutaGpx(IntToString(timestamp)) && a.html == R.RutaHtml(IntToString(timestamp))
  {
    Archivos(R.RutaPdf(nombre), R.RutaGpx(IntToString(timestamp)), R.RutaHtml(IntToString(timestamp)))
  }

  /** The wrapping of every exception the operation meets. */
  function Envuelto(e: Error): (r: Error)
    ensures r.Raised? && |r.msg| >= 24 && r.msg[..24] == "Error al crear la ruta: "
    ensures r.msg[24..] == ErrorText(e)
  {
    Raised("Error al crear la ruta: " + ErrorText(e))
  }

  // ----- the association with a user, as written -----

  /**
   * The association as the file writes it: the user store is reached through a name that the
   * file never imports, so a truthy `username` raises NameError before anything is loaded.
   */
  function AsociarAsWritten(quien: Quien): (r: Result<()>)
    ensures r.Err? <==> Verdadero(quien)
  {
    if Verdadero(quien) then Err(NameError("Usuario")) else Ok(())
  }

  /** Counterexample: with any user given, the operation as written ends in this exception. */
  lemma AsociarAsWrittenFalla(u: string)
    requires u != []
    ensures AsociarAsWritten(Nombre(u)) == Err(NameError("Usuario"))
  {
  }

  // ----- the association with a user, corrected -----

  /** The stored route list of a record, a missing one counting as empty. */
  function RutasDe(r: U.Registro): seq<string>
  {
    if r.rutas.Some? then r.rutas.value else []
  }

  /** The first record with the username gets the route appended to its list. */
  function AnadirRuta(us: seq<U.Registro>, username: string, nombre: string): (r: seq<U.Registro>)
    ensures |r| == |us|
  {
    match U.Primero(us, username)
    case None => us
    case Some(k) => U.ActualizarRutas(us, username, RutasDe(us[k]) + [nombre])
  }

  /**
   * The store after the association: untouched when no user is given or none matches, the
   * exception of a failed load, or the loaded list with the route appended, saved again.
   */
  function Asociado(archivo: Option<seq<U.Registro>>, quien: Quien, nombre: string): Result<Option<seq<U.Registro>>>
  {
    if !Verdadero(quien) then Ok(archivo)
    else match U.CargarDe(archivo)
      case Err(e) => Err(e)
      case Ok(us) =>
        if quien.Nombre? && quien.u in U.Nombres(us) then Ok(Some(U.Serializar(AnadirRuta(us, quien.u, nombre))))
        else Ok(archivo)
  }

  /** Appending changes only the first matching record, whose list gains the route at its end. */
  lemma AnadirRutaEfecto(us: seq<U.Registro>, username: string, nombre: string)
    requires username in U.Nombres(us)
    ensures var k := U.Primero(us, username).value; var r := AnadirRuta(us, username, nombre);
      && r[k].rutas == Some(RutasDe(us[k]) + [nombre])
      && r[k].(rutas := us[k].rutas) == us[k]
      && (forall j :: 0 <= j < |us| && j != k ==> r[j] == us[j])
  {
  }

  /** A record as the JSON file holds it: its date, if any, is text. */
  predicate Almacenado(r: U.Registro)
  {
    r.fechaRegistro.Some? ==> r.fechaRegistro.value.Texto?
  }

  /** Reading a record yields a loaded record. */
  lemma LeerCargado(x: U.Registro)
    requires U.Leer(x).Ok? && Almacenado(x)
    ensures U.Cargado(U.Leer(x).value)
  {
    match x.fechaRegistro
    case Some(Texto(t)) =>
      var dt := Fechas.FromIso(t);
      assert U.Leer(x).value.fechaRegistro == Some(U.Momento(dt.value));
    case _ =>
  }

  /** Records that `cargar_usuarios` returns are loaded records. */
  lemma LeidosCargados(docs: seq<U.Registro>)
    requires U.LeerTodos(docs).Ok? && forall k :: 0 <= k < |docs| ==> Almacenado(docs[k])
    ensures forall k :: 0 <= k < |docs| ==> U.Cargado(U.LeerTodos(docs).value[k])
  {
    var us := U.LeerTodos(docs).value;
    forall k | 0 <= k < |docs|
      ensures U.Cargado(us[k])
    {
      assert U.Leer(docs[k]) == Ok(us[k]);
      LeerCargado(docs[k]);
    }
  }

  /** Saving a list of loaded records with one route appended, and loading it again, gives that list. */
  lemma AnadirGuardarCargar(us: seq<U.Registro>, u: string, nombre: string)
    requires u in U.Nombres(us) && forall j :: 0 <= j < |us| ==> U.Cargado(us[j])
    ensures U.LeerTodos(U.Serializar(AnadirRuta(us, u, nombre))) == Ok(AnadirRuta(us, u, nombre))
  {
    var k := U.Primero(us, u).value;
    var r := AnadirRuta(us, u, nombre);
    AnadirRutaEfecto(us, u, nombre);
    forall j | 0 <= j < |r|
      ensures U.Cargado(r[j])
    {
      assert U.Cargado(us[j]);
      if j == k {
        assert r[k].fechaRegistro == us[k].fechaRegistro;
      }
    }
    U.GuardarCargar(r);
  }

  /**
   * After the association, loading the store again shows the route at the end of the user's list,
   * and every other record as it was loaded before.
   */
  lemma AsociadoCarga(archivo: Option<seq<U.Registro>>, u: string, nombre: string)
    requires archivo.Some? ==> forall k :: 0 <= k < |archivo.value| ==> Almacenado(archivo.value[k])
    requires u != [] && U.CargarDe(archivo).Ok? && u in U.Nombres(U.CargarDe(archivo).value)
    ensures var us := U.CargarDe(archivo).value; var k := U.Primero(us, u).value;
      var a := Asociado(archivo, Nombre(u), nombre);
      && a.Ok? && a.value.Some?
      && U.CargarDe(a.value).Ok? && |U.CargarDe(a.value).value| == |us|
      && U.CargarDe(a.value).value[k].rutas == Some(RutasDe(us[k]) + [nombre])
      && (forall j :: 0 <= j < |us| && j != k ==> U.CargarDe(a.value).value[j] == us[j])
  {
    var us := U.CargarDe(archivo).value;
    if archivo.Some? {
      LeidosCargados(archivo.value);
    }
    AnadirGuardarCargar(us, u, nombre);
    AnadirRutaEfecto(us, u, nombre);
  }

  /**
   * A user object passed where a username is expected matches no record: whatever the store
   * holds, the association leaves it as it was (or fails to load it).
   */
  lemma AsociarObjeto(archivo: Option<seq<U.Registro>>, nombre: string)
    ensures Asociado(archivo, Objeto, nombre) ==
      (if U.CargarDe(archivo).Err? then Err(U.CargarDe(archivo).error) else Ok(archivo))
  {
  }

  /** The corrected association: load, find the first record with the username, append, save. */
  method Asociar(almacen: U.Almacen, quien: Quien, nombre: string) returns (r: Result<()>)
    modifies almacen
    ensures var a := Asociado(old(almacen.archivo), quien, nombre);
      && (a.Err? ==> r == Err(a.error) && almacen.archivo == old(almacen.archivo))
      && (a.Ok? ==> r == Ok(()) && almacen.archivo == a.value)
  {
    if !Verdadero(quien) {
      return Ok(());
    }
    var cargados := almacen.CargarUsuarios();
    if cargados.Err? {
      return Err(cargados.error);
    }
    var us := cargados.value;
    var i := 0;
    while i < |us|
      invariant 0 <= i <= |us|
      invariant forall k :: 0 <= k < i ==> !Coincide(us[k].username, quien)
    {
      if Coincide(us[i].username, quien) {
        assert U.Primero(us, quien.u) == Some(i);
        var actualizados := us[i := us[i].(rutas := Some(RutasDe(us[i]) + [nombre]))];
        almacen.GuardarUsuarios(actualizados);
        return Ok(());
      }
      i := i + 1;
    }
    assert quien.Nombre? ==> quien.u !in U.Nombres(us);
    return Ok(());
  }

  // ----- the operation -----

  /**
   * `crear_ruta_desde_datos`, with the association corrected. `segundos` is the clock reading
   * used for a default name, `timestamp` and `ahora` the ones the route records. `guardado` is the
   * document written to the route's JSON file, when the route got that far.
   */
  method CrearRutaDesdeDatos(origen: string, puntosIntermedios: seq<string>, destino: string, modo: string,
                             nombre: Option<string>, quien: Quien, w: R.World, almacen: U.Almacen,
                             ahora: Fechas.DateTime, segundos: int, timestamp: int)
    returns (r: Result<Resultado>, guardado: Option<R.Documento>)
    modifies almacen
    ensures var n := NombreRuta(nombre, segundos);
      && (r.Err? ==> r.error.Raised? && exists e :: r.error == Envuelto(e))
      && (guardado.Some? <==> R.Guardable(origen, puntosIntermedios, destino, modo, w))
      && (r.Ok? <==> R.Guardable(origen, puntosIntermedios, destino, modo, w) && Asociado(old(almacen.archivo), quien, n).Ok?)
      && (guardado.None? ==> r.Err? && almacen.archivo == old(almacen.archivo))
      && (guardado.Some? ==>
            && guardado.value.nombre == n && R.UbicacionInicial(guardado.value.ubicacion)
            && guardado.value.origen == origen && guardado.value.destino == destino
            && guardado.value.puntosIntermedios == puntosIntermedios && guardado.value.modoTransporte == modo
            && guardado.value.fechaRegistro == Fechas.Strftime(ahora)
            && var a := Asociado(old(almacen.archivo), quien, n);
            && (a.Err? ==> r == Err(Envuelto(a.error)) && almacen.archivo == old(almacen.archivo))
            && (a.Ok? ==> almacen.archivo == a.value
                          && r == Ok(Resultado(n, origen, destino, modo, puntosIntermedios, ArchivosDe(n, timestamp)))))
  {
    var n := NombreRuta(nombre, segundos);
    assert R.UbicacionInicial((38.3, -0.5));
    var ubicacion: Geo.Coord :| R.UbicacionInicial(ubicacion);
    var ruta := new R.Ruta(n, ubicacion, 0.0, 0.0, "bajo", origen, puntosIntermedios, destino, modo,
                           ahora, timestamp, w.geocode);
    var doc := ruta.GuardarEnJson(w);
    if doc.Err? {
      return Err(Envuelto(doc.error)), None;
    }
    guardado := Some(doc.value);
    var archivos := ArchivosDe(ruta.nombre, ruta.timestamp);
    var asociado := Asociar(almacen, quien, n);
    if asociado.Err? {
      return Err(Envuelto(asociado.error)), guardado;
    }
    r := Ok(Resultado(n, origen, destino, modo, puntosIntermedios, archivos));
  }
}
