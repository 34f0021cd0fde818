/**
 * `usuario_db.py`: the user operations of the sqlite revision, each a short sequence of
 * SELECT and INSERT statements over the tables that `migracion_db.py` lays out.
 */
module UsuarioDb {
  import opened Wrappers
  import opened MigracionDb
  import Text
  import Fechas

  /** The fields of the `Usuario` object built from a row. */
  datatype Perfil = Perfil(nombre: string, apellido: string, email: string, username: string, telefono: string,
                           fechaNacimiento: string, ciudad: string, password: string, fechaRegistro: string)

  // ----- registrar_usuario -----

  /** The values of the INSERT: the registration date is the current time as ISO text. */
  function AltaRegistro(nombre: string, apellido: string, email: string, username: string, telefono: string,
                        fechaNacimiento: string, ciudad: string, password: string, ahora: Fechas.DateTime): (a: Alta)
    ensures a.username == username && a.email == email && a.password == password
    ensures a.fechaRegistro == Fechas.Iso(ahora)
  {
    Alta(nombre, apellido, email, username, password, telefono, fechaNacimiento, ciudad, Fechas.Iso(ahora))
  }

  /** `registrar_usuario`: False, with nothing inserted, when the username or the email is taken. */
  method RegistrarUsuario(db: BaseDatos, nombre: string, apellido: string, email: string, username: string,
                          telefono: string, fechaNacimiento: string, ciudad: string, password: string,
                          ahora: Fechas.DateTime) returns (ok: bool)
    requires db.Valid()
    modifies db
    ensures db.Valid()
    ensures ok <==> !Ocupado(old(db.usuarios), username, email)
    ensures !ok ==> db.Estado() == old(db.Estado())
    ensures ok ==> db.Estado() == ConUsuario(old(db.Estado()),
                    AltaRegistro(nombre, apellido, email, username, telefono, fechaNacimiento, ciudad, password, ahora)).value
  {
    var id := db.InsertarUsuario(AltaRegistro(nombre, apellido, email, username, telefono, fechaNacimiento, ciudad,
                                              password, ahora));
    ok := id.Ok?;
  }

  // ----- iniciar_sesion -----

  /** The row matches both the username and the password. */
  predicate Coincide(u: Usuario, username: string, password: string)
  {
    u.username == username && u.password == password
  }

  /** The object built from a row: `fecha_registro or now` replaces an empty date with `ahora`. */
  function PerfilDe(u: Usuario, ahora: string): (p: Perfil)
    ensures p.username == u.username && p.password == u.password
    ensures u.fechaRegistro != "" ==> p.fechaRegistro == u.fechaRegistro
    ensures u.fechaRegistro == "" ==> p.fechaRegistro == ahora
  {
    Perfil(u.nombre, u.apellido, u.email, u.username, u.telefono, u.fechaNacimiento, u.ciudad, u.password,
           if u.fechaRegistro != "" then u.fechaRegistro else ahora)
  }

  /** `iniciar_sesion`: the first row matching username and password, or None. */
  function IniciarSesion(us: seq<Usuario>, username: string, password: string, ahora: string): (r: Option<Perfil>)
    ensures r.Some? <==> exists i :: 0 <= i < |us| && Coincide(us[i], username, password)
    ensures r.Some? ==> exists i :: 0 <= i < |us| && Coincide(us[i], username, password) && r.value == PerfilDe(us[i], ahora)
                                    && forall j :: 0 <= j < i ==> !Coincide(us[j], username, password)
    decreases |us|
  {
    if us == [] then None
    else if Coincide(us[0], username, password) then Some(PerfilDe(us[0], ahora))
    else
      var r := IniciarSesion(us[1..], username, password, ahora);
      assert forall i :: 1 <= i < |us| ==> us[i] == us[1..][i - 1];
      if r.Some? then
        var i :| 0 <= i < |us[1..]| && Coincide(us[1..][i], username, password) && r.value == PerfilDe(us[1..][i], ahora)
                  && forall j :: 0 <= j < i ==> !Coincide(us[1..][j], username, password);
        assert forall j :: 0 <= j < i + 1 ==> !Coincide(us[j], username, password) by {
          forall j | 0 <= j < i + 1 ensures !Coincide(us[j], username, password) {
            if j > 0 { assert us[j] == us[1..][j - 1]; }
          }
        }
        r
      else r
  }

  /** Under UNIQUE username a successful login answers the one row with that username. */
  lemma IniciarSesionUnica(us: seq<Usuario>, k: int, password: string, ahora: string)
    requires UsuariosUnicos(us) && 0 <= k < |us|
    ensures IniciarSesion(us, us[k].username, password, ahora)
            == if us[k].password == password then Some(PerfilDe(us[k], ahora)) else None
  {
    var r := IniciarSesion(us, us[k].username, password, ahora);
    if r.Some? {
      var i :| 0 <= i < |us| && Coincide(us[i], us[k].username, password) && r.value == PerfilDe(us[i], ahora);
      assert i == k;
    }
  }

  // ----- the id of a username -----

  /** `SELECT id FROM usuarios WHERE username = ?`, first row. */
  function IdDe(us: seq<Usuario>, username: string): (r: Option<int>)
    ensures r.Some? <==> exists k :: 0 <= k < |us| && us[k].username == username
    ensures r.Some? ==> exists k :: 0 <= k < |us| && us[k].username == username && us[k].id == r.value
    decreases |us|
  {
    if us == [] then None
    else if us[0].username == username then Some(us[0].id)
    else
      var r := IdDe(us[1..], username);
      assert forall k :: 1 <= k < |us| ==> us[k] == us[1..][k - 1];
      r
  }

  /** Under UNIQUE username the id found is the id of the row that holds the username. */
  lemma IdDeUnico(us: seq<Usuario>, k: int)
    requires UsuariosUnicos(us) && 0 <= k < |us|
    ensures IdDe(us, us[k].username) == Some(us[k].id)
  {
    var j :| 0 <= j < |us| && us[j].username == us[k].username && us[j].id == IdDe(us, us[k].username).value;
    assert j == k;
  }

  /** With ids and names unique, the route found by its id or by its name is the row itself. */
  lemma Localizada(t: Tablas, i: int)
    requires Valida(t) && 0 <= i < |t.rutas|
    ensures RutaPorId(t.rutas, t.rutas[i].id) == Some(t.rutas[i])
    ensures RutaPorNombre(t.rutas, t.rutas[i].nombre) == Some(t.rutas[i])
  {
    var x := RutaPorId(t.rutas, t.rutas[i].id).value;
    var j :| 0 <= j < |t.rutas| && t.rutas[j] == x;
    assert IdsRutas(t.rutas)[j] == IdsRutas(t.rutas)[i];
    assert j == i;
    var y := RutaPorNombre(t.rutas, t.rutas[i].nombre).value;
    var l :| 0 <= l < |t.rutas| && t.rutas[l] == y;
    assert l == i;
  }

  // ----- obtener_rutas -----

  /** Some row of `usuarios` has that id and that username. */
  predicate DeUsuario(us: seq<Usuario>, usuarioId: int, username: string)
  {
    exists k :: 0 <= k < |us| && us[k].id == usuarioId && us[k].username == username
  }

  /** An association row joins the user named `username` to a route named `nombre`. */
  predicate Une(t: Tablas, a: Asignacion, username: string, nombre: string)
  {
    && DeUsuario(t.usuarios, a.usuarioId, username)
    && RutaPorId(t.rutas, a.rutaId).Some?
    && RutaPorId(t.rutas, a.rutaId).value.nombre == nombre
  }

  /** The JOIN of `rutas`, `rutas_usuario` and `usuarios`, one name per joined association row. */
  function Unidas(t: Tablas, asig: seq<Asignacion>, username: string): (r: seq<string>)
    ensures forall n :: n in r <==> exists i :: 0 <= i < |asig| && Une(t, asig[i], username, n)
    decreases |asig|
  {
    if asig == [] then []
    else
      var a := asig[|asig| - 1];
      var ini := asig[..|asig| - 1];
      var p := Unidas(t, ini, username);
      assert forall i :: 0 <= i < |ini| ==> ini[i] == asig[i];
      if DeUsuario(t.usuarios, a.usuarioId, username) && RutaPorId(t.rutas, a.rutaId).Some?
      then p + [RutaPorId(t.rutas, a.rutaId).value.nombre]
      else p
  }

  /** `obtener_rutas`: the names of the routes associated with the user; [] for an unknown user. */
  function ObtenerRutas(t: Tablas, username: string): (r: seq<string>)
    ensures (forall k :: 0 <= k < |t.usuarios| ==> t.usuarios[k].username != username) ==> r == []
  {
    var r := Unidas(t, t.rutasUsuario, username);
    assert r != [] ==> r[0] in r;
    r
  }

  /** A name is returned exactly when the user is associated to the route of that name. */
  lemma ObtenerRutasExacta(t: Tablas, username: string, nombre: string)
    requires Valida(t)
    ensures nombre in ObtenerRutas(t, username) <==>
      exists k :: 0 <= k < |t.usuarios| && t.usuarios[k].username == username
                  && Asignada(t.rutas, t.rutasUsuario, t.usuarios[k].id, nombre)
  {
    if nombre in ObtenerRutas(t, username) {
      RutaDevueltaAsignada(t, username, nombre);
    }
    if k :| 0 <= k < |t.usuarios| && t.usuarios[k].username == username
            && Asignada(t.rutas, t.rutasUsuario, t.usuarios[k].id, nombre) {
      RutaAsignadaDevuelta(t, username, nombre, k);
    }
  }

  lemma RutaDevueltaAsignada(t: Tablas, username: string, nombre: string)
    requires Valida(t) && nombre in ObtenerRutas(t, username)
    ensures exists k :: 0 <= k < |t.usuarios| && t.usuarios[k].username == username
                        && Asignada(t.rutas, t.rutasUsuario, t.usuarios[k].id, nombre)
  {
    var i :| 0 <= i < |t.rutasUsuario| && Une(t, t.rutasUsuario[i], username, nombre);
    var a := t.rutasUsuario[i];
    var k :| 0 <= k < |t.usuarios| && t.usuarios[k].id == a.usuarioId && t.usuarios[k].username == username;
    var x := RutaPorId(t.rutas, a.rutaId).value;
    var j :| 0 <= j < |t.rutas| && t.rutas[j] == x;
    Localizada(t, j);
    assert TienePar(t.rutasUsuario, t.usuarios[k].id, x.id);
    assert Asignada(t.rutas, t.rutasUsuario, t.usuarios[k].id, nombre);
  }

  lemma RutaAsignadaDevuelta(t: Tablas, username: string, nombre: string, k: int)
    requires Valida(t) && 0 <= k < |t.usuarios| && t.usuarios[k].username == username
    requires Asignada(t.rutas, t.rutasUsuario, t.usuarios[k].id, nombre)
    ensures nombre in ObtenerRutas(t, username)
  {
    var x := RutaPorNombre(t.rutas, nombre).value;
    var i :| 0 <= i < |t.rutasUsuario| && t.rutasUsuario[i].usuarioId == t.usuarios[k].id && t.rutasUsuario[i].rutaId == x.id;
    var j :| 0 <= j < |t.rutas| && t.rutas[j] == x;
    Localizada(t, j);
    assert Une(t, t.rutasUsuario[i], username, nombre);
  }

  // ----- agregar_ruta -----

  /**
   * `agregar_ruta` on the tables: False and no change for an unknown username, otherwise
   * get-or-create the route and INSERT OR IGNORE the association.
   */
  function Agregada(t: Tablas, username: string, nombre: string): (r: (Tablas, bool))
    ensures r.1 <==> exists k :: 0 <= k < |t.usuarios| && t.usuarios[k].username == username
    ensures !r.1 ==> r.0 == t
    ensures r.0.usuarios == t.usuarios && r.0.amistades == t.amistades
  {
    match IdDe(t.usuarios, username)
    case None => (t, false)
    case Some(uid) =>
      var (t1, id) := ConRuta(t, nombre);
      (ConAsignacion(t1, uid, id), true)
  }

  /** Adding a route keeps every constraint; afterwards the user holds the route by name. */
  lemma AgregadaValida(t: Tablas, username: string, nombre: string)
    requires Valida(t)
    ensures Valida(Agregada(t, username, nombre).0)
    ensures Agregada(t, username, nombre).1 ==>
      var t2 := Agregada(t, username, nombre).0;
      Asignada(t2.rutas, t2.rutasUsuario, IdDe(t.usuarios, username).value, nombre)
  {
    if IdDe(t.usuarios, username).Some? {
      var uid := IdDe(t.usuarios, username).value;
      var (t1, id) := ConRuta(t, nombre);
      ConRutaValida(t, nombre);
      ConAsignacionValida(t1, uid, id);
    }
  }

  /** A second call with the same arguments changes nothing more. */
  lemma AgregadaIdempotente(t: Tablas, username: string, nombre: string)
    requires Valida(t)
    ensures var t2 := Agregada(t, username, nombre).0;
      Agregada(t2, username, nombre) == (t2, Agregada(t, username, nombre).1)
  {
    if IdDe(t.usuarios, username).Some? {
      var uid := IdDe(t.usuarios, username).value;
      var (t1, id) := ConRuta(t, nombre);
      ConRutaValida(t, nombre);
      ConAsignacionValida(t1, uid, id);
      var t2 := ConAsignacion(t1, uid, id);
      assert RutaPorNombre(t2.rutas, nombre) == RutaPorId(t1.rutas, id);
      assert ConRuta(t2, nombre) == (t2, id);
    }
  }

  /** The route just added is among the user's routes. */
  lemma AgregadaVisible(t: Tablas, username: string, nombre: string)
    requires Valida(t) && Agregada(t, username, nombre).1
    ensures nombre in ObtenerRutas(Agregada(t, username, nombre).0, username)
  {
    AgregadaValida(t, username, nombre);
    var t2 := Agregada(t, username, nombre).0;
    var k :| 0 <= k < |t.usuarios| && t.usuarios[k].username == username && t.usuarios[k].id == IdDe(t.usuarios, username).value;
    ObtenerRutasExacta(t2, username, nombre);
  }

  /** `agregar_ruta`, statement by statement. */
  method AgregarRuta(db: BaseDatos, username: string, nombre: string) returns (ok: bool)
    requires db.Valid()
    modifies db
    ensures db.Valid()
    ensures (db.Estado(), ok) == Agregada(old(db.Estado()), username, nombre)
  {
    var usuario := IdDe(db.usuarios, username);
    if usuario.None? {
      return false;
    }
    var rutaId := db.ObtenerOCrearRuta(nombre);
    db.Asignar(usuario.value, rutaId);
    return true;
  }

  // ----- obtener_amigos -----

  /** The usernames of the users the `amistades` rows link from user `uid`. */
  function AmigosDe(t: Tablas, uid: int): (r: set<string>)
    ensures forall v :: v in r <==> exists i, k :: 0 <= i < |t.amistades| && 0 <= k < |t.usuarios|
                                     && t.amistades[i].usuarioId == uid && t.usuarios[k].id == t.amistades[i].amigoId
                                     && t.usuarios[k].username == v
  {
    set i, k | 0 <= i < |t.amistades| && 0 <= k < |t.usuarios| && t.amistades[i].usuarioId == uid
                && t.usuarios[k].id == t.amistades[i].amigoId :: t.usuarios[k].username
  }

  /** Both users hold the route with that id. */
  predicate Comparten(asig: seq<Asignacion>, a: int, b: int, rutaId: int)
  {
    TienePar(asig, a, rutaId) && TienePar(asig, b, rutaId)
  }

  /** The names of the routes both users hold, in the order of the `rutas` rows. */
  function Comunes(rs: seq<Ruta>, asig: seq<Asignacion>, a: int, b: int): (r: seq<string>)
    ensures forall n :: n in r <==> exists i :: 0 <= i < |rs| && rs[i].nombre == n && Comparten(asig, a, b, rs[i].id)
    decreases |rs|
  {
    if rs == [] then []
    else
      var x := rs[|rs| - 1];
      var ini := rs[..|rs| - 1];
      var p := Comunes(ini, asig, a, b);
      assert forall i :: 0 <= i < |ini| ==> ini[i] == rs[i];
      if Comparten(asig, a, b, x.id) then p + [x.nombre] else p
  }

  /** `row['rutas_comunes'].split(',') if row['rutas_comunes'] else []`. */
  function Partir(s: string): (r: seq<string>)
    ensures s == "" ==> r == []
  {
    if s == "" then [] else Text.SplitOn(s, ',')
  }

  /** GROUP_CONCAT of the shared route names with a friend, split again on ','. */
  function RutasComunes(t: Tablas, uid: int, amigo: string): seq<string>
  {
    match IdDe(t.usuarios, amigo)
    case None => []
    case Some(vid) => Partir(Text.Join(Comunes(t.rutas, t.rutasUsuario, uid, vid), ','))
  }

  /**
   * `obtener_amigos`: {} for an unknown username; otherwise one key per linked friend, whose
   * value is the list of route names both hold.
   */
  function ObtenerAmigos(t: Tablas, username: string): (r: map<string, seq<string>>)
    ensures IdDe(t.usuarios, username).None? ==> r == map[]
    ensures IdDe(t.usuarios, username).Some? ==> r.Keys == AmigosDe(t, IdDe(t.usuarios, username).value)
  {
    match IdDe(t.usuarios, username)
    case None => map[]
    case Some(uid) => map v | v in AmigosDe(t, uid) :: RutasComunes(t, uid, v)
  }

  /** No stored route name contains the GROUP_CONCAT separator or is empty. */
  predicate NombresLimpios(rs: seq<Ruta>)
  {
    forall i :: 0 <= i < |rs| ==> ',' !in rs[i].nombre && rs[i].nombre != ""
  }

  /** Joining and splitting back gives the names when none is empty or holds a comma. */
  lemma PartirJoin(xs: seq<string>)
    requires forall i :: 0 <= i < |xs| ==> ',' !in xs[i] && xs[i] != ""
    ensures Partir(Text.Join(xs, ',')) == xs
  {
    if xs != [] {
      Text.SplitOnJoin(xs, ',');
      if |xs| == 1 {
        assert Text.Join(xs, ',') == xs[0];
      } else {
        assert Text.Join(xs, ',') == xs[0] + [','] + Text.Join(xs[1..], ',');
      }
    }
  }

  /** The shared names are the names both users hold, each route found by its name. */
  lemma ComunesExacta(t: Tablas, uid: int, vid: int, nombre: string)
    requires Valida(t)
    ensures nombre in Comunes(t.rutas, t.rutasUsuario, uid, vid) <==>
      Asignada(t.rutas, t.rutasUsuario, uid, nombre) && Asignada(t.rutas, t.rutasUsuario, vid, nombre)
  {
    if nombre in Comunes(t.rutas, t.rutasUsuario, uid, vid) {
      var i :| 0 <= i < |t.rutas| && t.rutas[i].nombre == nombre && Comparten(t.rutasUsuario, uid, vid, t.rutas[i].id);
      Localizada(t, i);
    }
    if Asignada(t.rutas, t.rutasUsuario, uid, nombre) && Asignada(t.rutas, t.rutasUsuario, vid, nombre) {
      var x := RutaPorNombre(t.rutas, nombre).value;
      var i :| 0 <= i < |t.rutas| && t.rutas[i] == x;
      assert Comparten(t.rutasUsuario, uid, vid, t.rutas[i].id);
    }
  }

  /** Under UNIQUE username, a user's routes are the routes associated with their row's id. */
  lemma ObtenerRutasDeFila(t: Tablas, k: int, nombre: string)
    requires Valida(t) && 0 <= k < |t.usuarios|
    ensures nombre in ObtenerRutas(t, t.usuarios[k].username) <==> Asignada(t.rutas, t.rutasUsuario, t.usuarios[k].id, nombre)
  {
    ObtenerRutasExacta(t, t.usuarios[k].username, nombre);
    if j :| 0 <= j < |t.usuarios| && t.usuarios[j].username == t.usuarios[k].username
            && Asignada(t.rutas, t.rutasUsuario, t.usuarios[j].id, nombre) {
      assert j == k;
    }
  }

  /**
   * With clean route names, a friend's value lists exactly the routes `obtener_rutas` gives for
   * both users.
   */
  lemma ObtenerAmigosComunes(t: Tablas, username: string, amigo: string, nombre: string)
    requires Valida(t) && NombresLimpios(t.rutas)
    requires amigo in ObtenerAmigos(t, username)
    ensures nombre in ObtenerAmigos(t, username)[amigo] <==>
      nombre in ObtenerRutas(t, username) && nombre in ObtenerRutas(t, amigo)
  {
    var uid := IdDe(t.usuarios, username).value;
    var vid := IdDe(t.usuarios, amigo).value;
    var cs := Comunes(t.rutas, t.rutasUsuario, uid, vid);
    forall i | 0 <= i < |cs| ensures ',' !in cs[i] && cs[i] != "" {
      assert cs[i] in cs;
    }
    PartirJoin(cs);
    assert ObtenerAmigos(t, username)[amigo] == cs;
    var ku :| 0 <= ku < |t.usuarios| && t.usuarios[ku].username == username && t.usuarios[ku].id == uid;
    var kv :| 0 <= kv < |t.usuarios| && t.usuarios[kv].username == amigo && t.usuarios[kv].id == vid;
    ObtenerRutasDeFila(t, ku, nombre);
    ObtenerRutasDeFila(t, kv, nombre);
    ComunesExacta(t, uid, vid, nombre);
  }

  /** After the migration, every route an accepted entry listed is among that user's routes. */
  lemma MigradasVisibles(t: Tablas, aceptadas: seq<Entrada>, ahora: string, previas: seq<Asignacion>, k: int, nombre: string)
    requires Valida(t) && t.usuarios == TablaDe(aceptadas, ahora)
    requires Migradas(t.rutas, t.rutasUsuario, previas, RutasDe(aceptadas))
    requires 0 <= k < |aceptadas| && nombre in aceptadas[k].rutas
    ensures nombre in ObtenerRutas(t, AltaDe(aceptadas[k], ahora).username)
  {
    assert Completas(t.rutas, t.rutasUsuario, RutasDe(aceptadas));
    assert Asignada(t.rutas, t.rutasUsuario, k + 1, nombre);
    ObtenerRutasDeFila(t, k, nombre);
  }
}
