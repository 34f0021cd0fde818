/**
 * The sqlite database `miapp.db` as `migracion_db.py` lays it out, the statements that the
 * migration and `usuario_db.py` run against it, and the migration of `usuarios.json`.
 * A table is the sequence of its rows in rowid order together with the next id its
 * AUTOINCREMENT counter hands out. The columns filled by a CURRENT_TIMESTAMP default are not
 * modelled.
 */
module MigracionDb {
  import opened Wrappers
  import Fechas

  datatype Usuario = Usuario(id: int, nombre: string, apellido: string, email: string, username: string,
                             password: string, telefono: string, fechaNacimiento: string, ciudad: string,
                             fechaRegistro: string)

  datatype Ruta = Ruta(id: int, nombre: string, descripcion: string, distancia: real, duracion: int,
                       dificultad: string, puntosInteres: string, origen: string, destino: string,
                       modoTransporte: string)

  datatype Amistad = Amistad(id: int, usuarioId: int, amigoId: int)

  /** A row of `rutas_usuario`. */
  datatype Asignacion = Asignacion(id: int, usuarioId: int, rutaId: int)

  /** The values of an INSERT INTO usuarios. */
  datatype Alta = Alta(nombre: string, apellido: string, email: string, username: string, password: string,
                       telefono: string, fechaNacimiento: string, ciudad: string, fechaRegistro: string)

  /** The whole database: every table with the next id of its counter. */
  datatype Tablas = Tablas(usuarios: seq<Usuario>, secUsuarios: int,
                           rutas: seq<Ruta>, secRutas: int,
                           amistades: seq<Amistad>, secAmistades: int,
                           rutasUsuario: seq<Asignacion>, secRutasUsuario: int)

  // ----- keys and constraints -----

  /** Row ids grow in rowid order and stay below the next id, which is at least 1. */
  predicate Claves(ids: seq<int>, sec: int)
  {
    && 1 <= sec
    && (forall i :: 0 <= i < |ids| ==> 1 <= ids[i] < sec)
    && (forall i, j :: 0 <= i < j < |ids| ==> ids[i] < ids[j])
  }

  function IdsUsuarios(us: seq<Usuario>): (r: seq<int>)
    ensures |r| == |us| && forall i :: 0 <= i < |us| ==> r[i] == us[i].id
  {
    seq(|us|, i requires 0 <= i < |us| => us[i].id)
  }

  function IdsRutas(rs: seq<Ruta>): (r: seq<int>)
    ensures |r| == |rs| && forall i :: 0 <= i < |rs| ==> r[i] == rs[i].id
  {
    seq(|rs|, i requires 0 <= i < |rs| => rs[i].id)
  }

  function IdsAmistades(am: seq<Amistad>): (r: seq<int>)
    ensures |r| == |am| && forall i :: 0 <= i < |am| ==> r[i] == am[i].id
  {
    seq(|am|, i requires 0 <= i < |am| => am[i].id)
  }

  function IdsAsignaciones(rs: seq<Asignacion>): (r: seq<int>)
    ensures |r| == |rs| && forall i :: 0 <= i < |rs| ==> r[i] == rs[i].id
  {
    seq(|rs|, i requires 0 <= i < |rs| => rs[i].id)
  }

  /** `email TEXT UNIQUE` and `username TEXT UNIQUE`. */
  predicate UsuariosUnicos(us: seq<Usuario>)
  {
    forall i, j :: 0 <= i < j < |us| ==> us[i].username != us[j].username && us[i].email != us[j].email
  }

  /** `nombre TEXT UNIQUE` on `rutas`. */
  predicate NombresUnicos(rs: seq<Ruta>)
  {
    forall i, j :: 0 <= i < j < |rs| ==> rs[i].nombre != rs[j].nombre
  }

  /** `UNIQUE(usuario_id, amigo_id)`. */
  predicate AmistadesUnicas(am: seq<Amistad>)
  {
    forall i, j :: 0 <= i < j < |am| ==> am[i].usuarioId != am[j].usuarioId || am[i].amigoId != am[j].amigoId
  }

  /** `UNIQUE(usuario_id, ruta_id)`. */
  predicate AsignacionesUnicas(rs: seq<Asignacion>)
  {
    forall i, j :: 0 <= i < j < |rs| ==> rs[i].usuarioId != rs[j].usuarioId || rs[i].rutaId != rs[j].rutaId
  }

  /** Every primary key and UNIQUE constraint of the schema holds. */
  predicate Valida(t: Tablas)
  {
    && Claves(IdsUsuarios(t.usuarios), t.secUsuarios) && UsuariosUnicos(t.usuarios)
    && Claves(IdsRutas(t.rutas), t.secRutas) && NombresUnicos(t.rutas)
    && Claves(IdsAmistades(t.amistades), t.secAmistades) && AmistadesUnicas(t.amistades)
    && Claves(IdsAsignaciones(t.rutasUsuario), t.secRutasUsuario) && AsignacionesUnicas(t.rutasUsuario)
  }

  // ----- statements -----

  /**
   * `crear_tablas`: `amistades`, `rutas` and `usuarios` are dropped and created again empty,
   * with their counters reset; `rutas_usuario` is only created if missing, so it keeps its rows.
   */
  function Recreadas(t: Tablas): (r: Tablas)
    ensures r.usuarios == [] && r.rutas == [] && r.amistades == []
    ensures r.rutasUsuario == t.rutasUsuario
    ensures Valida(t) ==> Valida(r)
  {
    Tablas([], 1, [], 1, [], 1, t.rutasUsuario, t.secRutasUsuario)
  }

  function FilaUsuario(id: int, a: Alta): Usuario
  {
    Usuario(id, a.nombre, a.apellido, a.email, a.username, a.password, a.telefono, a.fechaNacimiento, a.ciudad,
            a.fechaRegistro)
  }

  /** A row already holds the username or the email. */
  predicate Ocupado(us: seq<Usuario>, username: string, email: string)
  {
    exists i :: 0 <= i < |us| && (us[i].username == username || us[i].email == email)
  }

  /** INSERT INTO usuarios: IntegrityError when the username or the email is taken. */
  function ConUsuario(t: Tablas, a: Alta): (r: Result<Tablas>)
    ensures r.Err? <==> Ocupado(t.usuarios, a.username, a.email)
    ensures r.Err? ==> r.error == IntegrityError
    ensures r.Ok? ==> r.value.rutas == t.rutas && r.value.amistades == t.amistades && r.value.rutasUsuario == t.rutasUsuario
  {
    if Ocupado(t.usuarios, a.username, a.email) then Err(IntegrityError)
    else Ok(t.(usuarios := t.usuarios + [FilaUsuario(t.secUsuarios, a)], secUsuarios := t.secUsuarios + 1))
  }

  /** A successful insert keeps every constraint, and the new row is the only one with its username. */
  lemma ConUsuarioValida(t: Tablas, a: Alta)
    requires Valida(t) && ConUsuario(t, a).Ok?
    ensures Valida(ConUsuario(t, a).value)
    ensures var us := ConUsuario(t, a).value.usuarios;
      us[|us| - 1] == FilaUsuario(t.secUsuarios, a)
      && forall i :: 0 <= i < |us| - 1 ==> us[i].username != a.username && us[i].email != a.email
  {
    var us := ConUsuario(t, a).value.usuarios;
    forall i | 0 <= i < |us| - 1 ensures us[i].username != a.username && us[i].email != a.email {
      assert us[i] == t.usuarios[i];
    }
  }

  /** `SELECT id FROM rutas WHERE nombre = ?`, first row. */
  function RutaPorNombre(rs: seq<Ruta>, nombre: string): (r: Option<Ruta>)
    ensures r.Some? <==> exists i :: 0 <= i < |rs| && rs[i].nombre == nombre
    ensures r.Some? ==> r.value in rs && r.value.nombre == nombre
  {
    if rs == [] then None
    else if rs[0].nombre == nombre then Some(rs[0])
    else
      var r := RutaPorNombre(rs[1..], nombre);
      assert forall i :: 1 <= i < |rs| ==> rs[i] == rs[1..][i - 1];
      r
  }

  /** The route row with that id, if any. */
  function RutaPorId(rs: seq<Ruta>, id: int): (r: Option<Ruta>)
    ensures r.Some? <==> exists i :: 0 <= i < |rs| && rs[i].id == id
    ensures r.Some? ==> r.value in rs && r.value.id == id
  {
    if rs == [] then None
    else if rs[0].id == id then Some(rs[0])
    else
      var r := RutaPorId(rs[1..], id);
      assert forall i :: 1 <= i < |rs| ==> rs[i] == rs[1..][i - 1];
      r
  }

  /** The placeholder row inserted for a route that is only known by name. */
  function RutaPorDefecto(id: int, nombre: string): Ruta
  {
    Ruta(id, nombre, "Descripción de " + nombre, 0.0, 0, "media", "[]", "Origen", "Destino", "walk")
  }

  /**
   * Get-or-create: the id of the route with that name, inserting a placeholder row when there
   * is none.
   */
  function ConRuta(t: Tablas, nombre: string): (r: (Tablas, int))
    ensures RutaPorNombre(t.rutas, nombre).Some? ==> r == (t, RutaPorNombre(t.rutas, nombre).value.id)
    ensures RutaPorNombre(t.rutas, nombre).None? ==>
      r.0.rutas == t.rutas + [RutaPorDefecto(t.secRutas, nombre)] && r.1 == t.secRutas
    ensures Valida(t) ==> RutaPorId(r.0.rutas, r.1).Some? && RutaPorNombre(r.0.rutas, nombre) == RutaPorId(r.0.rutas, r.1)
    ensures r.0.(rutas := t.rutas, secRutas := t.secRutas) == t
  {
    var encontrada := RutaPorNombre(t.rutas, nombre);
    if encontrada.Some? then
      UnicaPorNombre(t, nombre);
      (t, encontrada.value.id)
    else
      var t2 := t.(rutas := t.rutas + [RutaPorDefecto(t.secRutas, nombre)], secRutas := t.secRutas + 1);
      NuevaPorNombre(t, nombre);
      (t2, t.secRutas)
  }

  /** With unique names and ids, the route found by name is the route found by its id. */
  lemma UnicaPorNombre(t: Tablas, nombre: string)
    requires RutaPorNombre(t.rutas, nombre).Some?
    ensures var r := RutaPorNombre(t.rutas, nombre).value;
      Valida(t) ==> RutaPorId(t.rutas, r.id) == Some(r)
  {
    var r := RutaPorNombre(t.rutas, nombre).value;
    if Valida(t) {
      var k :| 0 <= k < |t.rutas| && t.rutas[k] == r;
      var s := RutaPorId(t.rutas, r.id).value;
      var j :| 0 <= j < |t.rutas| && t.rutas[j] == s;
      assert IdsRutas(t.rutas)[j] == IdsRutas(t.rutas)[k];
      assert j == k;
    }
  }

  /** The placeholder appended for a new name is the only route with that name and with its id. */
  lemma NuevaPorNombre(t: Tablas, nombre: string)
    requires RutaPorNombre(t.rutas, nombre).None?
    ensures var rs := t.rutas + [RutaPorDefecto(t.secRutas, nombre)];
      Valida(t) ==> RutaPorNombre(rs, nombre) == Some(RutaPorDefecto(t.secRutas, nombre))
                    && RutaPorId(rs, t.secRutas) == Some(RutaPorDefecto(t.secRutas, nombre))
  {
    var rs := t.rutas + [RutaPorDefecto(t.secRutas, nombre)];
    if Valida(t) {
      forall i | 0 <= i < |t.rutas| ensures rs[i].nombre != nombre && rs[i].id != t.secRutas {
        assert rs[i] == t.rutas[i];
        assert IdsRutas(t.rutas)[i] < t.secRutas;
      }
      assert rs[|rs| - 1].nombre == nombre && rs[|rs| - 1].id == t.secRutas;
      var x := RutaPorNombre(rs, nombre).value;
      var i :| 0 <= i < |rs| && rs[i] == x;
      assert i == |rs| - 1;
      var y := RutaPorId(rs, t.secRutas).value;
      var j :| 0 <= j < |rs| && rs[j] == y;
      assert j == |rs| - 1;
    }
  }

  /** Get-or-create keeps every constraint and is idempotent. */
  lemma ConRutaValida(t: Tablas, nombre: string)
    requires Valida(t)
    ensures Valida(ConRuta(t, nombre).0)
    ensures ConRuta(ConRuta(t, nombre).0, nombre) == ConRuta(t, nombre)
  {
    var (t2, id) := ConRuta(t, nombre);
    if RutaPorNombre(t.rutas, nombre).None? {
      forall i | 0 <= i < |t.rutas| ensures t2.rutas[i].nombre != nombre && t2.rutas[i].id < t.secRutas {
        assert t2.rutas[i] == t.rutas[i];
        assert IdsRutas(t.rutas)[i] < t.secRutas;
      }
      assert IdsRutas(t2.rutas) == IdsRutas(t.rutas) + [t.secRutas];
    }
  }

  /** The (user, route) pair is stored. */
  predicate TienePar(rs: seq<Asignacion>, usuarioId: int, rutaId: int)
  {
    exists i :: 0 <= i < |rs| && rs[i].usuarioId == usuarioId && rs[i].rutaId == rutaId
  }

  /** INSERT OR IGNORE INTO rutas_usuario: an existing pair is left alone. */
  function ConAsignacion(t: Tablas, usuarioId: int, rutaId: int): (r: Tablas)
    ensures TienePar(r.rutasUsuario, usuarioId, rutaId)
    ensures forall v, s :: TienePar(r.rutasUsuario, v, s) <==> TienePar(t.rutasUsuario, v, s) || (v == usuarioId && s == rutaId)
    ensures |t.rutasUsuario| <= |r.rutasUsuario| && r.rutasUsuario[..|t.rutasUsuario|] == t.rutasUsuario
    ensures forall i :: |t.rutasUsuario| <= i < |r.rutasUsuario| ==>
      r.rutasUsuario[i].usuarioId == usuarioId && r.rutasUsuario[i].rutaId == rutaId
    ensures r.(rutasUsuario := t.rutasUsuario, secRutasUsuario := t.secRutasUsuario) == t
  {
    if TienePar(t.rutasUsuario, usuarioId, rutaId) then t
    else
      var rs := t.rutasUsuario + [Asignacion(t.secRutasUsuario, usuarioId, rutaId)];
      assert rs[|rs| - 1].usuarioId == usuarioId && rs[|rs| - 1].rutaId == rutaId;
      assert forall i :: 0 <= i < |t.rutasUsuario| ==> rs[i] == t.rutasUsuario[i];
      t.(rutasUsuario := rs, secRutasUsuario := t.secRutasUsuario + 1)
  }

  /** Insert-or-ignore keeps the pairs unique and a second insert of the same pair changes nothing. */
  lemma ConAsignacionValida(t: Tablas, usuarioId: int, rutaId: int)
    requires Valida(t)
    ensures Valida(ConAsignacion(t, usuarioId, rutaId))
    ensures ConAsignacion(ConAsignacion(t, usuarioId, rutaId), usuarioId, rutaId) == ConAsignacion(t, usuarioId, rutaId)
  {
    var r := ConAsignacion(t, usuarioId, rutaId);
    if !TienePar(t.rutasUsuario, usuarioId, rutaId) {
      forall i | 0 <= i < |t.rutasUsuario|
        ensures r.rutasUsuario[i].usuarioId != usuarioId || r.rutasUsuario[i].rutaId != rutaId
        ensures r.rutasUsuario[i].id < t.secRutasUsuario
      {
        assert r.rutasUsuario[i] == t.rutasUsuario[i];
        assert IdsAsignaciones(t.rutasUsuario)[i] < t.secRutasUsuario;
      }
      assert IdsAsignaciones(r.rutasUsuario) == IdsAsignaciones(t.rutasUsuario) + [t.secRutasUsuario];
    }
  }

  /** The friendship row from one user to another is stored. */
  predicate TieneAmistad(am: seq<Amistad>, usuarioId: int, amigoId: int)
  {
    exists i :: 0 <= i < |am| && am[i].usuarioId == usuarioId && am[i].amigoId == amigoId
  }

  /** INSERT OR IGNORE INTO amistades. */
  function ConAmistad(t: Tablas, usuarioId: int, amigoId: int): (r: Tablas)
    ensures forall v, w :: TieneAmistad(r.amistades, v, w) <==> TieneAmistad(t.amistades, v, w) || (v == usuarioId && w == amigoId)
    ensures r.(amistades := t.amistades, secAmistades := t.secAmistades) == t
  {
    if TieneAmistad(t.amistades, usuarioId, amigoId) then t
    else
      var am := t.amistades + [Amistad(t.secAmistades, usuarioId, amigoId)];
      assert am[|am| - 1].usuarioId == usuarioId && am[|am| - 1].amigoId == amigoId;
      assert forall i :: 0 <= i < |t.amistades| ==> am[i] == t.amistades[i];
      t.(amistades := am, secAmistades := t.secAmistades + 1)
  }

  /** Insert-or-ignore keeps the friendship pairs unique. */
  lemma ConAmistadValida(t: Tablas, usuarioId: int, amigoId: int)
    requires Valida(t)
    ensures Valida(ConAmistad(t, usuarioId, amigoId))
  {
    var r := ConAmistad(t, usuarioId, amigoId);
    if !TieneAmistad(t.amistades, usuarioId, amigoId) {
      forall i | 0 <= i < |t.amistades|
        ensures r.amistades[i].usuarioId != usuarioId || r.amistades[i].amigoId != amigoId
        ensures r.amistades[i].id < t.secAmistades
      {
        assert r.amistades[i] == t.amistades[i];
        assert IdsAmistades(t.amistades)[i] < t.secAmistades;
      }
      assert IdsAmistades(r.amistades) == IdsAmistades(t.amistades) + [t.secAmistades];
    }
  }

  // ----- what migrar_datos leaves behind -----

  /** An entry of `usuarios.json`; a field is None when its key is absent. */
  datatype Entrada = Entrada(nombre: Option<string>, apellido: Option<string>, email: Option<string>,
                             username: Option<string>, password: Option<string>, telefono: Option<string>,
                             fechaNacimiento: Option<string>, ciudad: Option<string>, fechaRegistro: Option<string>,
                             rutas: seq<string>, amigos: seq<string>)

  /** `dict.get(key, default)`. */
  function Valor(o: Option<string>, default: string): string
  {
    if o.Some? then o.value else default
  }

  /**
   * The values `migrar_datos` inserts for an entry: an absent field is '', an absent birth date
   * is the current time `ahora` (as ISO text), and so is an absent or empty registration date.
   */
  function AltaDe(e: Entrada, ahora: string): (a: Alta)
    ensures e.username.Some? ==> a.username == e.username.value
    ensures e.username.None? ==> a.username == ""
    ensures ahora != "" ==> a.fechaRegistro != ""
  {
    Alta(Valor(e.nombre, ""), Valor(e.apellido, ""), Valor(e.email, ""), Valor(e.username, ""), Valor(e.password, ""),
         Valor(e.telefono, ""), Valor(e.fechaNacimiento, ahora), Valor(e.ciudad, ""),
         if e.fechaRegistro.Some? && e.fechaRegistro.value != "" then e.fechaRegistro.value else ahora)
  }

  /** The user table after inserting these entries in order into an empty table. */
  function TablaDe(a: seq<Entrada>, ahora: string): (t: seq<Usuario>)
    ensures |t| == |a| && forall k :: 0 <= k < |a| ==> t[k] == FilaUsuario(k + 1, AltaDe(a[k], ahora))
  {
    seq(|a|, k requires 0 <= k < |a| => FilaUsuario(k + 1, AltaDe(a[k], ahora)))
  }

  lemma TablaDeSnoc(a: seq<Entrada>, e: Entrada, ahora: string)
    ensures TablaDe(a + [e], ahora) == TablaDe(a, ahora) + [FilaUsuario(|a| + 1, AltaDe(e, ahora))]
  {
    assert forall k :: 0 <= k < |a| ==> (a + [e])[k] == a[k];
  }

  /**
   * The entries whose INSERT succeeds, in file order: an entry is skipped when an earlier
   * accepted entry holds its username or its email. The k-th accepted entry gets id k + 1.
   */
  function Aceptadas(es: seq<Entrada>, ahora: string): (a: seq<Entrada>)
    ensures UsuariosUnicos(TablaDe(a, ahora))
    ensures forall k :: 0 <= k < |a| ==> a[k] in es
    decreases |es|
  {
    if es == [] then []
    else
      var p := Aceptadas(es[..|es| - 1], ahora);
      var e := es[|es| - 1];
      var x := AltaDe(e, ahora);
      if Ocupado(TablaDe(p, ahora), x.username, x.email) then p
      else
        TablaDeSnoc(p, e, ahora);
        var t := TablaDe(p, ahora);
        assert forall k :: 0 <= k < |p| ==> t[k].username != x.username && t[k].email != x.email;
        p + [e]
  }

  /** The values of two entries clash on the username or on the email. */
  predicate Chocan(e1: Entrada, e2: Entrada, ahora: string)
  {
    AltaDe(e1, ahora).username == AltaDe(e2, ahora).username || AltaDe(e1, ahora).email == AltaDe(e2, ahora).email
  }

  /** When no two entries clash, every entry is migrated. */
  lemma {:induction false} AceptadasSinChoques(es: seq<Entrada>, ahora: string)
    requires forall i, j :: 0 <= i < j < |es| ==> !Chocan(es[i], es[j], ahora)
    ensures Aceptadas(es, ahora) == es
    decreases |es|
  {
    if es != [] {
      var ini, e := es[..|es| - 1], es[|es| - 1];
      assert es == ini + [e];
      forall i, j | 0 <= i < j < |ini| ensures !Chocan(ini[i], ini[j], ahora) {
        assert ini[i] == es[i] && ini[j] == es[j];
      }
      AceptadasSinChoques(ini, ahora);
      forall k | 0 <= k < |ini| ensures !Chocan(ini[k], e, ahora) {
        assert ini[k] == es[k];
      }
      SinChoqueLibre(ini, e, ahora);
    }
  }

  /** An entry that clashes with no earlier one finds its username and email free. */
  lemma SinChoqueLibre(p: seq<Entrada>, e: Entrada, ahora: string)
    requires forall k :: 0 <= k < |p| ==> !Chocan(p[k], e, ahora)
    ensures !Ocupado(TablaDe(p, ahora), AltaDe(e, ahora).username, AltaDe(e, ahora).email)
  {
    var t := TablaDe(p, ahora);
    forall k | 0 <= k < |t| ensures t[k].username != AltaDe(e, ahora).username && t[k].email != AltaDe(e, ahora).email {
      assert !Chocan(p[k], e, ahora);
    }
  }

  /** The routes each accepted entry lists, by user id - 1. */
  function RutasDe(a: seq<Entrada>): (l: seq<seq<string>>)
    ensures |l| == |a| && forall k :: 0 <= k < |a| ==> l[k] == a[k].rutas
  {
    seq(|a|, k requires 0 <= k < |a| => a[k].rutas)
  }

  /** `username_to_id`: each username of the table mapped to its row's id. */
  function Indice(us: seq<Usuario>): (m: map<string, int>)
    ensures forall x :: x in m <==> exists k :: 0 <= k < |us| && us[k].username == x
    ensures UsuariosUnicos(us) ==> forall k :: 0 <= k < |us| ==> m[us[k].username] == us[k].id
    decreases |us|
  {
    if us == [] then map[]
    else
      var ini := us[..|us| - 1];
      var u := us[|us| - 1];
      var m := Indice(ini)[u.username := u.id];
      assert forall k :: 0 <= k < |ini| ==> ini[k] == us[k];
      m
  }

  /** The user is associated to a route of that name: the join `rutas` x `rutas_usuario`. */
  predicate Asignada(rutas: seq<Ruta>, asignaciones: seq<Asignacion>, usuarioId: int, nombre: string)
  {
    RutaPorNombre(rutas, nombre).Some? && TienePar(asignaciones, usuarioId, RutaPorNombre(rutas, nombre).value.id)
  }

  /** Some list names the route. */
  predicate Mencionada(listas: seq<seq<string>>, nombre: string)
  {
    exists k :: 0 <= k < |listas| && nombre in listas[k]
  }

  /**
   * The routes and associations after migrating users 1..|listas| whose route lists are
   * `listas`, starting from association rows `previas`: every route row is a placeholder for a
   * listed name, every listed route is associated to its user, the previous rows are kept, and
   * every new row links a user to a route of their own list.
   */
  predicate Migradas(rutas: seq<Ruta>, asignaciones: seq<Asignacion>, previas: seq<Asignacion>, listas: seq<seq<string>>)
  {
    && Marcadores(rutas, listas)
    && Completas(rutas, asignaciones, listas)
    && |previas| <= |asignaciones| && asignaciones[..|previas|] == previas
    && Nuevas(rutas, asignaciones, previas, listas)
  }

  /** Every route row is a placeholder for a listed name. */
  predicate Marcadores(rutas: seq<Ruta>, listas: seq<seq<string>>)
  {
    forall i :: 0 <= i < |rutas| ==> rutas[i] == RutaPorDefecto(rutas[i].id, rutas[i].nombre) && Mencionada(listas, rutas[i].nombre)
  }

  /** Every listed route is associated to its user. */
  predicate Completas(rutas: seq<Ruta>, asignaciones: seq<Asignacion>, listas: seq<seq<string>>)
  {
    forall k, n :: 0 <= k < |listas| && n in listas[k] ==> Asignada(rutas, asignaciones, k + 1, n)
  }

  /** Every row after the previous ones links a user to a route of their own list. */
  predicate Nuevas(rutas: seq<Ruta>, asignaciones: seq<Asignacion>, previas: seq<Asignacion>, listas: seq<seq<string>>)
  {
    forall i :: |previas| <= i < |asignaciones| ==> Nueva(rutas, asignaciones[i], listas)
  }

  /** An association row links user u to a route whose name is in u's list. */
  predicate Nueva(rutas: seq<Ruta>, a: Asignacion, listas: seq<seq<string>>)
  {
    && 1 <= a.usuarioId <= |listas|
    && RutaPorId(rutas, a.rutaId).Some?
    && RutaPorId(rutas, a.rutaId).value.nombre in listas[a.usuarioId - 1]
  }

  /** A route appended under a new name leaves every other lookup as it was. */
  lemma BusquedasSnoc(rs: seq<Ruta>, x: Ruta)
    requires RutaPorNombre(rs, x.nombre).None? && RutaPorId(rs, x.id).None?
    ensures forall n :: n != x.nombre ==> RutaPorNombre(rs + [x], n) == RutaPorNombre(rs, n)
    ensures forall id :: id != x.id ==> RutaPorId(rs + [x], id) == RutaPorId(rs, id)
    ensures RutaPorNombre(rs + [x], x.nombre) == Some(x) && RutaPorId(rs + [x], x.id) == Some(x)
  {
    PorNombreSnoc(rs, x);
    PorIdSnoc(rs, x);
  }

  lemma {:induction false} PorNombreSnoc(rs: seq<Ruta>, x: Ruta)
    ensures forall n :: RutaPorNombre(rs + [x], n) == if RutaPorNombre(rs, n).Some? then RutaPorNombre(rs, n)
                                                      else if x.nombre == n then Some(x) else None
    decreases |rs|
  {
    if rs != [] {
      PorNombreSnoc(rs[1..], x);
      assert (rs + [x])[1..] == rs[1..] + [x];
    }
  }

  lemma {:induction false} PorIdSnoc(rs: seq<Ruta>, x: Ruta)
    ensures forall id :: RutaPorId(rs + [x], id) == if RutaPorId(rs, id).Some? then RutaPorId(rs, id)
                                                     else if x.id == id then Some(x) else None
    decreases |rs|
  {
    if rs != [] {
      PorIdSnoc(rs[1..], x);
      assert (rs + [x])[1..] == rs[1..] + [x];
    }
  }

  /** A user with no route yet keeps the migration invariant. */
  lemma MigradasNuevoUsuario(rutas: seq<Ruta>, asignaciones: seq<Asignacion>, previas: seq<Asignacion>,
                             listas: seq<seq<string>>)
    requires Migradas(rutas, asignaciones, previas, listas)
    ensures Migradas(rutas, asignaciones, previas, listas + [[]])
  {
    var l2 := listas + [[]];
    forall i | 0 <= i < |rutas| ensures Mencionada(l2, rutas[i].nombre) {
      var k :| 0 <= k < |listas| && rutas[i].nombre in listas[k];
      assert l2[k] == listas[k];
    }
    forall i | |previas| <= i < |asignaciones| ensures Nueva(rutas, asignaciones[i], l2) {
      assert Nueva(rutas, asignaciones[i], listas);
      assert l2[asignaciones[i].usuarioId - 1] == listas[asignaciones[i].usuarioId - 1];
    }
  }

  /** Get-or-create leaves every route it already had in place and only adds a placeholder for the name. */
  lemma ConRutaConserva(t: Tablas, nombre: string)
    requires Valida(t)
    ensures var rs := ConRuta(t, nombre).0.rutas;
      && |t.rutas| <= |rs| && rs[..|t.rutas|] == t.rutas
      && (forall m :: RutaPorNombre(t.rutas, m).Some? ==> RutaPorNombre(rs, m) == RutaPorNombre(t.rutas, m))
      && (forall id :: RutaPorId(t.rutas, id).Some? ==> RutaPorId(rs, id) == RutaPorId(t.rutas, id))
      && (forall i :: |t.rutas| <= i < |rs| ==> rs[i] == RutaPorDefecto(rs[i].id, nombre))
  {
    if RutaPorNombre(t.rutas, nombre).None? {
      PorNombreSnoc(t.rutas, RutaPorDefecto(t.secRutas, nombre));
      PorIdSnoc(t.rutas, RutaPorDefecto(t.secRutas, nombre));
    }
  }

  /**
   * One turn of the route loop of user |listas|, whose list so far is the last of `listas`:
   * get-or-create the route and associate it; the invariant then holds with the name added.
   */
  lemma MigradasPaso(t: Tablas, previas: seq<Asignacion>, listas: seq<seq<string>>, nombre: string)
    requires Valida(t) && listas != []
    requires Migradas(t.rutas, t.rutasUsuario, previas, listas)
    ensures var t2 := ConAsignacion(ConRuta(t, nombre).0, |listas|, ConRuta(t, nombre).1);
      Migradas(t2.rutas, t2.rutasUsuario, previas, listas[|listas| - 1 := listas[|listas| - 1] + [nombre]])
  {
    var (t1, id) := ConRuta(t, nombre);
    var t2 := ConAsignacion(t1, |listas|, id);
    var l2 := listas[|listas| - 1 := listas[|listas| - 1] + [nombre]];
    PasoMarcadores(t, listas, nombre);
    PasoCompletas(t, listas, nombre);
    PasoNuevas(t, previas, listas, nombre);
    PrefijoTrans(previas, t.rutasUsuario, t2.rutasUsuario);
  }

  lemma PrefijoTrans<T>(p: seq<T>, a: seq<T>, b: seq<T>)
    requires |p| <= |a| <= |b| && b[..|a|] == a && a[..|p|] == p
    ensures b[..|p|] == p
  {
    assert b[..|p|] == b[..|a|][..|p|];
  }

  lemma PasoMarcadores(t: Tablas, listas: seq<seq<string>>, nombre: string)
    requires Valida(t) && listas != []
    requires Marcadores(t.rutas, listas)
    ensures Marcadores(ConRuta(t, nombre).0.rutas, listas[|listas| - 1 := listas[|listas| - 1] + [nombre]])
  {
    var rs := ConRuta(t, nombre).0.rutas;
    var u := |listas| - 1;
    var l2 := listas[u := listas[u] + [nombre]];
    ConRutaConserva(t, nombre);
    forall i | 0 <= i < |rs| ensures rs[i] == RutaPorDefecto(rs[i].id, rs[i].nombre) && Mencionada(l2, rs[i].nombre) {
      if i < |t.rutas| {
        assert rs[i] == rs[..|t.rutas|][i];
        MencionadaPaso(listas, nombre, rs[i].nombre);
      } else {
        MencionadaPaso(listas, nombre, nombre);
      }
    }
  }

  /** Adding a name to the last list keeps every mention and mentions the added name. */
  lemma MencionadaPaso(listas: seq<seq<string>>, nombre: string, m: string)
    requires listas != [] && (Mencionada(listas, m) || m == nombre)
    ensures Mencionada(listas[|listas| - 1 := listas[|listas| - 1] + [nombre]], m)
  {
    var u := |listas| - 1;
    var l2 := listas[u := listas[u] + [nombre]];
    if m == nombre {
      assert nombre in l2[u];
    } else {
      var k :| 0 <= k < |listas| && m in listas[k];
      assert m in l2[k];
    }
  }

  lemma PasoCompletas(t: Tablas, listas: seq<seq<string>>, nombre: string)
    requires Valida(t) && listas != []
    requires Completas(t.rutas, t.rutasUsuario, listas)
    ensures var t2 := ConAsignacion(ConRuta(t, nombre).0, |listas|, ConRuta(t, nombre).1);
      Completas(t2.rutas, t2.rutasUsuario, listas[|listas| - 1 := listas[|listas| - 1] + [nombre]])
  {
    var (t1, id) := ConRuta(t, nombre);
    var t2 := ConAsignacion(t1, |listas|, id);
    var u := |listas| - 1;
    var l2 := listas[u := listas[u] + [nombre]];
    ConRutaConserva(t, nombre);
    assert t2.rutas == t1.rutas && t1.rutasUsuario == t.rutasUsuario;
    assert Asignada(t2.rutas, t2.rutasUsuario, u + 1, nombre) by {
      assert RutaPorNombre(t2.rutas, nombre) == RutaPorId(t1.rutas, id);
    }
    forall k, n | 0 <= k < |l2| && n in l2[k] ensures Asignada(t2.rutas, t2.rutasUsuario, k + 1, n) {
      if n in listas[k] {
        AsignadaConservada(t.rutas, t2.rutas, t.rutasUsuario, t2.rutasUsuario, k + 1, n);
      } else {
        assert k == u && n == nombre;
      }
    }
  }

  /** An association survives when names keep their routes and pairs stay stored. */
  lemma AsignadaConservada(rutas: seq<Ruta>, rutas2: seq<Ruta>, as1: seq<Asignacion>, as2: seq<Asignacion>,
                           v: int, n: string)
    requires Asignada(rutas, as1, v, n)
    requires forall m :: RutaPorNombre(rutas, m).Some? ==> RutaPorNombre(rutas2, m) == RutaPorNombre(rutas, m)
    requires forall w, s :: TienePar(as1, w, s) ==> TienePar(as2, w, s)
    ensures Asignada(rutas2, as2, v, n)
  {
    assert TienePar(as1, v, RutaPorNombre(rutas, n).value.id);
  }

  lemma PasoNuevas(t: Tablas, previas: seq<Asignacion>, listas: seq<seq<string>>, nombre: string)
    requires Valida(t) && listas != [] && |previas| <= |t.rutasUsuario|
    requires Nuevas(t.rutas, t.rutasUsuario, previas, listas)
    ensures var t2 := ConAsignacion(ConRuta(t, nombre).0, |listas|, ConRuta(t, nombre).1);
      Nuevas(t2.rutas, t2.rutasUsuario, previas, listas[|listas| - 1 := listas[|listas| - 1] + [nombre]])
  {
    var (t1, id) := ConRuta(t, nombre);
    var t2 := ConAsignacion(t1, |listas|, id);
    var u := |listas| - 1;
    var l2 := listas[u := listas[u] + [nombre]];
    ConRutaConserva(t, nombre);
    assert forall k, n :: 0 <= k < |listas| && n in listas[k] ==> n in l2[k];
    forall i | |previas| <= i < |t2.rutasUsuario| ensures Nueva(t2.rutas, t2.rutasUsuario[i], l2) {
      if i < |t.rutasUsuario| {
        assert t2.rutasUsuario[i] == t2.rutasUsuario[..|t.rutasUsuario|][i];
        NuevaConservada(t.rutas, t2.rutas, t.rutasUsuario[i], listas, l2);
      } else {
        assert RutaPorNombre(t1.rutas, nombre) == RutaPorId(t1.rutas, id);
        assert nombre in l2[u];
      }
    }
  }

  /** A row stays new for longer lists while its route is still found under the same id. */
  lemma NuevaConservada(rs: seq<Ruta>, rs2: seq<Ruta>, a: Asignacion, listas: seq<seq<string>>, l2: seq<seq<string>>)
    requires Nueva(rs, a, listas)
    requires forall id :: RutaPorId(rs, id).Some? ==> RutaPorId(rs2, id) == RutaPorId(rs, id)
    requires |l2| == |listas| && forall k, n :: 0 <= k < |listas| && n in listas[k] ==> n in l2[k]
    ensures Nueva(rs2, a, l2)
  {
    assert RutaPorId(rs2, a.rutaId) == RutaPorId(rs, a.rutaId);
  }

  /**
   * The friendship pairs the inner loop inserts for user id `uid`: one per listed friend that
   * was migrated, in list order.
   */
  function ParesHacia(uid: int, amigos: seq<string>, ind: map<string, int>): (p: seq<(int, int)>)
    ensures forall par :: par in p ==> par.0 == uid && exists f :: f in amigos && f in ind && ind[f] == par.1
    decreases |amigos|
  {
    if amigos == [] then []
    else
      var f := amigos[|amigos| - 1];
      var p := ParesHacia(uid, amigos[..|amigos| - 1], ind);
      assert forall g :: g in amigos[..|amigos| - 1] ==> g in amigos;
      if f in ind then p + [(uid, ind[f])] else p
  }

  /** The pairs inserted for one entry: none unless its username was migrated. */
  function ParesDe(e: Entrada, ind: map<string, int>): seq<(int, int)>
  {
    if e.username.Some? && e.username.value in ind then ParesHacia(ind[e.username.value], e.amigos, ind) else []
  }

  /**
   * Every friendship pair the second loop of `migrar_datos` inserts, in order. Both ends are ids
   * of migrated usernames: the entry's own and one of its friends'.
   */
  function ParesAmistad(es: seq<Entrada>, ind: map<string, int>): (p: seq<(int, int)>)
    ensures forall par :: par in p ==>
      exists e, f :: e in es && e.username.Some? && e.username.value in ind && ind[e.username.value] == par.0
                     && f in e.amigos && f in ind && ind[f] == par.1
    decreases |es|
  {
    if es == [] then []
    else
      var e := es[|es| - 1];
      var p := ParesAmistad(es[..|es| - 1], ind);
      assert forall g :: g in es[..|es| - 1] ==> g in es;
      p + ParesDe(e, ind)
  }

  /** A migrated username maps to the id of the row that holds it. */
  lemma IndiceFila(us: seq<Usuario>, x: string)
    requires UsuariosUnicos(us) && x in Indice(us)
    ensures exists k :: 0 <= k < |us| && us[k].username == x && us[k].id == Indice(us)[x]
  {
  }

  /** Both ends of every migrated friendship are rows of the user table. */
  lemma ParesEntreMigrados(es: seq<Entrada>, us: seq<Usuario>)
    requires UsuariosUnicos(us)
    ensures forall par :: par in ParesAmistad(es, Indice(us)) ==>
      (exists k :: 0 <= k < |us| && us[k].id == par.0) && (exists k :: 0 <= k < |us| && us[k].id == par.1)
  {
    var ind := Indice(us);
    forall par | par in ParesAmistad(es, ind)
      ensures (exists k :: 0 <= k < |us| && us[k].id == par.0) && (exists k :: 0 <= k < |us| && us[k].id == par.1)
    {
      var e, f :| e in es && e.username.Some? && e.username.value in ind && ind[e.username.value] == par.0
                  && f in e.amigos && f in ind && ind[f] == par.1;
      IndiceFila(us, e.username.value);
      IndiceFila(us, f);
    }
  }

  // ----- the connection -----

  /** The tables of `miapp.db`, changed in place by each statement. */
  class BaseDatos {
    var usuarios: seq<Usuario>
    var secUsuarios: int
    var rutas: seq<Ruta>
    var secRutas: int
    var amistades: seq<Amistad>
    var secAmistades: int
    var rutasUsuario: seq<Asignacion>
    var secRutasUsuario: int

    function Estado(): Tablas
      reads this
    {
      Tablas(usuarios, secUsuarios, rutas, secRutas, amistades, secAmistades, rutasUsuario, secRutasUsuario)
    }

    ghost predicate Valid()
      reads this
    {
      Valida(Estado())
    }

    constructor (t: Tablas)
      requires Valida(t)
      ensures Estado() == t && Valid()
    {
      usuarios, secUsuarios := t.usuarios, t.secUsuarios;
      rutas, secRutas := t.rutas, t.secRutas;
      amistades, secAmistades := t.amistades, t.secAmistades;
      rutasUsuario, secRutasUsuario := t.rutasUsuario, t.secRutasUsuario;
    }

    /** `crear_tablas`. */
    method CrearTablas()
      requires Valid()
      modifies this
      ensures Valid() && Estado() == Recreadas(old(Estado()))
    {
      amistades, secAmistades := [], 1;
      rutas, secRutas := [], 1;
      usuarios, secUsuarios := [], 1;
    }

    /** INSERT INTO usuarios, answering the new row's id or IntegrityError. */
    method InsertarUsuario(a: Alta) returns (id: Result<int>)
      requires Valid()
      modifies this
      ensures Valid()
      ensures id.Err? <==> ConUsuario(old(Estado()), a).Err?
      ensures id.Err? ==> id.error == IntegrityError && Estado() == old(Estado())
      ensures id.Ok? ==> id.value == old(secUsuarios) && Estado() == ConUsuario(old(Estado()), a).value
    {
      if Ocupado(usuarios, a.username, a.email) {
        return Err(IntegrityError);
      }
      ConUsuarioValida(Estado(), a);
      usuarios := usuarios + [FilaUsuario(secUsuarios, a)];
      id := Ok(secUsuarios);
      secUsuarios := secUsuarios + 1;
    }

    /** SELECT the route by name, INSERT a placeholder when there is none; answers its id. */
    method ObtenerOCrearRuta(nombre: string) returns (id: int)
      requires Valid()
      modifies this
      ensures Valid()
      ensures (Estado(), id) == ConRuta(old(Estado()), nombre)
    {
      ConRutaValida(Estado(), nombre);
      var existente := RutaPorNombre(rutas, nombre);
      if existente.Some? {
        return existente.value.id;
      }
      rutas := rutas + [RutaPorDefecto(secRutas, nombre)];
      id := secRutas;
      secRutas := secRutas + 1;
    }

    /** INSERT OR IGNORE INTO rutas_usuario. */
    method Asignar(usuarioId: int, rutaId: int)
      requires Valid()
      modifies this
      ensures Valid() && Estado() == ConAsignacion(old(Estado()), usuarioId, rutaId)
    {
      ConAsignacionValida(Estado(), usuarioId, rutaId);
      if !TienePar(rutasUsuario, usuarioId, rutaId) {
        rutasUsuario := rutasUsuario + [Asignacion(secRutasUsuario, usuarioId, rutaId)];
        secRutasUsuario := secRutasUsuario + 1;
      }
    }

    /** INSERT OR IGNORE INTO amistades. */
    method Amistar(usuarioId: int, amigoId: int)
      requires Valid()
      modifies this
      ensures Valid() && Estado() == ConAmistad(old(Estado()), usuarioId, amigoId)
    {
      ConAmistadValida(Estado(), usuarioId, amigoId);
      if !TieneAmistad(amistades, usuarioId, amigoId) {
        amistades := amistades + [Amistad(secAmistades, usuarioId, amigoId)];
        secAmistades := secAmistades + 1;
      }
    }
  }

  // ----- migrar_datos -----

  /** The route loop for user `uid`: get-or-create every listed route and associate it. */
  method MigrarRutas(db: BaseDatos, uid: int, rutas: seq<string>, ghost previas: seq<Asignacion>,
                     ghost listas: seq<seq<string>>)
    requires db.Valid() && uid == |listas| + 1
    requires Migradas(db.rutas, db.rutasUsuario, previas, listas + [[]])
    modifies db
    ensures db.Valid()
    ensures Migradas(db.rutas, db.rutasUsuario, previas, listas + [rutas])
    ensures db.usuarios == old(db.usuarios) && db.secUsuarios == old(db.secUsuarios)
    ensures db.amistades == old(db.amistades) && db.secAmistades == old(db.secAmistades)
  {
    for j := 0 to |rutas|
      invariant db.Valid()
      invariant Migradas(db.rutas, db.rutasUsuario, previas, listas + [rutas[..j]])
      invariant db.usuarios == old(db.usuarios) && db.secUsuarios == old(db.secUsuarios)
      invariant db.amistades == old(db.amistades) && db.secAmistades == old(db.secAmistades)
    {
      ghost var t := db.Estado();
      MigradasTurno(t, previas, listas, rutas[..j], rutas[j]);
      var id := db.ObtenerOCrearRuta(rutas[j]);
      db.Asignar(uid, id);
      PrefijoSnoc(rutas, j);
    }
    PrefijoSnoc(rutas, |rutas|);
  }

  /** MigradasPaso with the lists written as the earlier users' lists and the current one. */
  lemma MigradasTurno(t: Tablas, previas: seq<Asignacion>, listas: seq<seq<string>>, actual: seq<string>, nombre: string)
    requires Valida(t)
    requires Migradas(t.rutas, t.rutasUsuario, previas, listas + [actual])
    ensures var t2 := ConAsignacion(ConRuta(t, nombre).0, |listas| + 1, ConRuta(t, nombre).1);
      Migradas(t2.rutas, t2.rutasUsuario, previas, listas + [actual + [nombre]])
  {
    var l := listas + [actual];
    MigradasPaso(t, previas, l, nombre);
    assert l[|l| - 1 := l[|l| - 1] + [nombre]] == listas + [actual + [nombre]];
  }

  lemma PrefijoSnoc<T>(s: seq<T>, j: int)
    requires 0 <= j <= |s|
    ensures j < |s| ==> s[..j + 1] == s[..j] + [s[j]]
    ensures j == |s| ==> s[..j] == s
  {
  }

  /**
   * One turn of the user loop: insert the entry's user; on IntegrityError skip it, otherwise
   * record its id under its username and migrate its routes.
   */
  method MigrarUsuario(db: BaseDatos, e: Entrada, ahora: string, ind: map<string, int>,
                       ghost previas: seq<Asignacion>, ghost aceptadas: seq<Entrada>)
    returns (ind2: map<string, int>)
    requires db.Valid()
    requires db.usuarios == TablaDe(aceptadas, ahora) && db.secUsuarios == |aceptadas| + 1
    requires ind == Indice(db.usuarios)
    requires Migradas(db.rutas, db.rutasUsuario, previas, RutasDe(aceptadas))
    modifies db
    ensures db.Valid()
    ensures var a2 := if Ocupado(TablaDe(aceptadas, ahora), AltaDe(e, ahora).username, AltaDe(e, ahora).email)
                      then aceptadas else aceptadas + [e];
      && db.usuarios == TablaDe(a2, ahora) && db.secUsuarios == |a2| + 1
      && ind2 == Indice(db.usuarios)
      && Migradas(db.rutas, db.rutasUsuario, previas, RutasDe(a2))
    ensures db.amistades == old(db.amistades) && db.secAmistades == old(db.secAmistades)
  {
    var a := AltaDe(e, ahora);
    var id := db.InsertarUsuario(a);
    if id.Err? {
      return ind;
    }
    UsuarioAceptado(aceptadas, e, ahora);
    ind2 := ind[a.username := id.value];
    MigradasNuevoUsuario(db.rutas, db.rutasUsuario, previas, RutasDe(aceptadas));
    MigrarRutas(db, id.value, e.rutas, previas, RutasDe(aceptadas));
  }

  /** Accepting one more entry appends its row, its index entry and its route list. */
  lemma UsuarioAceptado(aceptadas: seq<Entrada>, e: Entrada, ahora: string)
    ensures var fila := FilaUsuario(|aceptadas| + 1, AltaDe(e, ahora));
      && TablaDe(aceptadas + [e], ahora) == TablaDe(aceptadas, ahora) + [fila]
      && Indice(TablaDe(aceptadas, ahora) + [fila]) == Indice(TablaDe(aceptadas, ahora))[fila.username := fila.id]
      && RutasDe(aceptadas + [e]) == RutasDe(aceptadas) + [e.rutas]
  {
    var us := TablaDe(aceptadas, ahora) + [FilaUsuario(|aceptadas| + 1, AltaDe(e, ahora))];
    TablaDeSnoc(aceptadas, e, ahora);
    assert us[..|us| - 1] == TablaDe(aceptadas, ahora);
  }

  lemma ParesHaciaSnoc(uid: int, amigos: seq<string>, j: int, ind: map<string, int>)
    requires 0 <= j < |amigos|
    ensures ParesHacia(uid, amigos[..j + 1], ind) ==
      ParesHacia(uid, amigos[..j], ind) + (if amigos[j] in ind then [(uid, ind[amigos[j]])] else [])
  {
    assert amigos[..j + 1][..j] == amigos[..j];
  }

  lemma ParesAmistadSnoc(es: seq<Entrada>, i: int, ind: map<string, int>)
    requires 0 <= i < |es|
    ensures ParesAmistad(es[..i + 1], ind) == ParesAmistad(es[..i], ind) + ParesDe(es[i], ind)
  {
    assert es[..i + 1][..i] == es[..i];
  }

  /** The inner loop over one user's friends: INSERT OR IGNORE each pair whose friend was migrated. */
  method AmistarTodos(db: BaseDatos, uid: int, amigos: seq<string>, ind: map<string, int>)
    requires db.Valid()
    modifies db
    ensures db.Valid()
    ensures forall v, w :: TieneAmistad(db.amistades, v, w) <==>
      TieneAmistad(old(db.amistades), v, w) || (v, w) in ParesHacia(uid, amigos, ind)
    ensures db.Estado().(amistades := old(db.amistades), secAmistades := old(db.secAmistades)) == old(db.Estado())
  {
    for j := 0 to |amigos|
      invariant db.Valid()
      invariant forall v, w :: TieneAmistad(db.amistades, v, w) <==>
        TieneAmistad(old(db.amistades), v, w) || (v, w) in ParesHacia(uid, amigos[..j], ind)
      invariant db.Estado().(amistades := old(db.amistades), secAmistades := old(db.secAmistades)) == old(db.Estado())
    {
      ParesHaciaSnoc(uid, amigos, j, ind);
      var f := amigos[j];
      if f in ind {
        db.Amistar(uid, ind[f]);
      }
    }
    assert amigos[..|amigos|] == amigos;
  }

  /** The friendship loop: INSERT OR IGNORE every pair whose two usernames were migrated. */
  method MigrarAmistades(db: BaseDatos, es: seq<Entrada>, ind: map<string, int>)
    requires db.Valid() && db.amistades == []
    modifies db
    ensures db.Valid()
    ensures forall v, w :: TieneAmistad(db.amistades, v, w) <==> (v, w) in ParesAmistad(es, ind)
    ensures db.Estado().(amistades := [], secAmistades := old(db.secAmistades)) == old(db.Estado())
  {
    for i := 0 to |es|
      invariant db.Valid()
      invariant forall v, w :: TieneAmistad(db.amistades, v, w) <==> (v, w) in ParesAmistad(es[..i], ind)
      invariant db.Estado().(amistades := [], secAmistades := old(db.secAmistades)) == old(db.Estado())
    {
      ParesAmistadSnoc(es, i, ind);
      var e := es[i];
      if e.username.Some? && e.username.value in ind {
        AmistarTodos(db, ind[e.username.value], e.amigos, ind);
      }
    }
    assert es[..|es|] == es;
  }

  /**
   * `migrar_datos`: read the entries (None when the file cannot be read or parsed), recreate the
   * tables, migrate every user with their routes, then every friendship. `ahora` is the time the
   * defaults take. Answers whether the migration reached its commit.
   */
  method MigrarDatos(db: BaseDatos, archivo: Option<seq<Entrada>>, ahora: Fechas.DateTime) returns (completada: bool)
    requires db.Valid()
    modifies db
    ensures db.Valid()
    ensures completada <==> archivo.Some?
    ensures archivo.None? ==> db.Estado() == old(db.Estado())
    ensures archivo.Some? ==>
      var hoy := Fechas.Iso(ahora);
      var a := Aceptadas(archivo.value, hoy);
      && db.usuarios == TablaDe(a, hoy)
      && Migradas(db.rutas, db.rutasUsuario, old(db.rutasUsuario), RutasDe(a))
      && forall v, w :: TieneAmistad(db.amistades, v, w) <==> (v, w) in ParesAmistad(archivo.value, Indice(db.usuarios))
  {
    if archivo.None? {
      return false;
    }
    var es := archivo.value;
    var hoy := Fechas.Iso(ahora);
    db.CrearTablas();
    var ind := MigrarUsuarios(db, es, hoy);
    MigrarAmistades(db, es, ind);
    return true;
  }

  /** The user loop of `migrar_datos`, over freshly recreated tables. */
  method MigrarUsuarios(db: BaseDatos, es: seq<Entrada>, hoy: string) returns (ind: map<string, int>)
    requires db.Valid() && db.usuarios == [] && db.secUsuarios == 1 && db.rutas == [] && db.amistades == []
    modifies db
    ensures db.Valid()
    ensures db.usuarios == TablaDe(Aceptadas(es, hoy), hoy) && ind == Indice(db.usuarios)
    ensures Migradas(db.rutas, db.rutasUsuario, old(db.rutasUsuario), RutasDe(Aceptadas(es, hoy)))
    ensures db.amistades == []
  {
    ghost var previas := db.rutasUsuario;
    assert previas[..|previas|] == previas;
    ind := map[];
    for i := 0 to |es|
      invariant db.Valid()
      invariant db.usuarios == TablaDe(Aceptadas(es[..i], hoy), hoy) && db.secUsuarios == |Aceptadas(es[..i], hoy)| + 1
      invariant ind == Indice(db.usuarios)
      invariant Migradas(db.rutas, db.rutasUsuario, previas, RutasDe(Aceptadas(es[..i], hoy)))
      invariant db.amistades == []
    {
      AceptadasSnoc(es, i, hoy);
      ind := MigrarUsuario(db, es[i], hoy, ind, previas, Aceptadas(es[..i], hoy));
    }
    PrefijoSnoc(es, |es|);
  }

  /** The accepted entries of a longer prefix: the next entry is added unless its values are taken. */
  lemma AceptadasSnoc(es: seq<Entrada>, i: int, ahora: string)
    requires 0 <= i < |es|
    ensures var p := Aceptadas(es[..i], ahora);
      Aceptadas(es[..i + 1], ahora)
        == if Ocupado(TablaDe(p, ahora), AltaDe(es[i], ahora).username, AltaDe(es[i], ahora).email) then p else p + [es[i]]
  {
    assert es[..i + 1][..i] == es[..i];
  }

  /** What `migrar_datos` hands back as written: it has no return statement, so always None. */
  function DevueltoAsWritten(completada: bool): (r: Option<bool>)
    ensures r.None?
  {
    None
  }

  /** The evidently intended result: True once the migration commits, False when it fails. */
  function DevueltoCorregido(completada: bool): (r: Option<bool>)
    ensures r.Some? && r.value == completada
  {
    Some(completada)
  }

  /** The check of the migration script, which reports success only on a truthy result. */
  predicate Informada(devuelto: Option<bool>)
  {
    devuelto == Some(true)
  }

  /** As written, the script reports a failed migration even when it completed. */
  lemma InformadaAsWritten(completada: bool)
    ensures !Informada(DevueltoAsWritten(completada))
  {
  }

  /** Corrected, the script reports success exactly when the migration completed. */
  lemma InformadaCorregida(completada: bool)
    ensures Informada(DevueltoCorregido(completada)) <==> completada
  {
  }
}
