/**
 * The user registry kept in `usuarios.json`: a list of user records, each with the names of the
 * routes the user holds. Loading turns the stored ISO registration dates into date-times and
 * saving turns them back into text. Two users are friends when they hold a route in common.
 */
module Usuario {
  import opened Wrappers
  import opened Fechas

  /** The registration date of a record: text as stored, a date-time once loaded. */
  datatype Fecha = Texto(t: string) | Momento(dt: DateTime)

  /** One user object of the JSON list; `fecha_registro` and `rutas` may be absent. */
  datatype Registro = Registro(
    nombre: string, apellido: string, email: string, username: string, telefono: string,
    fechaNacimiento: string, ciudad: string, password: string,
    fechaRegistro: Option<Fecha>,
    rutas: Option<seq<string>>)

  // ----- loading and saving -----

  /** The loading step for one record: a text date is parsed, or raises ValueError. */
  function Leer(r: Registro): (res: Result<Registro>)
    ensures res.Ok? ==> res.value.username == r.username && res.value.rutas == r.rutas
    ensures res.Ok? ==> res.value.fechaRegistro.None? == r.fechaRegistro.None?
    ensures res.Ok? ==> res.value.fechaRegistro.Some? ==> res.value.fechaRegistro.value.Momento?
    ensures res.Err? <==> r.fechaRegistro.Some? && r.fechaRegistro.value.Texto? && FromIso(r.fechaRegistro.value.t).None?
    ensures res.Ok? && r.fechaRegistro.Some? && r.fechaRegistro.value.Texto? ==>
      res.value == r.(fechaRegistro := Some(Momento(FromIso(r.fechaRegistro.value.t).value)))
    ensures !(r.fechaRegistro.Some? && r.fechaRegistro.value.Texto?) ==> res == Ok(r)
  {
    match r.fechaRegistro
    case Some(Texto(t)) =>
      (match FromIso(t)
       case Some(dt) => Ok(r.(fechaRegistro := Some(Momento(dt))))
       case None => Err(ValueError("Invalid isoformat string: '" + t + "'")))
    case _ => Ok(r)
  }

  /** The saving step for one record: a date-time becomes its ISO text. */
  function Escribir(r: Registro): Registro
  {
    match r.fechaRegistro
    case Some(Momento(dt)) => r.(fechaRegistro := Some(Texto(Iso(dt))))
    case _ => r
  }

  /** Loading a list: the first record that fails decides the exception. */
  function LeerTodos(docs: seq<Registro>): (r: Result<seq<Registro>>)
    ensures r.Ok? ==> |r.value| == |docs|
    ensures r.Ok? ==> forall k :: 0 <= k < |docs| ==> Leer(docs[k]) == Ok(r.value[k])
    ensures r.Err? <==> exists k :: 0 <= k < |docs| && Leer(docs[k]).Err?
    decreases |docs|
  {
    if docs == [] then Ok([])
    else
      match LeerTodos(docs[..|docs| - 1])
      case Err(e) => Err(e)
      case Ok(xs) =>
        match Leer(docs[|docs| - 1])
        case Err(e) => Err(e)
        case Ok(x) => Ok(xs + [x])
  }

  function Serializar(us: seq<Registro>): (r: seq<Registro>)
    ensures |r| == |us| && forall k :: 0 <= k < |us| ==> r[k] == Escribir(us[k])
  {
    seq(|us|, k requires 0 <= k < |us| => Escribir(us[k]))
  }

  /** `cargar_usuarios`: a missing file reads as no users. */
  function CargarDe(archivo: Option<seq<Registro>>): Result<seq<Registro>>
  {
    if archivo.None? then Ok([]) else LeerTodos(archivo.value)
  }

  /** A loaded record: no date, or a representable date-time. */
  predicate Cargado(r: Registro)
  {
    r.fechaRegistro.Some? ==> r.fechaRegistro.value.Momento? && Valida(r.fechaRegistro.value.dt)
  }

  /** A stored record whose date, if any, is text that `isoformat` wrote. */
  ghost predicate Canonico(r: Registro)
  {
    r.fechaRegistro.Some? ==>
      r.fechaRegistro.value.Texto? && exists dt :: Valida(dt) && r.fechaRegistro.value.t == Iso(dt)
  }

  /** Saving and loading again gives the same records: the date-times survive as text. */
  lemma {:induction false} GuardarCargar(us: seq<Registro>)
    requires forall k :: 0 <= k < |us| ==> Cargado(us[k])
    ensures LeerTodos(Serializar(us)) == Ok(us)
    decreases |us|
  {
    if us != [] {
      var init := us[..|us| - 1];
      GuardarCargar(init);
      var x := us[|us| - 1];
      LeerEscribir(x);
      var s := Serializar(us);
      assert s[..|s| - 1] == Serializar(init);
      assert s[|s| - 1] == Escribir(x);
      assert init + [x] == us;
    }
  }

  lemma LeerEscribir(x: Registro)
    requires Cargado(x)
    ensures Leer(Escribir(x)) == Ok(x)
  {
    if x.fechaRegistro.Some? {
      IsoIdaVuelta(x.fechaRegistro.value.dt);
    }
  }

  /** Loading and saving again leaves a file of canonical dates exactly as it was. */
  lemma CargarGuardar(docs: seq<Registro>)
    requires forall k :: 0 <= k < |docs| ==> Canonico(docs[k])
    ensures LeerTodos(docs).Ok? && Serializar(LeerTodos(docs).value) == docs
  {
    forall k | 0 <= k < |docs|
      ensures Leer(docs[k]).Ok? && Escribir(Leer(docs[k]).value) == docs[k]
    {
      if docs[k].fechaRegistro.Some? {
        var dt :| Valida(dt) && docs[k].fechaRegistro.value.t == Iso(dt);
        IsoIdaVuelta(dt);
      }
    }
    var us := LeerTodos(docs).value;
    assert forall k :: 0 <= k < |docs| ==> Leer(docs[k]) == Ok(us[k]);
  }

  // ----- lookups -----

  /** Usernames identify records. */
  predicate Unicos(us: seq<Registro>)
  {
    forall p, q :: 0 <= p < |us| && 0 <= q < |us| && us[p].username == us[q].username ==> p == q
  }

  function Nombres(us: seq<Registro>): set<string>
  {
    set k | 0 <= k < |us| :: us[k].username
  }

  /** The position of the first record with both the username and the password. */
  function PrimeraSesion(us: seq<Registro>, username: string, password: string): (r: Option<nat>)
    ensures r.Some? ==> r.value < |us| && us[r.value].username == username && us[r.value].password == password
    ensures r.Some? ==> forall k :: 0 <= k < r.value ==> !(us[k].username == username && us[k].password == password)
    ensures r.None? <==> forall k :: 0 <= k < |us| ==> !(us[k].username == username && us[k].password == password)
    decreases |us|
  {
    if us == [] then None
    else if us[0].username == username && us[0].password == password then Some(0)
    else match PrimeraSesion(us[1..], username, password)
      case None => None
      case Some(k) => Some(k + 1)
  }

  /** The position of the first record with the username. */
  function Primero(us: seq<Registro>, username: string): (r: Option<nat>)
    ensures r.Some? ==> r.value < |us| && us[r.value].username == username
    ensures r.Some? ==> forall k :: 0 <= k < r.value ==> us[k].username != username
    ensures r.None? <==> username !in Nombres(us)
    decreases |us|
  {
    if us == [] then None
    else if us[0].username == username then Some(0)
    else match Primero(us[1..], username)
      case None => None
      case Some(k) =>
        assert forall j :: 1 <= j < |us| ==> us[j] == us[1..][j - 1];
        Some(k + 1)
  }

  /** The list with the first record of `username` holding `rutas`; everything else as it was. */
  function ActualizarRutas(us: seq<Registro>, username: string, rutas: seq<string>): seq<Registro>
  {
    match Primero(us, username)
    case None => us
    case Some(k) => us[k := us[k].(rutas := Some(rutas))]
  }

  /** Only the `rutas` of the first matching record change. */
  lemma ActualizarSoloRutas(us: seq<Registro>, username: string, rutas: seq<string>)
    ensures var r := ActualizarRutas(us, username, rutas);
      && |r| == |us|
      && (forall k :: 0 <= k < |us| ==> r[k].(rutas := us[k].rutas) == us[k])
      && (username in Nombres(us) ==>
            exists k :: 0 <= k < |us| && us[k].username == username && r[k].rutas == Some(rutas)
              && (forall j :: 0 <= j < |us| && j != k ==> r[j] == us[j])
              && (forall j :: 0 <= j < k ==> us[j].username != username))
      && (username !in Nombres(us) ==> r == us)
  {
    var r := ActualizarRutas(us, username, rutas);
    if username in Nombres(us) {
      var k := Primero(us, username).value;
      assert us[k].username == username && r[k].rutas == Some(rutas);
    }
  }

  // ----- friends -----

  /** Both records list their routes and hold one in common. */
  predicate Comparten(a: Registro, b: Registro)
  {
    a.rutas.Some? && b.rutas.Some? &&
    exists k :: 0 <= k < |a.rutas.value| && a.rutas.value[k] in b.rutas.value
  }

  /** Positions `p < q` hold records that share a route. */
  predicate Par(us: seq<Registro>, p: int, q: int)
  {
    0 <= p < q < |us| && Comparten(us[p], us[q])
  }

  /** The pair of positions names `u` and `v`, in either order. */
  predicate Nombran(us: seq<Registro>, p: int, q: int, u: string, v: string)
    requires 0 <= p < |us| && 0 <= q < |us|
  {
    (us[p].username == u && us[q].username == v) || (us[q].username == u && us[p].username == v)
  }

  /** Some two distinct records named `u` and `v` share a route. */
  ghost predicate SonAmigos(us: seq<Registro>, u: string, v: string)
  {
    exists p, q :: Par(us, p, q) && Nombran(us, p, q, u, v)
  }

  predicate SinRepetidos(xs: seq<string>)
  {
    forall a, b :: 0 <= a < b < |xs| ==> xs[a] != xs[b]
  }

  /** Friendship is symmetric. */
  lemma AmigosSimetrico(us: seq<Registro>, u: string, v: string)
    ensures SonAmigos(us, u, v) <==> SonAmigos(us, v, u)
  {
    if SonAmigos(us, u, v) {
      var p, q :| Par(us, p, q) && Nombran(us, p, q, u, v);
      assert Nombran(us, p, q, v, u);
    }
    if SonAmigos(us, v, u) {
      var p, q :| Par(us, p, q) && Nombran(us, p, q, v, u);
      assert Nombran(us, p, q, u, v);
    }
  }

  /** With unique usernames nobody is their own friend. */
  lemma AmigosIrreflexivo(us: seq<Registro>, u: string)
    requires Unicos(us)
    ensures !SonAmigos(us, u, u)
  {
    forall p, q | Par(us, p, q)
      ensures !Nombran(us, p, q, u, u)
    {
      assert us[p].username != us[q].username;
    }
  }

  /** The pairs the nested loops of `amigos` have visited before `(i, j)`. */
  predicate Visitado(p: int, q: int, i: int, j: int)
  {
    p < i || (p == i && q < j)
  }

  /** What the dictionary holds after the pairs before `(i, j)`. */
  ghost predicate AmigosHasta(m: map<string, seq<string>>, us: seq<Registro>, i: int, j: int)
  {
    && m.Keys == Nombres(us)
    && (forall u, v :: u in m && v in m[u] ==> exists p, q :: Par(us, p, q) && Visitado(p, q, i, j) && Nombran(us, p, q, u, v))
    && (forall p, q :: Par(us, p, q) && Visitado(p, q, i, j) ==>
          us[q].username in m[us[p].username] && us[p].username in m[us[q].username])
    && (Unicos(us) ==> forall u :: u in m ==> SinRepetidos(m[u]))
  }

  /** One visit: when the two records share a route, each name is appended to the other's list. */
  function Visitar(m: map<string, seq<string>>, us: seq<Registro>, i: nat, j: nat): map<string, seq<string>>
    requires i < j < |us| && m.Keys == Nombres(us)
  {
    var a, b := us[i].username, us[j].username;
    if Comparten(us[i], us[j]) then
      var m1 := m[a := m[a] + [b]];
      m1[b := m1[b] + [a]]
    else m
  }

  lemma SinRepetidosSnoc(xs: seq<string>, x: string)
    requires SinRepetidos(xs) && x !in xs
    ensures SinRepetidos(xs + [x])
  {
  }

  /** Every entry after the visit comes from a visited pair. */
  lemma VisitarCorrecto(m: map<string, seq<string>>, us: seq<Registro>, i: nat, j: nat)
    requires i < j < |us| && AmigosHasta(m, us, i, j)
    ensures var m' := Visitar(m, us, i, j);
      forall u, v :: u in m' && v in m'[u] ==> exists p, q :: Par(us, p, q) && Visitado(p, q, i, j + 1) && Nombran(us, p, q, u, v)
  {
    var a, b := us[i].username, us[j].username;
    var m' := Visitar(m, us, i, j);
    assert a in m && b in m;
    forall u, v | u in m' && v in m'[u]
      ensures exists p, q :: Par(us, p, q) && Visitado(p, q, i, j + 1) && Nombran(us, p, q, u, v)
    {
      if u in m && v in m[u] {
        var p, q :| Par(us, p, q) && Visitado(p, q, i, j) && Nombran(us, p, q, u, v);
        assert Visitado(p, q, i, j + 1);
      } else {
        assert Comparten(us[i], us[j]);
        assert (u == a && v == b) || (u == b && v == a);
        assert Par(us, i, j) && Visitado(i, j, i, j + 1) && Nombran(us, i, j, u, v);
      }
    }
  }

  /** A visit only appends. */
  lemma VisitarCrece(m: map<string, seq<string>>, us: seq<Registro>, i: nat, j: nat)
    requires i < j < |us| && m.Keys == Nombres(us)
    ensures var m' := Visitar(m, us, i, j);
      m'.Keys == m.Keys && forall x :: x in m ==> m[x] <= m'[x]
  {
  }

  /** A visit of two records that share a route lists each name under the other. */
  lemma VisitarPar(m: map<string, seq<string>>, us: seq<Registro>, i: nat, j: nat)
    requires i < j < |us| && m.Keys == Nombres(us) && Comparten(us[i], us[j])
    ensures var m' := Visitar(m, us, i, j);
      us[j].username in m'[us[i].username] && us[i].username in m'[us[j].username]
  {
    var a, b := us[i].username, us[j].username;
    assert a in m && b in m;
    var m1 := m[a := m[a] + [b]];
    assert b in m1[a];
    var m' := m1[b := m1[b] + [a]];
    assert m' == Visitar(m, us, i, j);
    assert a in m'[b];
    assert m1[a] <= m'[a];
  }

  /** Every visited pair is recorded after the visit. */
  lemma VisitarCompleto(m: map<string, seq<string>>, us: seq<Registro>, i: nat, j: nat)
    requires i < j < |us| && AmigosHasta(m, us, i, j)
    ensures var m' := Visitar(m, us, i, j);
      forall p, q :: Par(us, p, q) && Visitado(p, q, i, j + 1) ==>
        us[q].username in m'[us[p].username] && us[p].username in m'[us[q].username]
  {
    var m' := Visitar(m, us, i, j);
    VisitarCrece(m, us, i, j);
    forall p, q | Par(us, p, q) && Visitado(p, q, i, j + 1)
      ensures us[q].username in m'[us[p].username] && us[p].username in m'[us[q].username]
    {
      if p == i && q == j {
        VisitarPar(m, us, i, j);
      } else {
        assert Visitado(p, q, i, j);
        assert us[q].username in m[us[p].username] && us[p].username in m[us[q].username];
        assert m[us[p].username] <= m'[us[p].username];
        assert m[us[q].username] <= m'[us[q].username];
      }
    }
  }

  /** With unique usernames the visit never appends a name already listed. */
  lemma VisitarSinRepetidos(m: map<string, seq<string>>, us: seq<Registro>, i: nat, j: nat)
    requires i < j < |us| && AmigosHasta(m, us, i, j) && Unicos(us)
    ensures var m' := Visitar(m, us, i, j); forall u :: u in m' ==> SinRepetidos(m'[u])
  {
    var a, b := us[i].username, us[j].username;
    assert a in m && b in m;
    assert a != b;
    if Comparten(us[i], us[j]) {
      forall p, q | Par(us, p, q) && Visitado(p, q, i, j)
        ensures !Nombran(us, p, q, a, b) && !Nombran(us, p, q, b, a)
      {
        if us[p].username == a {
          assert p == i;
        }
        if us[q].username == a {
          assert q == i;
        }
      }
      assert b !in m[a];
      assert a !in m[b];
      SinRepetidosSnoc(m[a], b);
      SinRepetidosSnoc(m[b], a);
    }
  }

  lemma VisitarConserva(m: map<string, seq<string>>, us: seq<Registro>, i: nat, j: nat)
    requires i < j < |us| && AmigosHasta(m, us, i, j)
    ensures AmigosHasta(Visitar(m, us, i, j), us, i, j + 1)
  {
    assert us[i].username in m && us[j].username in m;
    VisitarCorrecto(m, us, i, j);
    VisitarCompleto(m, us, i, j);
    if Unicos(us) {
      VisitarSinRepetidos(m, us, i, j);
    }
  }

  /** The empty lists before any pair. */
  lemma AmigosInicio(us: seq<Registro>)
    ensures AmigosHasta(map u | u in Nombres(us) :: [], us, 0, 1)
  {
  }

  /** After every row, an entry is there exactly when the two names are friends. */
  lemma AmigosFinal(m: map<string, seq<string>>, us: seq<Registro>)
    requires AmigosHasta(m, us, |us|, |us| + 1)
    ensures forall u, v :: u in m ==> (v in m[u] <==> SonAmigos(us, u, v))
  {
    forall u, v | u in m
      ensures v in m[u] <==> SonAmigos(us, u, v)
    {
      if SonAmigos(us, u, v) {
        var p, q :| Par(us, p, q) && Nombran(us, p, q, u, v);
        assert Visitado(p, q, |us|, |us| + 1);
        assert us[q].username in m[us[p].username] && us[p].username in m[us[q].username];
      }
    }
  }

  /** Finishing row `i` is starting row `i + 1`. */
  lemma SiguienteFila(m: map<string, seq<string>>, us: seq<Registro>, i: nat)
    requires i < |us| && AmigosHasta(m, us, i, |us|)
    ensures AmigosHasta(m, us, i + 1, i + 2)
  {
    forall p, q | Par(us, p, q)
      ensures Visitado(p, q, i, |us|) <==> Visitado(p, q, i + 1, i + 2)
    {
    }
    forall u, v | u in m && v in m[u]
      ensures exists p, q :: Par(us, p, q) && Visitado(p, q, i + 1, i + 2) && Nombran(us, p, q, u, v)
    {
      var p, q :| Par(us, p, q) && Visitado(p, q, i, |us|) && Nombran(us, p, q, u, v);
      assert Visitado(p, q, i + 1, i + 2);
    }
  }

  /** A user object, as `Usuario(**registro)` builds it after a login. */
  class Usuario {
    const nombre: string
    const apellido: string
    const email: string
    const username: string
    const telefono: string
    const fechaNacimiento: string
    const ciudad: string
    const password: string
    const fechaRegistro: DateTime
    var rutas: seq<string>
    var amigos: seq<string>

    constructor (r: Registro, fechaRegistro: DateTime)
      ensures nombre == r.nombre && apellido == r.apellido && email == r.email && username == r.username
      ensures telefono == r.telefono && fechaNacimiento == r.fechaNacimiento && ciudad == r.ciudad
      ensures password == r.password && this.fechaRegistro == fechaRegistro
      ensures rutas == (if r.rutas.Some? then r.rutas.value else []) && amigos == []
    {
      nombre, apellido, email, username := r.nombre, r.apellido, r.email, r.username;
      telefono, fechaNacimiento, ciudad, password := r.telefono, r.fechaNacimiento, r.ciudad, r.password;
      this.fechaRegistro := fechaRegistro;
      rutas := if r.rutas.Some? then r.rutas.value else [];
      amigos := [];
    }

    /** `guardar_en_json`: stores this user's routes in the first record with its username. */
    method GuardarEnJson(almacen: Almacen) returns (r: Result<()>)
      modifies almacen
      ensures var cargados := CargarDe(old(almacen.archivo));
        && (cargados.Err? ==> r == Err(cargados.error) && almacen.archivo == old(almacen.archivo))
        && (cargados.Ok? ==> r == Ok(()) && almacen.archivo == Some(Serializar(ActualizarRutas(cargados.value, username, rutas))))
    {
      var cargados := almacen.CargarUsuarios();
      if cargados.Err? {
        return Err(cargados.error);
      }
      var us := cargados.value;
      var i := 0;
      while i < |us| && us[i].username != username
        invariant 0 <= i <= |us|
        invariant forall k :: 0 <= k < i ==> us[k].username != username
      {
        i := i + 1;
      }
      if i < |us| {
        assert Primero(us, username) == Some(i);
        us := us[i := us[i].(rutas := Some(rutas))];
      } else {
        assert username !in Nombres(us);
      }
      almacen.GuardarUsuarios(us);
      return Ok(());
    }
  }

  /** The `usuarios.json` file; None while it does not exist. */
  class Almacen {
    var archivo: Option<seq<Registro>>

    constructor (archivo: Option<seq<Registro>>)
      ensures this.archivo == archivo
    {
      this.archivo := archivo;
    }

    /** `cargar_usuarios`: the stored records with their dates parsed. */
    method CargarUsuarios() returns (r: Result<seq<Registro>>)
      ensures r == CargarDe(archivo)
    {
      if archivo.None? {
        return Ok([]);
      }
      var docs := archivo.value;
      var us := [];
      var i := 0;
      while i < |docs|
        invariant 0 <= i <= |docs|
        invariant LeerTodos(docs[..i]) == Ok(us)
      {
        LeerPaso(docs, i, us);
        var x := Leer(docs[i]);
        if x.Err? {
          return Err(x.error);
        }
        us := us + [x.value];
        i := i + 1;
      }
      assert docs[..i] == docs;
      return Ok(us);
    }

    /** `guardar_usuarios`: writes the records with their dates as ISO text. */
    method GuardarUsuarios(us: seq<Registro>)
      modifies this
      ensures archivo == Some(Serializar(us))
    {
      var docs := [];
      var i := 0;
      while i < |us|
        invariant 0 <= i <= |us|
        invariant docs == Serializar(us[..i])
      {
        docs := docs + [Escribir(us[i])];
        i := i + 1;
      }
      assert us[..i] == us;
      archivo := Some(docs);
    }

    /**
     * `registrar_usuario`: False when the username is taken (nothing is written); otherwise the
     * new record, dated `ahora` and with no routes, is appended and the list saved.
     */
    method RegistrarUsuario(nombre: string, apellido: string, email: string, username: string, telefono: string,
                            fechaNacimiento: string, ciudad: string, password: string, ahora: DateTime)
      returns (r: Result<bool>)
      modifies this
      ensures var cargados := CargarDe(old(archivo));
        && (cargados.Err? ==> r == Err(cargados.error) && archivo == old(archivo))
        && (cargados.Ok? && username in Nombres(cargados.value) ==> r == Ok(false) && archivo == old(archivo))
        && (cargados.Ok? && username !in Nombres(cargados.value) ==>
              r == Ok(true) &&
              archivo == Some(Serializar(cargados.value + [Nuevo(nombre, apellido, email, username, telefono,
                                                                 fechaNacimiento, ciudad, password, ahora)])))
    {
      var cargados := CargarUsuarios();
      if cargados.Err? {
        return Err(cargados.error);
      }
      var us := cargados.value;
      var i := 0;
      while i < |us|
        invariant 0 <= i <= |us|
        invariant forall k :: 0 <= k < i ==> us[k].username != username
      {
        if us[i].username == username {
          return Ok(false);
        }
        i := i + 1;
      }
      GuardarUsuarios(us + [Nuevo(nombre, apellido, email, username, telefono, fechaNacimiento, ciudad, password, ahora)]);
      return Ok(true);
    }

    /**
     * `iniciar_sesion`: the user object of the first record with both the username and the
     * password, or None. A loaded date is never text, so the object is dated `ahora`.
     */
    method IniciarSesion(username: string, password: string, ahora: DateTime) returns (r: Result<Option<Usuario>>)
      ensures var cargados := CargarDe(archivo);
        && (cargados.Err? ==> r == Err(cargados.error))
        && (cargados.Ok? ==> r.Ok? && (r.value.Some? <==> PrimeraSesion(cargados.value, username, password).Some?))
        && (cargados.Ok? && r.value.Some? ==>
              var reg := cargados.value[PrimeraSesion(cargados.value, username, password).value];
              var u := r.value.value;
              && fresh(u) && u.username == reg.username && u.password == reg.password && u.email == reg.email
              && u.nombre == reg.nombre && u.apellido == reg.apellido && u.telefono == reg.telefono
              && u.fechaNacimiento == reg.fechaNacimiento && u.ciudad == reg.ciudad
              && u.rutas == (if reg.rutas.Some? then reg.rutas.value else []) && u.amigos == []
              && u.fechaRegistro == ahora)
    {
      var cargados := CargarUsuarios();
      if cargados.Err? {
        return Err(cargados.error);
      }
      var us := cargados.value;
      var i := 0;
      while i < |us|
        invariant 0 <= i <= |us|
        invariant forall k :: 0 <= k < i ==> !(us[k].username == username && us[k].password == password)
      {
        if us[i].username == username && us[i].password == password {
          assert PrimeraSesion(us, username, password) == Some(i) by {
            PrimeraSesionEs(us, username, password, i);
          }
          var u := new Usuario(us[i], ahora);
          return Ok(Some(u));
        }
        i := i + 1;
      }
      return Ok(None);
    }

    /**
     * `amigos`: for every username, the usernames of the other records it shares a route with.
     * A record without `rutas` raises KeyError as soon as there are two records to compare.
     */
    method Amigos() returns (r: Result<map<string, seq<string>>>)
      ensures var cargados := CargarDe(archivo);
        && (cargados.Err? ==> r == Err(cargados.error))
        && (cargados.Ok? ==>
              var us := cargados.value;
              && (r.Err? <==> |us| >= 2 && exists k :: 0 <= k < |us| && us[k].rutas.None?)
              && (r.Err? ==> r.error == KeyError("rutas"))
              && (r.Ok? ==> r.value.Keys == Nombres(us))
              && (r.Ok? ==> forall u, v :: u in r.value ==> (v in r.value[u] <==> SonAmigos(us, u, v)))
              && (r.Ok? && Unicos(us) ==> forall u :: u in r.value ==> SinRepetidos(r.value[u])))
    {
      var cargados := CargarUsuarios();
      if cargados.Err? {
        return Err(cargados.error);
      }
      var us := cargados.value;
      if |us| >= 2 && exists k :: 0 <= k < |us| && us[k].rutas.None? {
        return Err(KeyError("rutas"));
      }
      var m: map<string, seq<string>> := map u | u in Nombres(us) :: [];
      AmigosInicio(us);
      var i := 0;
      while i < |us|
        invariant 0 <= i <= |us|
        invariant AmigosHasta(m, us, i, i + 1)
      {
        m := VisitarFila(m, us, i);
        i := i + 1;
      }
      AmigosFinal(m, us);
      return Ok(m);
    }
  }

  /** The inner loop of `amigos`: record row `i` against every later row. */
  method VisitarFila(m: map<string, seq<string>>, us: seq<Registro>, i: nat) returns (m2: map<string, seq<string>>)
    requires i < |us| && AmigosHasta(m, us, i, i + 1)
    ensures AmigosHasta(m2, us, i + 1, i + 2)
  {
    m2 := m;
    var j := i + 1;
    while j < |us|
      invariant i + 1 <= j <= |us|
      invariant AmigosHasta(m2, us, i, j)
    {
      VisitarConserva(m2, us, i, j);
      m2 := Visitar(m2, us, i, j);
      j := j + 1;
    }
    SiguienteFila(m2, us, i);
  }

  /** The record `registrar_usuario` appends. */
  function Nuevo(nombre: string, apellido: string, email: string, username: string, telefono: string,
                 fechaNacimiento: string, ciudad: string, password: string, ahora: DateTime): (r: Registro)
    ensures r.username == username && r.password == password && r.rutas == Some([])
    ensures r.fechaRegistro == Some(Texto(Iso(ahora)))
  {
    Registro(nombre, apellido, email, username, telefono, fechaNacimiento, ciudad, password,
             Some(Texto(Iso(ahora))), Some([]))
  }

  /** One more record read: appended on success, and the first failure is the whole load's error. */
  lemma LeerPaso(docs: seq<Registro>, i: nat, us: seq<Registro>)
    requires i < |docs| && LeerTodos(docs[..i]) == Ok(us)
    ensures Leer(docs[i]).Ok? ==> LeerTodos(docs[..i + 1]) == Ok(us + [Leer(docs[i]).value])
    ensures Leer(docs[i]).Err? ==> LeerTodos(docs) == Err(Leer(docs[i]).error)
  {
    var pre := docs[..i + 1];
    assert pre[..|pre| - 1] == docs[..i] && pre[|pre| - 1] == docs[i];
    if Leer(docs[i]).Err? {
      forall k | 0 <= k < i ensures Leer(docs[k]).Ok? {
        assert docs[k] == docs[..i][k];
      }
      PrimerError(docs, i);
    }
  }

  lemma {:induction false} PrimerError(docs: seq<Registro>, i: nat)
    requires i < |docs| && Leer(docs[i]).Err?
    requires forall k :: 0 <= k < i ==> Leer(docs[k]).Ok?
    ensures LeerTodos(docs) == Err(Leer(docs[i]).error)
    decreases |docs|
  {
    if i < |docs| - 1 {
      PrimerError(docs[..|docs| - 1], i);
    } else {
      var init := docs[..|docs| - 1];
      assert forall k :: 0 <= k < |init| ==> Leer(init[k]).Ok?;
    }
  }

  lemma PrimeraSesionEs(us: seq<Registro>, username: string, password: string, i: nat)
    requires i < |us| && us[i].username == username && us[i].password == password
    requires forall k :: 0 <= k < i ==> !(us[k].username == username && us[k].password == password)
    ensures PrimeraSesion(us, username, password) == Some(i)
  {
    var r := PrimeraSesion(us, username, password);
    assert r.Some?;
    if r.value < i {
    } else if r.value > i {
    }
  }

  /** Registering a new username keeps usernames unique. */
  lemma RegistroUnico(us: seq<Registro>, n: Registro)
    requires Unicos(us) && n.username !in Nombres(us)
    ensures Unicos(Serializar(us + [n]))
  {
    var s := Serializar(us + [n]);
    forall p, q | 0 <= p < |s| && 0 <= q < |s| && p != q
      ensures s[p].username != s[q].username
    {
      assert s[p].username == (us + [n])[p].username;
      assert s[q].username == (us + [n])[q].username;
      if p < |us| {
        assert us[p].username in Nombres(us);
      }
      if q < |us| {
        assert us[q].username in Nombres(us);
      }
    }
  }

  /** Serialising one more record appends its serialised form. */
  lemma SerializarSnoc(us: seq<Registro>, n: Registro)
    ensures Serializar(us + [n]) == Serializar(us) + [Escribir(n)]
  {
    var a, b := Serializar(us + [n]), Serializar(us) + [Escribir(n)];
    assert |a| == |b|;
    forall k | 0 <= k < |a| ensures a[k] == b[k] {
      if k < |us| {
        assert (us + [n])[k] == us[k];
      }
    }
  }

  /** With canonical dates on file, registration keeps every earlier record exactly as stored. */
  lemma RegistroConserva(docs: seq<Registro>, n: Registro)
    requires forall k :: 0 <= k < |docs| ==> Canonico(docs[k])
    ensures LeerTodos(docs).Ok?
    ensures Serializar(LeerTodos(docs).value + [n]) == docs + [Escribir(n)]
  {
    CargarGuardar(docs);
    SerializarSnoc(LeerTodos(docs).value, n);
  }
}
