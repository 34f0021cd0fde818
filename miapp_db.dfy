/**
 * The database of the Flask application in `miapp.py`: the `usuarios` and `usuario_rutas`
 * tables and the static methods of its `Usuario` model. A table is the sequence of its rows in
 * rowid order, so a query's `.first()` is the first matching row of that sequence.
 */
module MiappDb {
  import opened Wrappers
  import opened Seqs
  import Fechas

  /** A row of `usuarios`; the password is stored as given, in `password_hash`. */
  datatype Fila = Fila(id: int, nombre: string, apellido: string, email: string, username: string,
                       passwordHash: string, telefono: Option<string>, fechaNacimiento: Option<string>,
                       ciudad: Option<string>)

  /** A row of `usuario_rutas`: a user holds a route, by name. */
  datatype Relacion = Relacion(id: int, usuarioId: int, nombreRuta: string, createdAt: string)

  /** One entry of the dictionary `obtener_amigos` builds. */
  datatype Amigo = Amigo(nombre: string, apellido: string, rutasComunes: seq<string>)

  // ----- keys -----

  /** The rowid sqlite gives a new row: one more than the largest in use, 1 for an empty table. */
  function NuevoId(ids: seq<int>): (r: int)
    ensures r >= 1
    ensures forall i :: 0 <= i < |ids| ==> ids[i] < r
    decreases |ids|
  {
    if ids == [] then 1
    else
      var a, b := NuevoId(ids[..|ids| - 1]), ids[|ids| - 1] + 1;
      if a >= b then a else b
  }

  function Ids(us: seq<Fila>): (r: seq<int>)
    ensures |r| == |us| && forall i :: 0 <= i < |us| ==> r[i] == us[i].id
  {
    seq(|us|, i requires 0 <= i < |us| => us[i].id)
  }

  function IdsRel(rs: seq<Relacion>): (r: seq<int>)
    ensures |r| == |rs| && forall i :: 0 <= i < |rs| ==> r[i] == rs[i].id
  {
    seq(|rs|, i requires 0 <= i < |rs| => rs[i].id)
  }

  /** The UNIQUE columns of `usuarios` (and its primary key) hold distinct values. */
  predicate Unicos(us: seq<Fila>)
  {
    forall i, j :: 0 <= i < j < |us| ==>
      us[i].id != us[j].id && us[i].username != us[j].username && us[i].email != us[j].email
  }

  /** Two rows of a table with unique keys that share the id or the username are the same row. */
  lemma MismaFila(us: seq<Fila>, a: Fila, b: Fila)
    requires Unicos(us) && a in us && b in us
    requires a.id == b.id || a.username == b.username
    ensures a == b
  {
    var i :| 0 <= i < |us| && us[i] == a;
    var j :| 0 <= j < |us| && us[j] == b;
    assert i == j;
  }

  // ----- queries on `usuarios` -----

  /** `Usuario.query.filter_by(username=…).first()`. */
  function PorUsername(us: seq<Fila>, username: string): (r: Option<Fila>)
    ensures r.Some? <==> exists i :: 0 <= i < |us| && us[i].username == username
    ensures r.Some? ==> r.value in us && r.value.username == username
  {
    if us == [] then None
    else if us[0].username == username then Some(us[0])
    else
      var r := PorUsername(us[1..], username);
      assert forall i :: 1 <= i < |us| ==> us[i] == us[1..][i - 1];
      r
  }

  /** `Usuario.query.get(id)`: the row with that primary key. */
  function PorId(us: seq<Fila>, id: int): (r: Option<Fila>)
    ensures r.Some? <==> exists i :: 0 <= i < |us| && us[i].id == id
    ensures r.Some? ==> r.value in us && r.value.id == id
  {
    if us == [] then None
    else if us[0].id == id then Some(us[0])
    else
      var r := PorId(us[1..], id);
      assert forall i :: 1 <= i < |us| ==> us[i] == us[1..][i - 1];
      r
  }

  /** The username or the email is already taken. */
  predicate Ocupado(us: seq<Fila>, username: string, email: string)
  {
    exists i :: 0 <= i < |us| && (us[i].username == username || us[i].email == email)
  }

  /**
   * `Usuario.iniciar_sesion`: the first row with that username, provided its stored password
   * equals the given one verbatim.
   */
  function IniciarSesion(us: seq<Fila>, username: string, password: string): (r: Option<Fila>)
    ensures r.Some? ==> r.value in us && r.value.username == username && r.value.passwordHash == password
  {
    var u := PorUsername(us, username);
    if u.Some? && u.value.passwordHash == password then u else None
  }

  /** With unique usernames, login succeeds exactly when some row matches both username and password. */
  lemma IniciarSesionExacta(us: seq<Fila>, username: string, password: string)
    requires Unicos(us)
    ensures IniciarSesion(us, username, password).Some? <==>
      exists i :: 0 <= i < |us| && us[i].username == username && us[i].passwordHash == password
  {
    if i :| 0 <= i < |us| && us[i].username == username && us[i].passwordHash == password {
      MismaFila(us, PorUsername(us, username).value, us[i]);
    }
  }

  /** A row with a fresh id, username and email keeps the keys unique. */
  lemma RegistroUnicos(us: seq<Fila>, f: Fila)
    requires Unicos(us) && !Ocupado(us, f.username, f.email) && f.id == NuevoId(Ids(us))
    ensures Unicos(us + [f])
  {
    var us2 := us + [f];
    forall i, j | 0 <= i < j < |us2|
      ensures us2[i].id != us2[j].id && us2[i].username != us2[j].username && us2[i].email != us2[j].email
    {
      if j == |us| {
        assert us2[i] == us[i] && Ids(us)[i] == us[i].id;
      }
    }
  }

  // ----- `usuario_rutas` -----

  /** Some row links the user to the route name. */
  predicate Tiene(rs: seq<Relacion>, usuarioId: int, nombreRuta: string)
  {
    exists i :: 0 <= i < |rs| && rs[i].usuarioId == usuarioId && rs[i].nombreRuta == nombreRuta
  }

  /** Row ids are distinct and no (user, route) pair is stored twice. */
  predicate ParesUnicos(rs: seq<Relacion>)
  {
    forall i, j :: 0 <= i < j < |rs| ==>
      rs[i].id != rs[j].id && (rs[i].usuarioId != rs[j].usuarioId || rs[i].nombreRuta != rs[j].nombreRuta)
  }

  /** Some row of the user table has this id. */
  predicate Existe(us: seq<Fila>, id: int)
  {
    exists j :: 0 <= j < |us| && us[j].id == id
  }

  /** Every association names an existing user. */
  predicate Referencias(us: seq<Fila>, rs: seq<Relacion>)
  {
    forall i :: 0 <= i < |rs| ==> Existe(us, rs[i].usuarioId)
  }

  /**
   * The association table after `agregar_ruta` for a known user: unchanged when the pair is
   * already stored, otherwise one new row at the end.
   */
  function ConRuta(rs: seq<Relacion>, usuarioId: int, nombreRuta: string, createdAt: string): (r: seq<Relacion>)
    ensures Tiene(r, usuarioId, nombreRuta)
    ensures forall v, n :: Tiene(r, v, n) <==> Tiene(rs, v, n) || (v == usuarioId && n == nombreRuta)
    ensures ParesUnicos(rs) ==> ParesUnicos(r)
  {
    if Tiene(rs, usuarioId, nombreRuta) then rs
    else
      var nueva := Relacion(NuevoId(IdsRel(rs)), usuarioId, nombreRuta, createdAt);
      var r := rs + [nueva];
      assert r[|rs|] == nueva;
      assert forall i :: 0 <= i < |rs| ==> r[i] == rs[i] && rs[i].id == IdsRel(rs)[i];
      r
  }

  /** Associating the same pair again changes nothing: at most one row per pair. */
  lemma ConRutaIdempotente(rs: seq<Relacion>, usuarioId: int, nombreRuta: string, c1: string, c2: string)
    ensures ConRuta(ConRuta(rs, usuarioId, nombreRuta, c1), usuarioId, nombreRuta, c2)
         == ConRuta(rs, usuarioId, nombreRuta, c1)
  {
  }

  /** The route names of one user's associations, in table order. */
  function NombresDe(rs: seq<Relacion>, usuarioId: int): (r: seq<string>)
    ensures forall n :: n in r <==> Tiene(rs, usuarioId, n)
    decreases |rs|
  {
    if rs == [] then []
    else
      var init, last := rs[..|rs| - 1], rs[|rs| - 1];
      var r := NombresDe(init, usuarioId) + (if last.usuarioId == usuarioId then [last.nombreRuta] else []);
      assert forall i :: 0 <= i < |init| ==> init[i] == rs[i];
      r
  }

  /** How many rows link the user to the route name. */
  function Veces(rs: seq<Relacion>, usuarioId: int, nombreRuta: string): nat
    decreases |rs|
  {
    if rs == [] then 0
    else
      var last := rs[|rs| - 1];
      Veces(rs[..|rs| - 1], usuarioId, nombreRuta) + (if last.usuarioId == usuarioId && last.nombreRuta == nombreRuta then 1 else 0)
  }

  /** Without repeated pairs a pair is counted once when stored and never otherwise. */
  lemma {:induction false} VecesUnica(rs: seq<Relacion>, usuarioId: int, nombreRuta: string)
    requires ParesUnicos(rs)
    ensures Veces(rs, usuarioId, nombreRuta) == if Tiene(rs, usuarioId, nombreRuta) then 1 else 0
    decreases |rs|
  {
    if rs != [] {
      var init, last := rs[..|rs| - 1], rs[|rs| - 1];
      assert forall i :: 0 <= i < |init| ==> init[i] == rs[i];
      VecesUnica(init, usuarioId, nombreRuta);
      if last.usuarioId == usuarioId && last.nombreRuta == nombreRuta {
        forall i | 0 <= i < |init|
          ensures init[i].usuarioId != usuarioId || init[i].nombreRuta != nombreRuta
        {
          assert init[i] == rs[i];
        }
      } else if Tiene(rs, usuarioId, nombreRuta) {
        var i :| 0 <= i < |rs| && rs[i].usuarioId == usuarioId && rs[i].nombreRuta == nombreRuta;
        assert i < |init| && init[i] == rs[i];
      }
    }
  }

  // ----- `obtener_amigos` -----

  /** The common routes already listed for `k`, or none. */
  function Lista(m: map<string, Amigo>, k: string): seq<string>
  {
    if k in m then m[k].rutasComunes else []
  }

  /** `k` copies of the route name. */
  function Copias(n: string, k: nat): seq<string>
  {
    if k == 0 then [] else Copias(n, k - 1) + [n]
  }

  /**
   * One pass of the inner loop over the associations of route `nombre`: another user's row
   * adds `nombre` to that user's entry, creating the entry with their name on first sight.
   */
  function Paso(m: map<string, Amigo>, us: seq<Fila>, uid: int, nombre: string, rel: Relacion): map<string, Amigo>
  {
    if rel.nombreRuta != nombre || rel.usuarioId == uid then m
    else
      match PorId(us, rel.usuarioId)
      case None => m
      case Some(a) =>
        var e := if a.username in m then m[a.username] else Amigo(a.nombre, a.apellido, []);
        m[a.username := e.(rutasComunes := e.rutasComunes + [nombre])]
  }

  /** The inner loop for one route name over the association rows `rels`. */
  function PorRuta(m: map<string, Amigo>, us: seq<Fila>, uid: int, nombre: string, rels: seq<Relacion>): map<string, Amigo>
    decreases |rels|
  {
    if rels == [] then m
    else Paso(PorRuta(m, us, uid, nombre, rels[..|rels| - 1]), us, uid, nombre, rels[|rels| - 1])
  }

  /** The outer loop over the requester's route names. */
  function PorRutas(us: seq<Fila>, rs: seq<Relacion>, uid: int, nombres: seq<string>): map<string, Amigo>
    decreases |nombres|
  {
    if nombres == [] then map[]
    else PorRuta(PorRutas(us, rs, uid, nombres[..|nombres| - 1]), us, uid, nombres[|nombres| - 1], rs)
  }

  /** `Usuario.obtener_amigos(username)`: `{}` for an unknown user, else both loops over their routes. */
  function AmigosDe(us: seq<Fila>, rs: seq<Relacion>, username: string): map<string, Amigo>
  {
    match PorUsername(us, username)
    case None => map[]
    case Some(u) => PorRutas(us, rs, u.id, NombresDe(rs, u.id))
  }

  /** The route names of `u`, in the order of `u`'s associations, that `v` holds too. */
  function Comunes(rs: seq<Relacion>, u: Fila, v: Fila): (r: seq<string>)
    ensures Subseq(r, NombresDe(rs, u.id))
    ensures forall n :: n in r <==> Tiene(rs, u.id, n) && Tiene(rs, v.id, n)
  {
    var p := Miembro(NombresDe(rs, v.id));
    FilterSubseq(NombresDe(rs, u.id), p);
    var r := Filter(NombresDe(rs, u.id), p);
    assert forall n :: n in r ==> n in NombresDe(rs, u.id) && p(n) by {
      forall n | n in r ensures n in NombresDe(rs, u.id) && p(n) {
        var i :| 0 <= i < |r| && r[i] == n;
      }
    }
    assert forall n :: n in NombresDe(rs, u.id) && p(n) ==> n in r by {
      forall n | n in NombresDe(rs, u.id) && p(n) ensures n in r {
        var i :| 0 <= i < |NombresDe(rs, u.id)| && NombresDe(rs, u.id)[i] == n;
      }
    }
    r
  }

  /** There is a user other than the requester with username `k`. */
  predicate Candidato(us: seq<Fila>, uid: int, k: string)
  {
    exists i :: 0 <= i < |us| && us[i].username == k && us[i].id != uid
  }

  /** A key that is no other user's username is never touched by a route's pass. */
  lemma {:induction false} PorRutaAjena(m: map<string, Amigo>, us: seq<Fila>, uid: int, nombre: string,
                                        rels: seq<Relacion>, k: string)
    requires !Candidato(us, uid, k)
    ensures k in PorRuta(m, us, uid, nombre, rels) <==> k in m
    ensures k in m ==> PorRuta(m, us, uid, nombre, rels)[k] == m[k]
    decreases |rels|
  {
    if rels != [] {
      var rel := rels[|rels| - 1];
      PorRutaAjena(m, us, uid, nombre, rels[..|rels| - 1], k);
      if rel.nombreRuta == nombre && rel.usuarioId != uid && PorId(us, rel.usuarioId).Some? {
        var a := PorId(us, rel.usuarioId).value;
        var i :| 0 <= i < |us| && us[i] == a;
        assert a.username != k;
      }
    }
  }

  lemma {:induction false} PorRutasAjena(us: seq<Fila>, rs: seq<Relacion>, uid: int, nombres: seq<string>, k: string)
    requires !Candidato(us, uid, k)
    ensures k !in PorRutas(us, rs, uid, nombres)
    decreases |nombres|
  {
    if nombres != [] {
      var init := nombres[..|nombres| - 1];
      PorRutasAjena(us, rs, uid, init, k);
      PorRutaAjena(PorRutas(us, rs, uid, init), us, uid, nombres[|nombres| - 1], rs, k);
    }
  }

  /**
   * A route's pass adds the route name to another user's entry once per row linking that
   * user to it, keeping the user's name and surname.
   */
  lemma {:induction false} PorRutaEntrada(m: map<string, Amigo>, us: seq<Fila>, uid: int, nombre: string,
                                          rels: seq<Relacion>, v: Fila)
    requires Unicos(us) && v in us && v.id != uid
    requires v.username in m ==> m[v.username].nombre == v.nombre && m[v.username].apellido == v.apellido
    ensures var m2 := PorRuta(m, us, uid, nombre, rels);
      && (v.username in m2 <==> v.username in m || Veces(rels, v.id, nombre) > 0)
      && (v.username in m2 ==>
            m2[v.username] == Amigo(v.nombre, v.apellido, Lista(m, v.username) + Copias(nombre, Veces(rels, v.id, nombre))))
    decreases |rels|
  {
    if rels == [] {
      assert Lista(m, v.username) + [] == Lista(m, v.username);
    } else {
      var init, rel := rels[..|rels| - 1], rels[|rels| - 1];
      PorRutaEntrada(m, us, uid, nombre, init, v);
      PasoEntrada(PorRuta(m, us, uid, nombre, init), us, uid, nombre, rel, v, v.username in m, Lista(m, v.username),
                  Veces(init, v.id, nombre));
    }
  }

  /** One association row moves the user's entry from `c` copies of the route name to the count with that row. */
  lemma PasoEntrada(m: map<string, Amigo>, us: seq<Fila>, uid: int, nombre: string, rel: Relacion, v: Fila,
                    antes: bool, l: seq<string>, c: nat)
    requires Unicos(us) && v in us && v.id != uid
    requires !antes ==> l == []
    requires v.username in m <==> antes || c > 0
    requires v.username in m ==> m[v.username] == Amigo(v.nombre, v.apellido, l + Copias(nombre, c))
    ensures var m2 := Paso(m, us, uid, nombre, rel);
      var c2 := c + (if rel.usuarioId == v.id && rel.nombreRuta == nombre then 1 else 0);
      && (v.username in m2 <==> antes || c2 > 0)
      && (v.username in m2 ==> m2[v.username] == Amigo(v.nombre, v.apellido, l + Copias(nombre, c2)))
  {
    if rel.nombreRuta == nombre && rel.usuarioId != uid && PorId(us, rel.usuarioId).Some? {
      var a := PorId(us, rel.usuarioId).value;
      if a.username == v.username || rel.usuarioId == v.id {
        MismaFila(us, a, v);
        assert l + Copias(nombre, c) + [nombre] == l + Copias(nombre, c + 1);
      }
    }
  }

  /**
   * After the outer loop, another user has an entry exactly when they share a route with the
   * requester, and the entry lists the shared names in the order of the requester's routes.
   */
  lemma {:induction false} PorRutasEntrada(us: seq<Fila>, rs: seq<Relacion>, uid: int, nombres: seq<string>, v: Fila)
    requires Unicos(us) && ParesUnicos(rs) && v in us && v.id != uid
    ensures var m := PorRutas(us, rs, uid, nombres);
      var c := Filter(nombres, Miembro(NombresDe(rs, v.id)));
      && (v.username in m <==> c != [])
      && (v.username in m ==> m[v.username] == Amigo(v.nombre, v.apellido, c))
    decreases |nombres|
  {
    if nombres != [] {
      var init, n := nombres[..|nombres| - 1], nombres[|nombres| - 1];
      PorRutasEntrada(us, rs, uid, init, v);
      assert init + [n] == nombres;
      PorRutasPaso(us, rs, uid, init, n, v);
    }
  }

  /** One step of the outer loop keeps the entry of `v` as the induction in `PorRutasEntrada` needs. */
  lemma PorRutasPaso(us: seq<Fila>, rs: seq<Relacion>, uid: int, init: seq<string>, n: string, v: Fila)
    requires Unicos(us) && ParesUnicos(rs) && v in us && v.id != uid
    requires var m := PorRutas(us, rs, uid, init);
      var c := Filter(init, Miembro(NombresDe(rs, v.id)));
      && (v.username in m <==> c != [])
      && (v.username in m ==> m[v.username] == Amigo(v.nombre, v.apellido, c))
    ensures var m := PorRutas(us, rs, uid, init + [n]);
      var c := Filter(init + [n], Miembro(NombresDe(rs, v.id)));
      && (v.username in m <==> c != [])
      && (v.username in m ==> m[v.username] == Amigo(v.nombre, v.apellido, c))
  {
    var p := Miembro(NombresDe(rs, v.id));
    var m1 := PorRutas(us, rs, uid, init);
    assert (init + [n])[..|init + [n]| - 1] == init;
    assert PorRutas(us, rs, uid, init + [n]) == PorRuta(m1, us, uid, n, rs);
    PorRutaEntrada(m1, us, uid, n, rs, v);
    VecesUnica(rs, v.id, n);
    FilterSnoc(init, n, p);
    EntradaPaso(m1, PorRutas(us, rs, uid, init + [n]), v.username, v.nombre, v.apellido, Filter(init, p), n,
                Veces(rs, v.id, n), p(n));
  }

  /** The bookkeeping of one step of the outer loop, for one key. */
  lemma EntradaPaso(m1: map<string, Amigo>, m2: map<string, Amigo>, k: string, nombre: string, apellido: string,
                    c0: seq<string>, n: string, veces: nat, tiene: bool)
    requires (k in m1 <==> c0 != []) && (k in m1 ==> m1[k] == Amigo(nombre, apellido, c0))
    requires k in m2 <==> k in m1 || veces > 0
    requires k in m2 ==> m2[k] == Amigo(nombre, apellido, Lista(m1, k) + Copias(n, veces))
    requires veces == if tiene then 1 else 0
    ensures var c := c0 + (if tiene then [n] else []);
      (k in m2 <==> c != []) && (k in m2 ==> m2[k] == Amigo(nombre, apellido, c))
  {
    assert Copias(n, 1) == [n];
    assert c0 + [] == c0;
  }

  /**
   * `obtener_amigos` for a table with unique keys and pairs: `{}` for an unknown user; otherwise
   * the requester never appears, every key is another user's username, and another user has an
   * entry (with their own name and surname) exactly when they share a route, listing the shared
   * routes in the order of the requester's associations.
   */
  lemma AmigosDeExactos(us: seq<Fila>, rs: seq<Relacion>, username: string)
    requires Unicos(us) && ParesUnicos(rs)
    ensures PorUsername(us, username).None? ==> AmigosDe(us, rs, username) == map[]
    ensures username !in AmigosDe(us, rs, username)
    ensures forall k :: k in AmigosDe(us, rs, username) ==> exists i :: 0 <= i < |us| && us[i].username == k
    ensures PorUsername(us, username).Some? ==>
      var u := PorUsername(us, username).value;
      var m := AmigosDe(us, rs, username);
      forall v :: v in us && v.username != username ==>
        && (v.username in m <==> Comunes(rs, u, v) != [])
        && (v.username in m ==> m[v.username] == Amigo(v.nombre, v.apellido, Comunes(rs, u, v)))
  {
    if PorUsername(us, username).Some? {
      var u := PorUsername(us, username).value;
      var nombres := NombresDe(rs, u.id);
      forall k | !Candidato(us, u.id, k) ensures k !in AmigosDe(us, rs, username) {
        PorRutasAjena(us, rs, u.id, nombres, k);
      }
      forall i | 0 <= i < |us| && us[i].username == username
        ensures us[i].id == u.id
      {
        MismaFila(us, us[i], u);
      }
      forall v | v in us && v.username != username
        ensures var m := AmigosDe(us, rs, username);
          && (v.username in m <==> Comunes(rs, u, v) != [])
          && (v.username in m ==> m[v.username] == Amigo(v.nombre, v.apellido, Comunes(rs, u, v)))
      {
        if v.id == u.id {
          MismaFila(us, v, u);
        }
        PorRutasEntrada(us, rs, u.id, nombres, v);
      }
    }
  }

  /** Friendship is symmetric: each of two users finds the other exactly when they share a route. */
  lemma AmigosSimetricos(us: seq<Fila>, rs: seq<Relacion>, u: Fila, v: Fila)
    requires Unicos(us) && ParesUnicos(rs) && u in us && v in us && u.username != v.username
    ensures v.username in AmigosDe(us, rs, u.username) <==> u.username in AmigosDe(us, rs, v.username)
  {
    EsAmigo(us, rs, u, v);
    EsAmigo(us, rs, v, u);
    ComunesSimetricas(rs, u, v);
  }

  /** One entry of the friends map: `v` is listed for `u` exactly when they share a route. */
  lemma EsAmigo(us: seq<Fila>, rs: seq<Relacion>, u: Fila, v: Fila)
    requires Unicos(us) && ParesUnicos(rs) && u in us && v in us && u.username != v.username
    ensures v.username in AmigosDe(us, rs, u.username) <==> Comunes(rs, u, v) != []
  {
    var w := PorUsername(us, u.username).value;
    MismaFila(us, w, u);
    AmigosDeExactos(us, rs, u.username);
  }

  lemma ComunesSimetricas(rs: seq<Relacion>, u: Fila, v: Fila)
    ensures Comunes(rs, u, v) != [] <==> Comunes(rs, v, u) != []
  {
    var a, b := Comunes(rs, u, v), Comunes(rs, v, u);
    if a != [] {
      assert a[0] in b;
    }
    if b != [] {
      assert b[0] in a;
    }
  }

  // ----- the tables as state -----

  class Base {
    var usuarios: seq<Fila>
    var relaciones: seq<Relacion>

    /** Unique keys, at most one association per pair, and no association to a missing user. */
    ghost predicate Valid()
      reads this
    {
      Unicos(usuarios) && ParesUnicos(relaciones) && Referencias(usuarios, relaciones)
    }

    constructor ()
      ensures Valid() && usuarios == [] && relaciones == []
    {
      usuarios := [];
      relaciones := [];
    }

    /**
     * `Usuario.registrar_usuario`: False when the username or the email is taken; otherwise
     * one row at the end with the next id and the password stored as given.
     */
    method RegistrarUsuario(nombre: string, apellido: string, email: string, username: string, password: string,
                            telefono: Option<string>, fechaNacimiento: Option<string>, ciudad: Option<string>)
      returns (ok: bool)
      requires Valid()
      modifies this
      ensures Valid() && relaciones == old(relaciones)
      ensures ok == !Ocupado(old(usuarios), username, email)
      ensures usuarios == if ok then old(usuarios) + [Fila(NuevoId(Ids(old(usuarios))), nombre, apellido, email, username,
                                                             password, telefono, fechaNacimiento, ciudad)]
                          else old(usuarios)
    {
      if Ocupado(usuarios, username, email) {
        return false;
      }
      var fila := Fila(NuevoId(Ids(usuarios)), nombre, apellido, email, username, password, telefono, fechaNacimiento, ciudad);
      RegistroUnicos(usuarios, fila);
      var antes := usuarios;
      usuarios := usuarios + [fila];
      assert forall j :: 0 <= j < |antes| ==> usuarios[j] == antes[j];
      return true;
    }

    /**
     * `Usuario.agregar_ruta`: False for an unknown user; True otherwise, adding the association
     * only when the pair is not stored yet, dated `ahora`.
     */
    method AgregarRuta(username: string, nombreRuta: string, ahora: Fechas.DateTime) returns (ok: bool)
      requires Valid()
      modifies this
      ensures Valid() && usuarios == old(usuarios)
      ensures ok == PorUsername(usuarios, username).Some?
      ensures relaciones == if ok then ConRuta(old(relaciones), PorUsername(usuarios, username).value.id, nombreRuta, Fechas.Strftime(ahora))
                            else old(relaciones)
    {
      var usuario := PorUsername(usuarios, username);
      if usuario.None? {
        return false;
      }
      var j :| 0 <= j < |usuarios| && usuarios[j] == usuario.value;
      var antes := relaciones;
      relaciones := ConRuta(relaciones, usuario.value.id, nombreRuta, Fechas.Strftime(ahora));
      forall i | 0 <= i < |relaciones|
        ensures Existe(usuarios, relaciones[i].usuarioId)
      {
        if i < |antes| {
          assert relaciones[i] == antes[i];
        } else {
          assert usuarios[j].id == relaciones[i].usuarioId;
        }
      }
      return true;
    }

    /** `Usuario.obtener_amigos`: the two nested loops over the association table. */
    method ObtenerAmigos(username: string) returns (amigos: map<string, Amigo>)
      ensures amigos == AmigosDe(usuarios, relaciones, username)
    {
      var usuario := PorUsername(usuarios, username);
      if usuario.None? {
        return map[];
      }
      var uid := usuario.value.id;
      var nombres := NombresDe(relaciones, uid);
      amigos := map[];
      var i := 0;
      while i < |nombres|
        invariant 0 <= i <= |nombres|
        invariant amigos == PorRutas(usuarios, relaciones, uid, nombres[..i])
      {
        amigos := AmigosPorRuta(amigos, usuarios, relaciones, uid, nombres[i]);
        assert nombres[..i + 1][..i] == nombres[..i];
        i := i + 1;
      }
      assert nombres[..i] == nombres;
    }
  }

  /** The inner loop of `obtener_amigos`: one pass over the association rows for route `nombre`. */
  method AmigosPorRuta(m: map<string, Amigo>, us: seq<Fila>, rs: seq<Relacion>, uid: int, nombre: string)
    returns (amigos: map<string, Amigo>)
    ensures amigos == PorRuta(m, us, uid, nombre, rs)
  {
    amigos := m;
    var j := 0;
    while j < |rs|
      invariant 0 <= j <= |rs|
      invariant amigos == PorRuta(m, us, uid, nombre, rs[..j])
    {
      var rel := rs[j];
      assert rs[..j + 1][..j] == rs[..j];
      if rel.nombreRuta == nombre && rel.usuarioId != uid {
        var amigo := PorId(us, rel.usuarioId);
        if amigo.Some? {
          var a := amigo.value;
          if a.username !in amigos {
            amigos := amigos[a.username := Amigo(a.nombre, a.apellido, [])];
          }
          amigos := amigos[a.username := amigos[a.username].(rutasComunes := amigos[a.username].rutasComunes + [nombre])];
        }
      }
      j := j + 1;
    }
    assert rs[..j] == rs;
  }
}
