/**
 * The HTTP handlers of `miapp.py` over the database tables and the route folder. A handler is
 * a function or method from the request's fields (and the current state) to a status code and
 * a JSON body; exceptions caught by a handler become its 500 answer.
 */
module MiappApi {
  import opened Wrappers
  import opened Text
  import opened Seqs
  import Json
  import Fechas
  import R = Ruta
  import opened MiappDb
  import MR = MiappRutas

  type Record = Json.Record

  /** What a user's login returns: every column but the password. */
  datatype Perfil = Perfil(nombre: string, apellido: string, email: string, username: string,
                           telefono: Option<string>, fechaNacimiento: Option<string>, ciudad: Option<string>)

  datatype Cuerpo =
    | Mensaje(texto: string)                       // {"status": ..., "message": texto}
    | DatosPerfil(perfil: Perfil)
    | DatosAmigos(amigos: map<string, Amigo>)
    | DatosRutas(rutas: seq<Record>)
    | DatosRuta(ruta: MR.RutaCreada)
    | DatosMensajes(mensajes: seq<string>)

  datatype Respuesta = Respuesta(status: int, cuerpo: Cuerpo)

  function PerfilDe(f: Fila): Perfil
  {
    Perfil(f.nombre, f.apellido, f.email, f.username, f.telefono, f.fechaNacimiento, f.ciudad)
  }

  /** `datos.get(k, '').strip()`: a value that is not text has no `strip`. */
  function Texto(datos: Record, k: string): (r: Result<string>)
    ensures r.Err? <==> k in datos && !datos[k].Str?
    ensures r.Ok? && k !in datos ==> r.value == ""
  {
    if k !in datos then Ok(Strip(""))
    else if datos[k].Str? then Ok(Strip(datos[k].s))
    else Err(AttributeError)
  }

  // ----- login -----

  /**
   * `login`: 400 when the stripped username or password is empty, 200 with the user's profile
   * when `iniciar_sesion` finds them, 401 otherwise.
   */
  function Login(us: seq<Fila>, datos: Record): (r: Respuesta)
    ensures r.status in {200, 400, 401, 500}
    ensures r.status == 500 <==> Texto(datos, "username").Err? || Texto(datos, "password").Err?
    ensures r.status == 400 <==> (Texto(datos, "username").Ok? && Texto(datos, "password").Ok?
                                 && (Texto(datos, "username").value == "" || Texto(datos, "password").value == ""))
    ensures r.status == 401 ==> r.cuerpo == Mensaje("Usuario o contraseña incorrectos")
                                && IniciarSesion(us, Texto(datos, "username").value, Texto(datos, "password").value).None?
    ensures r.status == 200 ==>
      var u := IniciarSesion(us, Texto(datos, "username").value, Texto(datos, "password").value);
      u.Some? && r.cuerpo == DatosPerfil(PerfilDe(u.value))
  {
    var username, password := Texto(datos, "username"), Texto(datos, "password");
    if username.Err? then Respuesta(500, Mensaje("Error en login: " + ErrorText(username.error)))
    else if password.Err? then Respuesta(500, Mensaje("Error en login: " + ErrorText(password.error)))
    else if username.value == "" || password.value == "" then
      Respuesta(400, Mensaje("Usuario y contraseña son obligatorios"))
    else
      var u := IniciarSesion(us, username.value, password.value);
      if u.Some? then Respuesta(200, DatosPerfil(PerfilDe(u.value)))
      else Respuesta(401, Mensaje("Usuario o contraseña incorrectos"))
  }

  /** With unique usernames, a 401 means no row matches both stripped credentials. */
  lemma LoginRechazo(us: seq<Fila>, datos: Record)
    requires Unicos(us)
    requires Login(us, datos).status == 401
    ensures forall i :: 0 <= i < |us| ==>
      us[i].username != Texto(datos, "username").value || us[i].passwordHash != Texto(datos, "password").value
  {
    IniciarSesionExacta(us, Texto(datos, "username").value, Texto(datos, "password").value);
  }

  // ----- registro -----

  const Obligatorios := ["nombre", "apellido", "email", "username", "password"]

  /** The stripped fields of a complete registration request. */
  datatype Alta = Alta(nombre: string, apellido: string, email: string, username: string, password: string,
                       telefono: string, fechaNacimiento: string, ciudad: string)

  /** The first required field that is empty once stripped, or a complete request. */
  datatype Lectura = Falta(campo: string) | Completa(alta: Alta)

  /** The check loop over the required fields, in order. */
  function PrimeroVacio(datos: Record, campos: seq<string>): (r: Result<Option<string>>)
    ensures r.Ok? && r.value.Some? ==> r.value.value in campos && Texto(datos, r.value.value) == Ok("")
    ensures r.Ok? && r.value.None? ==> forall i :: 0 <= i < |campos| ==> Texto(datos, campos[i]).Ok? && Texto(datos, campos[i]).value != ""
    ensures r.Err? ==> exists i :: 0 <= i < |campos| && Texto(datos, campos[i]) == Err(r.error)
  {
    if campos == [] then Ok(None)
    else
      var t := Texto(datos, campos[0]);
      if t.Err? then Err(t.error)
      else if t.value == "" then Ok(Some(campos[0]))
      else
        var r := PrimeroVacio(datos, campos[1..]);
        assert forall i :: 1 <= i < |campos| ==> campos[i] == campos[1..][i - 1];
        r
  }

  /** What `registro` reads from the request before calling `registrar_usuario`. */
  function LeerAlta(datos: Record): (r: Result<Lectura>)
    ensures r.Ok? && r.value.Falta? ==> r.value.campo in Obligatorios && Texto(datos, r.value.campo) == Ok("")
    ensures r.Ok? && r.value.Completa? ==>
      var a := r.value.alta;
      a.nombre != "" && a.apellido != "" && a.email != "" && a.username != "" && a.password != ""
      && Texto(datos, "username") == Ok(a.username) && Texto(datos, "email") == Ok(a.email)
  {
    var vacio := PrimeroVacio(datos, Obligatorios);
    if vacio.Err? then Err(vacio.error)
    else if vacio.value.Some? then Ok(Falta(vacio.value.value))
    else
      assert Obligatorios[0] == "nombre" && Obligatorios[1] == "apellido" && Obligatorios[2] == "email";
      assert Obligatorios[3] == "username" && Obligatorios[4] == "password";
      assert Texto(datos, Obligatorios[0]).Ok? && Texto(datos, Obligatorios[1]).Ok? && Texto(datos, Obligatorios[2]).Ok?;
      assert Texto(datos, Obligatorios[3]).Ok? && Texto(datos, Obligatorios[4]).Ok?;
      var nombre, apellido := Texto(datos, "nombre").value, Texto(datos, "apellido").value;
      var email, username := Texto(datos, "email").value, Texto(datos, "username").value;
      var password := Texto(datos, "password").value;
      var telefono, fecha, ciudad := Texto(datos, "telefono"), Texto(datos, "fecha_nacimiento"), Texto(datos, "ciudad");
      if telefono.Err? then Err(telefono.error)
      else if fecha.Err? then Err(fecha.error)
      else if ciudad.Err? then Err(ciudad.error)
      else Ok(Completa(Alta(nombre, apellido, email, username, password, telefono.value, fecha.value, ciudad.value)))
  }

  /**
   * `registro`: 400 naming the first empty required field; otherwise `registrar_usuario`,
   * answering 200 when it adds the row and 400 "El usuario ya existe" when the username or the
   * email is taken. The optional fields are stored stripped, empty when absent.
   */
  method Registro(db: Base, datos: Record) returns (r: Respuesta)
    requires db.Valid()
    modifies db
    ensures db.Valid() && db.relaciones == old(db.relaciones)
    ensures LeerAlta(datos).Err? ==> r == Respuesta(500, Mensaje("Error en registro: " + ErrorText(LeerAlta(datos).error)))
    ensures LeerAlta(datos).Ok? && LeerAlta(datos).value.Falta? ==>
      r == Respuesta(400, Mensaje("El campo '" + LeerAlta(datos).value.campo + "' es obligatorio"))
    ensures LeerAlta(datos).Ok? && LeerAlta(datos).value.Completa? ==>
      var a := LeerAlta(datos).value.alta;
      && (r.status == 200 <==> !Ocupado(old(db.usuarios), a.username, a.email))
      && (r.status == 200 ==> r.cuerpo == Mensaje("Usuario registrado exitosamente"))
      && (r.status != 200 ==> r == Respuesta(400, Mensaje("El usuario ya existe")))
      && db.usuarios == if r.status == 200
                        then old(db.usuarios) + [Fila(NuevoId(Ids(old(db.usuarios))), a.nombre, a.apellido, a.email, a.username,
                                                      a.password, Some(a.telefono), Some(a.fechaNacimiento), Some(a.ciudad))]
                        else old(db.usuarios)
    ensures !(LeerAlta(datos).Ok? && LeerAlta(datos).value.Completa?) ==> db.usuarios == old(db.usuarios)
  {
    var lectura := LeerAlta(datos);
    if lectura.Err? {
      return Respuesta(500, Mensaje("Error en registro: " + ErrorText(lectura.error)));
    }
    if lectura.value.Falta? {
      return Respuesta(400, Mensaje("El campo '" + lectura.value.campo + "' es obligatorio"));
    }
    var a := lectura.value.alta;
    var ok := db.RegistrarUsuario(a.nombre, a.apellido, a.email, a.username, a.password,
                                  Some(a.telefono), Some(a.fechaNacimiento), Some(a.ciudad));
    if ok {
      return Respuesta(200, Mensaje("Usuario registrado exitosamente"));
    }
    return Respuesta(400, Mensaje("El usuario ya existe"));
  }

  // ----- amigos -----

  /** The `obtener_amigos` endpoint: 400 without a username, otherwise the friends dictionary. */
  method ObtenerAmigos(db: Base, username: string) returns (r: Respuesta)
    ensures Strip(username) == "" ==> r == Respuesta(400, Mensaje("Se requiere el parámetro username"))
    ensures Strip(username) != "" ==> r == Respuesta(200, DatosAmigos(AmigosDe(db.usuarios, db.relaciones, Strip(username))))
  {
    var u := Strip(username);
    if u == "" {
      return Respuesta(400, Mensaje("Se requiere el parámetro username"));
    }
    var amigos := db.ObtenerAmigos(u);
    return Respuesta(200, DatosAmigos(amigos));
  }

  // ----- deletes -----

  /** The index of the first row linking the user to the route, `|rs|` when there is none. */
  function Primera(rs: seq<Relacion>, usuarioId: int, nombreRuta: string): (k: nat)
    ensures k <= |rs|
    ensures k < |rs| ==> rs[k].usuarioId == usuarioId && rs[k].nombreRuta == nombreRuta
    ensures forall j :: 0 <= j < k ==> rs[j].usuarioId != usuarioId || rs[j].nombreRuta != nombreRuta
    decreases |rs|
  {
    if rs == [] then 0
    else if rs[0].usuarioId == usuarioId && rs[0].nombreRuta == nombreRuta then 0
    else
      var k := 1 + Primera(rs[1..], usuarioId, nombreRuta);
      assert forall j :: 1 <= j < |rs| ==> rs[j] == rs[1..][j - 1];
      k
  }

  /** The association table after deleting the row `filter_by(...).first()` finds, if any. */
  function Quitar(rs: seq<Relacion>, usuarioId: int, nombreRuta: string): (r: seq<Relacion>)
    ensures forall i :: 0 <= i < |r| ==> r[i] in rs
    ensures |r| == if Tiene(rs, usuarioId, nombreRuta) then |rs| - 1 else |rs|
  {
    var k := Primera(rs, usuarioId, nombreRuta);
    if k < |rs| then
      var r := rs[..k] + rs[k + 1..];
      assert forall i :: 0 <= i < |r| ==> r[i] == rs[if i < k then i else i + 1];
      r
    else rs
  }

  /** Deleting a row keeps the row ids and the pairs unique. */
  lemma QuitarPares(rs: seq<Relacion>, usuarioId: int, nombreRuta: string)
    requires ParesUnicos(rs)
    ensures ParesUnicos(Quitar(rs, usuarioId, nombreRuta))
  {
    var k := Primera(rs, usuarioId, nombreRuta);
    var q := Quitar(rs, usuarioId, nombreRuta);
    if k < |rs| {
      forall i, j | 0 <= i < j < |q|
        ensures q[i].id != q[j].id && (q[i].usuarioId != q[j].usuarioId || q[i].nombreRuta != q[j].nombreRuta)
      {
        var a, b := if i < k then i else i + 1, if j < k then j else j + 1;
        assert q[i] == rs[a] && q[j] == rs[b];
      }
    }
  }

  /**
   * Without repeated pairs, deleting the association removes exactly that pair: every other
   * pair is still stored.
   */
  lemma QuitarExacto(rs: seq<Relacion>, usuarioId: int, nombreRuta: string, v: int, n: string)
    requires ParesUnicos(rs)
    ensures Tiene(Quitar(rs, usuarioId, nombreRuta), v, n) <==> Tiene(rs, v, n) && (v != usuarioId || n != nombreRuta)
  {
    if Primera(rs, usuarioId, nombreRuta) < |rs| {
      if Tiene(Quitar(rs, usuarioId, nombreRuta), v, n) {
        QuitarSolo(rs, usuarioId, nombreRuta, v, n);
      }
      if Tiene(rs, v, n) && (v != usuarioId || n != nombreRuta) {
        QuitarResto(rs, usuarioId, nombreRuta, v, n);
      }
    }
  }

  /** A pair still stored after the delete was stored before and is not the deleted one. */
  lemma QuitarSolo(rs: seq<Relacion>, usuarioId: int, nombreRuta: string, v: int, n: string)
    requires ParesUnicos(rs) && Primera(rs, usuarioId, nombreRuta) < |rs|
    requires Tiene(Quitar(rs, usuarioId, nombreRuta), v, n)
    ensures Tiene(rs, v, n) && (v != usuarioId || n != nombreRuta)
  {
    var k := Primera(rs, usuarioId, nombreRuta);
    var q := Quitar(rs, usuarioId, nombreRuta);
    var i :| 0 <= i < |q| && q[i].usuarioId == v && q[i].nombreRuta == n;
    var a := if i < k then i else i + 1;
    QuitarEn(rs, usuarioId, nombreRuta, i);
    assert rs[a].usuarioId == v && rs[a].nombreRuta == n;
    if a < k {
      assert rs[a].usuarioId != rs[k].usuarioId || rs[a].nombreRuta != rs[k].nombreRuta;
    } else {
      assert rs[k].usuarioId != rs[a].usuarioId || rs[k].nombreRuta != rs[a].nombreRuta;
    }
  }

  /** Every other stored pair survives the delete. */
  lemma QuitarResto(rs: seq<Relacion>, usuarioId: int, nombreRuta: string, v: int, n: string)
    requires Primera(rs, usuarioId, nombreRuta) < |rs|
    requires Tiene(rs, v, n) && (v != usuarioId || n != nombreRuta)
    ensures Tiene(Quitar(rs, usuarioId, nombreRuta), v, n)
  {
    var k := Primera(rs, usuarioId, nombreRuta);
    var a :| 0 <= a < |rs| && rs[a].usuarioId == v && rs[a].nombreRuta == n;
    assert a != k;
    var i := if a < k then a else a - 1;
    assert 0 <= i < |rs| - 1;
    QuitarEn(rs, usuarioId, nombreRuta, i);
    var q := Quitar(rs, usuarioId, nombreRuta);
    assert 0 <= i < |q| && q[i].usuarioId == v && q[i].nombreRuta == n;
  }

  /** After deleting row `k`, the rows from `k` on move down by one. */
  lemma QuitarEn(rs: seq<Relacion>, usuarioId: int, nombreRuta: string, i: int)
    requires Primera(rs, usuarioId, nombreRuta) < |rs| && 0 <= i < |rs| - 1
    ensures |Quitar(rs, usuarioId, nombreRuta)| == |rs| - 1
    ensures Quitar(rs, usuarioId, nombreRuta)[i] == rs[if i < Primera(rs, usuarioId, nombreRuta) then i else i + 1]
  {
  }

  /** Rows taken from a table with valid references keep valid references. */
  lemma ReferenciasSub(us: seq<Fila>, rs: seq<Relacion>, q: seq<Relacion>)
    requires Referencias(us, rs)
    requires forall i :: 0 <= i < |q| ==> q[i] in rs
    ensures Referencias(us, q)
  {
    forall i | 0 <= i < |q| ensures Existe(us, q[i].usuarioId) {
      assert q[i] in rs;
      var k :| 0 <= k < |rs| && rs[k] == q[i];
      assert Existe(us, rs[k].usuarioId);
    }
  }

  /**
   * `eliminar_ruta_usuario`: 404 for an unknown user or an association that is not stored;
   * otherwise the association row is deleted and the route's JSON, PDF and HTML files are
   * removed, and nothing else changes.
   */
  method EliminarRutaUsuario(db: Base, carpetas: MR.Carpetas, username: string, nombreRuta: string)
    returns (r: Respuesta)
    requires db.Valid()
    modifies db, carpetas
    ensures db.Valid() && db.usuarios == old(db.usuarios)
    ensures PorUsername(db.usuarios, username).None? ==>
      r == Respuesta(404, Mensaje("Usuario no encontrado"))
      && db.relaciones == old(db.relaciones) && carpetas.rutas == old(carpetas.rutas) && carpetas.estaticos == old(carpetas.estaticos)
    ensures PorUsername(db.usuarios, username).Some? && !Tiene(old(db.relaciones), PorUsername(db.usuarios, username).value.id, nombreRuta) ==>
      r == Respuesta(404, Mensaje("Ruta no encontrada para este usuario"))
      && db.relaciones == old(db.relaciones) && carpetas.rutas == old(carpetas.rutas) && carpetas.estaticos == old(carpetas.estaticos)
    ensures PorUsername(db.usuarios, username).Some? && Tiene(old(db.relaciones), PorUsername(db.usuarios, username).value.id, nombreRuta) ==>
      var uid := PorUsername(db.usuarios, username).value.id;
      && r == Respuesta(200, Mensaje("Ruta eliminada correctamente"))
      && db.relaciones == Quitar(old(db.relaciones), uid, nombreRuta)
      && |db.relaciones| == |old(db.relaciones)| - 1
      && (forall v, n :: Tiene(db.relaciones, v, n) <==> Tiene(old(db.relaciones), v, n) && (v != uid || n != nombreRuta))
      && carpetas.rutas == old(carpetas.rutas) - {nombreRuta}
      && carpetas.estaticos == old(carpetas.estaticos) - {R.RutaPdf(nombreRuta), R.RutaHtml(nombreRuta)}
  {
    var usuario := PorUsername(db.usuarios, username);
    if usuario.None? {
      return Respuesta(404, Mensaje("Usuario no encontrado"));
    }
    var uid := usuario.value.id;
    if !Tiene(db.relaciones, uid, nombreRuta) {
      return Respuesta(404, Mensaje("Ruta no encontrada para este usuario"));
    }
    carpetas.rutas := carpetas.rutas - {nombreRuta};
    carpetas.estaticos := carpetas.estaticos - {R.RutaPdf(nombreRuta), R.RutaHtml(nombreRuta)};
    QuitarPares(db.relaciones, uid, nombreRuta);
    forall v, n ensures Tiene(Quitar(db.relaciones, uid, nombreRuta), v, n) <==> Tiene(db.relaciones, v, n) && (v != uid || n != nombreRuta) {
      QuitarExacto(db.relaciones, uid, nombreRuta, v, n);
    }
    ReferenciasSub(db.usuarios, db.relaciones, Quitar(db.relaciones, uid, nombreRuta));
    db.relaciones := Quitar(db.relaciones, uid, nombreRuta);
    return Respuesta(200, Mensaje("Ruta eliminada correctamente"));
  }

  /** The association table without any row of the user. */
  function SinUsuario(rs: seq<Relacion>, usuarioId: int): (r: seq<Relacion>)
    ensures forall i :: 0 <= i < |r| ==> r[i] in rs && r[i].usuarioId != usuarioId
    ensures forall i :: 0 <= i < |rs| && rs[i].usuarioId != usuarioId ==> rs[i] in r
  {
    Filter(rs, DeOtro(usuarioId))
  }

  /** The rows that do not belong to the user. */
  function DeOtro(usuarioId: int): Relacion -> bool
  {
    (rel: Relacion) => rel.usuarioId != usuarioId
  }

  /** The rows of other users. */
  function OtraFila(id: int): Fila -> bool
  {
    (f: Fila) => f.id != id
  }

  /** The user table without the row with that id. */
  function SinFila(us: seq<Fila>, id: int): (r: seq<Fila>)
    ensures forall i :: 0 <= i < |r| ==> r[i] in us && r[i].id != id
    ensures forall i :: 0 <= i < |us| && us[i].id != id ==> us[i] in r
  {
    Filter(us, OtraFila(id))
  }

  /** Deleting a user with all their associations keeps keys and pairs unique and references valid. */
  lemma EliminarValido(us: seq<Fila>, rs: seq<Relacion>, id: int)
    requires Unicos(us) && ParesUnicos(rs) && Referencias(us, rs)
    ensures Unicos(SinFila(us, id)) && ParesUnicos(SinUsuario(rs, id)) && Referencias(SinFila(us, id), SinUsuario(rs, id))
  {
    FilterSubseq(us, OtraFila(id));
    FilterSubseq(rs, DeOtro(id));
    SubseqUnicos(SinFila(us, id), us);
    SubseqPares(SinUsuario(rs, id), rs);
    ReferenciasSin(us, rs, id);
  }

  /** The remaining associations name remaining users. */
  lemma ReferenciasSin(us: seq<Fila>, rs: seq<Relacion>, id: int)
    requires Referencias(us, rs)
    ensures Referencias(SinFila(us, id), SinUsuario(rs, id))
  {
    var us2, rs2 := SinFila(us, id), SinUsuario(rs, id);
    forall i | 0 <= i < |rs2| ensures Existe(us2, rs2[i].usuarioId) {
      assert rs2[i] in rs;
      var k :| 0 <= k < |rs| && rs[k] == rs2[i];
      assert Existe(us, rs[k].usuarioId);
      var j :| 0 <= j < |us| && us[j].id == rs[k].usuarioId;
      assert us[j] in us2;
      var j2 :| 0 <= j2 < |us2| && us2[j2] == us[j];
    }
  }

  /** Deleting rows keeps the keys unique. */
  lemma {:induction false} SubseqUnicos(a: seq<Fila>, b: seq<Fila>)
    requires Subseq(a, b) && Unicos(b)
    ensures Unicos(a)
    decreases |b|
  {
    if a != [] && b != [] {
      var bi := b[..|b| - 1];
      assert Unicos(bi) by {
        forall i, j | 0 <= i < j < |bi| ensures bi[i].id != bi[j].id && bi[i].username != bi[j].username && bi[i].email != bi[j].email {
          assert bi[i] == b[i] && bi[j] == b[j];
        }
      }
      if a[|a| - 1] == b[|b| - 1] {
        var ai := a[..|a| - 1];
        SubseqUnicos(ai, bi);
        SubseqElems(ai, bi);
        forall i, j | 0 <= i < j < |a| ensures a[i].id != a[j].id && a[i].username != a[j].username && a[i].email != a[j].email {
          if j == |a| - 1 {
            assert a[i] == ai[i];
            var k :| 0 <= k < |bi| && bi[k] == a[i];
            assert b[k] == a[i] && b[|b| - 1] == a[j];
          } else {
            assert a[i] == ai[i] && a[j] == ai[j];
          }
        }
      } else {
        SubseqUnicos(a, bi);
      }
    }
  }

  /** Deleting rows keeps the pairs unique. */
  lemma {:induction false} SubseqPares(a: seq<Relacion>, b: seq<Relacion>)
    requires Subseq(a, b) && ParesUnicos(b)
    ensures ParesUnicos(a)
    decreases |b|
  {
    if a != [] && b != [] {
      var bi := b[..|b| - 1];
      assert ParesUnicos(bi) by {
        forall i, j | 0 <= i < j < |bi|
          ensures bi[i].id != bi[j].id && (bi[i].usuarioId != bi[j].usuarioId || bi[i].nombreRuta != bi[j].nombreRuta)
        {
          assert bi[i] == b[i] && bi[j] == b[j];
        }
      }
      if a[|a| - 1] == b[|b| - 1] {
        var ai := a[..|a| - 1];
        SubseqPares(ai, bi);
        SubseqElems(ai, bi);
        forall i, j | 0 <= i < j < |a|
          ensures a[i].id != a[j].id && (a[i].usuarioId != a[j].usuarioId || a[i].nombreRuta != a[j].nombreRuta)
        {
          if j == |a| - 1 {
            assert a[i] == ai[i];
            var k :| 0 <= k < |bi| && bi[k] == a[i];
            assert b[k] == a[i] && b[|b| - 1] == a[j];
          } else {
            assert a[i] == ai[i] && a[j] == ai[j];
          }
        }
      } else {
        SubseqPares(a, bi);
      }
    }
  }

  /** Every element of a subsequence is an element of the sequence. */
  lemma {:induction false} SubseqElems<T>(a: seq<T>, b: seq<T>)
    requires Subseq(a, b)
    ensures forall i :: 0 <= i < |a| ==> a[i] in b
    decreases |b|
  {
    if a != [] && b != [] {
      var bi := b[..|b| - 1];
      if a[|a| - 1] == b[|b| - 1] {
        SubseqElems(a[..|a| - 1], bi);
        forall i | 0 <= i < |a| ensures a[i] in b {
          if i < |a| - 1 {
            assert a[i] == a[..|a| - 1][i];
            assert a[i] in bi;
          }
        }
      } else {
        SubseqElems(a, bi);
      }
    }
  }

  /** The loop of `eliminar_usuario` removing the file of each associated route. */
  method BorrarArchivos(carpetas: MR.Carpetas, nombres: seq<string>)
    modifies carpetas
    ensures carpetas.rutas == old(carpetas.rutas) - Conjunto(nombres)
    ensures carpetas.estaticos == old(carpetas.estaticos)
  {
    var i := 0;
    while i < |nombres|
      invariant 0 <= i <= |nombres|
      invariant carpetas.rutas == old(carpetas.rutas) - Conjunto(nombres[..i])
      invariant carpetas.estaticos == old(carpetas.estaticos)
    {
      assert Conjunto(nombres[..i + 1]) == Conjunto(nombres[..i]) + {nombres[i]} by {
        assert nombres[..i + 1] == nombres[..i] + [nombres[i]];
      }
      carpetas.rutas := carpetas.rutas - {nombres[i]};
      i := i + 1;
    }
    assert nombres[..i] == nombres;
  }

  /**
   * `eliminar_usuario`: a POST must carry `accion == "eliminar"` (400 otherwise); an unknown user
   * gives 404; otherwise every association of the user is deleted with its route file, then the
   * user's row.
   */
  method EliminarUsuario(db: Base, carpetas: MR.Carpetas, username: string, esPost: bool, datos: Record)
    returns (r: Respuesta)
    requires db.Valid()
    modifies db, carpetas
    ensures db.Valid()
    ensures esPost && (datos == map[] || Json.Get(datos, "accion", Json.Other) != Json.Str("eliminar")) ==>
      r == Respuesta(400, Mensaje("Acción no permitida"))
      && db.usuarios == old(db.usuarios) && db.relaciones == old(db.relaciones) && carpetas.rutas == old(carpetas.rutas)
    ensures r.status == 404 <==> !(esPost && (datos == map[] || Json.Get(datos, "accion", Json.Other) != Json.Str("eliminar")))
                                 && PorUsername(old(db.usuarios), username).None?
    ensures r.status == 404 ==> (r.cuerpo == Mensaje("Usuario no encontrado")
      && db.usuarios == old(db.usuarios) && db.relaciones == old(db.relaciones) && carpetas.rutas == old(carpetas.rutas))
    ensures r.status == 200 ==>
      var u := PorUsername(old(db.usuarios), username).value;
      && r.cuerpo == Mensaje("Usuario eliminado correctamente")
      && db.usuarios == SinFila(old(db.usuarios), u.id)
      && db.relaciones == SinUsuario(old(db.relaciones), u.id)
      && PorUsername(db.usuarios, username).None?
      && carpetas.rutas == old(carpetas.rutas) - Conjunto(NombresDe(old(db.relaciones), u.id))
    ensures r.status == 400 ==> esPost && (datos == map[] || Json.Get(datos, "accion", Json.Other) != Json.Str("eliminar"))
    ensures r.status in {200, 400, 404}
    ensures carpetas.estaticos == old(carpetas.estaticos)
  {
    if esPost && (datos == map[] || Json.Get(datos, "accion", Json.Other) != Json.Str("eliminar")) {
      return Respuesta(400, Mensaje("Acción no permitida"));
    }
    var usuario := PorUsername(db.usuarios, username);
    if usuario.None? {
      return Respuesta(404, Mensaje("Usuario no encontrado"));
    }
    var u := usuario.value;
    BorrarArchivos(carpetas, NombresDe(db.relaciones, u.id));
    EliminarValido(db.usuarios, db.relaciones, u.id);
    UnicoPorId(db.usuarios, u, username);
    db.relaciones := SinUsuario(db.relaciones, u.id);
    db.usuarios := SinFila(db.usuarios, u.id);
    return Respuesta(200, Mensaje("Usuario eliminado correctamente"));
  }

  /** The names in a list, as a set. */
  function Conjunto(s: seq<string>): (r: set<string>)
    ensures forall n :: n in r <==> n in s
  {
    set n | n in s
  }

  /** With unique keys, removing a user's row leaves no row with their username. */
  lemma UnicoPorId(us: seq<Fila>, u: Fila, username: string)
    requires Unicos(us) && u in us && u.username == username
    ensures PorUsername(SinFila(us, u.id), username).None?
  {
    var s := SinFila(us, u.id);
    forall i | 0 <= i < |s| ensures s[i].username != username {
      if s[i].username == username {
        MismaFila(us, s[i], u);
      }
    }
  }

  // ----- filtrar_rutas -----

  /** The query string: `max_km` and `max_horas` are None when absent or not a float. */
  datatype Consulta = Consulta(dificultad: Option<string>, maxKm: Option<real>, maxHoras: Option<real>,
                               modoTransporte: Option<string>)

  /** A text parameter counts when present and not empty. */
  predicate Dada(s: Option<string>) { s.Some? && s.value != "" }

  /** A numeric parameter counts when present and not zero. */
  predicate DadoNumero(x: Option<real>) { x.Some? && x.value != 0.0 }

  /** The four `if` statements of `filtrar_rutas`, each rebinding `rutas` from the full list. */
  function Filtrado(rutas: seq<Record>, c: Consulta, parseFloat: string -> Option<real>): Result<seq<Record>>
  {
    var r1 := if Dada(c.dificultad) then MR.PorCampo(rutas, "dificultad", c.dificultad.value) else Ok(rutas);
    var r2 := if r1.Err? || !DadoNumero(c.maxKm) then r1 else MR.Hasta(rutas, "distancia_km", c.maxKm.value, parseFloat);
    var r3 := if r2.Err? || !DadoNumero(c.maxHoras) then r2 else MR.Hasta(rutas, "duracion_horas", c.maxHoras.value, parseFloat);
    if r3.Err? || !Dada(c.modoTransporte) then r3 else MR.PorCampo(rutas, "modo", c.modoTransporte.value)
  }

  /**
   * `filtrar_rutas` over the routes loaded from the folder: 200 with the result, 400 with the
   * message of a ValueError, 500 for any other exception.
   */
  function FiltrarRutas(rutas: seq<Record>, c: Consulta, parseFloat: string -> Option<real>): (r: Respuesta)
    ensures r.status in {200, 400, 500}
    ensures r.status == 200 <==> Filtrado(rutas, c, parseFloat).Ok?
    ensures r.status == 400 <==> Filtrado(rutas, c, parseFloat).Err? && Filtrado(rutas, c, parseFloat).error.ValueError?
    ensures r.status == 400 ==> r.cuerpo == Mensaje(Filtrado(rutas, c, parseFloat).error.msg)
  {
    match Filtrado(rutas, c, parseFloat)
    case Ok(l) => Respuesta(200, DatosRutas(l))
    case Err(ValueError(m)) => Respuesta(400, Mensaje(m))
    case Err(e) => Respuesta(500, Mensaje("Error al filtrar rutas: " + ErrorText(e)))
  }

  /** The filter of the last parameter given, applied to the full list (the full list if none). */
  function Ultimo(rutas: seq<Record>, c: Consulta, parseFloat: string -> Option<real>): Result<seq<Record>>
  {
    if Dada(c.modoTransporte) then MR.PorCampo(rutas, "modo", c.modoTransporte.value)
    else if DadoNumero(c.maxHoras) then MR.Hasta(rutas, "duracion_horas", c.maxHoras.value, parseFloat)
    else if DadoNumero(c.maxKm) then MR.Hasta(rutas, "distancia_km", c.maxKm.value, parseFloat)
    else if Dada(c.dificultad) then MR.PorCampo(rutas, "dificultad", c.dificultad.value)
    else Ok(rutas)
  }

  /** Every filter given runs on the full list without raising. */
  predicate TodosSinFallo(rutas: seq<Record>, c: Consulta, parseFloat: string -> Option<real>)
  {
    && (Dada(c.dificultad) ==> MR.PorCampo(rutas, "dificultad", c.dificultad.value).Ok?)
    && (DadoNumero(c.maxKm) ==> MR.Hasta(rutas, "distancia_km", c.maxKm.value, parseFloat).Ok?)
    && (DadoNumero(c.maxHoras) ==> MR.Hasta(rutas, "duracion_horas", c.maxHoras.value, parseFloat).Ok?)
    && (Dada(c.modoTransporte) ==> MR.PorCampo(rutas, "modo", c.modoTransporte.value).Ok?)
  }

  /**
   * Last filter wins: the answer is 200 exactly when no filter given raises, and then its data
   * is the last given filter's result on the full list; the earlier filters only decide
   * whether it raises.
   */
  lemma UltimoGana(rutas: seq<Record>, c: Consulta, parseFloat: string -> Option<real>)
    ensures FiltrarRutas(rutas, c, parseFloat).status == 200 <==> TodosSinFallo(rutas, c, parseFloat)
    ensures FiltrarRutas(rutas, c, parseFloat).status == 200 ==>
      Ultimo(rutas, c, parseFloat).Ok? && FiltrarRutas(rutas, c, parseFloat).cuerpo == DatosRutas(Ultimo(rutas, c, parseFloat).value)
  {
    var d1 := MR.PorCampo(rutas, "dificultad", Valor(c.dificultad));
    var d2 := MR.Hasta(rutas, "distancia_km", Numero(c.maxKm), parseFloat);
    var d3 := MR.Hasta(rutas, "duracion_horas", Numero(c.maxHoras), parseFloat);
    var d4 := MR.PorCampo(rutas, "modo", Valor(c.modoTransporte));
    Encadenados(rutas, d1, d2, d3, d4, Dada(c.dificultad), DadoNumero(c.maxKm), DadoNumero(c.maxHoras), Dada(c.modoTransporte));
    var f := Filtrado(rutas, c, parseFloat);
    assert f.Ok? ==> FiltrarRutas(rutas, c, parseFloat).cuerpo == DatosRutas(f.value);
  }

  function Valor(s: Option<string>): string { if s.Some? then s.value else "" }

  function Numero(x: Option<real>): real { if x.Some? then x.value else 0.0 }

  /** Four `if` statements rebinding one result: it succeeds iff every one that runs does, and then the last one decides. */
  lemma Encadenados(rutas: seq<Record>, d1: Result<seq<Record>>, d2: Result<seq<Record>>, d3: Result<seq<Record>>,
                    d4: Result<seq<Record>>, g1: bool, g2: bool, g3: bool, g4: bool)
    ensures var r1 := if g1 then d1 else Ok(rutas);
            var r2 := if r1.Err? || !g2 then r1 else d2;
            var r3 := if r2.Err? || !g3 then r2 else d3;
            var r4 := if r3.Err? || !g4 then r3 else d4;
            && (r4.Ok? <==> (g1 ==> d1.Ok?) && (g2 ==> d2.Ok?) && (g3 ==> d3.Ok?) && (g4 ==> d4.Ok?))
            && (r4.Ok? ==> r4 == if g4 then d4 else if g3 then d3 else if g2 then d2 else if g1 then d1 else Ok(rutas))
  {
  }

  /** With a mode given and no filter raising, the answer is exactly the routes of that mode. */
  lemma FiltrarPorModo(rutas: seq<Record>, c: Consulta, parseFloat: string -> Option<real>)
    requires Dada(c.modoTransporte) && TodosSinFallo(rutas, c, parseFloat)
    ensures var r := FiltrarRutas(rutas, c, parseFloat);
      r.status == 200 && r.cuerpo.DatosRutas? && Subseq(r.cuerpo.rutas, rutas)
      && (forall i :: 0 <= i < |rutas| ==>
            (rutas[i] in r.cuerpo.rutas <==> MR.Igual(rutas[i], "modo", c.modoTransporte.value)))
      && (forall y :: Ocurrencias(r.cuerpo.rutas, y) ==
            if MR.Igual(y, "modo", c.modoTransporte.value) then Ocurrencias(rutas, y) else 0)
  {
    UltimoGana(rutas, c, parseFloat);
  }

  // ----- route creation -----

  /** A `username` that is present and not empty, as `if ruta and datos.get('username')` tests it. */
  predicate Verdadero(s: Option<string>) { s.Some? && s.value != "" }

  /**
   * `crear_ruta`: a missing `origen` or `destino` raises KeyError (500); otherwise the route is
   * created and written, and with a username it is associated to that user through
   * `agregar_ruta`, whose answer is ignored.
   */
  method CrearRuta(db: Base, carpetas: MR.Carpetas, origen: Option<MR.Lugar>, puntosIntermedios: Option<seq<MR.Lugar>>,
                   destino: Option<MR.Lugar>, modo: Option<string>, nombre: Option<string>, username: Option<string>,
                   ahora: Fechas.DateTime)
    returns (r: Respuesta)
    requires db.Valid()
    modifies db, carpetas
    ensures db.Valid() && db.usuarios == old(db.usuarios)
    ensures origen.None? ==> r == Respuesta(500, Mensaje("Error al crear ruta: " + ErrorText(KeyError("origen"))))
    ensures origen.Some? && destino.None? ==> r == Respuesta(500, Mensaje("Error al crear ruta: " + ErrorText(KeyError("destino"))))
    ensures r.status == 500 ==> db.relaciones == old(db.relaciones) && carpetas.rutas == old(carpetas.rutas)
    ensures origen.Some? && destino.Some? ==>
      var ruta := MR.RutaDesdeDatos(origen.value, destino.value, if modo.Some? then modo.value else "walk",
                                    nombre, puntosIntermedios, username, ahora);
      && r == Respuesta(200, DatosRuta(ruta))
      && carpetas.rutas == old(carpetas.rutas)[ruta.nombre := MR.Registro(ruta)]
      && db.relaciones == if Verdadero(username) && PorUsername(db.usuarios, username.value).Some?
                          then ConRuta(old(db.relaciones), PorUsername(db.usuarios, username.value).value.id,
                                       ruta.nombre, Fechas.Strftime(ahora))
                          else old(db.relaciones)
    ensures carpetas.estaticos == old(carpetas.estaticos)
  {
    if origen.None? {
      return Respuesta(500, Mensaje("Error al crear ruta: " + ErrorText(KeyError("origen"))));
    }
    if destino.None? {
      return Respuesta(500, Mensaje("Error al crear ruta: " + ErrorText(KeyError("destino"))));
    }
    var m := if modo.Some? then modo.value else "walk";
    var ruta := MR.CrearRutaDesdeDatos(carpetas, origen.value, destino.value, m, nombre, puntosIntermedios, username, ahora);
    if Verdadero(username) {
      var _ := db.AgregarRuta(username.value, ruta.nombre, ahora);
    }
    return Respuesta(200, DatosRuta(ruta));
  }

  /** The name `crear_rutas_automaticas` takes from a message: the text between the first two quotes. */
  function NombreDeMensaje(mensaje: string): Result<string>
  {
    var partes := SplitOn(mensaje, '\'');
    if |partes| < 2 then Err(ValueError("list index out of range")) else Ok(partes[1])
  }

  /** Every message `RutaAuto` writes for a route gives that route's name back. */
  lemma NombreDeMensajeAuto(ahora: Fechas.DateTime, i: nat)
    ensures IsInfix("creada", MR.MensajeAuto(MR.NombreAuto(ahora, i)))
    ensures NombreDeMensaje(MR.MensajeAuto(MR.NombreAuto(ahora, i))) == Ok(MR.NombreAuto(ahora, i))
  {
    MR.NombreAutoSinComilla(ahora, i);
    MR.RecuperarNombre(MR.NombreAuto(ahora, i));
  }

  /** Each message contains "creada" and names the route created with it. */
  predicate Nombran(mensajes: seq<string>, creadas: seq<MR.RutaCreada>)
  {
    |mensajes| == |creadas|
    && forall j :: 0 <= j < |mensajes| ==> IsInfix("creada", mensajes[j]) && NombreDeMensaje(mensajes[j]) == Ok(creadas[j].nombre)
  }

  /** Every message containing "creada" has a name between quotes. */
  predicate Legibles(mensajes: seq<string>)
  {
    forall i :: 0 <= i < |mensajes| && IsInfix("creada", mensajes[i]) ==> NombreDeMensaje(mensajes[i]).Ok?
  }

  /** No message contains "creada". */
  predicate SinCreada(mensajes: seq<string>)
  {
    forall i :: 0 <= i < |mensajes| ==> !IsInfix("creada", mensajes[i])
  }

  /** The warning for too few addresses names no route. */
  lemma AvisoSinCreada()
    ensures SinCreada([MR.FaltanDirecciones]) && Legibles([MR.FaltanDirecciones])
  {
    MR.FaltanSinCreada();
  }

  /** The messages of `generar_rutas_desde_direcciones` name the routes it created, in order. */
  lemma MensajesNombran(direcciones: seq<string>, n: nat, ahora: Fechas.DateTime)
    requires n < |direcciones|
    ensures Nombran(MR.MensajesAuto(ahora, n), MR.Tramos(direcciones, n, ahora))
    ensures Legibles(MR.MensajesAuto(ahora, n))
  {
    var ms, cs := MR.MensajesAuto(ahora, n), MR.Tramos(direcciones, n, ahora);
    forall j | 0 <= j < |ms| ensures IsInfix("creada", ms[j]) && NombreDeMensaje(ms[j]) == Ok(cs[j].nombre) {
      NombreDeMensajeAuto(ahora, j);
    }
  }

  /** When the messages name the routes, associating each message's name associates every route. */
  lemma NombranAsociadas(mensajes: seq<string>, creadas: seq<MR.RutaCreada>, rs: seq<Relacion>, usuarioId: int)
    requires Nombran(mensajes, creadas)
    requires forall i :: 0 <= i < |mensajes| && IsInfix("creada", mensajes[i]) && NombreDeMensaje(mensajes[i]).Ok? ==>
      Tiene(rs, usuarioId, NombreDeMensaje(mensajes[i]).value)
    ensures Legibles(mensajes)
    ensures forall j :: 0 <= j < |creadas| ==> Tiene(rs, usuarioId, creadas[j].nombre)
  {
    forall j | 0 <= j < |creadas| ensures Tiene(rs, usuarioId, creadas[j].nombre) {
      assert IsInfix("creada", mensajes[j]) && NombreDeMensaje(mensajes[j]) == Ok(creadas[j].nombre);
    }
  }

  /** The position of the first message containing "creada" with no name to read, or the length when there is none. */
  function PrimeraIlegible(mensajes: seq<string>): (k: nat)
    ensures k <= |mensajes|
    ensures forall j :: 0 <= j < k && IsInfix("creada", mensajes[j]) ==> NombreDeMensaje(mensajes[j]).Ok?
    ensures k < |mensajes| ==> IsInfix("creada", mensajes[k]) && NombreDeMensaje(mensajes[k]).Err?
    ensures k == |mensajes| <==> Legibles(mensajes)
    decreases |mensajes|
  {
    if mensajes == [] then 0
    else if IsInfix("creada", mensajes[0]) && NombreDeMensaje(mensajes[0]).Err? then 0
    else
      var k := PrimeraIlegible(mensajes[1..]);
      assert forall j :: 1 <= j < |mensajes| ==> mensajes[j] == mensajes[1..][j - 1];
      1 + k
  }

  /** Some message before position `k` contains "creada" and names the route `m`. */
  ghost predicate Nombrado(mensajes: seq<string>, k: nat, m: string)
    requires k <= |mensajes|
  {
    exists j :: 0 <= j < k && IsInfix("creada", mensajes[j]) && NombreDeMensaje(mensajes[j]) == Ok(m)
  }

  /**
   * The pairs of `rs` are those of `antes` plus, for a known user, that user with each route
   * named by a message before position `k`.
   */
  ghost predicate Exactos(rs: seq<Relacion>, antes: seq<Relacion>, usuario: Option<Fila>, mensajes: seq<string>, k: nat)
    requires k <= |mensajes|
  {
    forall v, m :: Tiene(rs, v, m) <==> Tiene(antes, v, m) || (usuario.Some? && v == usuario.value.id && Nombrado(mensajes, k, m))
  }

  /** One message of the loop: its route, when it names one for a known user, is the only pair added. */
  lemma ExactosPaso(antes: seq<Relacion>, despues: seq<Relacion>, base: seq<Relacion>, usuario: Option<Fila>,
                    mensajes: seq<string>, i: nat)
    requires i < |mensajes| && Exactos(antes, base, usuario, mensajes, i)
    requires usuario.Some? && IsInfix("creada", mensajes[i]) && NombreDeMensaje(mensajes[i]).Ok? ==>
      forall v, m :: Tiene(despues, v, m) <==> Tiene(antes, v, m) || (v == usuario.value.id && m == NombreDeMensaje(mensajes[i]).value)
    requires !(usuario.Some? && IsInfix("creada", mensajes[i]) && NombreDeMensaje(mensajes[i]).Ok?) ==> despues == antes
    ensures Exactos(despues, base, usuario, mensajes, i + 1)
  {
    forall m
      ensures Nombrado(mensajes, i + 1, m) <==>
        Nombrado(mensajes, i, m) || (IsInfix("creada", mensajes[i]) && NombreDeMensaje(mensajes[i]) == Ok(m))
    {
      if Nombrado(mensajes, i + 1, m) && !Nombrado(mensajes, i, m) {
        var j :| 0 <= j < i + 1 && IsInfix("creada", mensajes[j]) && NombreDeMensaje(mensajes[j]) == Ok(m);
        assert j == i;
      }
    }
  }

  /** When the messages name the created routes, the routes they name are exactly the created ones. */
  lemma NombradoCreadas(mensajes: seq<string>, creadas: seq<MR.RutaCreada>)
    requires Nombran(mensajes, creadas)
    ensures PrimeraIlegible(mensajes) == |mensajes|
    ensures forall m :: Nombrado(mensajes, |mensajes|, m) <==> exists j :: 0 <= j < |creadas| && creadas[j].nombre == m
  {
    assert Legibles(mensajes);
    forall m, j | 0 <= j < |creadas| && creadas[j].nombre == m
      ensures Nombrado(mensajes, |mensajes|, m)
    {
      assert IsInfix("creada", mensajes[j]) && NombreDeMensaje(mensajes[j]) == Ok(m);
    }
    forall m | Nombrado(mensajes, |mensajes|, m)
      ensures exists j :: 0 <= j < |creadas| && creadas[j].nombre == m
    {
      var j :| 0 <= j < |mensajes| && IsInfix("creada", mensajes[j]) && NombreDeMensaje(mensajes[j]) == Ok(m);
      assert creadas[j].nombre == m;
    }
  }

  /**
   * The loop of `crear_rutas_automaticas` over the messages: for every message containing
   * "creada", the name between its first two quotes is associated to the user. A message with
   * no quote raises IndexError, which ends the loop: the routes named before it stay associated.
   */
  method AsociarMensajes(db: Base, mensajes: seq<string>, username: string, ahora: Fechas.DateTime)
    returns (fallo: Option<Error>)
    requires db.Valid()
    modifies db
    ensures db.Valid() && db.usuarios == old(db.usuarios)
    ensures fallo.None? <==> Legibles(mensajes)
    ensures fallo.Some? ==> PrimeraIlegible(mensajes) < |mensajes|
                            && fallo.value == NombreDeMensaje(mensajes[PrimeraIlegible(mensajes)]).error
    ensures var u := PorUsername(db.usuarios, username);
      forall v, m :: Tiene(db.relaciones, v, m) <==>
        Tiene(old(db.relaciones), v, m) || (u.Some? && v == u.value.id && Nombrado(mensajes, PrimeraIlegible(mensajes), m))
    ensures PorUsername(db.usuarios, username).None? || SinCreada(mensajes) ==> db.relaciones == old(db.relaciones)
    ensures fallo.None? && PorUsername(db.usuarios, username).Some? ==>
      forall i :: 0 <= i < |mensajes| && IsInfix("creada", mensajes[i]) && NombreDeMensaje(mensajes[i]).Ok? ==>
        Tiene(db.relaciones, PorUsername(db.usuarios, username).value.id, NombreDeMensaje(mensajes[i]).value)
  {
    var usuario := PorUsername(db.usuarios, username);
    var i := 0;
    while i < |mensajes|
      invariant 0 <= i <= |mensajes|
      invariant db.Valid() && db.usuarios == old(db.usuarios)
      invariant Exactos(db.relaciones, old(db.relaciones), usuario, mensajes, i)
      invariant usuario.None? || SinCreada(mensajes) ==> db.relaciones == old(db.relaciones)
      invariant forall j :: 0 <= j < i && IsInfix("creada", mensajes[j]) ==> NombreDeMensaje(mensajes[j]).Ok?
    {
      ghost var antes := db.relaciones;
      if IsInfix("creada", mensajes[i]) {
        var nombre := NombreDeMensaje(mensajes[i]);
        if nombre.Err? {
          assert PrimeraIlegible(mensajes) == i;
          return Some(nombre.error);
        }
        var _ := db.AgregarRuta(username, nombre.value, ahora);
      }
      ExactosPaso(antes, db.relaciones, old(db.relaciones), usuario, mensajes, i);
      i := i + 1;
    }
    if usuario.Some? {
      forall j | 0 <= j < |mensajes| && IsInfix("creada", mensajes[j]) && NombreDeMensaje(mensajes[j]).Ok?
        ensures Tiene(db.relaciones, usuario.value.id, NombreDeMensaje(mensajes[j]).value)
      {
        assert Nombrado(mensajes, i, NombreDeMensaje(mensajes[j]).value);
      }
    }
    return None;
  }

  /**
   * `crear_rutas_automaticas`: a missing `direcciones` raises KeyError (500). Otherwise the
   * routes are generated and, with a username, each one is associated to the user through the
   * name recovered from its message. With fewer than two addresses the answer is the error
   * list and no association is made.
   */
  method CrearRutasAutomaticas(db: Base, carpetas: MR.Carpetas, direcciones: Option<seq<string>>, cantidad: int,
                               username: Option<string>, ahora: Fechas.DateTime)
    returns (r: Respuesta, creadas: seq<MR.RutaCreada>)
    requires db.Valid()
    modifies db, carpetas
    ensures db.Valid() && db.usuarios == old(db.usuarios)
    ensures direcciones.None? ==>
      r == Respuesta(500, Mensaje("Error al crear rutas automáticas: " + ErrorText(KeyError("direcciones"))))
      && creadas == [] && db.relaciones == old(db.relaciones) && carpetas.rutas == old(carpetas.rutas)
    ensures direcciones.Some? && |direcciones.value| < 2 ==>
      r == Respuesta(200, DatosMensajes([MR.FaltanDirecciones])) && creadas == [] && db.relaciones == old(db.relaciones)
      && carpetas.rutas == old(carpetas.rutas)
    ensures carpetas.rutas == MR.Escritas(old(carpetas.rutas), creadas)
    ensures direcciones.Some? && |direcciones.value| >= 2 ==>
      var n := MR.Cuantas(cantidad, |direcciones.value|);
      && r == Respuesta(200, DatosMensajes(MR.MensajesAuto(ahora, n)))
      && creadas == MR.Tramos(direcciones.value, n, ahora)
      && carpetas.rutas == MR.Escritas(old(carpetas.rutas), creadas)
      && (forall v, m :: Tiene(db.relaciones, v, m) <==>
            || Tiene(old(db.relaciones), v, m)
            || (&& Verdadero(username) && PorUsername(db.usuarios, username.value).Some?
                && v == PorUsername(db.usuarios, username.value).value.id
                && exists j :: 0 <= j < |creadas| && creadas[j].nombre == m))
      && (Verdadero(username) && PorUsername(db.usuarios, username.value).Some? ==>
            forall j :: 0 <= j < |creadas| ==> Tiene(db.relaciones, PorUsername(db.usuarios, username.value).value.id, creadas[j].nombre))
    ensures !Verdadero(username) || PorUsername(db.usuarios, username.value).None? ==> db.relaciones == old(db.relaciones)
    ensures carpetas.estaticos == old(carpetas.estaticos)
  {
    if direcciones.None? {
      return Respuesta(500, Mensaje("Error al crear rutas automáticas: " + ErrorText(KeyError("direcciones")))), [];
    }
    var mensajes;
    mensajes, creadas := MR.GenerarRutasDesdeDirecciones(carpetas, direcciones.value, cantidad, ahora);
    var fallo := None;
    if |direcciones.value| < 2 {
      AvisoSinCreada();
      if Verdadero(username) {
        fallo := AsociarMensajes(db, mensajes, username.value, ahora);
      }
    } else {
      MensajesNombran(direcciones.value, MR.Cuantas(cantidad, |direcciones.value|), ahora);
      if mensajes != [] && Verdadero(username) {
        fallo := AsociarCreadas(db, mensajes, creadas, username.value, ahora);
      }
    }
    r := match fallo
         case Some(e) => Respuesta(500, Mensaje("Error al crear rutas automáticas: " + ErrorText(e)))
         case None => Respuesta(200, DatosMensajes(mensajes));
  }

  /** The association step once the messages name the created routes: it cannot fail and covers every route. */
  method AsociarCreadas(db: Base, mensajes: seq<string>, creadas: seq<MR.RutaCreada>, username: string,
                        ahora: Fechas.DateTime)
    returns (fallo: Option<Error>)
    requires db.Valid() && Nombran(mensajes, creadas) && Legibles(mensajes)
    modifies db
    ensures db.Valid() && db.usuarios == old(db.usuarios) && fallo.None?
    ensures var u := PorUsername(db.usuarios, username);
      forall v, m :: Tiene(db.relaciones, v, m) <==>
        Tiene(old(db.relaciones), v, m) || (u.Some? && v == u.value.id && exists j :: 0 <= j < |creadas| && creadas[j].nombre == m)
    ensures PorUsername(db.usuarios, username).None? ==> db.relaciones == old(db.relaciones)
    ensures PorUsername(db.usuarios, username).Some? ==>
      forall j :: 0 <= j < |creadas| ==> Tiene(db.relaciones, PorUsername(db.usuarios, username).value.id, creadas[j].nombre)
  {
    fallo := AsociarMensajes(db, mensajes, username, ahora);
    NombradoCreadas(mensajes, creadas);
    if PorUsername(db.usuarios, username).Some? {
      NombranAsociadas(mensajes, creadas, db.relaciones, PorUsername(db.usuarios, username).value.id);
    }
  }
}
