/**
 * The HTTP handlers over the user registry: registration, login, a user's routes, the routes two
 * users share, and the users one shares routes with. A handler is a function from the loaded
 * user list (or a method on the store) to a status and a JSON payload.
 */
module ApiUsuarios {
  import opened Wrappers
  import opened Fechas
  import opened Usuario

  datatype Cuerpo =
    | Mensaje(mensaje: string)
    | Fallo(error: string)                               // {"error": ...}
    | Sesion(mensaje: string, usuario: string)
    | Rutas(rutas: seq<string>)
    | RutasComunes(comunes: set<string>)                 // a list built from a set: order unspecified
    | AmigosComunes(amigos: map<string, set<string>>)
    | Excepcion(e: Error)                                // uncaught: the framework's error page

  datatype Respuesta = Respuesta(status: int, cuerpo: Cuerpo)

  /** The routes of a record as a set, a missing list counting as empty (`.get("rutas", [])`). */
  function RutasSet(r: Registro): set<string>
  {
    if r.rutas.Some? then set x | x in r.rutas.value else {}
  }

  /** `registro`: 400 exactly when the username is already taken. */
  method Registrar(almacen: Almacen, nombre: string, apellido: string, email: string, username: string,
                   telefono: string, fechaNacimiento: string, ciudad: string, password: string, ahora: DateTime)
    returns (r: Respuesta)
    modifies almacen
    ensures var cargados := CargarDe(old(almacen.archivo));
      && (cargados.Err? ==> r == Respuesta(500, Excepcion(cargados.error)) && almacen.archivo == old(almacen.archivo))
      && (cargados.Ok? ==> (r.status == 400 <==> username in Nombres(cargados.value)))
      && (cargados.Ok? && username in Nombres(cargados.value) ==>
            r == Respuesta(400, Fallo("El nombre de usuario ya existe")) && almacen.archivo == old(almacen.archivo))
      && (cargados.Ok? && username !in Nombres(cargados.value) ==>
            r == Respuesta(200, Mensaje("Usuario registrado correctamente"))
            && almacen.archivo == Some(Serializar(cargados.value + [Nuevo(nombre, apellido, email, username, telefono,
                                                                          fechaNacimiento, ciudad, password, ahora)])))
  {
    var exito := almacen.RegistrarUsuario(nombre, apellido, email, username, telefono, fechaNacimiento, ciudad, password, ahora);
    if exito.Err? {
      return Respuesta(500, Excepcion(exito.error));
    }
    if exito.value {
      return Respuesta(200, Mensaje("Usuario registrado correctamente"));
    }
    return Respuesta(400, Fallo("El nombre de usuario ya existe"));
  }

  /** `login`: 401 exactly when no record has both the username and the password. */
  method Login(almacen: Almacen, username: string, password: string, ahora: DateTime) returns (r: Respuesta)
    ensures var cargados := CargarDe(almacen.archivo);
      && (cargados.Err? ==> r == Respuesta(500, Excepcion(cargados.error)))
      && (cargados.Ok? ==> (r.status == 401 <==> PrimeraSesion(cargados.value, username, password).None?))
      && (cargados.Ok? && r.status == 401 ==> r.cuerpo == Fallo("Credenciales incorrectas"))
      && (cargados.Ok? && r.status != 401 ==> r == Respuesta(200, Sesion("Login correcto", username)))
  {
    var u := almacen.IniciarSesion(username, password, ahora);
    if u.Err? {
      return Respuesta(500, Excepcion(u.error));
    }
    if u.value.None? {
      return Respuesta(401, Fallo("Credenciales incorrectas"));
    }
    return Respuesta(200, Sesion("Login correcto", u.value.value.username));
  }

  /** `obtener_rutas_usuario`: the routes of the first record with the username, or 404. */
  function ObtenerRutasUsuario(us: seq<Registro>, username: string): (r: Respuesta)
    ensures r.status in {200, 404, 500}
    ensures r.status == 404 <==> username !in Nombres(us)
    ensures r.status == 404 ==> r.cuerpo == Fallo("Usuario no encontrado")
    ensures r.status == 200 <==> Primero(us, username).Some? && us[Primero(us, username).value].rutas.Some?
    ensures r.status == 200 ==> r.cuerpo == Rutas(us[Primero(us, username).value].rutas.value)
    ensures r.status == 500 ==> r.cuerpo == Excepcion(KeyError("rutas"))
  {
    match Primero(us, username)
    case None => Respuesta(404, Fallo("Usuario no encontrado"))
    case Some(k) =>
      if us[k].rutas.Some? then Respuesta(200, Rutas(us[k].rutas.value))
      else Respuesta(500, Excepcion(KeyError("rutas")))
  }

  /** The position of the last record with the username. */
  function Ultimo(us: seq<Registro>, username: string): (r: Option<nat>)
    ensures r.Some? ==> r.value < |us| && us[r.value].username == username
    ensures r.Some? ==> forall k :: r.value < k < |us| ==> us[k].username != username
    ensures r.None? <==> username !in Nombres(us)
    decreases |us|
  {
    if us == [] then None
    else if us[|us| - 1].username == username then Some(|us| - 1)
    else
      var init := us[..|us| - 1];
      assert forall k :: 0 <= k < |init| ==> init[k] == us[k];
      assert Nombres(us) == Nombres(init) + {us[|us| - 1].username};
      Ultimo(init, username)
  }

  /** The last record with the username, if any. */
  function Visto(us: seq<Registro>, username: string): Option<Registro>
    decreases |us|
  {
    if us == [] then None
    else if us[|us| - 1].username == username then Some(us[|us| - 1])
    else Visto(us[..|us| - 1], username)
  }

  /** The record found is the one at the last position `Ultimo` gives. */
  lemma {:induction false} VistoUltimo(us: seq<Registro>, username: string)
    ensures Visto(us, username) == match Ultimo(us, username) case Some(k) => Some(us[k]) case None => None
    decreases |us|
  {
    if us != [] && us[|us| - 1].username != username {
      var init := us[..|us| - 1];
      VistoUltimo(init, username);
      assert forall k :: 0 <= k < |init| ==> init[k] == us[k];
    }
  }

  /** What `rutas_comunes` answers, given the last records found for the two names. */
  function ComunesDe(us: seq<Registro>, username1: string, username2: string): (r: Respuesta)
    ensures r.status == 404 <==> username1 !in Nombres(us) || username2 !in Nombres(us)
    ensures r.status == 200 <==>
      && username1 in Nombres(us) && username2 in Nombres(us)
      && us[Ultimo(us, username1).value].rutas.Some? && us[Ultimo(us, username2).value].rutas.Some?
    ensures r.status == 200 ==>
      var a, b := us[Ultimo(us, username1).value], us[Ultimo(us, username2).value];
      r.cuerpo == RutasComunes(RutasSet(a) * RutasSet(b))
    ensures r.status != 200 && r.status != 404 ==> r == Respuesta(500, Excepcion(KeyError("rutas")))
  {
    VistoUltimo(us, username1);
    VistoUltimo(us, username2);
    var a, b := Visto(us, username1), Visto(us, username2);
    if a.None? || b.None? then Respuesta(404, Fallo("Uno de los usuarios no existe"))
    else if a.value.rutas.None? || b.value.rutas.None? then Respuesta(500, Excepcion(KeyError("rutas")))
    else Respuesta(200, RutasComunes(RutasSet(a.value) * RutasSet(b.value)))
  }

  /** The shared routes do not depend on the order of the two names. */
  lemma ComunesSimetrico(us: seq<Registro>, username1: string, username2: string)
    ensures ComunesDe(us, username1, username2).status == ComunesDe(us, username2, username1).status
    ensures ComunesDe(us, username1, username2) == ComunesDe(us, username2, username1)
  {
    var a, b := Visto(us, username1), Visto(us, username2);
    if a.Some? && b.Some? && a.value.rutas.Some? && b.value.rutas.Some? {
      assert RutasSet(a.value) * RutasSet(b.value) == RutasSet(b.value) * RutasSet(a.value);
    }
  }

  /** One more record scanned replaces the one found before when its name matches. */
  lemma VistoPaso(us: seq<Registro>, i: nat, username: string)
    requires i < |us|
    ensures Visto(us[..i + 1], username) == if us[i].username == username then Some(us[i]) else Visto(us[..i], username)
  {
    assert us[..i + 1][..i] == us[..i];
  }

  /** `rutas_comunes`: one pass over all records, each match replacing the one found before. */
  method RutasComunesHandler(us: seq<Registro>, username1: string, username2: string) returns (r: Respuesta)
    ensures r == ComunesDe(us, username1, username2)
  {
    var usuario1: Option<Registro> := None;
    var usuario2: Option<Registro> := None;
    var i := 0;
    while i < |us|
      invariant 0 <= i <= |us|
      invariant usuario1 == Visto(us[..i], username1)
      invariant usuario2 == Visto(us[..i], username2)
    {
      VistoPaso(us, i, username1);
      VistoPaso(us, i, username2);
      if us[i].username == username1 {
        usuario1 := Some(us[i]);
      }
      if us[i].username == username2 {
        usuario2 := Some(us[i]);
      }
      i := i + 1;
    }
    assert us[..i] == us;
    if usuario1.None? || usuario2.None? {
      return Respuesta(404, Fallo("Uno de los usuarios no existe"));
    }
    if usuario1.value.rutas.None? || usuario2.value.rutas.None? {
      return Respuesta(500, Excepcion(KeyError("rutas")));
    }
    return Respuesta(200, RutasComunes(RutasSet(usuario1.value) * RutasSet(usuario2.value)));
  }

  /** The dictionary `amigos_con_rutas_comunes` builds from the records, given the user's routes. */
  function AmigosDe(us: seq<Registro>, username: string, propias: set<string>): (m: map<string, set<string>>)
    ensures username !in m
    ensures forall v :: v in m ==> m[v] != {} && m[v] <= propias
    ensures forall v :: v in m <==> exists k :: 0 <= k < |us| && us[k].username == v && v != username && propias * RutasSet(us[k]) != {}
    decreases |us|
  {
    if us == [] then map[]
    else
      var init := us[..|us| - 1];
      var u := us[|us| - 1];
      var m := AmigosDe(init, username, propias);
      assert forall k :: 0 <= k < |init| ==> init[k] == us[k];
      var comunes := propias * RutasSet(u);
      if u.username == username || comunes == {} then m else m[u.username := comunes]
  }

  /** With unique usernames each entry is exactly the intersection of the two route sets. */
  lemma {:induction false} AmigosDeExacto(us: seq<Registro>, username: string, propias: set<string>, k: nat)
    requires Unicos(us) && k < |us| && us[k].username != username && propias * RutasSet(us[k]) != {}
    ensures us[k].username in AmigosDe(us, username, propias)
    ensures AmigosDe(us, username, propias)[us[k].username] == propias * RutasSet(us[k])
    decreases |us|
  {
    var init := us[..|us| - 1];
    if k < |us| - 1 {
      assert forall a :: 0 <= a < |init| ==> init[a] == us[a];
      assert Unicos(init);
      AmigosDeExacto(init, username, propias, k);
      assert us[|us| - 1].username != us[k].username;
    }
  }

  /**
   * `amigos_con_rutas_comunes`: 404 for an unknown user; otherwise, for every other username,
   * the routes it shares with the first record of the user, when there are any.
   */
  method AmigosConRutasComunes(us: seq<Registro>, username: string) returns (r: Respuesta)
    ensures r.status == 404 <==> username !in Nombres(us)
    ensures r.status != 404 ==>
      r == Respuesta(200, AmigosComunes(AmigosDe(us, username, RutasSet(us[Primero(us, username).value]))))
  {
    var principal: Option<Registro> := None;
    var i := 0;
    while i < |us|
      invariant 0 <= i <= |us|
      invariant forall k :: 0 <= k < i ==> us[k].username != username
    {
      if us[i].username == username {
        principal := Some(us[i]);
        break;
      }
      i := i + 1;
    }
    if principal.None? {
      assert username !in Nombres(us);
      return Respuesta(404, Fallo("Usuario no encontrado"));
    }
    assert Primero(us, username) == Some(i);
    var propias := RutasSet(principal.value);
    var amigos: map<string, set<string>> := map[];
    var j := 0;
    while j < |us|
      invariant 0 <= j <= |us|
      invariant amigos == AmigosDe(us[..j], username, propias)
    {
      assert us[..j + 1][..j] == us[..j];
      if us[j].username != username {
        var comunes := propias * RutasSet(us[j]);
        if comunes != {} {
          amigos := amigos[us[j].username := comunes];
        }
      }
      j := j + 1;
    }
    assert us[..j] == us;
    return Respuesta(200, AmigosComunes(amigos));
  }
}
