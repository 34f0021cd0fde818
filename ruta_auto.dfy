/**
 * `RutaAuto.generar_rutas_desde_direcciones`: creates a number of random routes between the
 * addresses a user gave. Each route joins two addresses drawn from distinct positions, visits up
 * to two of the other addresses, and uses a random mode; random draws are nondeterministic choices.
 */
module RutaAuto {
  import opened Wrappers
  import opened Text
  import Seqs
  import Fechas
  import Geo = Geocodificador
  import R = Ruta

  /** A list of messages, or the warning string returned instead of a list. */
  datatype Salida = Aviso(texto: string) | Creadas(mensajes: seq<string>)

  const AvisoPocas := "⚠️ Se necesitan al menos dos direcciones para generar rutas."

  /** What `random.sample` raises when asked for more elements than the population holds. */
  const MuestraGrande := "Sample larger than population or is negative"

  const Modos := ["walk", "bike", "drive"]

  function Min(a: int, b: int): int
  {
    if a <= b then a else b
  }

  /** The name of the route made in iteration `i` (counting from 0). */
  function NombreAuto(i: nat): string
  {
    "ruta_auto_" + NatToString(i + 1)
  }

  function MensajeCreada(nombre: string): string
  {
    "✅ Ruta '" + nombre + "' creada y exportada exitosamente."
  }

  /** The messages of the first `m` routes, in order. */
  function Mensajes(m: nat): (r: seq<string>)
    ensures |r| == m && forall i :: 0 <= i < m ==> r[i] == MensajeCreada(NombreAuto(i))
  {
    seq(m, i requires 0 <= i => MensajeCreada(NombreAuto(i)))
  }

  lemma MensajesSnoc(m: nat)
    ensures Mensajes(m + 1) == Mensajes(m) + [MensajeCreada(NombreAuto(m))]
  {
    assert Mensajes(m + 1)[..m] == Mensajes(m);
  }

  /** The addresses that may serve as intermediate points: those equal to neither end. */
  function Candidatos(direcciones: seq<string>, origen: string, destino: string): (r: seq<string>)
    ensures forall i :: 0 <= i < |r| ==> r[i] in direcciones && r[i] != origen && r[i] != destino
    ensures |r| <= |direcciones|
  {
    Seqs.Filter(direcciones, x => x != origen && x != destino)
  }

  /** No address is repeated. */
  predicate Distintas(s: seq<string>)
  {
    forall i, j :: 0 <= i < j < |s| ==> s[i] != s[j]
  }

  /** Removing the two ends from distinct addresses leaves exactly the others. */
  lemma {:induction false} CandidatosDistintas(s: seq<string>, origen: string, destino: string)
    requires Distintas(s) && origen != destino
    ensures |Candidatos(s, origen, destino)| == |s| - (if origen in s then 1 else 0) - (if destino in s then 1 else 0)
    decreases |s|
  {
    if s != [] {
      var init, x := s[..|s| - 1], s[|s| - 1];
      assert Distintas(init);
      CandidatosDistintas(init, origen, destino);
      assert x !in init;
      assert s == init + [x];
      assert Candidatos(s, origen, destino) == Candidatos(init, origen, destino)
        + (if x != origen && x != destino then [x] else []);
    }
  }

  /**
   * `random.sample(pool, k)` for `k <= 2`: `k` elements taken from distinct positions of the
   * pool, in any order.
   */
  ghost predicate MuestraDe(inter: seq<string>, pool: seq<string>, k: int)
  {
    && |inter| == k && k <= 2
    && (forall t :: 0 <= t < |inter| ==> inter[t] in pool)
    && (k == 2 ==> exists a, b :: 0 <= a < |pool| && 0 <= b < |pool| && a != b && pool[a] == inter[0] && pool[b] == inter[1])
  }

  /**
   * What iteration `i` saves: its name, a date, a location in the initial box, ends from two
   * distinct positions, min(2, n - 2) intermediates sampled from the other addresses, and a valid mode.
   */
  ghost predicate Generada(doc: R.Documento, direcciones: seq<string>, i: nat, ahora: Fechas.DateTime)
  {
    && doc.nombre == NombreAuto(i)
    && doc.fechaRegistro == Fechas.Strftime(ahora)
    && R.UbicacionInicial(doc.ubicacion)
    && doc.modoTransporte in Modos
    && (exists p, q :: 0 <= p < |direcciones| && 0 <= q < |direcciones| && p != q
                       && direcciones[p] == doc.origen && direcciones[q] == doc.destino)
    && MuestraDe(doc.puntosIntermedios, Candidatos(direcciones, doc.origen, doc.destino), Min(2, |direcciones| - 2))
  }

  /** Each stored document was generated for its position in the run. */
  ghost predicate Generadas(guardadas: seq<R.Documento>, direcciones: seq<string>, ahora: Fechas.DateTime)
  {
    forall j :: 0 <= j < |guardadas| ==> Generada(guardadas[j], direcciones, j, ahora)
  }

  lemma GeneradasSnoc(guardadas: seq<R.Documento>, doc: R.Documento, direcciones: seq<string>, ahora: Fechas.DateTime)
    requires Generadas(guardadas, direcciones, ahora) && Generada(doc, direcciones, |guardadas|, ahora)
    ensures Generadas(guardadas + [doc], direcciones, ahora)
  {
    var t := guardadas + [doc];
    forall j | 0 <= j < |t|
      ensures Generada(t[j], direcciones, j, ahora)
    {
      if j < |guardadas| {
        assert t[j] == guardadas[j];
      }
    }
  }

  /** Sampled intermediates are addresses different from both ends. */
  lemma GeneradaIntermedios(doc: R.Documento, direcciones: seq<string>, i: nat, ahora: Fechas.DateTime)
    requires Generada(doc, direcciones, i, ahora)
    ensures forall t :: 0 <= t < |doc.puntosIntermedios| ==>
      doc.puntosIntermedios[t] in direcciones
      && doc.puntosIntermedios[t] != doc.origen && doc.puntosIntermedios[t] != doc.destino
  {
    var pool := Candidatos(direcciones, doc.origen, doc.destino);
    forall t | 0 <= t < |doc.puntosIntermedios|
      ensures doc.puntosIntermedios[t] in direcciones
      ensures doc.puntosIntermedios[t] != doc.origen && doc.puntosIntermedios[t] != doc.destino
    {
      var x := doc.puntosIntermedios[t];
      assert x in pool;
      var a :| 0 <= a < |pool| && pool[a] == x;
    }
  }

  /** With distinct addresses the pool always holds enough for the sample. */
  lemma MuestraPosible(direcciones: seq<string>, p: nat, q: nat)
    requires Distintas(direcciones) && p < |direcciones| && q < |direcciones| && p != q
    ensures |Candidatos(direcciones, direcciones[p], direcciones[q])| == |direcciones| - 2
    ensures |Candidatos(direcciones, direcciones[p], direcciones[q])| >= Min(2, |direcciones| - 2)
  {
    CandidatosDistintas(direcciones, direcciones[p], direcciones[q]);
  }

  /** Every address is placed by the geocoder and every two graph nodes are joined by a path. */
  ghost predicate Completas(direcciones: seq<string>, w: R.World)
  {
    && (forall d :: d in direcciones ==> Geo.ObtenerCoordenadas(d, w.geocode).Some?)
    && (forall a, b :: w.pathLength(a, b).Some?)
  }

  /**
   * The exceptions an iteration can raise, each with its cause in the inputs: TypeError for an
   * address the geocoder does not place, NoPath for two nodes with no path between them, and
   * the sample's ValueError for repeated addresses.
   */
  ghost predicate Explicado(e: Error, direcciones: seq<string>, w: R.World)
  {
    || (e == TypeError && exists d :: d in direcciones && Geo.ObtenerCoordenadas(d, w.geocode).None?)
    || (e == NoPath && exists a, b :: w.pathLength(a, b).None?)
    || (e == ValueError(MuestraGrande) && !Distintas(direcciones))
  }

  /** The random part of one iteration: the two ends, the sampled intermediates and the mode. */
  method Elegir(direcciones: seq<string>) returns (r: Result<(string, seq<string>, string, string)>)
    requires |direcciones| >= 2
    ensures r.Err? ==> r.error == ValueError(MuestraGrande) && !Distintas(direcciones)
    ensures r.Ok? ==>
      var (origen, inter, destino, modo) := r.value;
      && modo in Modos
      && (exists p, q :: 0 <= p < |direcciones| && 0 <= q < |direcciones| && p != q
                         && direcciones[p] == origen && direcciones[q] == destino)
      && MuestraDe(inter, Candidatos(direcciones, origen, destino), Min(2, |direcciones| - 2))
  {
    var n := |direcciones|;
    var p :| 0 <= p < n;
    assert 0 <= (if p == 0 then 1 else 0) < n;
    var q :| 0 <= q < n && q != p;
    var origen, destino := direcciones[p], direcciones[q];
    var pool := Candidatos(direcciones, origen, destino);
    var k := Min(2, n - 2);
    if |pool| < k {
      if Distintas(direcciones) {
        MuestraPosible(direcciones, p, q);
      }
      return Err(ValueError(MuestraGrande));
    }
    var inter: seq<string>;
    if k == 0 {
      inter := [];
    } else if k == 1 {
      var a :| 0 <= a < |pool|;
      inter := [pool[a]];
      assert inter[0] in pool;
    } else {
      var a :| 0 <= a < |pool|;
      assert 0 <= (if a == 0 then 1 else 0) < |pool|;
      var b :| 0 <= b < |pool| && b != a;
      inter := [pool[a], pool[b]];
      assert inter[0] in pool && inter[1] in pool;
      assert pool[a] == inter[0] && pool[b] == inter[1];
    }
    assert MuestraDe(inter, pool, k);
    var m :| 0 <= m < 3;
    assert Modos[m] in Modos;
    assert direcciones[p] == origen && direcciones[q] == destino;
    return Ok((origen, inter, destino, Modos[m]));
  }

  /** One iteration: the route named after `i`, saved. */
  method GenerarUna(direcciones: seq<string>, i: nat, w: R.World, ahora: Fechas.DateTime, reloj: int)
    returns (r: Result<R.Documento>)
    requires |direcciones| >= 2
    ensures r.Err? ==> Explicado(r.error, direcciones, w)
    ensures Distintas(direcciones) && Completas(direcciones, w) ==> r.Ok?
    ensures r.Ok? ==> Generada(r.value, direcciones, i, ahora)
  {
    var eleccion := Elegir(direcciones);
    if eleccion.Err? {
      return Err(eleccion.error);
    }
    var (origen, inter, destino, modo) := eleccion.value;
    assert R.UbicacionInicial((38.3, -0.5));
    var ubicacion: R.Coord :| R.UbicacionInicial(ubicacion);
    var ruta := new R.Ruta(NombreAuto(i), ubicacion, 0.0, 0.0, "bajo", origen, inter, destino, modo,
                           ahora, reloj, w.geocode);
    assert R.ModoValido(modo);
    ghost var d := R.DistanciaTotal(ruta.origen, ruta.puntosIntermedios, ruta.destino, w);
    r := ruta.GuardarEnJson(w);
    if r.Ok? {
      assert d.Ok?;
      assert r.value.nombre == NombreAuto(i) && r.value.fechaRegistro == Fechas.Strftime(ahora);
      assert r.value.ubicacion == ubicacion && r.value.modoTransporte == modo;
      assert r.value.origen == origen && r.value.destino == destino && r.value.puntosIntermedios == inter;
    } else {
      assert d.Err? && r.error == d.error;
      R.DistanciaFallos(ruta.origen, ruta.puntosIntermedios, ruta.destino, w);
      if d.error == TypeError {
        assert origen in direcciones && destino in direcciones;
      }
    }
  }

  class RutaAuto {
    const directorio: string

    constructor (directorio: string)
      ensures this.directorio == directorio
    {
      this.directorio := directorio;
    }

    /**
     * `generar_rutas_desde_direcciones`. `guardadas` are the documents written to the route files,
     * one per completed iteration; `ahora` and `reloj` are the clock readings the routes record.
     * An exception (a failed sample, an address that cannot be placed, two points with no path
     * between them) ends the loop and propagates.
     */
    method GenerarRutasDesdeDirecciones(direcciones: seq<string>, cantidad: int, w: R.World,
                                        ahora: Fechas.DateTime, reloj: int)
      returns (r: Result<Salida>, guardadas: seq<R.Documento>)
      ensures |direcciones| < 2 ==> r == Ok(Aviso(AvisoPocas)) && guardadas == []
      ensures |direcciones| >= 2 && r.Ok? ==> r.value == Creadas(Mensajes(|guardadas|)) && |guardadas| == (if cantidad < 0 then 0 else cantidad)
      ensures r.Err? ==> |guardadas| < cantidad
      ensures r.Err? ==> Explicado(r.error, direcciones, w)
      ensures Distintas(direcciones) && Completas(direcciones, w) ==> r.Ok?
      ensures Generadas(guardadas, direcciones, ahora)
    {
      var n := |direcciones|;
      if n < 2 {
        return Ok(Aviso(AvisoPocas)), [];
      }
      var mensajes := [];
      guardadas := [];
      var i := 0;
      while i < cantidad
        invariant 0 <= i && (cantidad < 0 ==> i == 0) && (cantidad >= 0 ==> i <= cantidad)
        invariant mensajes == Mensajes(i) && |guardadas| == i
        invariant Generadas(guardadas, direcciones, ahora)
      {
        var doc := GenerarUna(direcciones, i, w, ahora, reloj);
        if doc.Err? {
          return Err(doc.error), guardadas;
        }
        GeneradasSnoc(guardadas, doc.value, direcciones, ahora);
        MensajesSnoc(i);
        guardadas := guardadas + [doc.value];
        mensajes := mensajes + [MensajeCreada(NombreAuto(i))];
        i := i + 1;
      }
      return Ok(Creadas(mensajes)), guardadas;
    }
  }
}
