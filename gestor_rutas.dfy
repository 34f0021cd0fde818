/**
 * The catalogue of saved routes and its four filters. Each route is the JSON object of its
 * file; the stored text fields are parsed back into numbers by the distance and duration filters.
 */
module GestorRutas {
  import opened Wrappers
  import opened Text
  import opened Seqs
  import Json
  import R = Ruta

  type Record = Json.Record

  /** The field is absent or holds text, so `r.get(key, "").lower()` does not raise. */
  predicate CampoTexto(r: Record, key: string)
  {
    key !in r || r[key].Str?
  }

  /** `r.get(key, "")` for a text field. */
  function TextoDe(r: Record, key: string): string
  {
    if key in r && r[key].Str? then r[key].s else ""
  }

  // ----- difficulty -----

  predicate MismaDificultad(r: Record, dificultad: string)
  {
    Lower(TextoDe(r, "dificultad")) == Lower(dificultad)
  }

  /**
   * `filtrar_por_dificultad`: the routes whose difficulty equals the argument ignoring case,
   * a missing field reading as "". A non-text field makes `.lower()` raise.
   */
  function PorDificultad(rutas: seq<Record>, dificultad: string): (r: Result<seq<Record>>)
    ensures r.Ok? <==> forall i :: 0 <= i < |rutas| ==> CampoTexto(rutas[i], "dificultad")
    ensures r.Err? ==> r.error == AttributeError
    ensures r.Ok? ==> Subseq(r.value, rutas)
    ensures r.Ok? ==> forall i :: 0 <= i < |rutas| ==> (rutas[i] in r.value <==> MismaDificultad(rutas[i], dificultad))
    ensures r.Ok? ==> forall y :: Ocurrencias(r.value, y) == if MismaDificultad(y, dificultad) then Ocurrencias(rutas, y) else 0
  {
    if exists i :: 0 <= i < |rutas| && !CampoTexto(rutas[i], "dificultad") then Err(AttributeError)
    else
      var p := x => MismaDificultad(x, dificultad);
      FilterSubseq(rutas, p);
      FilterCount(rutas, p);
      Ok(Filter(rutas, p))
  }

  // ----- distance -----

  /**
   * The number of a "12.34 km" field: commas become points, the first whitespace-separated
   * token goes through `float`. None wherever the source's `try` gives up on the route.
   */
  function DistanciaDe(r: Record, parseFloat: string -> Option<real>): Option<real>
  {
    if "distancia" !in r || !r["distancia"].Str? then None
    else
      var tokens := Split(Replace(r["distancia"].s, ",", "."));
      if tokens == [] then None else parseFloat(tokens[0])
  }

  predicate DentroDeDistancia(r: Record, maxKm: real, parseFloat: string -> Option<real>)
  {
    DistanciaDe(r, parseFloat).Some? && DistanciaDe(r, parseFloat).value <= maxKm
  }

  /** The routes `filtrar_por_distancia` keeps. */
  function PorDistancia(rutas: seq<Record>, maxKm: real, parseFloat: string -> Option<real>): seq<Record>
  {
    Filter(rutas, x => DentroDeDistancia(x, maxKm, parseFloat))
  }

  /** The distance filter keeps an order-preserving selection of exactly the routes within the limit. */
  lemma PorDistanciaExacta(rutas: seq<Record>, maxKm: real, parseFloat: string -> Option<real>)
    ensures Subseq(PorDistancia(rutas, maxKm, parseFloat), rutas)
    ensures forall i :: 0 <= i < |rutas| ==>
      (rutas[i] in PorDistancia(rutas, maxKm, parseFloat) <==> DentroDeDistancia(rutas[i], maxKm, parseFloat))
    ensures forall y :: Ocurrencias(PorDistancia(rutas, maxKm, parseFloat), y) ==
                        if DentroDeDistancia(y, maxKm, parseFloat) then Ocurrencias(rutas, y) else 0
  {
    FilterSubseq(rutas, x => DentroDeDistancia(x, maxKm, parseFloat));
    FilterCount(rutas, x => DentroDeDistancia(x, maxKm, parseFloat));
  }

  /** Raising the limit never drops a route. */
  lemma PorDistanciaMonotona(rutas: seq<Record>, a: real, b: real, parseFloat: string -> Option<real>)
    requires a <= b
    ensures Subseq(PorDistancia(rutas, a, parseFloat), PorDistancia(rutas, b, parseFloat))
  {
    FilterMonotone(rutas, x => DentroDeDistancia(x, a, parseFloat), x => DentroDeDistancia(x, b, parseFloat));
  }

  /** A distance field written as "<number> km" is read back as that number. */
  lemma DistanciaDeTexto(r: Record, numero: string, parseFloat: string -> Option<real>)
    requires numero != [] && forall i :: 0 <= i < |numero| ==> !IsSpace(numero[i]) && numero[i] != ','
    requires "distancia" in r && r["distancia"] == Json.Str(numero + " km")
    ensures DistanciaDe(r, parseFloat) == parseFloat(numero)
  {
    ReplaceSkip(" km", [], ",", ".");
    assert " km" + [] == " km";
    ReplaceSkip(numero, " km", ",", ".");
    SplitWord(numero, " km");
    assert Split(Replace(numero + " km", ",", "."))[0] == numero;
  }

  // ----- duration -----

  /** The tokens left once "min" and then "h" are removed from a duration text. */
  function PartesHoras(d: string): seq<string>
  {
    Split(Replace(Replace(d, "min", ""), "h", ""))
  }

  /** Two tokens are hours and minutes, one token is hours, anything else is zero. */
  function HorasDePartes(partes: seq<string>): Option<real>
  {
    if |partes| == 2 then
      var h, m := ParseInt(partes[0]), ParseInt(partes[1]);
      if h.Some? && m.Some? then Some(h.value as real + m.value as real / 60.0) else None
    else if |partes| == 1 then
      var h := ParseInt(partes[0]);
      if h.Some? then Some(h.value as real) else None
    else Some(0.0)
  }

  /** The minutes of a text without "h", in hours. */
  function HorasDeMinutos(d: string): Option<real>
  {
    var m := ParseInt(Strip(Replace(d, "min", "")));
    if m.Some? then Some(m.value as real / 60.0) else None
  }

  /**
   * The hours of a duration text, as `filtrar_por_duracion` computes them: with an "h", the
   * remaining one or two numbers are hours and minutes; otherwise with "min", minutes only;
   * otherwise zero. None where `int` raises.
   */
  function ParseDuracion(texto: string): Option<real>
  {
    var d := Lower(texto);
    if IsInfix("h", d) then HorasDePartes(PartesHoras(d))
    else if IsInfix("min", d) then HorasDeMinutos(d)
    else Some(0.0)
  }

  function DuracionDe(r: Record): Option<real>
  {
    if "duracion" !in r || !r["duracion"].Str? then None else ParseDuracion(r["duracion"].s)
  }

  predicate DentroDeDuracion(r: Record, maxHoras: real)
  {
    DuracionDe(r).Some? && DuracionDe(r).value <= maxHoras
  }

  /** The routes `filtrar_por_duracion` keeps. */
  function PorDuracion(rutas: seq<Record>, maxHoras: real): seq<Record>
  {
    Filter(rutas, x => DentroDeDuracion(x, maxHoras))
  }

  /** One more route scanned is kept exactly when its distance is read and within the limit. */
  lemma PorDistanciaPaso(rutas: seq<Record>, i: nat, maxKm: real, parseFloat: string -> Option<real>)
    requires i < |rutas|
    ensures PorDistancia(rutas[..i + 1], maxKm, parseFloat) == PorDistancia(rutas[..i], maxKm, parseFloat) +
      (if DistanciaDe(rutas[i], parseFloat).Some? && DistanciaDe(rutas[i], parseFloat).value <= maxKm then [rutas[i]] else [])
  {
    assert rutas[..i + 1] == rutas[..i] + [rutas[i]];
    FilterSnoc(rutas[..i], rutas[i], x => DentroDeDistancia(x, maxKm, parseFloat));
  }

  /** One more route scanned is kept exactly when its duration is read and within the limit. */
  lemma PorDuracionPaso(rutas: seq<Record>, i: nat, maxHoras: real)
    requires i < |rutas|
    ensures PorDuracion(rutas[..i + 1], maxHoras) == PorDuracion(rutas[..i], maxHoras) +
      (if DuracionDe(rutas[i]).Some? && DuracionDe(rutas[i]).value <= maxHoras then [rutas[i]] else [])
  {
    assert rutas[..i + 1] == rutas[..i] + [rutas[i]];
    FilterSnoc(rutas[..i], rutas[i], x => DentroDeDuracion(x, maxHoras));
  }

  lemma PorDuracionExacta(rutas: seq<Record>, maxHoras: real)
    ensures Subseq(PorDuracion(rutas, maxHoras), rutas)
    ensures forall i :: 0 <= i < |rutas| ==>
      (rutas[i] in PorDuracion(rutas, maxHoras) <==> DentroDeDuracion(rutas[i], maxHoras))
    ensures forall y :: Ocurrencias(PorDuracion(rutas, maxHoras), y) ==
                        if DentroDeDuracion(y, maxHoras) then Ocurrencias(rutas, y) else 0
  {
    FilterSubseq(rutas, x => DentroDeDuracion(x, maxHoras));
    FilterCount(rutas, x => DentroDeDuracion(x, maxHoras));
  }

  /** Raising the limit never drops a route. */
  lemma PorDuracionMonotona(rutas: seq<Record>, a: real, b: real)
    requires a <= b
    ensures Subseq(PorDuracion(rutas, a), PorDuracion(rutas, b))
  {
    FilterMonotone(rutas, x => DentroDeDuracion(x, a), x => DentroDeDuracion(x, b));
  }

  // The duration text written with a route is parsed back to within one minute below it.

  lemma {:induction false} InfixHasChar(c: char, s: string)
    requires IsInfix([c], s)
    ensures c in s
    decreases |s|
  {
    if !(|s| >= 1 && s[..1] == [c]) {
      InfixHasChar(c, s[1..]);
    } else {
      assert s[0] == c;
    }
  }

  lemma {:induction false} InfixAfter(pat: string, a: string)
    ensures IsInfix(pat, a + pat)
    decreases |a|
  {
    if a != [] {
      InfixAfter(pat, a[1..]);
      assert (a + pat)[1..] == a[1..] + pat;
    } else {
      assert (a + pat)[..|pat|] == pat;
    }
  }

  /** Digits and the letters of " h " / " min" have no upper case. */
  lemma LowerDuracion(hs: string, ms: string)
    requires AllDigits(hs) && AllDigits(ms)
    ensures Lower(hs + " h " + ms + " min") == hs + " h " + ms + " min"
    ensures Lower(ms + " min") == ms + " min"
  {
    LowerNoUpper(hs + " h " + ms + " min");
    LowerNoUpper(ms + " min");
  }

  /** Removing a trailing "min" from a text that holds no other "m". */
  lemma QuitarMin(pre: string)
    requires forall i :: 0 <= i < |pre| ==> pre[i] != 'm'
    ensures Replace(pre + "min", "min", "") == pre
  {
    ReplaceMiddle(pre, [], "min", "");
    assert pre + "min" + [] == pre + "min";
    assert pre + "" + [] == pre;
  }

  /** The shapes of the duration text around its "h", as plain concatenations. */
  lemma PartesConH(hs: string, ms: string)
    ensures hs + " h " + ms + " " == (hs + " ") + "h" + (" " + ms + " ")
    ensures hs + "  " + ms + " " == (hs + " ") + "" + (" " + ms + " ")
    ensures hs + "  " + ms + " " == hs + ([' '] + ([' '] + (ms + [' '])))
  {
  }

  lemma QuitarH(hs: string, ms: string)
    requires AllDigits(hs) && AllDigits(ms)
    ensures Replace(hs + " h " + ms + " ", "h", "") == hs + "  " + ms + " "
  {
    ReplaceMiddle(hs + " ", " " + ms + " ", "h", "");
    PartesConH(hs, ms);
  }

  lemma SplitHorasMinutos(hs: string, ms: string)
    requires hs != [] && ms != [] && AllDigits(hs) && AllDigits(ms)
    ensures Split(hs + "  " + ms + " ") == [hs, ms]
  {
    var fin := ms + [' '];
    SplitSpace(' ', []);
    SplitWord(ms, [' ']);
    assert fin == ms + [' '] + [];
    SplitSpace(' ', fin);
    SplitSpace(' ', [' '] + fin);
    SplitWord(hs, [' '] + ([' '] + fin));
    PartesConH(hs, ms);
  }

  lemma PartesHorasTexto(hs: string, ms: string)
    requires hs != [] && ms != [] && AllDigits(hs) && AllDigits(ms)
    ensures PartesHoras(hs + " h " + ms + " min") == [hs, ms]
  {
    assert hs + " h " + ms + " min" == (hs + " h " + ms + " ") + "min";
    QuitarMin(hs + " h " + ms + " ");
    QuitarH(hs, ms);
    SplitHorasMinutos(hs, ms);
  }

  lemma ConH(hs: string, ms: string)
    ensures IsInfix("h", hs + " h " + ms + " min")
  {
    InfixAfter("h", hs + " ");
    InfixPrefix("h", (hs + " ") + "h", " " + ms + " min");
    assert (hs + " ") + "h" + (" " + ms + " min") == hs + " h " + ms + " min";
  }

  lemma ParseHorasMinutos(h: nat, m: nat)
    ensures ParseDuracion(NatToString(h) + " h " + NatToString(m) + " min") == Some(h as real + m as real / 60.0)
  {
    var hs, ms := NatToString(h), NatToString(m);
    var s := hs + " h " + ms + " min";
    LowerDuracion(hs, ms);
    ConH(hs, ms);
    ParseDuracionConH(s);
    PartesHorasTexto(hs, ms);
    HorasDeDosPartes(h, m);
  }

  lemma {:induction false} InfixPrefix(pat: string, a: string, b: string)
    requires IsInfix(pat, a)
    ensures IsInfix(pat, a + b)
    decreases |a|
  {
    if |pat| <= |a| && a[..|pat|] == pat {
      assert (a + b)[..|pat|] == pat;
    } else {
      InfixPrefix(pat, a[1..], b);
      assert (a + b)[1..] == a[1..] + b;
    }
  }

  lemma {:induction false} SinCaracter(c: char, s: string)
    requires c !in s
    ensures !IsInfix([c], s)
    decreases |s|
  {
    if s != [] {
      assert s[0] in s;
      assert s[..1] != [c] by { assert s[..1][0] == s[0]; }
      assert forall k :: 0 <= k < |s[1..]| ==> s[1..][k] == s[k + 1];
      SinCaracter(c, s[1..]);
    }
  }

  lemma SinH(ms: string)
    requires AllDigits(ms)
    ensures !IsInfix("h", ms + " min")
  {
    assert forall i :: 0 <= i < |ms + " min"| ==> (ms + " min")[i] != 'h' by {
      forall i | 0 <= i < |ms + " min"|
        ensures (ms + " min")[i] != 'h'
      {
        if i < |ms| {
          assert (ms + " min")[i] == ms[i];
        }
      }
    }
    SinCaracter('h', ms + " min");
  }

  lemma ParseDuracionConH(s: string)
    requires Lower(s) == s && IsInfix("h", s)
    ensures ParseDuracion(s) == HorasDePartes(PartesHoras(s))
  {
  }

  lemma ParseDuracionConMin(s: string)
    requires Lower(s) == s && !IsInfix("h", s) && IsInfix("min", s)
    ensures ParseDuracion(s) == HorasDeMinutos(s)
  {
  }

  lemma HorasDeDosPartes(h: nat, m: nat)
    ensures HorasDePartes([NatToString(h), NatToString(m)]) == Some(h as real + m as real / 60.0)
  {
    ParseNatToString(h);
    ParseNatToString(m);
    DosPartes(NatToString(h), NatToString(m), h, m);
  }

  lemma DosPartes(a: string, b: string, h: int, m: int)
    requires ParseInt(a) == Some(h) && ParseInt(b) == Some(m)
    ensures HorasDePartes([a, b]) == Some(h as real + m as real / 60.0)
  {
  }

  lemma StripEspacioFinal(ms: string)
    requires ms != [] && AllDigits(ms)
    ensures Strip(ms + " ") == ms
  {
    assert LStrip(ms + " ") == ms + " ";
    assert (ms + " ")[..|ms|] == ms;
    assert RStrip(ms + " ") == RStrip(ms);
    NoSpaceNoStrip(ms);
    assert LStrip(ms) == ms;
  }

  lemma HorasDeMinutosTexto(m: nat)
    ensures HorasDeMinutos(NatToString(m) + " min") == Some(m as real / 60.0)
  {
    var ms := NatToString(m);
    var t := ms + " min";
    assert t == (ms + " ") + "min";
    QuitarMin(ms + " ");
    StripEspacioFinal(ms);
    ParseNatToString(m);
    MinutosLeidos(t, ms, m);
  }

  /** A text whose "min"-less, stripped form reads as `m` is `m` minutes. */
  lemma MinutosLeidos(t: string, ms: string, m: int)
    requires Strip(Replace(t, "min", "")) == ms && ParseInt(ms) == Some(m)
    ensures HorasDeMinutos(t) == Some(m as real / 60.0)
  {
  }

  lemma ParseMinutos(m: nat)
    ensures ParseDuracion(NatToString(m) + " min") == Some(m as real / 60.0)
  {
    var ms := NatToString(m);
    var s := ms + " min";
    LowerDuracion("", ms);
    SinH(ms);
    InfixAfter("min", ms + " ");
    assert s == (ms + " ") + "min";
    ParseDuracionConMin(s);
    HorasDeMinutosTexto(m);
  }

  /**
   * Reading back the duration text of a saved route loses less than a minute:
   * d - 1/60 < h' <= d.
   */
  lemma DuracionIdaVuelta(d: real)
    requires d >= 0.0
    ensures ParseDuracion(R.DuracionStr(d)).Some?
    ensures var h' := ParseDuracion(R.DuracionStr(d)).value; d - 1.0 / 60.0 < h' <= d
  {
    DuracionLeida(d);
    ValorCota(d);
  }

  /** Whole hours plus whole minutes, in hours, following the two shapes of the duration text. */
  function Valor(h: int, m: int): real
  {
    if h > 0 then h as real + m as real / 60.0 else m as real / 60.0
  }

  /** The whole hours and minutes of a duration, in hours. */
  function ValorDuracion(d: real): real
  {
    var h := R.Trunc(d);
    Valor(h, R.Trunc((d - h as real) * 60.0))
  }

  lemma ValorCota(d: real)
    requires d >= 0.0
    ensures d - 1.0 / 60.0 < ValorDuracion(d) <= d
  {
    R.DuracionStrPartes(d);
  }

  /** The saved duration text reads back as its whole hours and minutes. */
  lemma DuracionLeida(d: real)
    requires d >= 0.0
    ensures ParseDuracion(R.DuracionStr(d)) == Some(ValorDuracion(d))
  {
    TextoDuracion(d);
    var h := R.Trunc(d);
    LeerDuracion(R.DuracionStr(d), h, R.Trunc((d - h as real) * 60.0));
  }

  /** The two shapes of the duration text. */
  function Texto(h: nat, m: nat): string
  {
    if h > 0 then NatToString(h) + " h " + NatToString(m) + " min" else NatToString(m) + " min"
  }

  lemma TextoDuracion(d: real)
    requires d >= 0.0
    ensures var h := R.Trunc(d); var m := R.Trunc((d - h as real) * 60.0);
      h >= 0 && m >= 0 && R.DuracionStr(d) == Texto(h, m)
  {
    R.DuracionStrPartes(d);
  }

  /** Either shape of a duration text reads back as its hours and minutes. */
  lemma LeerDuracion(t: string, h: nat, m: nat)
    requires t == Texto(h, m)
    ensures ParseDuracion(t) == Some(Valor(h, m))
  {
    if h > 0 {
      LeerHorasMinutos(t, h, m);
    } else {
      LeerMinutos(t, m);
    }
  }

  lemma LeerHorasMinutos(t: string, h: nat, m: nat)
    requires t == NatToString(h) + " h " + NatToString(m) + " min"
    ensures ParseDuracion(t) == Some(h as real + m as real / 60.0)
  {
    ParseHorasMinutos(h, m);
  }

  lemma LeerMinutos(t: string, m: nat)
    requires t == NatToString(m) + " min"
    ensures ParseDuracion(t) == Some(m as real / 60.0)
  {
    ParseMinutos(m);
  }


  // ----- transport mode -----

  predicate MismoModo(r: Record, modo: string)
  {
    Lower(TextoDe(r, "modo_transporte")) == Lower(modo)
  }

  /**
   * `filtrar_por_transporte`: ValueError unless the lower-cased mode occurs among the
   * routes' lower-cased modes; otherwise the routes with that mode.
   */
  function PorTransporte(rutas: seq<Record>, modo: string): (r: Result<seq<Record>>)
    ensures r == Err(AttributeError) <==> exists i :: 0 <= i < |rutas| && !CampoTexto(rutas[i], "modo_transporte")
    ensures r.Err? && r.error.ValueError? <==>
      (forall i :: 0 <= i < |rutas| ==> CampoTexto(rutas[i], "modo_transporte")) &&
      (forall i :: 0 <= i < |rutas| ==> !MismoModo(rutas[i], modo))
    ensures r.Err? ==> r.error == AttributeError || r.error.ValueError?
    ensures r.Ok? <==>
      (forall i :: 0 <= i < |rutas| ==> CampoTexto(rutas[i], "modo_transporte")) &&
      (exists i :: 0 <= i < |rutas| && MismoModo(rutas[i], modo))
    ensures r.Ok? ==> r.value != [] && Subseq(r.value, rutas)
    ensures r.Ok? ==> forall i :: 0 <= i < |rutas| ==> (rutas[i] in r.value <==> MismoModo(rutas[i], modo))
    ensures r.Ok? ==> forall y :: Ocurrencias(r.value, y) == if MismoModo(y, modo) then Ocurrencias(rutas, y) else 0
  {
    if exists i :: 0 <= i < |rutas| && !CampoTexto(rutas[i], "modo_transporte") then Err(AttributeError)
    else if forall i :: 0 <= i < |rutas| ==> !MismoModo(rutas[i], modo) then
      Err(ValueError("Modo de transporte '" + Lower(modo) + "' no válido."))
    else
      var p := x => MismoModo(x, modo);
      FilterSubseq(rutas, p);
      FilterCount(rutas, p);
      Ok(Filter(rutas, p))
  }

  /** With no routes loaded, every mode is rejected. */
  lemma TransporteSinRutas(modo: string)
    ensures PorTransporte([], modo).Err? && PorTransporte([], modo).error.ValueError?
  {
  }

  class GestorRutas {
    const directorio: string
    var rutas: seq<Record>

    /** The routes are those read from the directory's JSON files (the reading itself is I/O). */
    constructor (directorio: string, cargadas: seq<Record>)
      ensures this.directorio == directorio && rutas == cargadas
    {
      this.directorio := directorio;
      rutas := cargadas;
    }

    function FiltrarPorDificultad(dificultad: string): Result<seq<Record>>
      reads this
    {
      PorDificultad(rutas, dificultad)
    }

    /** `filtrar_por_distancia`: one pass, appending the routes within `maxKm`. */
    method FiltrarPorDistancia(maxKm: real, parseFloat: string -> Option<real>) returns (filtradas: seq<Record>)
      ensures filtradas == PorDistancia(rutas, maxKm, parseFloat)
    {
      filtradas := [];
      var i := 0;
      while i < |rutas|
        invariant 0 <= i <= |rutas|
        invariant filtradas == PorDistancia(rutas[..i], maxKm, parseFloat)
      {
        PorDistanciaPaso(rutas, i, maxKm, parseFloat);
        var distancia := DistanciaDe(rutas[i], parseFloat);
        if distancia.Some? && distancia.value <= maxKm {
          filtradas := filtradas + [rutas[i]];
        }
        i := i + 1;
      }
      assert rutas[..i] == rutas;
    }

    /** `filtrar_por_duracion`: one pass, appending the routes within `maxHoras`. */
    method FiltrarPorDuracion(maxHoras: real) returns (filtradas: seq<Record>)
      ensures filtradas == PorDuracion(rutas, maxHoras)
    {
      filtradas := [];
      var i := 0;
      while i < |rutas|
        invariant 0 <= i <= |rutas|
        invariant filtradas == PorDuracion(rutas[..i], maxHoras)
      {
        PorDuracionPaso(rutas, i, maxHoras);
        var total := DuracionDe(rutas[i]);
        if total.Some? && total.value <= maxHoras {
          filtradas := filtradas + [rutas[i]];
        }
        i := i + 1;
      }
      assert rutas[..i] == rutas;
    }

    function FiltrarPorTransporte(modo: string): Result<seq<Record>>
      reads this
    {
      PorTransporte(rutas, modo)
    }
  }
}
