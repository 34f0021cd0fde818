/**
 * Naive date-times and their ISO 8601 text, as Python's `datetime.isoformat()` writes it and
 * `datetime.fromisoformat()` reads it back.
 */
module Fechas {
  import opened Wrappers
  import opened Text

  datatype DateTime = DateTime(year: nat, month: nat, day: nat, hour: nat, minute: nat, second: nat, micro: nat)

  predicate Bisiesto(year: nat)
  {
    year % 4 == 0 && (year % 100 != 0 || year % 400 == 0)
  }

  function DiasDelMes(year: nat, month: nat): nat
  {
    if month == 2 then (if Bisiesto(year) then 29 else 28)
    else if month == 4 || month == 6 || month == 9 || month == 11 then 30
    else 31
  }

  /** The date-times `datetime` can represent. */
  predicate Valida(dt: DateTime)
  {
    && 1 <= dt.year <= 9999 && 1 <= dt.month <= 12 && 1 <= dt.day <= DiasDelMes(dt.year, dt.month)
    && dt.hour < 24 && dt.minute < 60 && dt.second < 60 && dt.micro < 1000000
  }

  function Pow10(w: nat): (p: nat)
    ensures p >= 1
  {
    if w == 0 then 1 else 10 * Pow10(w - 1)
  }

  /** `n` written with exactly `w` digits, zero-padded on the left (`%0wd` for `n < 10^w`). */
  function Pad(n: nat, w: nat): (s: string)
    ensures |s| == w && AllDigits(s)
  {
    if w == 0 then [] else Pad(n / 10, w - 1) + [Digit(n % 10)]
  }

  lemma {:induction false} PadValue(n: nat, w: nat)
    requires n < Pow10(w)
    ensures DigitsValue(Pad(n, w)) == n
  {
    if w > 0 {
      PadValue(n / 10, w - 1);
      var s := Pad(n, w);
      assert s[..|s| - 1] == Pad(n / 10, w - 1);
    }
  }

  /** `dt.isoformat()`: the fraction appears only when the microseconds are not zero. */
  function Iso(dt: DateTime): (s: string)
    ensures |s| == 19 || |s| == 26
  {
    Pad(dt.year, 4) + "-" + Pad(dt.month, 2) + "-" + Pad(dt.day, 2) + "T"
      + Pad(dt.hour, 2) + ":" + Pad(dt.minute, 2) + ":" + Pad(dt.second, 2)
      + (if dt.micro == 0 then "" else "." + Pad(dt.micro, 6))
  }

  /** The number written in `s[a..b]`, when that slice is all digits. */
  function Numero(s: string, a: nat, b: nat): Option<nat>
    requires a <= b <= |s|
  {
    if AllDigits(s[a..b]) then Some(DigitsValue(s[a..b])) else None
  }

  /** The fields a well-formed text spells, before the range checks. */
  function Campos(s: string): Option<DateTime>
  {
    var n := |s|;
    if !(n == 10 || n == 13 || n == 16 || n == 19 || n == 23 || n == 26) then None
    else if s[4] != '-' || s[7] != '-' then None
    else if n >= 16 && s[13] != ':' then None
    else if n >= 19 && s[16] != ':' then None
    else if n >= 23 && s[19] != '.' then None
    else
      var y, mo, d := Numero(s, 0, 4), Numero(s, 5, 7), Numero(s, 8, 10);
      var h := if n >= 13 then Numero(s, 11, 13) else Some(0);
      var mi := if n >= 16 then Numero(s, 14, 16) else Some(0);
      var se := if n >= 19 then Numero(s, 17, 19) else Some(0);
      var us := if n == 26 then Numero(s, 20, 26)
                else if n == 23 then (match Numero(s, 20, 23) case Some(ms) => Some(ms * 1000) case None => None)
                else Some(0);
      if y.Some? && mo.Some? && d.Some? && h.Some? && mi.Some? && se.Some? && us.Some? then
        Some(DateTime(y.value, mo.value, d.value, h.value, mi.value, se.value, us.value))
      else None
  }

  /**
   * `datetime.fromisoformat(s)` for naive values: "YYYY-MM-DD", optionally followed by any
   * separator character and "HH", "HH:MM", "HH:MM:SS", "HH:MM:SS.fff" or "HH:MM:SS.ffffff".
   * None where Python raises ValueError.
   */
  function FromIso(s: string): (r: Option<DateTime>)
    ensures r.Some? ==> Valida(r.value)
  {
    var c := Campos(s);
    if c.Some? && Valida(c.value) then c else None
  }

  lemma Trozo(s: string, a: nat, b: nat, p: string)
    requires a + |p| == b <= |s| && s[a..b] == p && AllDigits(p)
    ensures Numero(s, a, b) == Some(DigitsValue(p))
  {
  }

  /** Where each field sits in "YYYY-MM-DD?HH:MM:SS" followed by a suffix. */
  lemma Posiciones(Y: string, M: string, D: string, sep: char, h: string, m: string, se: string, frac: string)
    requires |Y| == 4 && |M| == 2 && |D| == 2 && |h| == 2 && |m| == 2 && |se| == 2
    ensures var s := Y + "-" + M + "-" + D + [sep] + h + ":" + m + ":" + se + frac;
      && |s| == 19 + |frac| && s[19..] == frac
      && s[4] == '-' && s[7] == '-' && s[13] == ':' && s[16] == ':'
      && s[0..4] == Y && s[5..7] == M && s[8..10] == D
      && s[11..13] == h && s[14..16] == m && s[17..19] == se
  {
  }

  /** The positions of the fields in `isoformat`'s text. */
  lemma IsoPosiciones(dt: DateTime)
    ensures var s := Iso(dt);
      && s[4] == '-' && s[7] == '-' && s[13] == ':' && s[16] == ':'
      && s[0..4] == Pad(dt.year, 4) && s[5..7] == Pad(dt.month, 2) && s[8..10] == Pad(dt.day, 2)
      && s[11..13] == Pad(dt.hour, 2) && s[14..16] == Pad(dt.minute, 2) && s[17..19] == Pad(dt.second, 2)
      && (dt.micro == 0 <==> |s| == 19)
      && (dt.micro != 0 ==> s[19] == '.' && s[20..26] == Pad(dt.micro, 6))
  {
    var Y, M, D := Pad(dt.year, 4), Pad(dt.month, 2), Pad(dt.day, 2);
    var h, m, se := Pad(dt.hour, 2), Pad(dt.minute, 2), Pad(dt.second, 2);
    var frac := if dt.micro == 0 then "" else "." + Pad(dt.micro, 6);
    var s := Iso(dt);
    assert s == Y + "-" + M + "-" + D + ['T'] + h + ":" + m + ":" + se + frac;
    Posiciones(Y, M, D, 'T', h, m, se, frac);
    if dt.micro != 0 {
      Fraccion(s[19..], Pad(dt.micro, 6));
      assert s[20..26] == s[19..][1..7];
    }
  }

  lemma Fraccion(frac: string, u: string)
    requires frac == "." + u
    ensures frac[0] == '.' && frac[1..] == u
  {
  }

  /** What `Campos` reads from a 19- or 26-character text with the separators in place. */
  lemma CamposLargos(s: string)
    requires |s| == 19 || (|s| == 26 && s[19] == '.')
    requires s[4] == '-' && s[7] == '-' && s[13] == ':' && s[16] == ':'
    requires AllDigits(s[0..4]) && AllDigits(s[5..7]) && AllDigits(s[8..10])
    requires AllDigits(s[11..13]) && AllDigits(s[14..16]) && AllDigits(s[17..19])
    requires |s| == 26 ==> AllDigits(s[20..26])
    ensures Campos(s) == Some(DateTime(DigitsValue(s[0..4]), DigitsValue(s[5..7]), DigitsValue(s[8..10]),
      DigitsValue(s[11..13]), DigitsValue(s[14..16]), DigitsValue(s[17..19]),
      if |s| == 26 then DigitsValue(s[20..26]) else 0))
  {
  }

  /** `fromisoformat(dt.isoformat()) == dt`. */
  lemma IsoIdaVuelta(dt: DateTime)
    requires Valida(dt)
    ensures FromIso(Iso(dt)) == Some(dt)
  {
    IsoPosiciones(dt);
    LeerCampos(Iso(dt), dt);
    assert Campos(Iso(dt)) == Some(dt) && Valida(dt);
  }

  /** A text with the separators in place and each field zero-padded reads back as the date-time. */
  lemma LeerCampos(s: string, dt: DateTime)
    requires dt.year < 10000 && dt.month < 100 && dt.day < 100 && dt.hour < 100 && dt.minute < 100
    requires dt.second < 100 && dt.micro < 1000000
    requires (|s| == 19 && dt.micro == 0) || (|s| == 26 && s[19] == '.')
    requires s[4] == '-' && s[7] == '-' && s[13] == ':' && s[16] == ':'
    requires s[0..4] == Pad(dt.year, 4) && s[5..7] == Pad(dt.month, 2) && s[8..10] == Pad(dt.day, 2)
    requires s[11..13] == Pad(dt.hour, 2) && s[14..16] == Pad(dt.minute, 2) && s[17..19] == Pad(dt.second, 2)
    requires |s| == 26 ==> s[20..26] == Pad(dt.micro, 6)
    ensures Campos(s) == Some(dt)
  {
    CampoLeido(s, 0, dt.year, 4);
    CampoLeido(s, 5, dt.month, 2);
    CampoLeido(s, 8, dt.day, 2);
    CampoLeido(s, 11, dt.hour, 2);
    CampoLeido(s, 14, dt.minute, 2);
    CampoLeido(s, 17, dt.second, 2);
    if |s| == 26 {
      CampoLeido(s, 20, dt.micro, 6);
    }
    CamposLargos(s);
  }

  /** A zero-padded field reads back as its value. */
  lemma CampoLeido(s: string, a: nat, v: nat, w: nat)
    requires a + w <= |s| && s[a..a + w] == Pad(v, w) && v < Pow10(w)
    ensures AllDigits(s[a..a + w]) && DigitsValue(s[a..a + w]) == v
  {
    PadValue(v, w);
  }

  /** `dt.strftime("%Y-%m-%d %H:%M:%S")`. */
  function Strftime(dt: DateTime): (s: string)
    ensures |s| == 19
  {
    Pad(dt.year, 4) + "-" + Pad(dt.month, 2) + "-" + Pad(dt.day, 2) + " "
      + Pad(dt.hour, 2) + ":" + Pad(dt.minute, 2) + ":" + Pad(dt.second, 2)
  }

  /** The stored route date reads back, through `fromisoformat`, as the date-time without its microseconds. */
  lemma StrftimeIdaVuelta(dt: DateTime)
    requires Valida(dt)
    ensures FromIso(Strftime(dt)) == Some(dt.(micro := 0))
  {
    var s := Strftime(dt);
    Posiciones(Pad(dt.year, 4), Pad(dt.month, 2), Pad(dt.day, 2), ' ', Pad(dt.hour, 2), Pad(dt.minute, 2),
               Pad(dt.second, 2), []);
    assert s == Pad(dt.year, 4) + "-" + Pad(dt.month, 2) + "-" + Pad(dt.day, 2) + [' ']
      + Pad(dt.hour, 2) + ":" + Pad(dt.minute, 2) + ":" + Pad(dt.second, 2) + [];
    LeerCampos(s, dt.(micro := 0));
    assert Campos(s) == Some(dt.(micro := 0)) && Valida(dt.(micro := 0));
  }

  /** Reading and re-writing a text that `isoformat` produced gives the same text. */
  lemma IsoCanonica(dt: DateTime)
    requires Valida(dt)
    ensures FromIso(Iso(dt)).Some? && Iso(FromIso(Iso(dt)).value) == Iso(dt)
  {
    IsoIdaVuelta(dt);
  }
}
