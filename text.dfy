/** The handful of Python `str` operations the route and user code relies on, over ASCII. */
module Text {
  import opened Wrappers

  /** `c.isspace()` for the characters below U+0100. */
  predicate IsSpace(c: char)
  {
    c == ' ' || c == '\t' || c == '\n' || c == '\r' || c == '\U{0B}' || c == '\U{0C}'
    || c == '\U{1C}' || c == '\U{1D}' || c == '\U{1E}' || c == '\U{1F}' || c == '\U{85}' || c == '\U{A0}'
  }

  predicate IsDigit(c: char) { '0' <= c <= '9' }

  predicate AllDigits(s: string) { forall i :: 0 <= i < |s| ==> IsDigit(s[i]) }

  function LowerChar(c: char): char
  {
    if 'A' <= c <= 'Z' then (c as int - 'A' as int + 'a' as int) as char else c
  }

  /** `s.lower()` (ASCII letters only). */
  function Lower(s: string): (r: string)
    ensures |r| == |s|
    ensures forall i :: 0 <= i < |s| ==> r[i] == LowerChar(s[i])
  {
    seq(|s|, i requires 0 <= i < |s| => LowerChar(s[i]))
  }

  /** `pat in s`: the pattern occurs somewhere in `s`. */
  predicate IsInfix(pat: string, s: string)
    decreases |s|
  {
    (|pat| <= |s| && s[..|pat|] == pat) || (s != [] && IsInfix(pat, s[1..]))
  }

  /** `s.replace(pat, rep)`: every non-overlapping occurrence, scanning left to right. */
  function Replace(s: string, pat: string, rep: string): string
    requires pat != []
    decreases |s|
  {
    if |s| < |pat| then s
    else if s[..|pat|] == pat then rep + Replace(s[|pat|..], pat, rep)
    else [s[0]] + Replace(s[1..], pat, rep)
  }

  /** The longest prefix of `s` without whitespace. */
  function Word(s: string): (w: string)
    ensures |w| <= |s| && w == s[..|w|]
    ensures s != [] && !IsSpace(s[0]) ==> |w| > 0
    ensures forall i :: 0 <= i < |w| ==> !IsSpace(w[i])
    ensures |w| < |s| ==> IsSpace(s[|w|])
  {
    if s == [] || IsSpace(s[0]) then [] else [s[0]] + Word(s[1..])
  }

  /** `s.split()`: the maximal runs of non-whitespace characters. */
  function Split(s: string): (r: seq<string>)
    decreases |s|
  {
    if s == [] then []
    else if IsSpace(s[0]) then Split(s[1..])
    else [Word(s)] + Split(s[|Word(s)|..])
  }

  function LStrip(s: string): string
  {
    if s != [] && IsSpace(s[0]) then LStrip(s[1..]) else s
  }

  function RStrip(s: string): string
  {
    if s != [] && IsSpace(s[|s| - 1]) then RStrip(s[..|s| - 1]) else s
  }

  /** `s.strip()`. */
  function Strip(s: string): string
  {
    RStrip(LStrip(s))
  }

  /** `s.split(c)` for a one-character separator. */
  function SplitOn(s: string, c: char): (r: seq<string>)
    ensures |r| >= 1
  {
    if s == [] then [[]]
    else if s[0] == c then [[]] + SplitOn(s[1..], c)
    else
      var rest := SplitOn(s[1..], c);
      [[s[0]] + rest[0]] + rest[1..]
  }

  /** `c.join(xs)` for a one-character separator. */
  function Join(xs: seq<string>, c: char): string
  {
    if xs == [] then []
    else if |xs| == 1 then xs[0]
    else xs[0] + [c] + Join(xs[1..], c)
  }

  // ----- decimal numerals -----

  function Digit(d: nat): char
    requires d < 10
  {
    "0123456789"[d]
  }

  function DigitValue(c: char): nat
    requires IsDigit(c)
  {
    (c as int - '0' as int) as nat
  }

  /** `str(n)` for a natural number. */
  function NatToString(n: nat): (s: string)
    ensures s != [] && AllDigits(s)
  {
    if n < 10 then [Digit(n)] else NatToString(n / 10) + [Digit(n % 10)]
  }

  /** `str(i)` for an integer. */
  function IntToString(i: int): string
  {
    if i < 0 then "-" + NatToString(-i) else NatToString(i)
  }

  /** The value of a string of decimal digits. */
  function DigitsValue(s: string): nat
    requires AllDigits(s)
  {
    if s == [] then 0 else DigitsValue(s[..|s| - 1]) * 10 + DigitValue(s[|s| - 1])
  }

  /** `int(s)`: optional surrounding whitespace, an optional sign, at least one digit. */
  function ParseInt(s: string): (r: Option<int>)
  {
    var t := Strip(s);
    var neg := t != [] && t[0] == '-';
    var body := if t != [] && (t[0] == '-' || t[0] == '+') then t[1..] else t;
    if body != [] && AllDigits(body) then
      Some(if neg then -(DigitsValue(body) as int) else DigitsValue(body) as int)
    else None
  }

  // ----- lemmas -----

  lemma {:induction false} DigitsOfNat(n: nat)
    ensures DigitsValue(NatToString(n)) == n
  {
    if n >= 10 {
      DigitsOfNat(n / 10);
      var s := NatToString(n);
      assert s[..|s| - 1] == NatToString(n / 10);
    }
  }

  lemma NoSpaceNoStrip(s: string)
    requires forall i :: 0 <= i < |s| ==> !IsSpace(s[i])
    ensures Strip(s) == s
  {
    assert LStrip(s) == s;
  }

  /** `int(str(n)) == n`. */
  lemma ParseNatToString(n: nat)
    ensures ParseInt(NatToString(n)) == Some(n)
  {
    var s := NatToString(n);
    NoSpaceNoStrip(s);
    DigitsOfNat(n);
  }

  /** Lower-casing leaves digits, spaces and lower-case letters alone. */
  lemma LowerNoUpper(s: string)
    requires forall i :: 0 <= i < |s| ==> !('A' <= s[i] <= 'Z')
    ensures Lower(s) == s
  {
  }

  /** A prefix that cannot start an occurrence of the pattern is copied unchanged. */
  lemma {:induction false} ReplaceSkip(s: string, t: string, pat: string, rep: string)
    requires pat != []
    requires forall i :: 0 <= i < |s| ==> s[i] != pat[0]
    ensures Replace(s + t, pat, rep) == s + Replace(t, pat, rep)
    decreases |s|
  {
    if s == [] {
      assert s + t == t;
    } else {
      var st := s + t;
      ReplaceSkip(s[1..], t, pat, rep);
      assert st[1..] == s[1..] + t;
      if |st| < |pat| {
        ReplaceCorto(st, pat, rep);
        ReplaceCorto(t, pat, rep);
      } else {
        assert st[..|pat|][0] == s[0];
        assert Replace(st, pat, rep) == [s[0]] + Replace(st[1..], pat, rep);
        assert [s[0]] + (s[1..] + Replace(t, pat, rep)) == s + Replace(t, pat, rep);
      }
    }
  }

  /** A text shorter than the pattern holds no occurrence. */
  lemma ReplaceCorto(s: string, pat: string, rep: string)
    requires pat != [] && |s| < |pat|
    ensures Replace(s, pat, rep) == s
  {
  }

  /** One occurrence between two parts that cannot start another is the only one replaced. */
  lemma ReplaceMiddle(a: string, b: string, pat: string, rep: string)
    requires pat != []
    requires forall i :: 0 <= i < |a| ==> a[i] != pat[0]
    requires forall i :: 0 <= i < |b| ==> b[i] != pat[0]
    ensures Replace(a + pat + b, pat, rep) == a + rep + b
  {
    ReplaceSin(b, pat, rep);
    ReplaceHead(b, pat, rep);
    ReplaceSkip(a, pat + b, pat, rep);
    calc {
      Replace(a + pat + b, pat, rep);
      { assert a + pat + b == a + (pat + b); }
      Replace(a + (pat + b), pat, rep);
      a + Replace(pat + b, pat, rep);
      a + (rep + b);
      { assert a + (rep + b) == a + rep + b; }
      a + rep + b;
    }
  }

  /** A text without the pattern's first character is left unchanged. */
  lemma ReplaceSin(b: string, pat: string, rep: string)
    requires pat != []
    requires forall i :: 0 <= i < |b| ==> b[i] != pat[0]
    ensures Replace(b, pat, rep) == b
  {
    ReplaceSkip(b, [], pat, rep);
    ReplaceCorto([], pat, rep);
    assert b + [] == b;
  }

  /** An occurrence at the front is replaced. */
  lemma ReplaceHead(t: string, pat: string, rep: string)
    requires pat != []
    ensures Replace(pat + t, pat, rep) == rep + Replace(t, pat, rep)
  {
    assert (pat + t)[..|pat|] == pat;
    assert (pat + t)[|pat|..] == t;
  }

  /** A word followed by whitespace splits off as the first token. */
  lemma {:induction false} SplitWord(w: string, t: string)
    requires w != [] && forall i :: 0 <= i < |w| ==> !IsSpace(w[i])
    requires t == [] || IsSpace(t[0])
    ensures Split(w + t) == [w] + Split(t)
  {
    WordOf(w, t);
    assert (w + t)[|w|..] == t;
  }

  lemma {:induction false} WordOf(w: string, t: string)
    requires forall i :: 0 <= i < |w| ==> !IsSpace(w[i])
    requires t == [] || IsSpace(t[0])
    ensures Word(w + t) == w
    decreases |w|
  {
    if w != [] {
      WordOf(w[1..], t);
      assert (w + t)[1..] == w[1..] + t;
    }
  }

  /** Leading whitespace is skipped. */
  lemma SplitSpace(c: char, t: string)
    requires IsSpace(c)
    ensures Split([c] + t) == Split(t)
  {
    assert ([c] + t)[1..] == t;
  }

  /** An occurrence at position `i` makes `pat in s` true. */
  lemma {:induction false} InfixAt(pat: string, s: string, i: nat)
    requires i + |pat| <= |s| && s[i..i + |pat|] == pat
    ensures IsInfix(pat, s)
    decreases i
  {
    if i > 0 {
      assert s[1..][i - 1..i - 1 + |pat|] == s[i..i + |pat|];
      InfixAt(pat, s[1..], i - 1);
    }
  }

  /** A text where the pattern's first two characters never appear side by side holds no occurrence. */
  lemma {:induction false} SinPar(pat: string, s: string)
    requires |pat| >= 2
    requires forall i :: 0 <= i < |s| - 1 ==> !(s[i] == pat[0] && s[i + 1] == pat[1])
    ensures !IsInfix(pat, s)
    decreases |s|
  {
    if |pat| <= |s| {
      assert !(s[0] == pat[0] && s[1] == pat[1]);
      assert s[..|pat|][0] == s[0] && s[..|pat|][1] == s[1];
    }
    if s != [] {
      var t := s[1..];
      forall i | 0 <= i < |t| - 1 ensures !(t[i] == pat[0] && t[i + 1] == pat[1]) {
        assert t[i] == s[i + 1] && t[i + 1] == s[i + 2];
      }
      SinPar(pat, t);
    }
  }

  /** A prefix free of the pattern's first character can hold no occurrence of it. */
  lemma {:induction false} InfixSkip(pat: string, a: string, b: string)
    requires pat != [] && pat[0] !in a
    ensures IsInfix(pat, a + b) ==> IsInfix(pat, b)
    decreases |a|
  {
    if a != [] {
      assert (a + b)[0] == a[0];
      assert (a + b)[1..] == a[1..] + b;
      InfixSkip(pat, a[1..], b);
    } else {
      assert a + b == b;
    }
  }

  /** `(a + c + b).split(c)` puts `a` first when `a` holds no `c`. */
  lemma {:induction false} SplitOnPrefix(a: string, c: char, b: string)
    requires c !in a
    ensures SplitOn(a + [c] + b, c) == [a] + SplitOn(b, c)
    decreases |a|
  {
    if a == [] {
      assert [c] + b == a + [c] + b;
      assert ([c] + b)[1..] == b;
    } else {
      SplitOnPrefix(a[1..], c, b);
      var rest := SplitOn(a[1..] + [c] + b, c);
      assert (a + [c] + b)[1..] == a[1..] + [c] + b;
      assert rest[0] == a[1..] && rest[1..] == SplitOn(b, c);
      assert [a[0]] + a[1..] == a;
    }
  }

  /** A string without the separator splits into itself alone. */
  lemma {:induction false} SplitOnNone(a: string, c: char)
    requires c !in a
    ensures SplitOn(a, c) == [a]
    decreases |a|
  {
    if a != [] {
      SplitOnNone(a[1..], c);
      assert [a[0]] + a[1..] == a;
    }
  }

  /** Splitting a join gives the parts back when no part holds the separator. */
  lemma {:induction false} SplitOnJoin(xs: seq<string>, c: char)
    requires xs != []
    requires forall i :: 0 <= i < |xs| ==> c !in xs[i]
    ensures SplitOn(Join(xs, c), c) == xs
    decreases |xs|
  {
    if |xs| == 1 {
      SplitOnNone(xs[0], c);
    } else {
      SplitOnJoin(xs[1..], c);
      SplitOnPrefix(xs[0], c, Join(xs[1..], c));
      assert [xs[0]] + xs[1..] == xs;
    }
  }
}
