/** An optional value: Java's `null` results (lookups that find nothing,
    a form that fails validation, a number that cannot be parsed). */
module Opcional {
  datatype Option<T> = None | Some(value: T)
}

/** The string operations of java.lang.String that the bank code relies on,
    stated over `seq<char>`. */
module Texto {

  predicate EhDigito(c: char) {
    '0' <= c <= '9'
  }

  predicate SoTemDigitos(s: string) {
    forall i :: 0 <= i < |s| ==> EhDigito(s[i])
  }

  /** `s.replaceAll("[^0-9]", "")`: the digits of `s`, in order. */
  function SoDigitos(s: string): (r: string)
    ensures SoTemDigitos(r)
    ensures |r| <= |s|
  {
    if s == [] then []
    else (if EhDigito(s[0]) then [s[0]] else []) + SoDigitos(s[1..])
  }

  lemma {:induction false} SoDigitosConcatena(a: string, b: string)
    ensures SoDigitos(a + b) == SoDigitos(a) + SoDigitos(b)
  {
    if a == [] {
      assert a + b == b;
    } else {
      assert (a + b)[0] == a[0] && (a + b)[1..] == a[1..] + b;
      SoDigitosConcatena(a[1..], b);
    }
  }

  lemma {:induction false} SoDigitosDeDigitos(s: string)
    requires SoTemDigitos(s)
    ensures SoDigitos(s) == s
  {
    if s != [] {
      SoDigitosDeDigitos(s[1..]);
    }
  }

  /** Number of occurrences of `c` in `s`. */
  function Ocorrencias(s: string, c: char): nat {
    if s == [] then 0 else (if s[0] == c then 1 else 0) + Ocorrencias(s[1..], c)
  }

  lemma {:induction false} OcorrenciasConcatena(a: string, b: string, c: char)
    ensures Ocorrencias(a + b, c) == Ocorrencias(a, c) + Ocorrencias(b, c)
  {
    if a == [] {
      assert a + b == b;
    } else {
      assert (a + b)[0] == a[0] && (a + b)[1..] == a[1..] + b;
      OcorrenciasConcatena(a[1..], b, c);
    }
  }

  /** `s.replace(String.valueOf(c), "")`: `s` without any `c`. */
  function RemoveCaractere(s: string, c: char): (r: string)
    ensures c !in r
    ensures SoDigitos(r) == SoDigitos(s) || EhDigito(c)
    ensures Ocorrencias(s, c) + |r| == |s|
  {
    if s == [] then []
    else
      var h := if s[0] == c then [] else [s[0]];
      var t := RemoveCaractere(s[1..], c);
      SoDigitosConcatena(h, t);
      h + t
  }

  /** `s.replace(a, b)` for characters: every `a` becomes `b`. */
  function TrocaCaractere(s: string, a: char, b: char): (r: string)
    ensures |r| == |s|
    ensures forall i :: 0 <= i < |s| ==> r[i] == (if s[i] == a then b else s[i])
  {
    if s == [] then []
    else [if s[0] == a then b else s[0]] + TrocaCaractere(s[1..], a, b)
  }

  /** Removing `c` keeps the count of every other character and leaves no `c`. */
  lemma {:induction false} RemoveCaractereConta(s: string, c: char, d: char)
    ensures Ocorrencias(RemoveCaractere(s, c), c) == 0
    ensures d != c ==> Ocorrencias(RemoveCaractere(s, c), d) == Ocorrencias(s, d)
  {
    if s != [] {
      var h := if s[0] == c then [] else [s[0]];
      RemoveCaractereConta(s[1..], c, d);
      OcorrenciasConcatena(h, RemoveCaractere(s[1..], c), c);
      OcorrenciasConcatena(h, RemoveCaractere(s[1..], c), d);
    }
  }

  /** Turning every `a` into `b` adds the count of `a` to that of `b`; when neither
      is a digit, the digits are unchanged. */
  lemma {:induction false} TrocaCaractereConta(s: string, a: char, b: char)
    requires a != b
    ensures Ocorrencias(TrocaCaractere(s, a, b), b) == Ocorrencias(s, a) + Ocorrencias(s, b)
    ensures !EhDigito(a) && !EhDigito(b) ==> SoDigitos(TrocaCaractere(s, a, b)) == SoDigitos(s)
  {
    if s != [] {
      var h := [if s[0] == a then b else s[0]];
      var t := TrocaCaractere(s[1..], a, b);
      TrocaCaractereConta(s[1..], a, b);
      OcorrenciasConcatena(h, t, b);
      SoDigitosConcatena(h, t);
    }
  }

  predicate DigitoOuPonto(c: char) {
    EhDigito(c) || c == '.'
  }

  /** `s.replaceAll("[^0-9.]", "")`: the digits and dots of `s`, in order. */
  function SoDigitosEPontos(s: string): (r: string)
    ensures forall i :: 0 <= i < |r| ==> DigitoOuPonto(r[i])
    ensures SoDigitos(r) == SoDigitos(s)
    ensures Ocorrencias(r, '.') == Ocorrencias(s, '.')
    ensures |r| <= |s|
  {
    if s == [] then []
    else
      var h := if DigitoOuPonto(s[0]) then [s[0]] else [];
      var t := SoDigitosEPontos(s[1..]);
      SoDigitosConcatena(h, t);
      OcorrenciasConcatena(h, t, '.');
      h + t
  }

  /** Replacing characters distributes over concatenation. */
  lemma TrocaCaractereConcatena(x: string, y: string, a: char, b: char)
    ensures TrocaCaractere(x + y, a, b) == TrocaCaractere(x, a, b) + TrocaCaractere(y, a, b)
  {
  }

  /** Keeping the digits and points distributes over concatenation. */
  lemma {:induction false} SoDigitosEPontosConcatena(x: string, y: string)
    ensures SoDigitosEPontos(x + y) == SoDigitosEPontos(x) + SoDigitosEPontos(y)
  {
    if x == [] {
      assert x + y == y;
    } else {
      assert (x + y)[0] == x[0] && (x + y)[1..] == x[1..] + y;
      SoDigitosEPontosConcatena(x[1..], y);
    }
  }

  /** The text obtained by putting what `f` makes of each character of `s` side by side. */
  function PorCaractere(s: string, f: char -> string): string {
    if s == [] then [] else f(s[0]) + PorCaractere(s[1..], f)
  }

  /** What one character becomes under `replaceAll("[^0-9]", "")`: a digit stays,
      anything else disappears. */
  function CaractereDigito(c: char): string {
    if EhDigito(c) then [c] else []
  }

  /** Cleaning acts on each character on its own, in order. */
  lemma {:induction false} SoDigitosPorCaractere(s: string)
    ensures SoDigitos(s) == PorCaractere(s, CaractereDigito)
  {
    if s != [] {
      SoDigitosPorCaractere(s[1..]);
    }
  }

  /** `s.trim().isEmpty()`: every character is at most U+0020. */
  predicate EmBranco(s: string) {
    forall i :: 0 <= i < |s| ==> s[i] <= ' '
  }

  /** The leading part of `trim`: drops the characters up to U+0020 at the front. */
  function RecortaInicio(s: string): (r: string)
    ensures |r| <= |s| && r == s[|s| - |r|..]
    ensures forall i :: 0 <= i < |s| - |r| ==> s[i] <= ' '
    ensures r == [] || r[0] > ' '
  {
    if s != [] && s[0] <= ' ' then RecortaInicio(s[1..]) else s
  }

  /** The trailing part of `trim`: drops the characters up to U+0020 at the end. */
  function RecortaFim(s: string): (r: string)
    ensures |r| <= |s| && r == s[..|r|]
    ensures forall i :: |r| <= i < |s| ==> s[i] <= ' '
    ensures r == [] || r[|r| - 1] > ' '
  {
    if s != [] && s[|s| - 1] <= ' ' then RecortaFim(s[..|s| - 1]) else s
  }

  /** `s.trim()`. */
  function Recorta(s: string): string {
    RecortaFim(RecortaInicio(s))
  }

  /** `trim()` leaves nothing exactly when every character is at most U+0020. */
  lemma EmBrancoRecorta(s: string)
    ensures EmBranco(s) <==> Recorta(s) == []
  {
    var inicio := RecortaInicio(s);
    if inicio != [] {
      assert inicio[0] > ' ' && inicio[0] == s[|s| - |inicio|];
      assert |RecortaFim(inicio)| > 0;
    }
  }

  /** `t` occurs in `s` starting at position `i`. */
  predicate OcorreEm(s: string, t: string, i: int) {
    0 <= i <= |s| - |t| && s[i..i + |t|] == t
  }

  /** `s.contains(t)`: `t` is a prefix of some suffix of `s`, that is, `t`
      occurs in `s` at some position. */
  predicate Contem(s: string, t: string)
    ensures Contem(s, t) <==> exists i :: OcorreEm(s, t, i)
  {
    if t <= s then
      assert OcorreEm(s, t, 0);
      true
    else if s == [] then
      false
    else
      var resto := Contem(s[1..], t);
      if resto then
        var i :| OcorreEm(s[1..], t, i);
        assert OcorreEm(s, t, i + 1);
        true
      else
        assert forall i :: !OcorreEm(s, t, i) by {
          forall i
            ensures !OcorreEm(s, t, i)
          {
            if i == 0 && |t| <= |s| {
              assert s[..|t|] == s[0..|t|];
            } else if 0 < i <= |s| - |t| {
              var aqui := s[i..i + |t|];
              var noResto := s[1..][i - 1..i - 1 + |t|];
              assert forall j :: 0 <= j < |t| ==> aqui[j] == noResto[j];
              assert aqui == noResto;
              assert !OcorreEm(s[1..], t, i - 1);
            }
          }
        }
        false
  }

  /** `Character.toLowerCase` on the letters the model covers: ASCII A-Z and
      the Latin-1 capitals U+00C0-U+00DE except the sign U+00D7. */
  function MinusculaChar(c: char): char {
    if 'A' <= c <= 'Z' || ('À' <= c <= 'Þ' && c != '×')
    then (c as int + 32) as char
    else c
  }

  /** `s.toLowerCase()`. */
  function Minusculas(s: string): (r: string)
    ensures |r| == |s|
    ensures forall i :: 0 <= i < |s| ==> r[i] == MinusculaChar(s[i])
  {
    if s == [] then [] else [MinusculaChar(s[0])] + Minusculas(s[1..])
  }

  /** `a.equalsIgnoreCase(b)`: the same length, and the characters at every
      position equal once lower-cased. */
  predicate IgualIgnorandoCaixa(a: string, b: string)
    ensures IgualIgnorandoCaixa(a, b) <==>
              |a| == |b| && forall i :: 0 <= i < |a| ==> MinusculaChar(a[i]) == MinusculaChar(b[i])
  {
    Minusculas(a) == Minusculas(b)
  }

  /** `a.compareTo(b)`: the difference of the first differing characters,
      or of the lengths when one string is a prefix of the other. */
  function Compara(a: string, b: string): int {
    if a == [] || b == [] then |a| - |b|
    else if a[0] != b[0] then a[0] as int - b[0] as int
    else Compara(a[1..], b[1..])
  }

  /** When one string is a prefix of the other, `compareTo` is the difference of the lengths. */
  lemma {:induction false} ComparaPrefixo(a: string, b: string)
    requires a <= b || b <= a
    ensures Compara(a, b) == |a| - |b|
  {
    if a != [] && b != [] {
      assert a[0] == b[0];
      assert a[1..] <= b[1..] || b[1..] <= a[1..];
      ComparaPrefixo(a[1..], b[1..]);
    }
  }

  /** Otherwise `compareTo` is the difference of the characters at the first
      position where the strings differ. */
  lemma {:induction false} ComparaPrimeiraDiferenca(a: string, b: string, k: int)
    requires 0 <= k < |a| && k < |b| && a[..k] == b[..k] && a[k] != b[k]
    ensures Compara(a, b) == a[k] as int - b[k] as int
  {
    if k > 0 {
      assert a[0] == a[..k][0] == b[..k][0] == b[0];
      assert a[1..][..k - 1] == a[1..k] == a[..k][1..];
      assert b[1..][..k - 1] == b[1..k] == b[..k][1..];
      ComparaPrimeiraDiferenca(a[1..], b[1..], k - 1);
    }
  }

  lemma {:induction false} ComparaZero(a: string, b: string)
    ensures Compara(a, b) == 0 <==> a == b
  {
    if a != [] && b != [] && a[0] == b[0] {
      ComparaZero(a[1..], b[1..]);
      assert a == [a[0]] + a[1..] && b == [b[0]] + b[1..];
    }
  }

  lemma {:induction false} ComparaAntissimetrica(a: string, b: string)
    ensures Compara(b, a) == -Compara(a, b)
  {
    if a != [] && b != [] && a[0] == b[0] {
      ComparaAntissimetrica(a[1..], b[1..]);
    }
  }

  lemma {:induction false} ComparaTransitiva(a: string, b: string, c: string)
    requires Compara(a, b) <= 0 && Compara(b, c) <= 0
    ensures Compara(a, c) <= 0
  {
    if a != [] && b != [] && c != [] && a[0] == b[0] && b[0] == c[0] {
      ComparaTransitiva(a[1..], b[1..], c[1..]);
    }
  }
}
