/** `Collections.sort` with the comparators the bank code passes to it: a
    stable sort (Java's merge sort keeps equal elements in their original
    order), modelled as a stable insertion sort on a key per element. */
module Ordenacao {
  import opened Texto

  /** The key an element is sorted by: a text compared with `String.compareTo`
      in ascending order, or an amount compared in descending order. */
  datatype Chave = Crescente(texto: string) | Decrescente(valor: real)

  /** `a` may come before `b`: the comparator returns a value <= 0. Mixed keys
      never occur in one sort; they are ordered texts first so the relation is total. */
  predicate Antes(a: Chave, b: Chave) {
    match (a, b)
    case (Crescente(x), Crescente(y)) => Compara(x, y) <= 0
    case (Decrescente(x), Decrescente(y)) => x >= y
    case (Crescente(_), Decrescente(_)) => true
    case (Decrescente(_), Crescente(_)) => false
  }

  /** The comparator returns 0. */
  predicate Equivalentes(a: Chave, b: Chave) {
    Antes(a, b) && Antes(b, a)
  }

  lemma AntesTotal(a: Chave, b: Chave)
    ensures Antes(a, b) || Antes(b, a)
  {
    if a.Crescente? && b.Crescente? {
      ComparaAntissimetrica(a.texto, b.texto);
    }
  }

  lemma AntesTransitivo(a: Chave, b: Chave, c: Chave)
    requires Antes(a, b) && Antes(b, c)
    ensures Antes(a, c)
  {
    if a.Crescente? && b.Crescente? && c.Crescente? {
      ComparaTransitiva(a.texto, b.texto, c.texto);
    }
  }

  predicate Ordenada<T>(s: seq<T>, chave: T -> Chave) {
    forall i, j :: 0 <= i < j < |s| ==> Antes(chave(s[i]), chave(s[j]))
  }

  lemma OrdenadaCauda<T>(s: seq<T>, chave: T -> Chave)
    requires s != [] && Ordenada(s, chave)
    ensures Ordenada(s[1..], chave)
  {
    forall i, j | 0 <= i < j < |s[1..]|
      ensures Antes(chave(s[1..][i]), chave(s[1..][j]))
    {
      assert s[1..][i] == s[i + 1] && s[1..][j] == s[j + 1];
    }
  }

  /** Inserts `x` after every element that may come before it. */
  function Insere<T>(s: seq<T>, x: T, chave: T -> Chave): (r: seq<T>)
    ensures multiset(r) == multiset(s) + multiset{x}
  {
    if s == [] then [x]
    else if !Antes(chave(s[0]), chave(x)) then [x] + s
    else
      assert s == [s[0]] + s[1..];
      [s[0]] + Insere(s[1..], x, chave)
  }

  /** The sorted copy: each element in turn is inserted into the sorted copy of
      the elements before it. */
  function Ordena<T>(s: seq<T>, chave: T -> Chave): (r: seq<T>)
    ensures multiset(r) == multiset(s)
    ensures Ordenada(r, chave)
  {
    if s == [] then []
    else
      var p := s[..|s| - 1];
      assert s == p + [s[|s| - 1]];
      var r := Insere(Ordena(p, chave), s[|s| - 1], chave);
      InsereOrdenada(Ordena(p, chave), s[|s| - 1], chave);
      r
  }

  /** A sorted sequence stays sorted behind a head that may come before all of it. */
  lemma OrdenadaComCabeca<T>(h: T, t: seq<T>, chave: T -> Chave)
    requires Ordenada(t, chave)
    requires forall i :: 0 <= i < |t| ==> Antes(chave(h), chave(t[i]))
    ensures Ordenada([h] + t, chave)
  {
    forall i, j | 0 <= i < j < |[h] + t|
      ensures Antes(chave(([h] + t)[i]), chave(([h] + t)[j]))
    {
      assert ([h] + t)[j] == t[j - 1];
      if i > 0 {
        assert ([h] + t)[i] == t[i - 1];
      }
    }
  }

  /** A key that may come before every element and before `x` may come before
      every element of the insertion. */
  lemma {:induction false} InsereCotaInferior<T>(s: seq<T>, x: T, chave: T -> Chave, c: Chave)
    requires forall i :: 0 <= i < |s| ==> Antes(c, chave(s[i]))
    requires Antes(c, chave(x))
    ensures forall i :: 0 <= i < |Insere(s, x, chave)| ==> Antes(c, chave(Insere(s, x, chave)[i]))
  {
    if s != [] && Antes(chave(s[0]), chave(x)) {
      var t := Insere(s[1..], x, chave);
      forall i | 0 <= i < |s[1..]|
        ensures Antes(c, chave(s[1..][i]))
      {
        assert s[1..][i] == s[i + 1];
      }
      InsereCotaInferior(s[1..], x, chave, c);
      assert Insere(s, x, chave) == [s[0]] + t;
      forall i | 0 <= i < |[s[0]] + t|
        ensures Antes(c, chave(([s[0]] + t)[i]))
      {
        if i > 0 {
          assert ([s[0]] + t)[i] == t[i - 1];
        }
      }
    } else if s != [] {
      assert Insere(s, x, chave) == [x] + s;
      forall i | 0 <= i < |[x] + s|
        ensures Antes(c, chave(([x] + s)[i]))
      {
        if i > 0 {
          assert ([x] + s)[i] == s[i - 1];
        }
      }
    }
  }

  lemma {:induction false} InsereOrdenada<T>(s: seq<T>, x: T, chave: T -> Chave)
    requires Ordenada(s, chave)
    ensures Ordenada(Insere(s, x, chave), chave)
  {
    if s == [] {
    } else if !Antes(chave(s[0]), chave(x)) {
      AntesTotal(chave(s[0]), chave(x));
      forall j | 0 <= j < |s|
        ensures Antes(chave(x), chave(s[j]))
      {
        if j > 0 {
          AntesTransitivo(chave(x), chave(s[0]), chave(s[j]));
        }
      }
      OrdenadaComCabeca(x, s, chave);
    } else {
      var t := Insere(s[1..], x, chave);
      OrdenadaCauda(s, chave);
      InsereOrdenada(s[1..], x, chave);
      forall i | 0 <= i < |s[1..]|
        ensures Antes(chave(s[0]), chave(s[1..][i]))
      {
        assert s[1..][i] == s[i + 1];
      }
      InsereCotaInferior(s[1..], x, chave, chave(s[0]));
      OrdenadaComCabeca(s[0], t, chave);
    }
  }

  /** The elements of `s` whose key is equivalent to `k`, in order. */
  function Classe<T>(s: seq<T>, chave: T -> Chave, k: Chave): (r: seq<T>)
    ensures |r| <= |s|
  {
    if s == [] then []
    else (if Equivalentes(chave(s[0]), k) then [s[0]] else []) + Classe(s[1..], chave, k)
  }

  lemma {:induction false} ClasseConcatena<T>(a: seq<T>, b: seq<T>, chave: T -> Chave, k: Chave)
    ensures Classe(a + b, chave, k) == Classe(a, chave, k) + Classe(b, chave, k)
  {
    if a == [] {
      assert a + b == b;
    } else {
      var ab := a + b;
      assert ab[0] == a[0] && ab[1..] == a[1..] + b;
      ClasseConcatena(a[1..], b, chave, k);
      var h := if Equivalentes(chave(a[0]), k) then [a[0]] else [];
      assert Classe(ab, chave, k) == h + Classe(ab[1..], chave, k);
      assert Classe(a, chave, k) == h + Classe(a[1..], chave, k);
      ConcatenaAssocia(h, Classe(a[1..], chave, k), Classe(b, chave, k));
    }
  }

  /** No element after a key strictly greater than that of `x` is equivalent to `x`. */
  lemma {:induction false} ClasseVaziaDepois<T>(s: seq<T>, x: T, chave: T -> Chave, k: Chave)
    requires Ordenada(s, chave)
    requires s != [] && !Antes(chave(s[0]), chave(x))
    requires Equivalentes(chave(x), k)
    ensures Classe(s, chave, k) == []
  {
    if Equivalentes(chave(s[0]), k) {
      AntesTransitivo(chave(s[0]), k, chave(x));
    }
    if |s| > 1 {
      if !Antes(chave(s[1]), chave(x)) {
        OrdenadaCauda(s, chave);
        ClasseVaziaDepois(s[1..], x, chave, k);
      } else {
        AntesTransitivo(chave(s[0]), chave(s[1]), chave(x));
      }
    }
  }

  /** `x` goes in front: it is the last of its class, whose other members all come later. */
  lemma InsereClasseNaFrente<T>(s: seq<T>, x: T, chave: T -> Chave, k: Chave)
    requires Ordenada(s, chave)
    requires s != [] && !Antes(chave(s[0]), chave(x))
    ensures Classe([x] + s, chave, k)
         == Classe(s, chave, k) + (if Equivalentes(chave(x), k) then [x] else [])
  {
    assert ([x] + s)[0] == x && ([x] + s)[1..] == s;
    if Equivalentes(chave(x), k) {
      ClasseVaziaDepois(s, x, chave, k);
    }
  }

  /** `x` goes after the head: the head's class gains nothing, the rest is the
      insertion into the tail. */
  lemma InsereClasseDepois<T>(s: seq<T>, x: T, chave: T -> Chave, k: Chave)
    requires s != [] && Antes(chave(s[0]), chave(x))
    requires Classe(Insere(s[1..], x, chave), chave, k)
          == Classe(s[1..], chave, k) + (if Equivalentes(chave(x), k) then [x] else [])
    ensures Classe(Insere(s, x, chave), chave, k)
         == Classe(s, chave, k) + (if Equivalentes(chave(x), k) then [x] else [])
  {
    var t := Insere(s[1..], x, chave);
    var h := if Equivalentes(chave(s[0]), k) then [s[0]] else [];
    var e := if Equivalentes(chave(x), k) then [x] else [];
    assert Insere(s, x, chave) == [s[0]] + t;
    assert ([s[0]] + t)[0] == s[0] && ([s[0]] + t)[1..] == t;
    assert Classe([s[0]] + t, chave, k) == h + Classe(t, chave, k);
    assert Classe(s, chave, k) == h + Classe(s[1..], chave, k);
    ConcatenaAssocia(h, Classe(s[1..], chave, k), e);
  }

  lemma ConcatenaAssocia<T>(a: seq<T>, b: seq<T>, c: seq<T>)
    ensures a + (b + c) == (a + b) + c
  {
  }

  /** Inserting `x` into a sorted sequence appends it to its own class and
      leaves every other class as it was. */
  lemma {:induction false} InsereClasse<T>(s: seq<T>, x: T, chave: T -> Chave, k: Chave)
    requires Ordenada(s, chave)
    ensures Classe(Insere(s, x, chave), chave, k)
         == Classe(s, chave, k) + (if Equivalentes(chave(x), k) then [x] else [])
  {
    if s == [] {
    } else if !Antes(chave(s[0]), chave(x)) {
      InsereClasseNaFrente(s, x, chave, k);
    } else {
      OrdenadaCauda(s, chave);
      InsereClasse(s[1..], x, chave, k);
      InsereClasseDepois(s, x, chave, k);
    }
  }

  /** Stability: sorting keeps every class of equivalent elements in its original order. */
  lemma {:induction false} OrdenaEstavel<T>(s: seq<T>, chave: T -> Chave, k: Chave)
    ensures Classe(Ordena(s, chave), chave, k) == Classe(s, chave, k)
  {
    if s != [] {
      var p := s[..|s| - 1];
      var x := s[|s| - 1];
      assert s == p + [x];
      OrdenaEstavel(p, chave, k);
      InsereClasse(Ordena(p, chave), x, chave, k);
      ClasseConcatena(p, [x], chave, k);
    }
  }
}
