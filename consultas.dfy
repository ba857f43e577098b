/** The LINQ operators the services apply to in-memory lists and to tables: FirstOrDefault by a
    condition, Where, Count, Select, and OrderBy on a numeric key (a stable sort). */
module Consultas {
  import opened Wrappers

  /** Position of the first element satisfying p (FirstOrDefault / FindAsync). */
  function Primero<T>(s: seq<T>, p: T -> bool): (r: Option<nat>)
    ensures r.Some? ==> r.value < |s| && p(s[r.value]) && forall j :: 0 <= j < r.value ==> !p(s[j])
    ensures r.None? ==> forall j :: 0 <= j < |s| ==> !p(s[j])
    decreases |s|
  {
    if s == [] then None
    else if p(s[0]) then Some(0)
    else match Primero(s[1..], p)
      case None => None
      case Some(k) => Some(k + 1)
  }

  /** Where: the elements satisfying p, in their order. */
  function Filtrar<T>(s: seq<T>, p: T -> bool): (r: seq<T>)
    ensures |r| <= |s|
    ensures forall k :: 0 <= k < |r| ==> r[k] in s && p(r[k])
    ensures forall k :: 0 <= k < |s| && p(s[k]) ==> s[k] in r
    decreases |s|
  {
    if s == [] then []
    else if p(s[0]) then [s[0]] + Filtrar(s[1..], p)
    else Filtrar(s[1..], p)
  }

  /** Count(p). */
  function Contar<T>(s: seq<T>, p: T -> bool): nat
    decreases |s|
  {
    if s == [] then 0 else (if p(s[0]) then 1 else 0) + Contar(s[1..], p)
  }

  /** Counting is the length of the filtered list. */
  lemma {:induction false} ContarEsFiltrar<T>(s: seq<T>, p: T -> bool)
    ensures Contar(s, p) == |Filtrar(s, p)|
    decreases |s|
  {
    if s != [] {
      ContarEsFiltrar(s[1..], p);
    }
  }

  /** Select(f): f applied to each element, in order. */
  function Proyectar<A, B>(s: seq<A>, f: A -> B): (r: seq<B>)
    ensures |r| == |s|
    decreases |s|
  {
    if s == [] then [] else [f(s[0])] + Proyectar(s[1..], f)
  }

  /** Element k of the projection is f of element k. */
  lemma {:induction false} ProyectarEnPosicion<A, B>(s: seq<A>, f: A -> B, k: nat)
    requires k < |s|
    ensures Proyectar(s, f)[k] == f(s[k])
    decreases |s|
  {
    if k > 0 {
      ProyectarEnPosicion(s[1..], f, k - 1);
    }
  }

  /** Projecting a suffix from position i on is f of element i followed by the projection of
      the rest: the step of a loop that builds the projection element by element. */
  lemma ProyectarPaso<A, B>(hechas: seq<B>, s: seq<A>, f: A -> B, i: nat)
    requires i < |s|
    ensures hechas + Proyectar(s[i..], f) == (hechas + [f(s[i])]) + Proyectar(s[i + 1..], f)
  {
    assert s[i..][1..] == s[i + 1..];
  }

  predicate OrdenadaPor<T>(s: seq<T>, clave: T -> real)
  {
    forall i, j :: 0 <= i < j < |s| ==> clave(s[i]) <= clave(s[j])
  }

  /** Inserts x before the first element whose key is not smaller. */
  function Insertar<T>(x: T, s: seq<T>, clave: T -> real): seq<T>
    decreases |s|
  {
    if s == [] || clave(x) <= clave(s[0]) then [x] + s
    else [s[0]] + Insertar(x, s[1..], clave)
  }

  /** OrderBy(clave): each element is inserted ahead of the later ones with an equal key, so
      equal keys keep their order. */
  function OrdenarPor<T>(s: seq<T>, clave: T -> real): seq<T>
    decreases |s|
  {
    if s == [] then [] else Insertar(s[0], OrdenarPor(s[1..], clave), clave)
  }

  /** Inserting adds x and nothing else. */
  lemma {:induction false} InsertarConserva<T>(x: T, s: seq<T>, clave: T -> real)
    ensures multiset(Insertar(x, s, clave)) == multiset(s) + multiset{x}
    decreases |s|
  {
    if !(s == [] || clave(x) <= clave(s[0])) {
      InsertarConserva(x, s[1..], clave);
      assert s == [s[0]] + s[1..];
    }
  }

  /** In a sorted list the first key bounds every later element's key, and so bounds every
      element of any list made of the later elements and a larger x. */
  lemma CotaDelPrimero<T>(x: T, s: seq<T>, t: seq<T>, clave: T -> real)
    requires OrdenadaPor(s, clave) && s != [] && clave(s[0]) <= clave(x)
    requires multiset(t) == multiset(s[1..]) + multiset{x}
    ensures forall k :: 0 <= k < |t| ==> clave(s[0]) <= clave(t[k])
  {
    forall k | 0 <= k < |t| ensures clave(s[0]) <= clave(t[k]) {
      assert t[k] in multiset(t);
      if t[k] != x {
        assert t[k] in multiset(s[1..]);
        var m :| 0 <= m < |s[1..]| && s[1..][m] == t[k];
        assert s[m + 1] == t[k];
      }
    }
  }

  /** Inserting into a sorted list keeps it sorted. */
  lemma {:induction false} InsertarOrdenada<T>(x: T, s: seq<T>, clave: T -> real)
    requires OrdenadaPor(s, clave)
    ensures OrdenadaPor(Insertar(x, s, clave), clave)
    decreases |s|
  {
    if s == [] || clave(x) <= clave(s[0]) {
      var r := [x] + s;
      forall i, j | 0 <= i < j < |r| ensures clave(r[i]) <= clave(r[j]) {
        if i > 0 {
          assert r[i] == s[i - 1] && r[j] == s[j - 1];
        } else {
          assert r[j] == s[j - 1];
        }
      }
    } else {
      var t := Insertar(x, s[1..], clave);
      InsertarOrdenada(x, s[1..], clave);
      InsertarConserva(x, s[1..], clave);
      CotaDelPrimero(x, s, t, clave);
      var r := [s[0]] + t;
      forall i, j | 0 <= i < j < |r| ensures clave(r[i]) <= clave(r[j]) {
        assert r[j] == t[j - 1];
        if i > 0 {
          assert r[i] == t[i - 1];
        }
      }
    }
  }

  /** OrderBy yields the same elements, sorted by the key. */
  lemma {:induction false} OrdenarPorOrdena<T>(s: seq<T>, clave: T -> real)
    ensures OrdenadaPor(OrdenarPor(s, clave), clave)
    ensures multiset(OrdenarPor(s, clave)) == multiset(s)
    decreases |s|
  {
    if s != [] {
      OrdenarPorOrdena(s[1..], clave);
      InsertarOrdenada(s[0], OrdenarPor(s[1..], clave), clave);
      InsertarConserva(s[0], OrdenarPor(s[1..], clave), clave);
      assert s == [s[0]] + s[1..];
    }
  }

  /** Two lists whose elements agree on p, position by position, have the same first match. */
  lemma {:induction false} PrimeroIgual<T>(s: seq<T>, t: seq<T>, p: T -> bool)
    requires |s| == |t| && forall j :: 0 <= j < |s| ==> p(s[j]) == p(t[j])
    ensures Primero(s, p) == Primero(t, p)
    decreases |s|
  {
    if s != [] {
      PrimeroIgual(s[1..], t[1..], p);
    }
  }

  /** An element is in the filtered list exactly when it is in the list and satisfies p. */
  lemma FiltrarMiembro<T>(s: seq<T>, p: T -> bool, x: T)
    ensures x in Filtrar(s, p) <==> x in s && p(x)
  {
    var r := Filtrar(s, p);
    if x in r {
      var k :| 0 <= k < |r| && r[k] == x;
    }
    if x in s && p(x) {
      var k :| 0 <= k < |s| && s[k] == x;
    }
  }

  /** Two conditions that agree on every element of a list pick the same first match in it. */
  lemma {:induction false} PrimeroEquivalente<T>(s: seq<T>, p: T -> bool, q: T -> bool)
    requires forall j :: 0 <= j < |s| ==> p(s[j]) == q(s[j])
    ensures Primero(s, p) == Primero(s, q)
    decreases |s|
  {
    if s != [] {
      PrimeroEquivalente(s[1..], p, q);
    }
  }
}
