/** The .NET string and integer operations the services rely on: Char.IsWhiteSpace,
    Trim, string.IsNullOrWhiteSpace, StartsWith/Contains (ordinal), Split, int.ToString("D<n>"),
    int.TryParse, ordinal string order and 32-bit wrap-around. Strings are never null here. */
module Sistema {
  import opened Wrappers

  // ---------------------------------------------------------------- whitespace and Trim

  /** Char.IsWhiteSpace: the Unicode space, line and paragraph separators plus U+0009..U+000D and U+0085. */
  predicate EsEspacio(c: char)
  {
    c == ' ' || ('\t' <= c <= '\r') || c == '\U{0085}' || c == '\U{00A0}' || c == '\U{1680}'
    || ('\U{2000}' <= c <= '\U{200A}') || c == '\U{2028}' || c == '\U{2029}' || c == '\U{202F}'
    || c == '\U{205F}' || c == '\U{3000}'
  }

  /** The white space int.TryParse skips around a number (NumberStyles.Integer). */
  predicate EsEspacioNumerico(c: char)
  {
    c == ' ' || ('\t' <= c <= '\r')
  }

  /** string.IsNullOrWhiteSpace on a non-null string. */
  predicate EsBlanco(s: string)
  {
    forall i :: 0 <= i < |s| ==> EsEspacio(s[i])
  }

  /** Removes the leading characters that satisfy esp. */
  function RecortarInicio(s: string, esp: char -> bool): (r: string)
    ensures |r| <= |s| && r == s[|s| - |r|..]
    ensures forall i :: 0 <= i < |s| - |r| ==> esp(s[i])
    ensures r != [] ==> !esp(r[0])
    decreases |s|
  {
    if s != [] && esp(s[0]) then RecortarInicio(s[1..], esp) else s
  }

  /** Removes the trailing characters that satisfy esp. */
  function RecortarFin(s: string, esp: char -> bool): (r: string)
    ensures |r| <= |s| && r == s[..|r|]
    ensures forall i :: |r| <= i < |s| ==> esp(s[i])
    ensures r != [] ==> !esp(r[|r| - 1])
    decreases |s|
  {
    if s != [] && esp(s[|s| - 1]) then RecortarFin(s[..|s| - 1], esp) else s
  }

  function RecortarCon(s: string, esp: char -> bool): string
  {
    RecortarFin(RecortarInicio(s, esp), esp)
  }

  /** string.Trim(): what is left has no white space at either end, and it is empty
      exactly when the whole string is white space. */
  function Recortar(s: string): (r: string)
    ensures r != [] ==> !EsEspacio(r[0]) && !EsEspacio(r[|r| - 1])
    ensures r == [] <==> EsBlanco(s)
    ensures |r| <= |s|
  {
    var i := RecortarInicio(s, EsEspacio);
    var r := RecortarFin(i, EsEspacio);
    assert r != [] ==> r[0] == i[0];
    assert r == [] ==> i == [];
    assert i != [] ==> i[0] == s[|s| - |i|];
    r
  }

  /** Trim only removes characters. */
  lemma RecortarCaracteres(s: string)
    ensures forall c :: c in Recortar(s) ==> c in s
  {
    var i := RecortarInicio(s, EsEspacio);
    var r := RecortarFin(i, EsEspacio);
    assert Recortar(s) == r;
    forall c | c in r ensures c in s {
      var k :| 0 <= k < |r| && r[k] == c;
      assert i[k] == c;
      assert s[|s| - |i| + k] == c;
    }
  }

  /** Trimming a string with no white space at its ends leaves it as it is. */
  lemma RecortarConSinBordes(s: string, esp: char -> bool)
    requires s != [] && !esp(s[0]) && !esp(s[|s| - 1])
    ensures RecortarCon(s, esp) == s
  {
  }

  /** Trim is idempotent. */
  lemma {:induction false} RecortarIdempotente(s: string)
    ensures Recortar(Recortar(s)) == Recortar(s)
  {
    var r := Recortar(s);
    if r != [] {
      RecortarConSinBordes(r, EsEspacio);
      assert Recortar(r) == RecortarCon(r, EsEspacio);
    } else {
      assert EsBlanco(r);
    }
  }

  // ---------------------------------------------------------------- StartsWith / Contains

  /** string.StartsWith(p), ordinal. */
  predicate EmpiezaCon(s: string, p: string)
  {
    |p| <= |s| && s[..|p|] == p
  }

  /** string.Contains(sub), ordinal: sub occurs at some position of s. */
  predicate Contiene(s: string, sub: string)
    decreases |s|
  {
    EmpiezaCon(s, sub) || (s != [] && Contiene(s[1..], sub))
  }

  /** Contains agrees with "sub is the slice of s at some position". */
  lemma {:induction false} ContieneEnPosicion(s: string, sub: string, i: nat)
    requires i + |sub| <= |s| && s[i..i + |sub|] == sub
    ensures Contiene(s, sub)
    decreases i
  {
    if i > 0 {
      assert s[1..][i - 1..i - 1 + |sub|] == s[i..i + |sub|];
      ContieneEnPosicion(s[1..], sub, i - 1);
    }
  }

  lemma {:induction false} ContieneTienePosicion(s: string, sub: string) returns (i: nat)
    requires Contiene(s, sub)
    ensures i + |sub| <= |s| && s[i..i + |sub|] == sub
    decreases |s|
  {
    if EmpiezaCon(s, sub) {
      i := 0;
    } else {
      var j := ContieneTienePosicion(s[1..], sub);
      assert s[1..][j..j + |sub|] == s[j + 1..j + 1 + |sub|];
      i := j + 1;
    }
  }

  /** What a string contains, a longer string ending with it contains too. */
  lemma ContieneEnSufijo(a: string, b: string, sub: string)
    requires Contiene(b, sub)
    ensures Contiene(a + b, sub)
  {
    var i := ContieneTienePosicion(b, sub);
    assert (a + b)[|a| + i..|a| + i + |sub|] == b[i..i + |sub|];
    ContieneEnPosicion(a + b, sub, |a| + i);
  }

  /** What a string contains, a longer string starting with it contains too. */
  lemma ContieneEnPrefijo(a: string, b: string, sub: string)
    requires Contiene(a, sub)
    ensures Contiene(a + b, sub)
  {
    var i := ContieneTienePosicion(a, sub);
    assert (a + b)[i..i + |sub|] == a[i..i + |sub|];
    ContieneEnPosicion(a + b, sub, i);
  }

  /** A string never contains anything longer than itself. */
  lemma ContieneNoMasLargo(s: string, sub: string)
    requires Contiene(s, sub)
    ensures |sub| <= |s|
  {
    var i := ContieneTienePosicion(s, sub);
  }

  /** Every character of a contained string occurs in the containing one. */
  lemma ContieneCaracteres(s: string, sub: string, j: nat)
    requires Contiene(s, sub) && j < |sub|
    ensures sub[j] in s
  {
    var i := ContieneTienePosicion(s, sub);
    assert s[i + j] == sub[j];
  }

  // ---------------------------------------------------------------- Split

  /** Number of separator characters in s. */
  function Cuenta(s: string, seps: set<char>): nat
    decreases |s|
  {
    if s == [] then 0 else (if s[0] in seps then 1 else 0) + Cuenta(s[1..], seps)
  }

  /** The characters of s that are not separators, in order. */
  function SinSeparadores(s: string, seps: set<char>): string
    decreases |s|
  {
    if s == [] then [] else (if s[0] in seps then [] else [s[0]]) + SinSeparadores(s[1..], seps)
  }

  function Juntar(r: seq<string>): string
    decreases |r|
  {
    if r == [] then [] else r[0] + Juntar(r[1..])
  }

  /** string.Split(separators) without options: one more piece than there are separators,
      no piece holds a separator. */
  function Dividir(s: string, seps: set<char>): (r: seq<string>)
    ensures |r| == 1 + Cuenta(s, seps)
    ensures forall k, j :: 0 <= k < |r| && 0 <= j < |r[k]| ==> r[k][j] !in seps
    decreases |s|
  {
    if s == [] then [[]]
    else
      var resto := Dividir(s[1..], seps);
      if s[0] in seps then [[]] + resto
      else [[s[0]] + resto[0]] + resto[1..]
  }

  /** Split loses and invents nothing: the pieces put back together are s without its separators. */
  lemma {:induction false} DividirConserva(s: string, seps: set<char>)
    ensures Juntar(Dividir(s, seps)) == SinSeparadores(s, seps)
    decreases |s|
  {
    if s != [] {
      var resto := Dividir(s[1..], seps);
      DividirConserva(s[1..], seps);
      if s[0] in seps {
        assert ([[]] + resto)[1..] == resto;
      } else {
        var r := [[s[0]] + resto[0]] + resto[1..];
        assert r[1..] == resto[1..];
        assert Juntar(resto) == resto[0] + Juntar(resto[1..]);
      }
    }
  }

  /** The pieces that are not empty, in order (StringSplitOptions.RemoveEmptyEntries). */
  function QuitarVacios(r: seq<string>): (q: seq<string>)
    ensures forall k :: 0 <= k < |q| ==> q[k] != [] && q[k] in r
    ensures |q| <= |r|
    decreases |r|
  {
    if r == [] then []
    else if r[0] == [] then QuitarVacios(r[1..])
    else [r[0]] + QuitarVacios(r[1..])
  }

  /** Emptying out the empty pieces does not change the text they hold. */
  lemma {:induction false} QuitarVaciosConserva(r: seq<string>)
    ensures Juntar(QuitarVacios(r)) == Juntar(r)
    decreases |r|
  {
    if r != [] {
      QuitarVaciosConserva(r[1..]);
      if r[0] != [] {
        assert ([r[0]] + QuitarVacios(r[1..]))[1..] == QuitarVacios(r[1..]);
      }
    }
  }

  /** string.Split(separators, StringSplitOptions.RemoveEmptyEntries). */
  function DividirSinVacios(s: string, seps: set<char>): seq<string>
  {
    QuitarVacios(Dividir(s, seps))
  }

  /** A string without separators is a single piece. */
  lemma {:induction false} DividirSinSeparador(d: string, seps: set<char>)
    requires forall i :: 0 <= i < |d| ==> d[i] !in seps
    ensures Dividir(d, seps) == [d]
    decreases |d|
  {
    if d != [] {
      DividirSinSeparador(d[1..], seps);
      assert [d[0]] + d[1..] == d;
    }
  }

  /** The last piece of a + [c] + d, c a separator, is the last piece of d. */
  lemma {:induction false} UltimaPiezaTrasSeparador(a: string, c: char, d: string, seps: set<char>)
    requires c in seps
    ensures |Dividir(a + [c] + d, seps)| >= 2
    ensures Dividir(a + [c] + d, seps)[|Dividir(a + [c] + d, seps)| - 1]
            == Dividir(d, seps)[|Dividir(d, seps)| - 1]
    decreases |a|
  {
    var s := a + [c] + d;
    if a == [] {
      assert s[1..] == d;
    } else {
      assert s[1..] == a[1..] + [c] + d;
      UltimaPiezaTrasSeparador(a[1..], c, d, seps);
    }
  }

  /** The first index of c in s (string.IndexOf(c)). */
  function IndiceDe(s: string, c: char): (r: Option<nat>)
    ensures r.Some? ==> r.value < |s| && s[r.value] == c && forall j :: 0 <= j < r.value ==> s[j] != c
    ensures r.None? ==> forall j :: 0 <= j < |s| ==> s[j] != c
    decreases |s|
  {
    if s == [] then None
    else if s[0] == c then Some(0)
    else match IndiceDe(s[1..], c)
      case None => None
      case Some(i) => Some(i + 1)
  }

  /** s.Split(' ', 2): the text before the first space and the rest, or s alone. */
  function PartirEnPrimerEspacio(s: string): (r: seq<string>)
    ensures |r| == 1 <==> ' ' !in s
    ensures |r| == 1 ==> r[0] == s
    ensures |r| == 2 ==> r[0] + " " + r[1] == s && ' ' !in r[0]
    ensures 1 <= |r| <= 2
  {
    match IndiceDe(s, ' ')
    case None => [s]
    case Some(i) =>
      assert s[..i] + " " + s[i + 1..] == s;
      [s[..i], s[i + 1..]]
  }

  // ---------------------------------------------------------------- integers as text

  predicate EsDigito(c: char)
  {
    '0' <= c <= '9'
  }

  predicate SonDigitos(s: string)
  {
    forall i :: 0 <= i < |s| ==> EsDigito(s[i])
  }

  function DigitoChar(d: nat): (c: char)
    requires d < 10
    ensures EsDigito(c)
  {
    ('0' as int + d) as char
  }

  /** The decimal digits of n, without leading zeros. */
  function Digitos(n: nat): (r: string)
    ensures |r| >= 1 && SonDigitos(r)
    ensures r[0] == '0' ==> n == 0
    decreases n
  {
    if n < 10 then [DigitoChar(n)] else Digitos(n / 10) + [DigitoChar(n % 10)]
  }

  /** The value of a string of decimal digits. */
  function ValorDigitos(s: string): nat
    requires SonDigitos(s)
    decreases |s|
  {
    if s == [] then 0 else ValorDigitos(s[..|s| - 1]) * 10 + (s[|s| - 1] as int - '0' as int)
  }

  lemma {:induction false} ValorDeDigitos(n: nat)
    ensures ValorDigitos(Digitos(n)) == n
    decreases n
  {
    if n >= 10 {
      ValorDeDigitos(n / 10);
      var d := Digitos(n / 10) + [DigitoChar(n % 10)];
      assert d[..|d| - 1] == Digitos(n / 10);
    }
  }

  function Ceros(k: nat): (r: string)
    ensures |r| == k && SonDigitos(r)
  {
    seq(k, _ => '0')
  }

  /** Left-pads with zeros up to ancho characters. */
  function RellenarCeros(s: string, ancho: nat): (r: string)
    ensures |r| == if |s| < ancho then ancho else |s|
    ensures r[|r| - |s|..] == s
  {
    if |s| < ancho then Ceros(ancho - |s|) + s else s
  }

  lemma {:induction false} ValorConCeroDelante(s: string)
    requires SonDigitos(s)
    ensures ValorDigitos(['0'] + s) == ValorDigitos(s)
    decreases |s|
  {
    var t := ['0'] + s;
    if s != [] {
      assert t[..|t| - 1] == ['0'] + s[..|s| - 1];
      ValorConCeroDelante(s[..|s| - 1]);
    } else {
      assert t[..|t| - 1] == [];
    }
  }

  /** Leading zeros do not change the value. */
  lemma {:induction false} ValorConCeros(k: nat, s: string)
    requires SonDigitos(s)
    ensures ValorDigitos(Ceros(k) + s) == ValorDigitos(s)
    decreases k
  {
    if k > 0 {
      var t := Ceros(k - 1) + s;
      assert Ceros(k) + s == ['0'] + t;
      ValorConCeroDelante(t);
      ValorConCeros(k - 1, s);
      calc {
        ValorDigitos(Ceros(k) + s);
        ValorDigitos(['0'] + t);
        ValorDigitos(t);
        ValorDigitos(s);
      }
    } else {
      assert Ceros(k) + s == s;
    }
  }

  /** n.ToString("D" + ancho): at least ancho digits, zero-padded, "-" in front of a negative value. */
  function FormatoD(n: int, ancho: nat): (r: string)
    ensures n >= 0 ==> SonDigitos(r) && |r| >= ancho
    ensures n < 0 ==> |r| > ancho && r[0] == '-' && SonDigitos(r[1..])
  {
    if n < 0 then "-" + RellenarCeros(Digitos(-n), ancho) else RellenarCeros(Digitos(n), ancho)
  }

  /** int.ToString(). */
  function EnteroATexto(n: int): string
  {
    FormatoD(n, 1)
  }

  const MinInt32: int := -0x8000_0000
  const MaxInt32: int := 0x7FFF_FFFF

  predicate EnRangoInt32(n: int)
  {
    MinInt32 <= n <= MaxInt32
  }

  /** A C# int. */
  type Int32 = n: int | -0x8000_0000 <= n <= 0x7FFF_FFFF

  /** int.TryParse(s, out v) with NumberStyles.Integer: white space around, an optional sign,
      one or more decimal digits, and a value that fits in 32 bits. */
  function IntentarConvertirEntero(s: string): (r: Option<int>)
    ensures r.Some? ==> EnRangoInt32(r.value)
  {
    LeerConSigno(RecortarCon(s, EsEspacioNumerico))
  }

  /** The sign and digits part of int.TryParse, once the white space is gone. */
  function LeerConSigno(t: string): (r: Option<int>)
    ensures r.Some? ==> EnRangoInt32(r.value)
  {
    var conSigno := |t| > 0 && (t[0] == '-' || t[0] == '+');
    var cuerpo := if conSigno then t[1..] else t;
    if |cuerpo| > 0 && SonDigitos(cuerpo) then
      var v: int := if conSigno && t[0] == '-' then -(ValorDigitos(cuerpo) as int) else ValorDigitos(cuerpo);
      if EnRangoInt32(v) then Some(v) else None
    else None
  }

  /** Zero-padding keeps the digits' value. */
  lemma ValorRelleno(m: nat, ancho: nat)
    ensures SonDigitos(RellenarCeros(Digitos(m), ancho))
    ensures ValorDigitos(RellenarCeros(Digitos(m), ancho)) == m
  {
    ValorDeDigitos(m);
    if |Digitos(m)| < ancho {
      ValorConCeros(ancho - |Digitos(m)|, Digitos(m));
    }
  }

  lemma LeerNegativo(p: string)
    requires |p| > 0 && SonDigitos(p) && EnRangoInt32(-(ValorDigitos(p) as int))
    ensures LeerConSigno("-" + p) == Some(-(ValorDigitos(p) as int))
  {
    assert ("-" + p)[1..] == p;
  }

  lemma LeerSinSigno(p: string)
    requires |p| > 0 && SonDigitos(p) && EnRangoInt32(ValorDigitos(p))
    ensures LeerConSigno(p) == Some(ValorDigitos(p) as int)
  {
    assert EsDigito(p[0]);
  }

  lemma LeerFormatoD(n: int, ancho: nat)
    requires EnRangoInt32(n)
    ensures LeerConSigno(FormatoD(n, ancho)) == Some(n)
  {
    var m: nat := if n < 0 then -n else n;
    var p := RellenarCeros(Digitos(m), ancho);
    ValorRelleno(m, ancho);
    if n < 0 {
      LeerNegativo(p);
    } else {
      LeerSinSigno(p);
    }
  }

  /** int.TryParse reads back what ToString("D" + ancho) wrote. */
  lemma ConvertirFormatoD(n: int, ancho: nat)
    requires EnRangoInt32(n)
    ensures IntentarConvertirEntero(FormatoD(n, ancho)) == Some(n)
  {
    var m: nat := if n < 0 then -n else n;
    var p := RellenarCeros(Digitos(m), ancho);
    var f := FormatoD(n, ancho);
    assert f[|f| - 1] == p[|p| - 1];
    RecortarConSinBordes(f, EsEspacioNumerico);
    LeerFormatoD(n, ancho);
  }

  /** Unchecked 32-bit int arithmetic: the value wraps around into [MinInt32, MaxInt32]. */
  function Envolver32(x: int): (r: Int32)
    ensures EnRangoInt32(x) ==> r == x
    ensures (r - x) % 0x1_0000_0000 == 0
  {
    (x - MinInt32) % 0x1_0000_0000 + MinInt32
  }

  // ---------------------------------------------------------------- ordinal order

  /** Ordinal (character code) lexicographic order: a sorts before or equal to b. */
  predicate LexMenorIgual(a: string, b: string)
    decreases |a|
  {
    a == [] || (b != [] && (a[0] < b[0] || (a[0] == b[0] && LexMenorIgual(a[1..], b[1..]))))
  }

  lemma {:induction false} LexTotal(a: string, b: string)
    ensures LexMenorIgual(a, b) || LexMenorIgual(b, a)
    decreases |a|
  {
    if a != [] && b != [] && a[0] == b[0] {
      LexTotal(a[1..], b[1..]);
    }
  }

  lemma {:induction false} LexTransitivo(a: string, b: string, c: string)
    requires LexMenorIgual(a, b) && LexMenorIgual(b, c)
    ensures LexMenorIgual(a, c)
    decreases |a|
  {
    if a != [] && a[0] == b[0] && b[0] == c[0] {
      LexTransitivo(a[1..], b[1..], c[1..]);
    }
  }

  lemma {:induction false} LexAntisimetrico(a: string, b: string)
    requires LexMenorIgual(a, b) && LexMenorIgual(b, a)
    ensures a == b
    decreases |a|
  {
    if a != [] {
      LexAntisimetrico(a[1..], b[1..]);
      assert a == [a[0]] + a[1..] && b == [b[0]] + b[1..];
    }
  }

  /** A common prefix does not decide the order. */
  lemma {:induction false} LexPrefijoComun(p: string, a: string, b: string)
    ensures LexMenorIgual(p + a, p + b) == LexMenorIgual(a, b)
    decreases |p|
  {
    if p != [] {
      assert (p + a)[0] == (p + b)[0];
      assert (p + a)[1..] == p[1..] + a && (p + b)[1..] == p[1..] + b;
      LexPrefijoComun(p[1..], a, b);
    } else {
      assert p + a == a && p + b == b;
    }
  }
}
