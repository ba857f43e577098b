/** Document numbers: P{year}-{seq:D5} for budgets, OC-{year}-{seq:D3} for purchase orders and
    REQ-{year}-{seq:D3} for requisitions. Each generator takes the existing numbers that start with
    its prefix, picks the one that sorts last (OrderByDescending on the string), reads the text
    after its last '-' with int.TryParse and adds one (unchecked int arithmetic); with no such
    number, or one that does not parse, the sequence is 1. */
module Numeracion {
  import opened Wrappers
  import opened Sistema

  /** OrderByDescending(n => n).First(): the number that sorts last. */
  function MaximoLex(s: seq<string>): (m: string)
    requires |s| > 0
    ensures m in s
    ensures forall x :: x in s ==> LexMenorIgual(x, m)
    decreases |s|
  {
    if |s| == 1 then
      LexTotal(s[0], s[0]);
      s[0]
    else
      var m := MaximoLex(s[1..]);
      LexTotal(s[0], m);
      if LexMenorIgual(s[0], m) then
        assert s == [s[0]] + s[1..];
        m
      else
        TodosDebajo(s[1..], m, s[0]);
        LexTotal(s[0], s[0]);
        assert s == [s[0]] + s[1..];
        s[0]
  }

  lemma TodosDebajo(s: seq<string>, m: string, t: string)
    requires forall x :: x in s ==> LexMenorIgual(x, m)
    requires LexMenorIgual(m, t)
    ensures forall x :: x in s ==> LexMenorIgual(x, t)
  {
    forall x | x in s ensures LexMenorIgual(x, t) {
      LexTransitivo(x, m, t);
    }
  }

  /** The existing numbers that start with the filter, in table order. */
  function FiltrarPrefijo(s: seq<string>, filtro: string): (r: seq<string>)
    ensures forall x :: x in r <==> x in s && EmpiezaCon(x, filtro)
    decreases |s|
  {
    if s == [] then []
    else (if EmpiezaCon(s[0], filtro) then [s[0]] else []) + FiltrarPrefijo(s[1..], filtro)
  }

  lemma {:induction false} FiltrarAgregando(s: seq<string>, x: string, filtro: string)
    requires EmpiezaCon(x, filtro)
    ensures FiltrarPrefijo(s + [x], filtro) == FiltrarPrefijo(s, filtro) + [x]
    decreases |s|
  {
    if s == [] {
      assert [x][1..] == [];
    } else {
      assert (s + [x])[1..] == s[1..] + [x];
      FiltrarAgregando(s[1..], x, filtro);
    }
  }

  /** numero.Split('-').Last(). */
  function UltimoSegmento(s: string): string
  {
    var r := Dividir(s, {'-'});
    r[|r| - 1]
  }

  /** The text after the last '-' is what was written after it. */
  lemma UltimoSegmentoTras(p: string, d: string)
    requires forall i :: 0 <= i < |d| ==> d[i] != '-'
    ensures UltimoSegmento(p + "-" + d) == d
  {
    UltimaPiezaTrasSeparador(p, '-', d, {'-'});
    DividirSinSeparador(d, {'-'});
  }

  /** The sequence number a stored number carries: int.TryParse of its last '-' piece. */
  function SecuenciaDe(numero: string): Option<int>
  {
    IntentarConvertirEntero(UltimoSegmento(numero))
  }

  /** A prefix ending in '-' followed by a formatted non-negative number reads back as that number. */
  lemma SecuenciaDeFormato(prefijo: string, n: int, ancho: nat)
    requires |prefijo| > 0 && prefijo[|prefijo| - 1] == '-'
    requires 0 <= n <= MaxInt32
    ensures SecuenciaDe(prefijo + FormatoD(n, ancho)) == Some(n)
  {
    var d := FormatoD(n, ancho);
    var p := prefijo[..|prefijo| - 1];
    assert prefijo == p + "-";
    assert forall i :: 0 <= i < |d| ==> d[i] != '-' by {
      assert SonDigitos(d);
    }
    UltimoSegmentoTras(p, d);
    ConvertirFormatoD(n, ancho);
  }

  /** The sequence number the generators use, as the code computes it. */
  function SiguienteSecuencia(existentes: seq<string>, filtro: string): (n: int)
    ensures EnRangoInt32(n)
  {
    var candidatos := FiltrarPrefijo(existentes, filtro);
    if candidatos == [] then 1
    else match SecuenciaDe(MaximoLex(candidatos))
      case Some(v) => Envolver32(v + 1)
      case None => 1
  }

  /** prefijo + secuencial.ToString("D" + ancho). */
  function Generar(existentes: seq<string>, filtro: string, prefijo: string, ancho: nat): string
  {
    prefijo + FormatoD(SiguienteSecuencia(existentes, filtro), ancho)
  }

  /** PresupuestoService.GenerarNumeroPresupuestoAsync. */
  function NumeroPresupuesto(existentes: seq<string>, anio: int): string
  {
    var prefijo := "P" + EnteroATexto(anio) + "-";
    Generar(existentes, prefijo, prefijo, 5)
  }

  /** ComprasService.GenerarNumeroOrdenCompraAsync: the filter has no trailing '-'. */
  function NumeroOrdenCompra(existentes: seq<string>, anio: int): string
  {
    Generar(existentes, "OC-" + EnteroATexto(anio), "OC-" + EnteroATexto(anio) + "-", 3)
  }

  /** ComprasService.GenerarNumeroRequisicionAsync. */
  function NumeroRequisicion(existentes: seq<string>, anio: int): string
  {
    Generar(existentes, "REQ-" + EnteroATexto(anio), "REQ-" + EnteroATexto(anio) + "-", 3)
  }

  /** A prefix the generators can use: it ends with '-' and starts with their filter. */
  predicate PrefijoBienFormado(filtro: string, prefijo: string)
  {
    |prefijo| > 0 && prefijo[|prefijo| - 1] == '-' && EmpiezaCon(prefijo, filtro)
  }

  lemma PrefijosBienFormados(anio: int)
    ensures PrefijoBienFormado("P" + EnteroATexto(anio) + "-", "P" + EnteroATexto(anio) + "-")
    ensures PrefijoBienFormado("OC-" + EnteroATexto(anio), "OC-" + EnteroATexto(anio) + "-")
    ensures PrefijoBienFormado("REQ-" + EnteroATexto(anio), "REQ-" + EnteroATexto(anio) + "-")
  {
    var y := EnteroATexto(anio);
    assert ("OC-" + y + "-")[..|"OC-" + y|] == "OC-" + y;
    assert ("REQ-" + y + "-")[..|"REQ-" + y|] == "REQ-" + y;
  }

  /** A generated number carries its prefix and reads back, after its last '-', as the
      sequence number it was made from. */
  lemma GeneradoSeLee(existentes: seq<string>, filtro: string, prefijo: string, ancho: nat)
    requires PrefijoBienFormado(filtro, prefijo)
    requires SiguienteSecuencia(existentes, filtro) >= 0
    ensures EmpiezaCon(Generar(existentes, filtro, prefijo, ancho), filtro)
    ensures SecuenciaDe(Generar(existentes, filtro, prefijo, ancho)) == Some(SiguienteSecuencia(existentes, filtro))
  {
    var n := SiguienteSecuencia(existentes, filtro);
    SecuenciaDeFormato(prefijo, n, ancho);
    var g := Generar(existentes, filtro, prefijo, ancho);
    assert g[..|filtro|] == prefijo[..|filtro|];
  }

  /** When the new number sorts after every existing candidate, the next call continues from it:
      the sequence goes up by exactly one. */
  lemma {:induction false} SecuenciaAvanza(existentes: seq<string>, filtro: string, prefijo: string, ancho: nat)
    requires PrefijoBienFormado(filtro, prefijo)
    requires SiguienteSecuencia(existentes, filtro) >= 0
    requires forall x :: x in FiltrarPrefijo(existentes, filtro) ==>
               LexMenorIgual(x, Generar(existentes, filtro, prefijo, ancho))
    ensures SiguienteSecuencia(existentes + [Generar(existentes, filtro, prefijo, ancho)], filtro)
            == Envolver32(SiguienteSecuencia(existentes, filtro) + 1)
  {
    var g := Generar(existentes, filtro, prefijo, ancho);
    GeneradoSeLee(existentes, filtro, prefijo, ancho);
    FiltrarAgregando(existentes, g, filtro);
    var c := FiltrarPrefijo(existentes, filtro) + [g];
    var m := MaximoLex(c);
    assert LexMenorIgual(g, m);
    if m != g {
      assert m in FiltrarPrefijo(existentes, filtro);
      LexAntisimetrico(m, g);
    }
  }

  lemma Digitos999()
    ensures FormatoD(999, 1) == "999"
  {
    assert Digitos(9) == "9";
    assert Digitos(99) == "99";
    assert Digitos(999) == "999";
  }

  lemma Digitos1000()
    ensures FormatoD(1000, 1) == "1000" && FormatoD(1000, 3) == "1000"
  {
    assert Digitos(1) == "1";
    assert Digitos(10) == "10";
    assert Digitos(100) == "100";
    assert Digitos(1000) == "1000";
  }

  lemma Digitos1001()
    ensures FormatoD(1001, 3) == "1001"
  {
    assert Digitos(1) == "1";
    assert Digitos(10) == "10";
    assert Digitos(100) == "100";
    assert Digitos(1001) == "1001";
  }

  lemma FiltroDosOrdenes(f: string)
    ensures FiltrarPrefijo([f + "-999", f + "-1000"], f) == [f + "-999", f + "-1000"]
  {
    var a: string, b: string := f + "-999", f + "-1000";
    assert a[..|f|] == f && b[..|f|] == f;
    var sb := [b];
    assert sb[1..] == [];
    assert FiltrarPrefijo(sb, f) == [b] + FiltrarPrefijo(sb[1..], f);
    assert [a, b][1..] == sb;
    assert FiltrarPrefijo([a, b], f) == [a] + FiltrarPrefijo(sb, f);
  }

  lemma SecuenciaTras(f: string, n: int, d: string)
    requires 0 <= n <= MaxInt32 && d == FormatoD(n, 1)
    ensures SecuenciaDe(f + "-" + d) == Some(n)
  {
    SecuenciaDeFormato(f + "-", n, 1);
  }

  lemma Secuencia999(f: string)
    ensures SecuenciaDe(f + "-999") == Some(999)
  {
    Digitos999();
    SecuenciaTras(f, 999, "999");
    assert f + "-" + "999" == f + "-999";
  }

  lemma Secuencia1000(f: string)
    ensures SecuenciaDe(f + "-1000") == Some(1000)
  {
    Digitos1000();
    SecuenciaTras(f, 1000, "1000");
    assert f + "-" + "1000" == f + "-1000";
  }

  lemma MaximoDosOrdenes(f: string)
    ensures MaximoLex([f + "-999", f + "-1000"]) == f + "-999"
  {
    var a: string, b: string := f + "-999", f + "-1000";
    LexPrefijoComun(f + "-", "999", "1000");
    assert !LexMenorIgual("999", "1000");
    assert (f + "-") + "999" == a && (f + "-") + "1000" == b;
    assert [a, b][1..] == [b];
  }

  lemma SiguienteDosOrdenes(f: string)
    ensures SiguienteSecuencia([f + "-999", f + "-1000"], f) == 1000
  {
    FiltroDosOrdenes(f);
    MaximoDosOrdenes(f);
    Secuencia999(f);
  }

  lemma GenerarDosOrdenes(f: string)
    ensures Generar([f + "-999", f + "-1000"], f, f + "-", 3) == f + "-1000"
  {
    SiguienteDosOrdenes(f);
    Digitos1000();
    assert (f + "-") + "1000" == f + "-1000";
  }

  /** As written, the string maximum is not the numeric maximum: once ...-1000 exists beside
      ...-999, the latter still sorts last and ...-1000 is generated a second time, in any year. */
  lemma OrdenCompraRepetida(anio: int)
    ensures var f := "OC-" + EnteroATexto(anio);
      NumeroOrdenCompra([f + "-999", f + "-1000"], anio) == f + "-1000"
  {
    GenerarDosOrdenes("OC-" + EnteroATexto(anio));
  }

  // ---------------------------------------------------------------- numeric maximum

  /** The greatest sequence number among the candidates, by value (0 when none parses). */
  function MaximaSecuencia(candidatos: seq<string>): (m: int)
    ensures m >= 0
    ensures forall x :: x in candidatos && SecuenciaDe(x).Some? ==> SecuenciaDe(x).value <= m
    decreases |candidatos|
  {
    if candidatos == [] then 0
    else
      var resto := MaximaSecuencia(candidatos[1..]);
      assert candidatos == [candidatos[0]] + candidatos[1..];
      match SecuenciaDe(candidatos[0])
      case Some(v) => if v > resto then v else resto
      case None => resto
  }

  /** The generator with the numeric maximum instead of the string maximum. */
  function GenerarPorValor(existentes: seq<string>, filtro: string, prefijo: string, ancho: nat): string
  {
    prefijo + FormatoD(Envolver32(MaximaSecuencia(FiltrarPrefijo(existentes, filtro)) + 1), ancho)
  }

  function NumeroOrdenCompraPorValor(existentes: seq<string>, anio: int): string
  {
    GenerarPorValor(existentes, "OC-" + EnteroATexto(anio), "OC-" + EnteroATexto(anio) + "-", 3)
  }

  /** The numeric generator never repeats an existing number (while the sequence fits in an int). */
  lemma GenerarPorValorEsNuevo(existentes: seq<string>, filtro: string, prefijo: string, ancho: nat)
    requires PrefijoBienFormado(filtro, prefijo)
    requires MaximaSecuencia(FiltrarPrefijo(existentes, filtro)) < MaxInt32
    ensures GenerarPorValor(existentes, filtro, prefijo, ancho) !in existentes
  {
    var c := FiltrarPrefijo(existentes, filtro);
    var n := MaximaSecuencia(c) + 1;
    var g := GenerarPorValor(existentes, filtro, prefijo, ancho);
    assert g == prefijo + FormatoD(n, ancho);
    SecuenciaDeFormato(prefijo, n, ancho);
    assert g[..|filtro|] == prefijo[..|filtro|];
  }

  lemma MaximaDosOrdenes(f: string)
    ensures MaximaSecuencia([f + "-999", f + "-1000"]) == 1000
  {
    var a: string, b: string := f + "-999", f + "-1000";
    Secuencia999(f);
    Secuencia1000(f);
    var sb := [b];
    assert sb[1..] == [];
    assert MaximaSecuencia(sb[1..]) == 0;
    assert MaximaSecuencia(sb) == 1000;
    assert [a, b][1..] == sb;
  }

  lemma GenerarPorValorCon(e: seq<string>, f: string, n: int, d: string)
    requires MaximaSecuencia(FiltrarPrefijo(e, f)) + 1 == n <= MaxInt32
    requires FormatoD(n, 3) == d
    ensures GenerarPorValor(e, f, f + "-", 3) == f + "-" + d
  {
  }

  lemma GenerarPorValorDosOrdenes(f: string)
    ensures GenerarPorValor([f + "-999", f + "-1000"], f, f + "-", 3) == f + "-" + "1001"
  {
    var e: seq<string> := [f + "-999", f + "-1000"];
    assert MaximaSecuencia(FiltrarPrefijo(e, f)) + 1 == 1001 by {
      FiltroDosOrdenes(f);
      MaximaDosOrdenes(f);
    }
    Digitos1001();
    GenerarPorValorCon(e, f, 1001, "1001");
  }

  /** On the input where the string maximum repeats a number, the numeric one moves on to ...-1001. */
  lemma OrdenCompraPorValorSigue(anio: int)
    ensures var f := "OC-" + EnteroATexto(anio);
      NumeroOrdenCompraPorValor([f + "-999", f + "-1000"], anio) == f + "-" + "1001"
  {
    GenerarPorValorDosOrdenes("OC-" + EnteroATexto(anio));
  }
}
