/** The FinditParts catalogue provider (FinditPartsCatalogoService.cs): how a product record of the
    scraper API becomes a catalogue product, and how its cross-reference text is parsed. The HTTP
    calls to the scraper are not part of this model. */
module FinditParts {
  import opened Wrappers
  import opened Sistema
  import opened Modelos
  import opened Consultas
  import opened Catalogos

  const NombreProveedor: string := "FinditParts"

  /** The characters the cross-reference text is split on. */
  const Separadores: set<char> := {',', ';', '\n'}

  const TipoEquivalente: string := "Equivalente"
  const TipoAlternativo: string := "Alternativo"

  /** ProductoData, the product record of the scraper API; a field it leaves out is "". */
  datatype ProductoData = ProductoData(
    partNumber: string,
    manufacturer: string,
    description: string,
    additionalInfo: string,
    crossReferences: string)

  /** A trimmed text holding a space splits at its first space into two parts, each of which
      still holds something once trimmed; the first has no space. */
  lemma PartesNoVacias(t: string)
    requires ' ' in t && !EsEspacio(t[0]) && !EsEspacio(t[|t| - 1])
    ensures var p := PartirEnPrimerEspacio(t);
      |p| == 2 && Recortar(p[0]) != [] && Recortar(p[1]) != [] && ' ' !in Recortar(p[0])
    ensures var p := PartirEnPrimerEspacio(t);
      forall c :: (c in Recortar(p[0]) || c in Recortar(p[1])) ==> c in t
  {
    var p := PartirEnPrimerEspacio(t);
    assert |p| == 2;
    assert p[0] + " " + p[1] == t;
    assert p[0][0] == t[0];
    assert p[1][|p[1]| - 1] == t[|t| - 1];
    RecortarCaracteres(p[0]);
    RecortarCaracteres(p[1]);
    forall c | c in p[0] || c in p[1] ensures c in t {
      if c in p[0] {
        var k :| 0 <= k < |p[0]| && p[0][k] == c;
        assert t[k] == c;
      } else {
        var k :| 0 <= k < |p[1]| && p[1][k] == c;
        assert t[|p[0]| + 1 + k] == c;
      }
    }
  }

  /** The reference one segment of the cross-reference text stands for: "Manufacturer PartNumber"
      is an equivalent part, a lone part number an alternative one. */
  function ReferenciaDe(item: string): Referencia
  {
    var partes := PartirEnPrimerEspacio(Recortar(item));
    if |partes| == 2 then Referencia(Recortar(partes[0]), Recortar(partes[1]), TipoEquivalente)
    else Referencia("", Recortar(partes[0]), TipoAlternativo)
  }

  /** A segment whose trimmed text holds a space is an equivalent part with a manufacturer
      (without spaces) and a part number, both non-empty; any other is an alternative part whose
      number is the trimmed segment. */
  lemma ReferenciaDeCorrecta(item: string)
    ensures var r := ReferenciaDe(item);
      (r.tipo == TipoEquivalente <==> ' ' in Recortar(item)) && (r.tipo == TipoEquivalente || r.tipo == TipoAlternativo)
    ensures var r := ReferenciaDe(item);
      r.tipo == TipoAlternativo ==> r.manufacturer == "" && r.partNumber == Recortar(item)
    ensures var r := ReferenciaDe(item);
      r.tipo == TipoEquivalente ==> r.manufacturer != "" && r.partNumber != "" && ' ' !in r.manufacturer
  {
    var t := Recortar(item);
    var r := ReferenciaDe(item);
    assert TipoEquivalente != TipoAlternativo by {
      assert TipoEquivalente[0] != TipoAlternativo[0];
    }
    if ' ' in t {
      PartesNoVacias(t);
      assert r.tipo == TipoEquivalente;
    } else {
      RecortarIdempotente(item);
      assert r == Referencia("", t, TipoAlternativo);
    }
  }

  /** Only a blank segment gives an empty part number, and a reference takes its characters from
      its segment. */
  lemma ReferenciaDeVacia(item: string)
    ensures ReferenciaDe(item).partNumber == "" <==> EsBlanco(item)
    ensures var r := ReferenciaDe(item);
      forall c :: (c in r.manufacturer || c in r.partNumber) ==> c in item
  {
    var t := Recortar(item);
    var r := ReferenciaDe(item);
    ReferenciaDeCorrecta(item);
    RecortarCaracteres(item);
    if ' ' in t {
      PartesNoVacias(t);
      var p := PartirEnPrimerEspacio(t);
      assert r.manufacturer == Recortar(p[0]) && r.partNumber == Recortar(p[1]);
    } else {
      assert r.manufacturer == "" && r.partNumber == t;
    }
  }

  /** ParsearCrossReferences: a blank text gives no reference; otherwise each non-empty segment
      between separators gives one, in order. */
  function ReferenciasDe(texto: string): (r: seq<Referencia>)
    ensures EsBlanco(texto) ==> r == []
    ensures |r| <= 1 + Cuenta(texto, Separadores)
  {
    if EsBlanco(texto) then [] else Proyectar(DividirSinVacios(texto, Separadores), ReferenciaDe)
  }

  /** A character of a non-empty segment is a character of the text and no separator. */
  lemma CaracterDeSegmento(texto: string, k: nat, c: char)
    requires k < |DividirSinVacios(texto, Separadores)| && c in DividirSinVacios(texto, Separadores)[k]
    ensures c in texto && c !in Separadores
  {
    var d := Dividir(texto, Separadores);
    var items := DividirSinVacios(texto, Separadores);
    DividirConserva(texto, Separadores);
    assert items[k] in d;
    var m :| 0 <= m < |d| && d[m] == items[k];
    var j :| 0 <= j < |items[k]| && items[k][j] == c;
    assert d[m][j] == c;
    PiezaEnTexto(d, m, j);
    SinSeparadoresEnTexto(texto, Separadores, c);
  }

  /** The parts of every reference are taken from the text and hold no separator. */
  lemma ReferenciasSinSeparadores(texto: string, k: nat, c: char)
    requires k < |ReferenciasDe(texto)|
    requires c in ReferenciasDe(texto)[k].manufacturer || c in ReferenciasDe(texto)[k].partNumber
    ensures c in texto && c !in Separadores
  {
    var items := DividirSinVacios(texto, Separadores);
    assert ReferenciasDe(texto) == Proyectar(items, ReferenciaDe);
    ProyectarEnPosicion(items, ReferenciaDe, k);
    ReferenciaDeVacia(items[k]);
    CaracterDeSegmento(texto, k, c);
  }

  /** A character of one piece is a character of the pieces joined. */
  lemma {:induction false} PiezaEnTexto(d: seq<string>, m: nat, j: nat)
    requires m < |d| && j < |d[m]|
    ensures d[m][j] in Juntar(d)
    decreases |d|
  {
    if m == 0 {
      assert Juntar(d) == d[0] + Juntar(d[1..]);
      assert Juntar(d)[j] == d[0][j];
    } else {
      PiezaEnTexto(d[1..], m - 1, j);
      assert Juntar(d) == d[0] + Juntar(d[1..]);
      var k :| 0 <= k < |Juntar(d[1..])| && Juntar(d[1..])[k] == d[m][j];
      assert Juntar(d)[|d[0]| + k] == d[m][j];
    }
  }

  /** The text without its separators keeps only characters of the text. */
  lemma {:induction false} SinSeparadoresEnTexto(s: string, seps: set<char>, c: char)
    ensures c in SinSeparadores(s, seps) ==> c in s
    decreases |s|
  {
    if s != [] {
      SinSeparadoresEnTexto(s[1..], seps, c);
      if c in SinSeparadores(s[1..], seps) {
        var k :| 0 <= k < |s[1..]| && s[1..][k] == c;
        assert s[k + 1] == c;
      }
    }
  }

  /** A text with no separator that is not blank is one reference. */
  lemma UnaReferencia(texto: string)
    requires !EsBlanco(texto) && forall i :: 0 <= i < |texto| ==> texto[i] !in Separadores
    ensures ReferenciasDe(texto) == [ReferenciaDe(texto)]
  {
    DividirSinSeparador(texto, Separadores);
    assert texto != [];
    assert QuitarVacios([texto]) == [texto] by {
      assert [texto][1..] == [];
    }
  }

  /** ParsearCrossReferences: nothing for a blank text, otherwise the segments' references. */
  method ParsearCrossReferences(texto: string) returns (referencias: seq<Referencia>)
    ensures referencias == ReferenciasDe(texto)
  {
    referencias := [];
    if EsBlanco(texto) {
      return;
    }
    var items := DividirSinVacios(texto, Separadores);
    referencias := ParsearSegmentos(items);
  }

  /** The foreach of ParsearCrossReferences: each segment, trimmed and split at its first space,
      appends one reference. */
  method ParsearSegmentos(items: seq<string>) returns (referencias: seq<Referencia>)
    ensures referencias == Proyectar(items, ReferenciaDe)
  {
    referencias := [];
    var i := 0;
    while i < |items|
      invariant 0 <= i <= |items|
      invariant referencias + Proyectar(items[i..], ReferenciaDe) == Proyectar(items, ReferenciaDe)
    {
      ProyectarPaso(referencias, items, ReferenciaDe, i);
      var partes := PartirEnPrimerEspacio(Recortar(items[i]));
      var referencia := Referencia("", Recortar(partes[0]), TipoAlternativo);
      if |partes| == 2 {
        referencia := Referencia(Recortar(partes[0]), Recortar(partes[1]), TipoEquivalente);
      }
      assert referencia == ReferenciaDe(items[i]);
      referencias := referencias + [referencia];
      i := i + 1;
    }
    assert items[i..] == [];
  }

  /** ConvertirAProductoCatalogo: the provider's name, the address and the record's fields, the
      query time, and the parsed cross references. The check for an empty text only skips a
      parse that would give nothing. */
  method ConvertirAProductoCatalogo(data: ProductoData, url: string, ahora: Instante) returns (producto: Producto)
    ensures producto == Producto(NombreProveedor, url, data.partNumber, data.manufacturer, data.description,
      data.additionalInfo, Some(ReferenciasDe(data.crossReferences)), None, "", "", "", ahora)
  {
    producto := Producto(NombreProveedor, url, data.partNumber, data.manufacturer, data.description,
      data.additionalInfo, Some([]), None, "", "", "", ahora);
    if data.crossReferences != "" {
      var referencias := ParsearCrossReferences(data.crossReferences);
      producto := producto.(crossReferences := Some(referencias));
    }
  }
}
