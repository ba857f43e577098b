/** The budget rule engine (ReglaService.cs). With a vehicle on the budget it first overwrites
    the adjustment of every part line with an age discount, then walks a snapshot of the lines and
    appends a paint line for each part that needs paint and has none yet. Both rules change the
    budget's list of lines in place; nothing else of the budget is touched. */
module Reglas {
  import opened Wrappers
  import opened Sistema
  import opened Modelos

  // ---------------------------------------------------------------- depreciation

  /** -Math.Min(anios * 0.10m, 0.50m) * 100: ten points per year of age, at most fifty. */
  function AjusteDepreciacion(anios: int): (r: real)
    requires anios > 0
    ensures -50.0 <= r <= -10.0
    ensures anios < 5 ==> r == -10.0 * (anios as real)
    ensures anios >= 5 ==> r == -50.0
  {
    var factor := if anios as real * 0.10 <= 0.50 then anios as real * 0.10 else 0.50;
    -factor * 100.0
  }

  /** A line after the age rule: a part takes the age adjustment in place of its own. */
  function DepreciarItem(i: ItemPresupuesto, anios: int): ItemPresupuesto
  {
    if anios > 0 && i.tipo == Pieza then i.(porcentajeAjuste := AjusteDepreciacion(anios)) else i
  }

  function Depreciados(items: seq<ItemPresupuesto>, anios: int): (r: seq<ItemPresupuesto>)
    ensures |r| == |items|
  {
    seq(|items|, k requires 0 <= k < |items| => DepreciarItem(items[k], anios))
  }

  /** ReglaService.AplicarDepreciacion. */
  method AplicarDepreciacion(p: Presupuesto, anios: Int32)
    modifies p`items
    ensures p.items == Depreciados(old(p.items), anios)
  {
    if anios > 0 {
      var k := 0;
      while k < |p.items|
        invariant 0 <= k <= |p.items| == |old(p.items)|
        invariant forall j :: 0 <= j < k ==> p.items[j] == DepreciarItem(old(p.items)[j], anios)
        invariant forall j :: k <= j < |p.items| ==> p.items[j] == old(p.items)[j]
      {
        if p.items[k].tipo == Pieza {
          p.items := p.items[k := p.items[k].(porcentajeAjuste := AjusteDepreciacion(anios))];
        }
        k := k + 1;
      }
    }
  }

  /** The age rule only ever touches the adjustment of part lines, and only for a vehicle with
      a positive age; every other line, and every other field, stays as it was. */
  lemma DepreciacionSoloPiezas(items: seq<ItemPresupuesto>, anios: int, k: nat)
    requires k < |items|
    ensures var d := Depreciados(items, anios)[k];
      d == items[k].(porcentajeAjuste := d.porcentajeAjuste)
    ensures anios <= 0 || items[k].tipo != Pieza ==> Depreciados(items, anios)[k] == items[k]
  {
    assert Depreciados(items, anios)[k] == DepreciarItem(items[k], anios);
  }

  /** The adjustment is overwritten, not accumulated: what a part had before does not matter,
      so a second application changes nothing. */
  lemma DepreciacionIdempotente(items: seq<ItemPresupuesto>, anios: int)
    ensures Depreciados(Depreciados(items, anios), anios) == Depreciados(items, anios)
  {
    var d := Depreciados(items, anios);
    assert forall k :: 0 <= k < |d| ==> DepreciarItem(d[k], anios) == d[k];
  }

  /** A depreciated part costs between half and nine tenths of its base cost. */
  lemma DepreciacionAbarata(i: ItemPresupuesto, anios: int)
    requires anios > 0 && i.tipo == Pieza && i.CostoBase() >= 0.0
    ensures 0.5 * i.CostoBase() <= DepreciarItem(i, anios).CostoAjustado()
    ensures DepreciarItem(i, anios).CostoAjustado() <= 0.9 * i.CostoBase()
  {
    var d := DepreciarItem(i, anios);
    var b := i.CostoBase();
    var f := 1.0 + d.porcentajeAjuste / 100.0;
    assert d.CostoBase() == b;
    assert 0.5 <= f <= 0.9;
    FactorAcotado(b, f, d.CostoAjustado());
  }

  lemma FactorAcotado(b: real, f: real, c: real)
    requires b >= 0.0 && 0.5 <= f <= 0.9 && c == b * f
    ensures 0.5 * b <= c <= 0.9 * b
  {
    assert b * (f - 0.5) >= 0.0;
    assert b * (0.9 - f) >= 0.0;
  }

  // ---------------------------------------------------------------- paint lines

  /** A line the paint rule looks at: a part that needs paint. */
  predicate NecesitaPintura(i: ItemPresupuesto)
  {
    i.tipo == Pieza && i.requierePintura
  }

  /** How the rule decides that a part already has its paint line. SoloDescripcion is the
      service's check: a paint line whose description contains the part's code.
      DescripcionOCodigo also recognises the line the rule itself adds, by its code. */
  datatype Criterio = SoloDescripcion | DescripcionOCodigo

  /** The paint line added for a part: 1.5 hours at the paint rate, quantity 1, no adjustment. */
  function ItemPintura(pieza: ItemPresupuesto, t: Tarifa): ItemPresupuesto
  {
    NuevoItem(Pintura, "PINT-" + pieza.codigo, "Pintura para " + pieza.descripcion, 1.5, t.precioPinturaHora)
  }

  /** Whether a line counts as the paint line of a part under the criterion. */
  predicate PinturaDe(linea: ItemPresupuesto, pieza: ItemPresupuesto, c: Criterio)
  {
    linea.tipo == Pintura &&
    (Contiene(linea.descripcion, pieza.codigo) || (c == DescripcionOCodigo && linea.codigo == "PINT-" + pieza.codigo))
  }

  /** The existence check: some line of the current list is the part's paint line. */
  predicate ExistePinturaPara(items: seq<ItemPresupuesto>, pieza: ItemPresupuesto, c: Criterio)
  {
    exists k :: 0 <= k < |items| && PinturaDe(items[k], pieza, c)
  }

  /** One turn of the loop, for one line of the snapshot, against the current list. */
  function Paso(c: Criterio, pieza: ItemPresupuesto, items: seq<ItemPresupuesto>, t: Tarifa): seq<ItemPresupuesto>
  {
    if NecesitaPintura(pieza) && !ExistePinturaPara(items, pieza, c) then items + [ItemPintura(pieza, t)]
    else items
  }

  /** The loop over the remaining snapshot lines, starting from the current list. */
  function Complementar(c: Criterio, pendientes: seq<ItemPresupuesto>, items: seq<ItemPresupuesto>, t: Tarifa): seq<ItemPresupuesto>
    decreases |pendientes|
  {
    if pendientes == [] then items else Complementar(c, pendientes[1..], Paso(c, pendientes[0], items, t), t)
  }

  /** What the paint rule leaves in the list: the snapshot is the list itself. */
  function Complementados(c: Criterio, items: seq<ItemPresupuesto>, t: Tarifa): seq<ItemPresupuesto>
  {
    Complementar(c, items, items, t)
  }

  /** ReglaService.AplicarComplementos, with the service's description check. */
  method AplicarComplementos(p: Presupuesto, tarifa: Tarifa)
    modifies p`items
    ensures p.items == Complementados(SoloDescripcion, old(p.items), tarifa)
  {
    var originales := p.items;
    assert originales[0..] == originales;
    var k := 0;
    while k < |originales|
      invariant 0 <= k <= |originales|
      invariant Complementar(SoloDescripcion, originales[k..], p.items, tarifa)
        == Complementados(SoloDescripcion, originales, tarifa)
    {
      var item := originales[k];
      assert originales[k..][1..] == originales[k + 1..];
      if item.tipo == Pieza {
        if item.requierePintura && !ExistePinturaPara(p.items, item, SoloDescripcion) {
          p.items := p.items + [ItemPintura(item, tarifa)];
        }
      }
      k := k + 1;
    }
  }

  /** Number of snapshot lines that can cause a paint line. */
  function CuentaNecesitan(items: seq<ItemPresupuesto>): nat
    decreases |items|
  {
    if items == [] then 0 else (if NecesitaPintura(items[0]) then 1 else 0) + CuentaNecesitan(items[1..])
  }

  /** A paint line found in a list is still found once more lines are appended. */
  lemma ExisteEnExtension(a: seq<ItemPresupuesto>, b: seq<ItemPresupuesto>, pieza: ItemPresupuesto, c: Criterio)
    requires a <= b && ExistePinturaPara(a, pieza, c)
    ensures ExistePinturaPara(b, pieza, c)
  {
    var k :| 0 <= k < |a| && PinturaDe(a[k], pieza, c);
    assert b[k] == a[k];
  }

  /** The line is the paint line of some part of pendientes that needs paint. */
  predicate EsPinturaDe(linea: ItemPresupuesto, pendientes: seq<ItemPresupuesto>, t: Tarifa)
  {
    exists x :: x in pendientes && NecesitaPintura(x) && linea == ItemPintura(x, t)
  }

  /** The rule only appends: the lines present keep their places, every added line is the paint
      line of a snapshot part that needs paint, and at most one is added per such part. */
  lemma {:induction false} ComplementarExtiende(c: Criterio, pendientes: seq<ItemPresupuesto>,
                                                items: seq<ItemPresupuesto>, t: Tarifa)
    ensures var r := Complementar(c, pendientes, items, t);
      items <= r && |r| <= |items| + CuentaNecesitan(pendientes)
    ensures var r := Complementar(c, pendientes, items, t);
      forall j :: |items| <= j < |r| ==> EsPinturaDe(r[j], pendientes, t)
    decreases |pendientes|
  {
    if pendientes != [] {
      var x := pendientes[0];
      var s := Paso(c, x, items, t);
      ComplementarExtiende(c, pendientes[1..], s, t);
      var r := Complementar(c, pendientes, items, t);
      assert r == Complementar(c, pendientes[1..], s, t);
      forall j | |items| <= j < |r|
        ensures EsPinturaDe(r[j], pendientes, t)
      {
        if j < |s| {
          assert s == items + [ItemPintura(x, t)] && j == |items|;
          assert r[j] == s[j];
          assert x in pendientes;
        } else {
          assert EsPinturaDe(r[j], pendientes[1..], t);
          var y :| y in pendientes[1..] && NecesitaPintura(y) && r[j] == ItemPintura(y, t);
          assert y in pendientes;
        }
      }
    }
  }

  /** Every snapshot part that needs paint ends up with a line that passes the check for it, or
      with the paint line the rule builds for it. */
  lemma {:induction false} ComplementarCubre(c: Criterio, pendientes: seq<ItemPresupuesto>,
                                             items: seq<ItemPresupuesto>, t: Tarifa)
    ensures var r := Complementar(c, pendientes, items, t);
      forall x :: x in pendientes && NecesitaPintura(x) ==>
        ExistePinturaPara(r, x, c) || ItemPintura(x, t) in r
    decreases |pendientes|
  {
    if pendientes != [] {
      var x := pendientes[0];
      var s := Paso(c, x, items, t);
      var r := Complementar(c, pendientes, items, t);
      ComplementarCubre(c, pendientes[1..], s, t);
      ComplementarExtiende(c, pendientes[1..], s, t);
      if NecesitaPintura(x) {
        if ExistePinturaPara(items, x, c) {
          ExisteEnExtension(items, r, x, c);
        } else {
          assert s[|items|] == ItemPintura(x, t);
          assert r[|items|] == ItemPintura(x, t);
        }
      }
      assert pendientes == [x] + pendientes[1..];
    }
  }

  /** The rule leaves a list unchanged exactly when every snapshot part that needs paint
      already passes the check. */
  lemma {:induction false} ComplementarSinCambios(c: Criterio, pendientes: seq<ItemPresupuesto>,
                                                  items: seq<ItemPresupuesto>, t: Tarifa)
    ensures Complementar(c, pendientes, items, t) == items <==>
      forall x :: x in pendientes && NecesitaPintura(x) ==> ExistePinturaPara(items, x, c)
    decreases |pendientes|
  {
    if pendientes != [] {
      var x := pendientes[0];
      var s := Paso(c, x, items, t);
      ComplementarSinCambios(c, pendientes[1..], s, t);
      ComplementarExtiende(c, pendientes[1..], s, t);
      assert pendientes == [x] + pendientes[1..];
      if NecesitaPintura(x) && !ExistePinturaPara(items, x, c) {
        assert |s| == |items| + 1;
      }
    }
  }

  /** Applied to its own result the rule changes nothing, provided its check recognises the
      lines it adds: always with DescripcionOCodigo, and with the service's check only when every
      part that needs paint names its own code in its description. */
  lemma ComplementadosIdempotente(c: Criterio, items: seq<ItemPresupuesto>, t: Tarifa)
    requires c == DescripcionOCodigo ||
      forall x :: x in items && NecesitaPintura(x) ==> Contiene(x.descripcion, x.codigo)
    ensures Complementados(c, Complementados(c, items, t), t) == Complementados(c, items, t)
  {
    var r := Complementados(c, items, t);
    ComplementarExtiende(c, items, items, t);
    ComplementarCubre(c, items, items, t);
    forall x | x in r && NecesitaPintura(x)
      ensures ExistePinturaPara(r, x, c)
    {
      var j :| 0 <= j < |r| && r[j] == x;
      assert x in items;
      if ItemPintura(x, t) in r {
        var i :| 0 <= i < |r| && r[i] == ItemPintura(x, t);
        if c == SoloDescripcion {
          ContieneEnSufijo("Pintura para ", x.descripcion, x.codigo);
        }
        assert PinturaDe(r[i], x, c);
      }
    }
    ComplementarSinCambios(c, r, r, t);
  }

  /** The evidently intended behaviour: with a check that recognises the line by its code, a
      second application of the paint rule never adds a line. */
  lemma ComplementadosPorCodigoIdempotente(items: seq<ItemPresupuesto>, t: Tarifa)
    ensures var r := Complementados(DescripcionOCodigo, items, t);
      Complementados(DescripcionOCodigo, r, t) == r
  {
    ComplementadosIdempotente(DescripcionOCodigo, items, t);
  }

  /** One part that needs paint and has no paint line: the list grows from one line to two,
      and the new line carries the part's code. */
  lemma UnaPiezaConPintura(x: ItemPresupuesto, t: Tarifa)
    requires NecesitaPintura(x)
    ensures Complementados(SoloDescripcion, [x], t) == [x, ItemPintura(x, t)]
    ensures EmpiezaCon(ItemPintura(x, t).codigo, "PINT-") && Contiene(ItemPintura(x, t).codigo, x.codigo)
  {
    assert !ExistePinturaPara([x], x, SoloDescripcion);
    var sx := [x];
    assert sx[1..] == [];
    assert Paso(SoloDescripcion, x, sx, t) == [x, ItemPintura(x, t)];
    assert Complementados(SoloDescripcion, sx, t) == Complementar(SoloDescripcion, [], [x, ItemPintura(x, t)], t);
    var c := ItemPintura(x, t).codigo;
    assert c[..5] == "PINT-";
    assert c[5..5 + |x.codigo|] == x.codigo;
    ContieneEnPosicion(c, x.codigo, 5);
  }

  /** The door panel seeded by the dashboard data: its description does not contain its code. */
  function PuertaDelantera(): ItemPresupuesto
  {
    ItemPresupuesto(Pieza, "PUERT-DEL", "Puerta delantera", 1, 2.5, 120.0, 0.0, true, true, false)
  }

  /** The door panel's own paint line does not hold the panel's code in its description, so
      the service's check does not recognise it. */
  lemma PinturaNoReconocida(t: Tarifa)
    ensures !ExistePinturaPara([PuertaDelantera(), ItemPintura(PuertaDelantera(), t)], PuertaDelantera(), SoloDescripcion)
  {
    var x := PuertaDelantera();
    var p := ItemPintura(x, t);
    if Contiene(p.descripcion, x.codigo) {
      ContieneCaracteres(p.descripcion, x.codigo, 5);
    }
    var r := [x, p];
    forall k | 0 <= k < |r| ensures !PinturaDe(r[k], x, SoloDescripcion) {
    }
  }

  /** A second application to the panel and its paint line appends another paint line. */
  lemma SegundaPasada(t: Tarifa)
    ensures var x := PuertaDelantera();
      var p := ItemPintura(x, t);
      Complementados(SoloDescripcion, [x, p], t) == [x, p, p]
  {
    var x := PuertaDelantera();
    var p := ItemPintura(x, t);
    var r := [x, p];
    var r2 := r + [p];
    PinturaNoReconocida(t);
    assert Paso(SoloDescripcion, x, r, t) == r2;
    assert Paso(SoloDescripcion, p, r2, t) == r2;
    assert r[1..][1..] == [];
    assert Complementar(SoloDescripcion, r[1..], r2, t) == r2;
    assert Complementados(SoloDescripcion, r, t) == Complementar(SoloDescripcion, r[1..], r2, t);
  }

  /** With the service's check each application adds one more paint line for the door panel:
      one line becomes two, and two become three. */
  lemma PinturaDuplicada(t: Tarifa)
    ensures |Complementados(SoloDescripcion, [PuertaDelantera()], t)| == 2
    ensures |Complementados(SoloDescripcion, Complementados(SoloDescripcion, [PuertaDelantera()], t), t)| == 3
  {
    UnaPiezaConPintura(PuertaDelantera(), t);
    SegundaPasada(t);
  }

  // ---------------------------------------------------------------- both rules

  /** The list AplicarReglas leaves: unchanged without a vehicle, otherwise the age rule and
      then the paint rule. */
  function Reglas(items: seq<ItemPresupuesto>, vehiculo: Option<Vehiculo>, t: Tarifa): seq<ItemPresupuesto>
  {
    match vehiculo
    case None => items
    case Some(v) => Complementados(SoloDescripcion, Depreciados(items, v.antiguedadAnios), t)
  }

  /** ReglaService.AplicarReglas: returns the budget it was given. */
  method AplicarReglas(p: Presupuesto, tarifa: Tarifa) returns (r: Presupuesto)
    modifies p`items
    ensures r == p
    ensures p.items == Reglas(old(p.items), p.vehiculo, tarifa)
  {
    if p.vehiculo.None? {
      return p;
    }
    AplicarDepreciacion(p, p.vehiculo.value.antiguedadAnios);
    AplicarComplementos(p, tarifa);
    return p;
  }

  /** Labour and paint lines already in the budget are never changed, a part line changes at most
      in its adjustment, and nothing is removed or reordered. */
  lemma ReglasConservan(items: seq<ItemPresupuesto>, vehiculo: Option<Vehiculo>, t: Tarifa, k: nat)
    requires k < |items|
    ensures |items| <= |Reglas(items, vehiculo, t)|
    ensures items[k].tipo != Pieza ==> Reglas(items, vehiculo, t)[k] == items[k]
    ensures Reglas(items, vehiculo, t)[k] == items[k].(porcentajeAjuste := Reglas(items, vehiculo, t)[k].porcentajeAjuste)
  {
    if vehiculo.Some? {
      var d := Depreciados(items, vehiculo.value.antiguedadAnios);
      ComplementarExtiende(SoloDescripcion, d, d, t);
      DepreciacionSoloPiezas(items, vehiculo.value.antiguedadAnios, k);
      assert Reglas(items, vehiculo, t)[k] == d[k];
    }
  }

  /** Both rules together are idempotent when every part that needs paint names its own code in
      its description. */
  lemma ReglasIdempotentes(items: seq<ItemPresupuesto>, vehiculo: Option<Vehiculo>, t: Tarifa)
    requires forall x :: x in items && NecesitaPintura(x) ==> Contiene(x.descripcion, x.codigo)
    ensures Reglas(Reglas(items, vehiculo, t), vehiculo, t) == Reglas(items, vehiculo, t)
  {
    if vehiculo.Some? {
      var a := vehiculo.value.antiguedadAnios;
      var d := Depreciados(items, a);
      var r := Complementados(SoloDescripcion, d, t);
      forall x | x in d && NecesitaPintura(x)
        ensures Contiene(x.descripcion, x.codigo)
      {
        var k :| 0 <= k < |d| && d[k] == x;
        assert items[k] in items;
      }
      ComplementadosIdempotente(SoloDescripcion, d, t);
      ComplementarExtiende(SoloDescripcion, d, d, t);
      assert r == Complementar(SoloDescripcion, d, d, t);
      DepreciacionIdempotente(items, a);
      assert Depreciados(r, a) == r by {
        forall j | 0 <= j < |r|
          ensures DepreciarItem(r[j], a) == r[j]
        {
          if j < |d| {
            assert r[j] == d[j] == DepreciarItem(d[j], a);
          } else {
            assert EsPinturaDe(r[j], d, t);
          }
        }
      }
    }
  }
}
