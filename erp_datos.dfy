/** The legacy in-memory demo data behind the dashboard (ErpDataService.cs): a seeded budget,
    invoice and parts, and the KPIs computed over them. Only the budgets' VAT, the invoices, the
    parts and the number of repair orders feed a modelled KPI; the seeded clients, assets,
    maintenance plans and transactions do not, and are not kept. */
module ErpDatos {
  import opened Wrappers
  import opened Sistema
  import opened Modelos
  import opened Consultas
  import opened Almacen

  function Suma(xs: seq<real>): real
    decreases |xs|
  {
    if xs == [] then 0.0 else xs[0] + Suma(xs[1..])
  }

  /** Average(p => p.IvaAplicado) over the budgets, 0 when there are none. */
  function MargenPromedio(ivas: seq<real>): real
  {
    if ivas == [] then 0.0 else Suma(ivas) / (|ivas| as real)
  }

  lemma {:induction false} SumaAcotada(xs: seq<real>, lo: real, hi: real)
    requires forall i :: 0 <= i < |xs| ==> lo <= xs[i] <= hi
    ensures lo * (|xs| as real) <= Suma(xs) <= hi * (|xs| as real)
    decreases |xs|
  {
    if xs != [] {
      SumaAcotada(xs[1..], lo, hi);
      var n := |xs[1..]| as real;
      assert lo * (n + 1.0) == lo * n + lo;
      assert hi * (n + 1.0) == hi * n + hi;
    }
  }

  lemma CocienteAcotado(s: real, n: real, lo: real, hi: real)
    requires n > 0.0 && lo * n <= s <= hi * n
    ensures lo <= s / n <= hi
  {
    var q := s / n;
    assert q * n == s;
    assert (q - lo) * n >= 0.0 && (hi - q) * n >= 0.0;
  }

  /** The average margin lies between the smallest and the largest VAT averaged. */
  lemma MargenEntreExtremos(ivas: seq<real>, lo: real, hi: real)
    requires ivas != [] && forall i :: 0 <= i < |ivas| ==> lo <= ivas[i] <= hi
    ensures lo <= MargenPromedio(ivas) <= hi
  {
    SumaAcotada(ivas, lo, hi);
    CocienteAcotado(Suma(ivas), |ivas| as real, lo, hi);
  }

  /** The two cases the dashboard tests pin down: 50 and 100 average to 75, and no budgets give 0. */
  lemma MargenEjemplos()
    ensures MargenPromedio([50.0, 100.0]) == 75.0
    ensures MargenPromedio([]) == 0.0
  {
    assert [50.0, 100.0][1..] == [100.0];
    assert Suma([100.0]) == 100.0;
  }

  /** The sum of the unpaid invoices' amounts. */
  function FlujoCaja(facturas: seq<FacturaCliente>): real
    decreases |facturas|
  {
    if facturas == [] then 0.0
    else (if facturas[0].pagada then 0.0 else facturas[0].importe) + FlujoCaja(facturas[1..])
  }

  /** Paying an unpaid invoice takes exactly its amount off the projected cash flow; paying a
      paid one changes nothing. */
  lemma {:induction false} PagarFactura(facturas: seq<FacturaCliente>, k: nat)
    requires k < |facturas|
    ensures FlujoCaja(facturas[k := facturas[k].(pagada := true)]) ==
      FlujoCaja(facturas) - (if facturas[k].pagada then 0.0 else facturas[k].importe)
    decreases |facturas|
  {
    var t := facturas[k := facturas[k].(pagada := true)];
    if k == 0 {
      assert t[1..] == facturas[1..];
    } else {
      PagarFactura(facturas[1..], k - 1);
      assert t[1..] == facturas[1..][k - 1 := facturas[k].(pagada := true)];
    }
  }

  /** With every invoice paid nothing is projected. */
  lemma {:induction false} TodasPagadas(facturas: seq<FacturaCliente>)
    ensures (forall i :: 0 <= i < |facturas| ==> facturas[i].pagada) ==> FlujoCaja(facturas) == 0.0
    decreases |facturas|
  {
    if facturas != [] {
      TodasPagadas(facturas[1..]);
    }
  }

  /** A shortage: stock strictly below the minimum. */
  predicate EsFaltante(r: Refaccion)
  {
    r.stockActual < r.stockMinimo
  }

  /** ObtenerFaltantesInventario. */
  function Faltantes(refs: seq<Refaccion>): seq<Refaccion>
  {
    Filtrar(refs, EsFaltante)
  }

  /** Every active shortage is also low stock for the warehouse, but not the other way round: a
      part exactly at its minimum is low stock without being a shortage. */
  lemma FaltantesFrenteAStockBajo(refs: seq<Refaccion>, r: Refaccion)
    ensures r in Faltantes(refs) && r.activa ==> r in StockBajo(refs)
    ensures r in refs && r.activa && r.stockActual == r.stockMinimo ==> r in StockBajo(refs) && r !in Faltantes(refs)
  {
    FiltrarMiembro(refs, EsFaltante, r);
    StockBajoCorrecto(refs);
  }

  class ErpDataService {
    var presupuestos: seq<Presupuesto>
    var refacciones: seq<Refaccion>
    /** The number of entries in the legacy repair-order list. */
    var ordenesReparacion: Int32
    var facturas: seq<FacturaCliente>

    function IvasAplicados(): seq<real>
      reads this, presupuestos
    {
      seq(|presupuestos|, k reads this, presupuestos requires 0 <= k < |presupuestos| => presupuestos[k].ivaAplicado)
    }

    /** ConstruirKpis, without the cycle time, NPS and retention (clock-dependent doubles). */
    function ConstruirKpis(): (r: DashboardKpi)
      reads this, presupuestos
      ensures presupuestos == [] ==> r.margenPromedio == 0.0
      ensures |presupuestos| == 1 ==> r.margenPromedio == presupuestos[0].ivaAplicado
      ensures r.ordenesActivas == ordenesReparacion && r.tasaRetrabajo == 0.04
      ensures (forall i :: 0 <= i < |facturas| ==> facturas[i].pagada) ==> r.flujoCajaProyectado == 0.0
    {
      TodasPagadas(facturas);
      assert |presupuestos| == 1 ==> IvasAplicados()[1..] == [] && Suma(IvasAplicados()) == presupuestos[0].ivaAplicado;
      DashboardKpi(MargenPromedio(IvasAplicados()), 0.04, ordenesReparacion, FlujoCaja(facturas))
    }

    /** SembrarDatos: one approved budget (a front door, 2.5 h at 120, and 3 h of labour at the
        base rate of 45) whose VAT is 16 % of its subtotal, its unpaid invoice, two parts and one
        repair order. Fresh ids are taken from `primerId` upwards. */
    constructor (primerId: Guid, ahora: Instante)
      ensures |presupuestos| == 1 && fresh(presupuestos[0])
      ensures presupuestos[0].Subtotal() == 435.0 && presupuestos[0].ivaAplicado == 69.6
      ensures presupuestos[0].total == 504.6 && presupuestos[0].estado == Aprobado
      ensures facturas == [FacturaCliente(primerId + 1, primerId, 504.6, ahora, false)]
      ensures ConstruirKpis() == DashboardKpi(69.6, 0.04, 1, 504.6)
      ensures |refacciones| == 2 && Faltantes(refacciones) == [refacciones[0]] && refacciones[0].sku == "PUERT-DEL"
    {
      var tarifa := Tarifa(45.0, 38.0, 0.16, 1.05, 1.0);
      var puerta := ItemPresupuesto(Pieza, "PUERT-DEL", "Puerta delantera", 1, 2.5, 120.0, 0.0, true, true, false);
      var manoObra := NuevoItem(ManoObra, "MO-01", "Mano de obra general", 3.0, tarifa.precioManoObraHora);
      var items := [puerta, manoObra];
      assert puerta.CostoAjustado() == 300.0 && manoObra.CostoAjustado() == 135.0;
      assert items[1..] == [manoObra] && [manoObra][1..] == [];
      assert SumaCostosAjustados([manoObra]) == 135.0;
      assert SumaCostosAjustados(items) == 435.0;
      var subtotal := SumaCostosAjustados(items);
      var iva := subtotal * tarifa.tasaIva;
      var p := new Presupuesto(primerId, "", None, None, None, items, iva, subtotal + iva, Aprobado, ahora, None);
      p.vehiculo := Some(Vehiculo("3VWFE21C04M000001", "Golf Highline", 6, 8500.0));
      presupuestos := [p];
      refacciones := [
        Refaccion(primerId + 2, "PUERT-DEL", "", "", 0, 1, 0, 95.0, 0.0, "", "", true, ahora),
        Refaccion(primerId + 3, "PARAG-GTI", "", "", 3, 2, 0, 70.0, 0.0, "", "", true, ahora)
      ];
      ordenesReparacion := 1;
      facturas := [FacturaCliente(primerId + 1, primerId, subtotal + iva, ahora, false)];
      new;
      assert refacciones[1..] == [refacciones[1]] && refacciones[1..][1..] == [];
      assert !EsFaltante(refacciones[1]) && EsFaltante(refacciones[0]);
      assert Filtrar(refacciones[1..][1..], EsFaltante) == [];
      assert Filtrar(refacciones[1..], EsFaltante) == [];
      assert facturas[1..] == [];
      assert FlujoCaja(facturas) == 504.6;
      assert IvasAplicados() == [69.6];
      assert MargenPromedio([69.6]) == 69.6 by {
        assert [69.6][1..] == [];
      }
    }
  }
}
