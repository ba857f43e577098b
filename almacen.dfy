/** The warehouse (AlmacenService.cs): spare parts with a stock level, the movements that change
    it, physical counts whose completion adjusts the stock to what was counted, and the stock
    alerts. The parts, movements, counts and count lines are the service's tables; Guid.NewGuid
    is a counter the service draws fresh ids from. */
module Almacen {
  import opened Wrappers
  import opened Sistema
  import opened Modelos
  import opened Consultas

  // ---------------------------------------------------------------- stock arithmetic

  /** The stock a movement of a positive quantity leaves, or the error it ends in. Salida and
      Devolucion take stock out and may not take more than there is, so they never leave it
      negative; Entrada adds in unchecked 32-bit arithmetic, going past StockMaximo only being
      logged; Ajuste sets the stock to the quantity. */
  function NuevoStock(anterior: Int32, tipo: TipoMovimientoInventario, cantidad: Int32): (r: Result<Int32>)
    requires cantidad > 0
    ensures (tipo == Salida || tipo == Devolucion) ==>
      (r.Ok? <==> anterior >= cantidad) &&
      (r.Ok? ==> r.value == anterior - cantidad && 0 <= r.value < anterior) &&
      (r.Err? ==> r.error == InvalidOperation)
    ensures tipo == Entrada ==> r.Ok? && (EnRangoInt32(anterior + cantidad) ==> r.value == anterior + cantidad)
    ensures tipo == Ajuste ==> r == Ok(cantidad)
  {
    match tipo
    case Salida => if anterior < cantidad then Err(InvalidOperation) else Ok(anterior - cantidad)
    case Devolucion => if anterior < cantidad then Err(InvalidOperation) else Ok(anterior - cantidad)
    case Entrada => Ok(Envolver32(anterior + cantidad))
    case Ajuste => Ok(cantidad)
  }

  // ---------------------------------------------------------------- the tables a movement touches

  /** The parts table, the movements table and the next fresh id. */
  datatype Inventario = Inventario(refacciones: seq<Refaccion>, movimientos: seq<MovimientoInventario>, siguienteId: Guid)

  function ConId(id: Guid): Refaccion -> bool
  {
    (r: Refaccion) => r.id == id
  }

  /** Refacciones.FindAsync(id): the position of the part with that id. */
  function PosicionRefaccion(refs: seq<Refaccion>, id: Guid): Option<nat>
  {
    Primero(refs, ConId(id))
  }

  /** The current stock of the part with that id, if there is one. */
  function StockDe(refs: seq<Refaccion>, id: Guid): Option<Int32>
  {
    match PosicionRefaccion(refs, id)
    case None => None
    case Some(k) => Some(refs[k].stockActual)
  }

  /** RegistrarMovimientoAsync on values: the part must exist, the quantity be positive and the
      reason not blank; the stock then moves as NuevoStock says, the part's update time becomes
      `ahora`, and the movement, recording the stock before and after, is appended. */
  function Registrar(inv: Inventario, refaccionId: Guid, tipo: TipoMovimientoInventario, cantidad: Int32,
                     razon: string, responsable: string, ordenCompraId: Option<Guid>,
                     ordenReparacionId: Option<Guid>, ahora: Instante): Result<(Inventario, MovimientoInventario)>
  {
    match PosicionRefaccion(inv.refacciones, refaccionId)
    case None => Err(KeyNotFound)
    case Some(k) =>
      if cantidad <= 0 || EsBlanco(razon) then Err(InvalidArgument)
      else
        var parte := inv.refacciones[k];
        match NuevoStock(parte.stockActual, tipo, cantidad)
        case Err(e) => Err(e)
        case Ok(nuevo) =>
          var mov := MovimientoInventario(inv.siguienteId, refaccionId, tipo, cantidad, ahora, razon,
                                          responsable, ordenCompraId, ordenReparacionId, parte.stockActual, nuevo);
          Ok((Inventario(inv.refacciones[k := parte.(stockActual := nuevo, fechaActualizacion := ahora)],
                         inv.movimientos + [mov], inv.siguienteId + 1), mov))
  }

  /** A movement changes no part's id or SKU, only the stock and update time of the part moved. */
  lemma RegistrarConservaClaves(inv: Inventario, refaccionId: Guid, tipo: TipoMovimientoInventario, cantidad: Int32,
                                razon: string, responsable: string, ordenCompraId: Option<Guid>,
                                ordenReparacionId: Option<Guid>, ahora: Instante)
    requires Registrar(inv, refaccionId, tipo, cantidad, razon, responsable, ordenCompraId, ordenReparacionId, ahora).Ok?
    ensures var nuevo := Registrar(inv, refaccionId, tipo, cantidad, razon, responsable, ordenCompraId, ordenReparacionId, ahora).value.0;
      |nuevo.refacciones| == |inv.refacciones| &&
      forall j :: 0 <= j < |inv.refacciones| ==>
        nuevo.refacciones[j] == inv.refacciones[j].(stockActual := nuevo.refacciones[j].stockActual,
                                                    fechaActualizacion := nuevo.refacciones[j].fechaActualizacion) &&
        (inv.refacciones[j].id != refaccionId ==> nuevo.refacciones[j] == inv.refacciones[j])
  {
    var k := PosicionRefaccion(inv.refacciones, refaccionId).value;
    assert inv.refacciones[k].id == refaccionId by {
      assert ConId(refaccionId)(inv.refacciones[k]);
    }
  }

  /** After a movement the part with any given id is found at the same position as before. */
  lemma RegistrarConservaPosiciones(inv: Inventario, refaccionId: Guid, tipo: TipoMovimientoInventario, cantidad: Int32,
                                    razon: string, responsable: string, ordenCompraId: Option<Guid>,
                                    ordenReparacionId: Option<Guid>, ahora: Instante, x: Guid)
    requires Registrar(inv, refaccionId, tipo, cantidad, razon, responsable, ordenCompraId, ordenReparacionId, ahora).Ok?
    ensures var nuevo := Registrar(inv, refaccionId, tipo, cantidad, razon, responsable, ordenCompraId, ordenReparacionId, ahora).value.0;
      PosicionRefaccion(nuevo.refacciones, x) == PosicionRefaccion(inv.refacciones, x)
  {
    var nuevo := Registrar(inv, refaccionId, tipo, cantidad, razon, responsable, ordenCompraId, ordenReparacionId, ahora).value.0;
    RegistrarConservaClaves(inv, refaccionId, tipo, cantidad, razon, responsable, ordenCompraId, ordenReparacionId, ahora);
    forall j | 0 <= j < |inv.refacciones| ensures ConId(x)(inv.refacciones[j]) == ConId(x)(nuevo.refacciones[j]) {
      assert nuevo.refacciones[j].id == inv.refacciones[j].id;
    }
    PrimeroIgual(inv.refacciones, nuevo.refacciones, ConId(x));
  }

  /** The ledger: a movement is appended recording the stock before and after, the moved part now
      holds the after stock, every other part keeps its stock, and a Salida or Devolucion took
      exactly the quantity out without going below zero. */
  lemma RegistrarAnota(inv: Inventario, refaccionId: Guid, tipo: TipoMovimientoInventario, cantidad: Int32,
                       razon: string, responsable: string, ordenCompraId: Option<Guid>,
                       ordenReparacionId: Option<Guid>, ahora: Instante, x: Guid)
    requires Registrar(inv, refaccionId, tipo, cantidad, razon, responsable, ordenCompraId, ordenReparacionId, ahora).Ok?
    ensures var (nuevo, mov) := Registrar(inv, refaccionId, tipo, cantidad, razon, responsable, ordenCompraId, ordenReparacionId, ahora).value;
      nuevo.movimientos == inv.movimientos + [mov] &&
      mov.refaccionId == refaccionId && mov.tipo == tipo && mov.cantidad == cantidad && mov.razon == razon &&
      StockDe(inv.refacciones, refaccionId) == Some(mov.stockAnterior) &&
      StockDe(nuevo.refacciones, refaccionId) == Some(mov.stockPosterior) &&
      (x != refaccionId ==> StockDe(nuevo.refacciones, x) == StockDe(inv.refacciones, x)) &&
      ((tipo == Salida || tipo == Devolucion) ==>
        mov.stockPosterior == mov.stockAnterior - cantidad && mov.stockPosterior >= 0) &&
      (tipo == Ajuste ==> mov.stockPosterior == cantidad)
  {
    var (nuevo, mov) := Registrar(inv, refaccionId, tipo, cantidad, razon, responsable, ordenCompraId, ordenReparacionId, ahora).value;
    var k := PosicionRefaccion(inv.refacciones, refaccionId).value;
    RegistrarConservaPosiciones(inv, refaccionId, tipo, cantidad, razon, responsable, ordenCompraId, ordenReparacionId, ahora, refaccionId);
    RegistrarConservaPosiciones(inv, refaccionId, tipo, cantidad, razon, responsable, ordenCompraId, ordenReparacionId, ahora, x);
    if x != refaccionId && PosicionRefaccion(inv.refacciones, x).Some? {
      var j := PosicionRefaccion(inv.refacciones, x).value;
      assert inv.refacciones[j].id == x by {
        assert ConId(x)(inv.refacciones[j]);
      }
      assert inv.refacciones[k].id == refaccionId by {
        assert ConId(refaccionId)(inv.refacciones[k]);
      }
    }
  }

  /** With a positive quantity and a reason, a Salida or Devolucion is accepted exactly when the
      part is available in that quantity. */
  lemma SalidaSegunDisponibilidad(inv: Inventario, refaccionId: Guid, tipo: TipoMovimientoInventario, cantidad: Int32,
                                  razon: string, responsable: string, ahora: Instante)
    requires tipo == Salida || tipo == Devolucion
    requires cantidad > 0 && !EsBlanco(razon)
    ensures Registrar(inv, refaccionId, tipo, cantidad, razon, responsable, None, None, ahora).Ok? <==>
      VerificarDisponibilidad(inv.refacciones, refaccionId, cantidad)
    ensures !VerificarDisponibilidad(inv.refacciones, refaccionId, cantidad) ==>
      Registrar(inv, refaccionId, tipo, cantidad, razon, responsable, None, None, ahora).error ==
        (if PosicionRefaccion(inv.refacciones, refaccionId).None? then KeyNotFound else InvalidOperation)
  {
  }

  // ---------------------------------------------------------------- completing a count

  /** The reason written on the adjustments a count issues; the Guid is written as its number. */
  function RazonCuento(cuentoId: Guid): (r: string)
    ensures !EsBlanco(r)
  {
    var r := "Ajuste por cuento físico " + EnteroATexto(cuentoId);
    assert r[0] == 'A';
    r
  }

  /** The lines of a count whose counted stock differs from the stock it recorded. */
  function AjustesDe(detalles: seq<CuentoFisicoDetalle>, cuentoId: Guid): seq<CuentoFisicoDetalle>
  {
    Filtrar(detalles, (d: CuentoFisicoDetalle) => d.cuentoFisicoId == cuentoId && d.Diferencia() != 0)
  }

  /** The adjustments, issued one after the other as Ajuste movements to the counted stock; the
      first one refused stops the rest, keeping the tables as the earlier ones left them. */
  function Ajustar(inv: Inventario, ajustes: seq<CuentoFisicoDetalle>, razon: string, responsable: string,
                   ahora: Instante): (Inventario, Option<ErrorKind>)
    decreases |ajustes|
  {
    if ajustes == [] then (inv, None)
    else
      var paso := Registrar(inv, ajustes[0].refaccionId, Ajuste, ajustes[0].stockFisico, razon, responsable, None, None, ahora);
      if paso.Err? then (inv, Some(paso.error))
      else Ajustar(paso.value.0, ajustes[1..], razon, responsable, ahora)
  }

  /** A counted stock of zero (or less) cannot be written by an Ajuste, whose quantity must be
      positive, so completing a count with such a line always stops with an error. */
  lemma {:induction false} AjusteSinExistenciasFalla(inv: Inventario, ajustes: seq<CuentoFisicoDetalle>, razon: string,
                                                     responsable: string, ahora: Instante, i: nat)
    requires i < |ajustes| && ajustes[i].stockFisico <= 0
    ensures Ajustar(inv, ajustes, razon, responsable, ahora).1.Some?
    decreases |ajustes|
  {
    var paso := Registrar(inv, ajustes[0].refaccionId, Ajuste, ajustes[0].stockFisico, razon, responsable, None, None, ahora);
    if paso.Ok? && i > 0 {
      AjusteSinExistenciasFalla(paso.value.0, ajustes[1..], razon, responsable, ahora, i - 1);
    }
  }

  /** An Ajuste movement of the line's part to the line's counted stock, for that reason. */
  predicate EsAjusteDe(m: MovimientoInventario, d: CuentoFisicoDetalle, razon: string)
  {
    m.tipo == Ajuste && m.refaccionId == d.refaccionId && m.stockPosterior == d.stockFisico && m.razon == razon
  }

  /** When every adjustment goes through, one Ajuste movement per line is appended, in order,
      each to the part of its line, setting it to the counted stock. */
  lemma {:induction false} AjustarRegistraUnoPorLinea(inv: Inventario, ajustes: seq<CuentoFisicoDetalle>, razon: string,
                                                      responsable: string, ahora: Instante)
    requires Ajustar(inv, ajustes, razon, responsable, ahora).1.None?
    ensures |Ajustar(inv, ajustes, razon, responsable, ahora).0.movimientos| == |inv.movimientos| + |ajustes|
    ensures Ajustar(inv, ajustes, razon, responsable, ahora).0.movimientos[..|inv.movimientos|] == inv.movimientos
    ensures var fin := Ajustar(inv, ajustes, razon, responsable, ahora).0;
      forall i :: 0 <= i < |ajustes| ==> EsAjusteDe(fin.movimientos[|inv.movimientos| + i], ajustes[i], razon)
    decreases |ajustes|
  {
    if ajustes != [] {
      var paso := Registrar(inv, ajustes[0].refaccionId, Ajuste, ajustes[0].stockFisico, razon, responsable, None, None, ahora);
      var (sig, mov) := paso.value;
      RegistrarAnota(inv, ajustes[0].refaccionId, Ajuste, ajustes[0].stockFisico, razon, responsable, None, None, ahora, 0);
      AjustarRegistraUnoPorLinea(sig, ajustes[1..], razon, responsable, ahora);
      var fin := Ajustar(inv, ajustes, razon, responsable, ahora).0;
      assert fin == Ajustar(sig, ajustes[1..], razon, responsable, ahora).0;
      assert fin.movimientos[..|sig.movimientos|] == sig.movimientos;
      assert fin.movimientos[..|inv.movimientos|] == inv.movimientos by {
        assert fin.movimientos[..|inv.movimientos|] == sig.movimientos[..|inv.movimientos|];
      }
      forall i | 0 <= i < |ajustes| ensures EsAjusteDe(fin.movimientos[|inv.movimientos| + i], ajustes[i], razon) {
        if i == 0 {
          assert fin.movimientos[|inv.movimientos|] == sig.movimientos[|inv.movimientos|] == mov;
        } else {
          assert ajustes[1..][i - 1] == ajustes[i];
          assert |inv.movimientos| + i == |sig.movimientos| + (i - 1);
        }
      }
    }
  }

  /** Adjustments of other parts leave a part's stock alone. */
  lemma {:induction false} AjustarRespetaOtras(inv: Inventario, ajustes: seq<CuentoFisicoDetalle>, razon: string,
                                               responsable: string, ahora: Instante, x: Guid)
    requires forall i :: 0 <= i < |ajustes| ==> ajustes[i].refaccionId != x
    ensures StockDe(Ajustar(inv, ajustes, razon, responsable, ahora).0.refacciones, x) == StockDe(inv.refacciones, x)
    decreases |ajustes|
  {
    if ajustes != [] {
      var paso := Registrar(inv, ajustes[0].refaccionId, Ajuste, ajustes[0].stockFisico, razon, responsable, None, None, ahora);
      if paso.Ok? {
        RegistrarAnota(inv, ajustes[0].refaccionId, Ajuste, ajustes[0].stockFisico, razon, responsable, None, None, ahora, x);
        AjustarRespetaOtras(paso.value.0, ajustes[1..], razon, responsable, ahora, x);
      }
    }
  }

  /** When every adjustment goes through and no part is counted twice, each counted part ends
      with exactly the stock that was counted. */
  lemma {:induction false} AjustarFijaConteo(inv: Inventario, ajustes: seq<CuentoFisicoDetalle>, razon: string,
                                             responsable: string, ahora: Instante)
    requires Ajustar(inv, ajustes, razon, responsable, ahora).1.None?
    requires forall i, j :: 0 <= i < j < |ajustes| ==> ajustes[i].refaccionId != ajustes[j].refaccionId
    ensures forall i :: 0 <= i < |ajustes| ==>
      StockDe(Ajustar(inv, ajustes, razon, responsable, ahora).0.refacciones, ajustes[i].refaccionId) ==
        Some(ajustes[i].stockFisico)
    decreases |ajustes|
  {
    if ajustes != [] {
      var paso := Registrar(inv, ajustes[0].refaccionId, Ajuste, ajustes[0].stockFisico, razon, responsable, None, None, ahora);
      var sig := paso.value.0;
      var fin := Ajustar(inv, ajustes, razon, responsable, ahora).0;
      assert fin == Ajustar(sig, ajustes[1..], razon, responsable, ahora).0;
      AjustarFijaConteo(sig, ajustes[1..], razon, responsable, ahora);
      RegistrarAnota(inv, ajustes[0].refaccionId, Ajuste, ajustes[0].stockFisico, razon, responsable, None, None, ahora, 0);
      AjustarRespetaOtras(sig, ajustes[1..], razon, responsable, ahora, ajustes[0].refaccionId);
      forall i | 0 <= i < |ajustes|
        ensures StockDe(fin.refacciones, ajustes[i].refaccionId) == Some(ajustes[i].stockFisico)
      {
        if i > 0 {
          assert ajustes[1..][i - 1] == ajustes[i];
        }
      }
    }
  }

  // ---------------------------------------------------------------- alerts and availability

  /** Low stock: an active part at or below its minimum. */
  predicate EsStockBajo(r: Refaccion)
  {
    r.activa && r.stockActual <= r.stockMinimo
  }

  /** Critical stock: an active part with nothing (or less) in stock. */
  predicate EsCritica(r: Refaccion)
  {
    r.activa && r.stockActual <= 0
  }

  function ClaveStock(r: Refaccion): real
  {
    r.stockActual as real
  }

  /** ObtenerRefaccionesStockBajoAsync: the low-stock parts, lowest stock first. */
  function StockBajo(refs: seq<Refaccion>): seq<Refaccion>
  {
    OrdenarPor(Filtrar(refs, EsStockBajo), ClaveStock)
  }

  /** ObtenerRefaccionesCriticasAsync, without its ordering by name. */
  function Criticas(refs: seq<Refaccion>): seq<Refaccion>
  {
    Filtrar(refs, EsCritica)
  }

  /** The low-stock list holds exactly the low-stock parts, each as often as in the table, in
      ascending order of stock. */
  lemma StockBajoCorrecto(refs: seq<Refaccion>)
    ensures OrdenadaPor(StockBajo(refs), ClaveStock)
    ensures multiset(StockBajo(refs)) == multiset(Filtrar(refs, EsStockBajo))
    ensures forall r :: r in StockBajo(refs) <==> r in refs && EsStockBajo(r)
  {
    OrdenarPorOrdena(Filtrar(refs, EsStockBajo), ClaveStock);
    forall r ensures r in StockBajo(refs) <==> r in refs && EsStockBajo(r) {
      calc {
        r in StockBajo(refs);
        r in multiset(StockBajo(refs));
        r in multiset(Filtrar(refs, EsStockBajo));
        r in Filtrar(refs, EsStockBajo);
        { FiltrarMiembro(refs, EsStockBajo, r); }
        r in refs && EsStockBajo(r);
      }
    }
  }

  /** Every critical part whose minimum is not negative — as CrearRefaccion demands — is also on
      the low-stock list. */
  lemma CriticaEsStockBajo(refs: seq<Refaccion>, r: Refaccion)
    requires r in Criticas(refs) && r.stockMinimo >= 0
    ensures r in StockBajo(refs)
  {
    FiltrarMiembro(refs, EsCritica, r);
    StockBajoCorrecto(refs);
  }

  /** VerificarDisponibilidadAsync: the part exists and holds at least the quantity. */
  predicate VerificarDisponibilidad(refs: seq<Refaccion>, refaccionId: Guid, cantidad: int)
  {
    match PosicionRefaccion(refs, refaccionId)
    case None => false
    case Some(k) => refs[k].stockActual >= cantidad
  }

  // ---------------------------------------------------------------- creating parts

  /** Neither two parts with one id nor two with one SKU. */
  predicate ClavesUnicas(refs: seq<Refaccion>)
  {
    forall i, j :: 0 <= i < j < |refs| ==> refs[i].id != refs[j].id && refs[i].sku != refs[j].sku
  }

  /** The first guard of CrearRefaccionAsync a part fails, if any: a blank SKU, a SKU already in
      use, a negative minimum or a non-positive maximum, then the table refusing a second row
      with the same id. */
  function ErrorAlta(refs: seq<Refaccion>, r: Refaccion): Option<ErrorKind>
  {
    if EsBlanco(r.sku) then Some(InvalidArgument)
    else if exists k :: 0 <= k < |refs| && refs[k].sku == r.sku then Some(InvalidOperation)
    else if r.stockMinimo < 0 || r.stockMaximo <= 0 then Some(InvalidArgument)
    else if exists k :: 0 <= k < |refs| && refs[k].id == r.id then Some(DbUpdate)
    else None
  }

  /** A part that passes the guards keeps ids and SKUs unique and has usable limits. */
  lemma AltaConservaClaves(refs: seq<Refaccion>, r: Refaccion)
    requires ClavesUnicas(refs) && ErrorAlta(refs, r).None?
    ensures ClavesUnicas(refs + [r])
    ensures !EsBlanco(r.sku) && r.stockMinimo >= 0 && r.stockMaximo > 0
  {
    var t := refs + [r];
    forall i, j | 0 <= i < j < |t| ensures t[i].id != t[j].id && t[i].sku != t[j].sku {
      if j == |refs| {
        assert t[i] == refs[i];
      } else {
        assert t[i] == refs[i] && t[j] == refs[j];
      }
    }
  }

  // ---------------------------------------------------------------- the service

  class AlmacenService {
    var refacciones: seq<Refaccion>
    var movimientos: seq<MovimientoInventario>
    var siguienteId: Guid
    var cuentos: seq<CuentoFisico>
    var detalles: seq<CuentoFisicoDetalle>

    /** The tables a movement touches. */
    function Existencias(): Inventario
      reads this
    {
      Inventario(refacciones, movimientos, siguienteId)
    }

    constructor (refacciones: seq<Refaccion>, primerId: Guid)
      ensures this.refacciones == refacciones && movimientos == [] && siguienteId == primerId
      ensures cuentos == [] && detalles == []
    {
      this.refacciones := refacciones;
      movimientos := [];
      siguienteId := primerId;
      cuentos := [];
      detalles := [];
    }

    /** CrearRefaccionAsync. */
    method CrearRefaccion(refaccion: Refaccion) returns (r: Result<Refaccion>)
      modifies this
      ensures r.Err? <==> ErrorAlta(old(refacciones), refaccion).Some?
      ensures r.Err? ==> r.error == ErrorAlta(old(refacciones), refaccion).value && refacciones == old(refacciones)
      ensures r.Ok? ==> r.value == refaccion && refacciones == old(refacciones) + [refaccion]
      ensures movimientos == old(movimientos) && siguienteId == old(siguienteId)
      ensures cuentos == old(cuentos) && detalles == old(detalles)
    {
      if EsBlanco(refaccion.sku) {
        return Err(InvalidArgument);
      }
      if Primero(refacciones, (x: Refaccion) => x.sku == refaccion.sku).Some? {
        return Err(InvalidOperation);
      }
      if refaccion.stockMinimo < 0 || refaccion.stockMaximo <= 0 {
        return Err(InvalidArgument);
      }
      if PosicionRefaccion(refacciones, refaccion.id).Some? {
        return Err(DbUpdate);
      }
      refacciones := refacciones + [refaccion];
      return Ok(refaccion);
    }

    /** RegistrarMovimientoAsync: does to the tables what Registrar describes, and on an error
        leaves them as they were. */
    method RegistrarMovimiento(refaccionId: Guid, tipo: TipoMovimientoInventario, cantidad: Int32, razon: string,
                               responsable: string, ordenCompraId: Option<Guid>, ordenReparacionId: Option<Guid>,
                               ahora: Instante) returns (r: Result<MovimientoInventario>)
      modifies this
      ensures cuentos == old(cuentos) && detalles == old(detalles)
      ensures var esperado := Registrar(old(Existencias()), refaccionId, tipo, cantidad, razon, responsable,
                                        ordenCompraId, ordenReparacionId, ahora);
        (esperado.Ok? ==> r == Ok(esperado.value.1) && Existencias() == esperado.value.0) &&
        (esperado.Err? ==> r == Err(esperado.error) && Existencias() == old(Existencias()))
    {
      var pos := PosicionRefaccion(refacciones, refaccionId);
      if pos.None? {
        return Err(KeyNotFound);
      }
      var k := pos.value;
      if cantidad <= 0 {
        return Err(InvalidArgument);
      }
      if EsBlanco(razon) {
        return Err(InvalidArgument);
      }
      var refaccion := refacciones[k];
      var stockAnterior := refaccion.stockActual;
      var stockNuevo := stockAnterior;
      if tipo == Salida || tipo == Devolucion {
        if refaccion.stockActual < cantidad {
          return Err(InvalidOperation);
        }
        stockNuevo := stockAnterior - cantidad;
      } else if tipo == Entrada {
        stockNuevo := Envolver32(stockAnterior + cantidad);
      } else if tipo == Ajuste {
        stockNuevo := cantidad;
      }
      var movimiento := MovimientoInventario(siguienteId, refaccionId, tipo, cantidad, ahora, razon, responsable,
                                             ordenCompraId, ordenReparacionId, stockAnterior, stockNuevo);
      refacciones := refacciones[k := refaccion.(stockActual := stockNuevo, fechaActualizacion := ahora)];
      movimientos := movimientos + [movimiento];
      siguienteId := siguienteId + 1;
      return Ok(movimiento);
    }

    /** CrearCuentoFisicoAsync: a count needs a responsible user and starts Pendiente. */
    method CrearCuentoFisico(responsable: string, observaciones: string, ahora: Instante) returns (r: Result<CuentoFisico>)
      modifies this
      ensures EsBlanco(responsable) <==> r.Err?
      ensures r.Err? ==> r.error == InvalidArgument && cuentos == old(cuentos) && siguienteId == old(siguienteId)
      ensures r.Ok? ==> (r.value == CuentoFisico(old(siguienteId), ahora, None, "Pendiente", observaciones, responsable) &&
        cuentos == old(cuentos) + [r.value] && siguienteId == old(siguienteId) + 1)
      ensures refacciones == old(refacciones) && movimientos == old(movimientos) && detalles == old(detalles)
    {
      if EsBlanco(responsable) {
        return Err(InvalidArgument);
      }
      var cuento := CuentoFisico(siguienteId, ahora, None, "Pendiente", observaciones, responsable);
      cuentos := cuentos + [cuento];
      siguienteId := siguienteId + 1;
      return Ok(cuento);
    }

    /** AgregarDetalleAsync: the count and the part must exist and the count still be open; the
        line records the part's current stock next to the counted one. */
    method AgregarDetalle(cuentoId: Guid, refaccionId: Guid, stockFisico: Int32, observaciones: string)
      returns (r: Result<CuentoFisicoDetalle>)
      modifies this
      ensures var c := Primero(old(cuentos), (x: CuentoFisico) => x.id == cuentoId);
        var p := PosicionRefaccion(refacciones, refaccionId);
        (c.None? || p.None? ==> r == Err(KeyNotFound)) &&
        (c.Some? && p.Some? ==>
          (r.Ok? <==> old(cuentos)[c.value].estado in {"Pendiente", "EnCurso"}) &&
          (r.Err? ==> r.error == InvalidOperation) &&
          (r.Ok? ==> r.value == CuentoFisicoDetalle(old(siguienteId), cuentoId, refaccionId,
                                                    refacciones[p.value].stockActual, stockFisico, observaciones)))
      ensures r.Ok? ==> detalles == old(detalles) + [r.value] && siguienteId == old(siguienteId) + 1
      ensures r.Err? ==> detalles == old(detalles) && siguienteId == old(siguienteId)
      ensures refacciones == old(refacciones) && movimientos == old(movimientos) && cuentos == old(cuentos)
    {
      var c := Primero(cuentos, (x: CuentoFisico) => x.id == cuentoId);
      if c.None? {
        return Err(KeyNotFound);
      }
      var p := PosicionRefaccion(refacciones, refaccionId);
      if p.None? {
        return Err(KeyNotFound);
      }
      var cuento := cuentos[c.value];
      if cuento.estado != "Pendiente" && cuento.estado != "EnCurso" {
        return Err(InvalidOperation);
      }
      var detalle := CuentoFisicoDetalle(siguienteId, cuentoId, refaccionId, refacciones[p.value].stockActual,
                                         stockFisico, observaciones);
      detalles := detalles + [detalle];
      siguienteId := siguienteId + 1;
      return Ok(detalle);
    }

    /** CompletarCuentoFisicoAsync: a count not yet completed is marked Completado at `ahora`,
        then each of its lines whose count differs is applied as an Ajuste, as Ajustar
        describes; an adjustment refused ends the call with its error, the count staying marked
        and the earlier adjustments staying in place. */
    method CompletarCuentoFisico(cuentoId: Guid, responsable: string, ahora: Instante) returns (r: Result<CuentoFisico>)
      modifies this
      ensures detalles == old(detalles)
      ensures var c := Primero(old(cuentos), (x: CuentoFisico) => x.id == cuentoId);
        (c.None? ==> r == Err(KeyNotFound) && cuentos == old(cuentos) && Existencias() == old(Existencias())) &&
        (c.Some? && old(cuentos)[c.value].estado == "Completado" ==>
          r == Err(InvalidOperation) && cuentos == old(cuentos) && Existencias() == old(Existencias())) &&
        (c.Some? && old(cuentos)[c.value].estado != "Completado" ==>
          var completado := old(cuentos)[c.value].(fechaCompletacion := Some(ahora), estado := "Completado");
          var (fin, error) := Ajustar(old(Existencias()), AjustesDe(old(detalles), cuentoId), RazonCuento(cuentoId),
                                      responsable, ahora);
          cuentos == old(cuentos)[c.value := completado] && Existencias() == fin &&
          (error.None? ==> r == Ok(completado)) && (error.Some? ==> r == Err(error.value)))
    {
      var c := Primero(cuentos, (x: CuentoFisico) => x.id == cuentoId);
      if c.None? {
        return Err(KeyNotFound);
      }
      var cuento := cuentos[c.value];
      if cuento.estado == "Completado" {
        return Err(InvalidOperation);
      }
      cuento := cuento.(fechaCompletacion := Some(ahora), estado := "Completado");
      cuentos := cuentos[c.value := cuento];
      var ajustes := AjustesDe(detalles, cuentoId);
      var razon := RazonCuento(cuentoId);
      ghost var inicio := Existencias();
      var i := 0;
      while i < |ajustes|
        invariant 0 <= i <= |ajustes|
        invariant Ajustar(Existencias(), ajustes[i..], razon, responsable, ahora) ==
                  Ajustar(inicio, ajustes, razon, responsable, ahora)
        invariant cuentos == old(cuentos)[c.value := cuento] && detalles == old(detalles)
      {
        assert ajustes[i..][0] == ajustes[i] && ajustes[i..][1..] == ajustes[i + 1..];
        var m := RegistrarMovimiento(ajustes[i].refaccionId, Ajuste, ajustes[i].stockFisico, razon, responsable,
                                     None, None, ahora);
        if m.Err? {
          return Err(m.error);
        }
        i := i + 1;
      }
      return Ok(cuento);
    }
  }
}
