/** Purchasing (ComprasService.cs): suppliers, purchase requisitions and purchase orders. The
    service's tables are fields of its class; the parts table is only looked up, so the service
    holds the set of part ids. Orders and requisitions are values updated by replacing the row. */
module Compras {
  import opened Wrappers
  import opened Sistema
  import opened Modelos
  import opened Consultas
  import opened Numeracion

  // ---------------------------------------------------------------- Math.Round(x, 2)

  function Abs(x: real): real
  {
    if x < 0.0 then -x else x
  }

  /** x * 100 rounded to the nearest integer, a tie going to the even neighbour (the default
      MidpointRounding.ToEven of Math.Round on decimals). */
  function Centavos(x: real): int
  {
    var y := x * 100.0;
    var n := y.Floor;
    var f := y - n as real;
    if f < 0.5 then n
    else if f > 0.5 then n + 1
    else if n % 2 == 0 then n
    else n + 1
  }

  /** Math.Round(x, 2). */
  function RedondearPar(x: real): real
  {
    Centavos(x) as real / 100.0
  }

  /** Centavos picks a nearest integer to x * 100, and when another integer is as near it picks
      the even one. */
  lemma CentavosMasCercano(x: real, k: int)
    ensures Abs(Centavos(x) as real - x * 100.0) <= Abs(k as real - x * 100.0)
    ensures Abs(Centavos(x) as real - x * 100.0) <= 0.5
    ensures k != Centavos(x) && Abs(k as real - x * 100.0) == Abs(Centavos(x) as real - x * 100.0) ==>
      Centavos(x) % 2 == 0
  {
    var y := x * 100.0;
    var n := y.Floor;
    assert n as real <= y < n as real + 1.0;
    if k < n {
      assert k as real <= n as real - 1.0;
    } else if k > n + 1 {
      assert k as real >= n as real + 2.0;
    }
  }

  /** The rounded value is within half a cent of the exact one. */
  lemma RedondeoCercano(x: real)
    ensures -0.005 <= RedondearPar(x) - x <= 0.005
  {
    CentavosMasCercano(x, 0);
  }

  /** An amount already in whole cents is left as it is. */
  lemma RedondeoConservaCentavos(k: int)
    ensures RedondearPar(k as real / 100.0) == k as real / 100.0
  {
    var x := k as real / 100.0;
    assert x * 100.0 == k as real;
    assert (x * 100.0).Floor == k;
  }

  /** Half a cent goes to the even cent, in both directions. */
  lemma RedondeoEjemplos()
    ensures RedondearPar(0.125) == 0.12
    ensures RedondearPar(0.135) == 0.14
    ensures RedondearPar(-0.125) == -0.12
    ensures RedondearPar(53.6) == 53.6
  {
    assert (0.125 * 100.0).Floor == 12;
    assert (0.135 * 100.0).Floor == 13;
    assert (-0.125 * 100.0).Floor == -13;
    assert (53.6 * 100.0).Floor == 5360;
  }

  // ---------------------------------------------------------------- suppliers

  function PosicionProveedor(provs: seq<Proveedor>, id: Guid): Option<nat>
  {
    Primero(provs, (p: Proveedor) => p.id == id)
  }

  /** No two suppliers share an RFC (the unique index on Rfc). */
  predicate RfcUnicos(provs: seq<Proveedor>)
  {
    forall i, j :: 0 <= i < j < |provs| ==> provs[i].rfc != provs[j].rfc
  }

  /** The first guard of CrearProveedorAsync a supplier fails: a blank RazonSocial, a blank Rfc,
      an Rfc already registered, then the table refusing a second row with the same id. */
  function ErrorProveedor(provs: seq<Proveedor>, p: Proveedor): Option<ErrorKind>
  {
    if EsBlanco(p.razonSocial) || EsBlanco(p.rfc) then Some(InvalidArgument)
    else if exists k :: 0 <= k < |provs| && provs[k].rfc == p.rfc then Some(InvalidOperation)
    else if exists k :: 0 <= k < |provs| && provs[k].id == p.id then Some(DbUpdate)
    else None
  }

  /** A supplier that passes the guards keeps RFCs unique. */
  lemma AltaProveedorConservaRfc(provs: seq<Proveedor>, p: Proveedor)
    requires RfcUnicos(provs) && ErrorProveedor(provs, p).None?
    ensures RfcUnicos(provs + [p])
    ensures !EsBlanco(p.razonSocial) && !EsBlanco(p.rfc)
  {
    var t := provs + [p];
    forall i, j | 0 <= i < j < |t| ensures t[i].rfc != t[j].rfc {
      assert t[i] == provs[i];
      if j < |provs| {
        assert t[j] == provs[j];
      }
    }
  }

  // ---------------------------------------------------------------- requisitions

  /** One (Sku, Descripcion, Cantidad, PrecioEstimado) tuple of a new requisition. */
  datatype LineaRequisicion = LineaRequisicion(sku: string, descripcion: string, cantidad: Int32, precioEstimado: real)

  function ItemDeRequisicion(l: LineaRequisicion): ItemRequisicion
  {
    ItemRequisicion(l.sku, l.descripcion, l.cantidad, l.precioEstimado, "")
  }

  function NumerosRequisiciones(rs: seq<Requisicion>): seq<string>
  {
    seq(|rs|, k requires 0 <= k < |rs| => rs[k].numero)
  }

  function PosicionRequisicion(rs: seq<Requisicion>, id: Guid): Option<nat>
  {
    Primero(rs, (r: Requisicion) => r.id == id)
  }

  /** Approving (with the approver) or rejecting (with the remarks) a requisition: only a
      Pendiente one can be decided. */
  function Decidir(r: Requisicion, aprobar: bool, dato: string): (d: Result<Requisicion>)
  {
    if r.estado != "Pendiente" then Err(InvalidOperation)
    else if aprobar then Ok(r.(estado := "Aprobada", aprobadorUsuarioId := dato))
    else Ok(r.(estado := "Rechazada", observaciones := dato))
  }

  /** A decision is final: whatever is asked next of a decided requisition is refused. */
  lemma DecisionDefinitiva(r: Requisicion, aprobar: bool, dato: string, aprobar2: bool, dato2: string)
    requires Decidir(r, aprobar, dato).Ok?
    ensures Decidir(r, aprobar, dato).value.estado == (if aprobar then "Aprobada" else "Rechazada")
    ensures Decidir(Decidir(r, aprobar, dato).value, aprobar2, dato2) == Err(InvalidOperation)
  {
    var d := Decidir(r, aprobar, dato).value;
    if aprobar {
      assert d.estado[0] == 'A';
    } else {
      assert d.estado[0] == 'R';
    }
  }

  // ---------------------------------------------------------------- purchase orders

  /** One (RefaccionId, Cantidad, PrecioUnitario) tuple of a new order. */
  datatype LineaOrdenCompra = LineaOrdenCompra(refaccionId: Guid, cantidad: Int32, precioUnitario: real)

  function ItemDeOrdenCompra(l: LineaOrdenCompra): ItemOrdenCompra
  {
    ItemOrdenCompra(l.refaccionId, l.cantidad, l.precioUnitario, 0)
  }

  function ItemsDeOrdenCompra(lineas: seq<LineaOrdenCompra>): seq<ItemOrdenCompra>
  {
    seq(|lineas|, k requires 0 <= k < |lineas| => ItemDeOrdenCompra(lineas[k]))
  }

  /** The sum of the items' Subtotal. */
  function SumaSubtotales(items: seq<ItemOrdenCompra>): real
    decreases |items|
  {
    if items == [] then 0.0 else SumaSubtotales(items[..|items| - 1]) + items[|items| - 1].Subtotal()
  }

  /** No quantity or price below zero, no sum below zero. */
  lemma {:induction false} SumaSubtotalesNoNegativa(items: seq<ItemOrdenCompra>)
    requires forall i :: 0 <= i < |items| ==> items[i].cantidad >= 0 && items[i].precioUnitario >= 0.0
    ensures SumaSubtotales(items) >= 0.0
    decreases |items|
  {
    if items != [] {
      SumaSubtotalesNoNegativa(items[..|items| - 1]);
      var u := items[|items| - 1];
      ProductoNoNegativo(u.cantidad as real, u.precioUnitario, u.Subtotal());
    }
  }

  lemma ProductoNoNegativo(a: real, b: real, c: real)
    requires a >= 0.0 && b >= 0.0 && c == a * b
    ensures c >= 0.0
  {
  }

  /** The 16 % VAT, rounded to cents. */
  function IvaCompra(subtotal: real): real
  {
    RedondearPar(subtotal * 0.16)
  }

  /** The order's VAT is within half a cent of 16 % of its subtotal. */
  lemma IvaCompraCercana(subtotal: real)
    ensures -0.005 <= IvaCompra(subtotal) - subtotal * 0.16 <= 0.005
  {
    RedondeoCercano(subtotal * 0.16);
  }

  function NumerosOrdenes(os: seq<OrdenCompra>): seq<string>
  {
    seq(|os|, k requires 0 <= k < |os| => os[k].numero)
  }

  function PosicionOrden(os: seq<OrdenCompra>, id: Guid): Option<nat>
  {
    Primero(os, (o: OrdenCompra) => o.id == id)
  }

  /** The first way CrearOrdenCompraAsync fails, if any: a supplier that does not exist or is
      inactive, no lines, a line whose part does not exist, then the table refusing the order
      because its number (unique index) or its id is taken. */
  function ErrorOrdenCompra(provs: seq<Proveedor>, refs: set<Guid>, os: seq<OrdenCompra>, proveedorId: Guid,
                            lineas: seq<LineaOrdenCompra>, id: Guid, anio: int): Option<ErrorKind>
  {
    match PosicionProveedor(provs, proveedorId)
    case None => Some(KeyNotFound)
    case Some(k) =>
      if !provs[k].activo then Some(InvalidOperation)
      else if lineas == [] then Some(InvalidArgument)
      else if exists i :: 0 <= i < |lineas| && lineas[i].refaccionId !in refs then Some(KeyNotFound)
      else if NumeroOrdenCompra(NumerosOrdenes(os), anio) in NumerosOrdenes(os) then Some(DbUpdate)
      else if exists j :: 0 <= j < |os| && os[j].id == id then Some(DbUpdate)
      else None
  }

  /** The consequence of the string-maximum numbering: with OC-{year}-999 and OC-{year}-1000 on
      file, every further order of that year is refused by the unique index, however valid. */
  lemma OrdenTrasMilRechazada(provs: seq<Proveedor>, refs: set<Guid>, os: seq<OrdenCompra>, proveedorId: Guid,
                              lineas: seq<LineaOrdenCompra>, id: Guid, anio: int)
    requires NumerosOrdenes(os) == ["OC-" + EnteroATexto(anio) + "-999", "OC-" + EnteroATexto(anio) + "-1000"]
    requires ErrorOrdenCompra(provs, refs, os, proveedorId, lineas, id, anio) != Some(KeyNotFound)
    requires ErrorOrdenCompra(provs, refs, os, proveedorId, lineas, id, anio) != Some(InvalidOperation)
    requires lineas != []
    ensures ErrorOrdenCompra(provs, refs, os, proveedorId, lineas, id, anio) == Some(DbUpdate)
  {
    OrdenCompraRepetida(anio);
  }

  /** Reception of one item: a quantity supplied for its part overwrites CantidadRecibida. */
  function RecibirItem(it: ItemOrdenCompra, cantidades: map<Guid, Int32>): ItemOrdenCompra
  {
    if it.refaccionId in cantidades then it.(cantidadRecibida := cantidades[it.refaccionId]) else it
  }

  function Recibir(items: seq<ItemOrdenCompra>, cantidades: map<Guid, Int32>): seq<ItemOrdenCompra>
  {
    seq(|items|, k requires 0 <= k < |items| => RecibirItem(items[k], cantidades))
  }

  /** A quantity was supplied for the item's part and it is less than ordered. */
  predicate Falta(it: ItemOrdenCompra, cantidades: map<Guid, Int32>)
  {
    it.refaccionId in cantidades && cantidades[it.refaccionId] < it.cantidad
  }

  /** The state a reception leaves: Parcial if some supplied quantity falls short. */
  function EstadoTrasRecepcion(items: seq<ItemOrdenCompra>, cantidades: map<Guid, Int32>): EstadoOrdenCompra
  {
    if exists i :: 0 <= i < |items| && Falta(items[i], cantidades) then Parcial else Recibida
  }

  /** An order is received in full exactly when every item a quantity was supplied for is now
      Completado; items nobody reported on do not count, so an empty report receives it all and
      leaves the items as they were. */
  lemma RecepcionCompleta(items: seq<ItemOrdenCompra>, cantidades: map<Guid, Int32>)
    ensures EstadoTrasRecepcion(items, cantidades) == Recibida <==>
      forall i :: 0 <= i < |items| && items[i].refaccionId in cantidades ==> Recibir(items, cantidades)[i].Completado()
    ensures EstadoTrasRecepcion(items, cantidades) in {Recibida, Parcial}
    ensures cantidades == map[] ==> Recibir(items, cantidades) == items && EstadoTrasRecepcion(items, cantidades) == Recibida
  {
    if EstadoTrasRecepcion(items, cantidades) == Parcial {
      var i :| 0 <= i < |items| && Falta(items[i], cantidades);
      assert !Recibir(items, cantidades)[i].Completado();
    }
  }

  /** ObtenerEstadoPagoAsync: an order counts as paid in full once Recibida and not at all
      before; what is paid and what is pending always add up to the total. */
  function ObtenerEstadoPago(os: seq<OrdenCompra>, ordenId: Guid): (r: Result<(EstadoOrdenCompra, real, real)>)
    ensures r.Err? <==> PosicionOrden(os, ordenId).None?
    ensures r.Err? ==> r.error == KeyNotFound
    ensures r.Ok? ==> var o := os[PosicionOrden(os, ordenId).value];
      r.value.0 == o.estado && r.value.1 + r.value.2 == o.total &&
      (o.estado == Recibida ==> r.value.1 == o.total && r.value.2 == 0.0) &&
      (o.estado != Recibida ==> r.value.1 == 0.0 && r.value.2 == o.total)
  {
    match PosicionOrden(os, ordenId)
    case None => Err(KeyNotFound)
    case Some(k) =>
      var o := os[k];
      var pagado := if o.estado == Recibida then o.total else 0.0;
      Ok((o.estado, pagado, o.total - pagado))
  }

  // ---------------------------------------------------------------- the service

  class ComprasService {
    var proveedores: seq<Proveedor>
    var refacciones: set<Guid>
    var ordenes: seq<OrdenCompra>
    var requisiciones: seq<Requisicion>

    constructor (proveedores: seq<Proveedor>, refacciones: set<Guid>)
      ensures this.proveedores == proveedores && this.refacciones == refacciones
      ensures ordenes == [] && requisiciones == []
    {
      this.proveedores := proveedores;
      this.refacciones := refacciones;
      ordenes := [];
      requisiciones := [];
    }

    /** CrearProveedorAsync. */
    method CrearProveedor(p: Proveedor) returns (r: Result<Proveedor>)
      modifies this
      ensures r.Err? <==> ErrorProveedor(old(proveedores), p).Some?
      ensures r.Err? ==> r.error == ErrorProveedor(old(proveedores), p).value && proveedores == old(proveedores)
      ensures r.Ok? ==> r.value == p && proveedores == old(proveedores) + [p]
      ensures refacciones == old(refacciones) && ordenes == old(ordenes) && requisiciones == old(requisiciones)
    {
      if EsBlanco(p.razonSocial) {
        return Err(InvalidArgument);
      }
      if EsBlanco(p.rfc) {
        return Err(InvalidArgument);
      }
      if Primero(proveedores, (x: Proveedor) => x.rfc == p.rfc).Some? {
        return Err(InvalidOperation);
      }
      if PosicionProveedor(proveedores, p.id).Some? {
        return Err(DbUpdate);
      }
      proveedores := proveedores + [p];
      return Ok(p);
    }

    /** CalificarProveedorAsync: the rating is checked before the supplier is looked up. */
    method CalificarProveedor(id: Guid, calificacion: real) returns (r: Result<Proveedor>)
      modifies this
      ensures !(1.0 <= calificacion <= 5.0) ==> r == Err(InvalidArgument)
      ensures 1.0 <= calificacion <= 5.0 && PosicionProveedor(old(proveedores), id).None? ==> r == Err(KeyNotFound)
      ensures r.Err? ==> proveedores == old(proveedores)
      ensures r.Ok? <==> 1.0 <= calificacion <= 5.0 && PosicionProveedor(old(proveedores), id).Some?
      ensures r.Ok? ==> var k := PosicionProveedor(old(proveedores), id).value;
        r.value == old(proveedores)[k].(calificacionPromedio := calificacion) &&
        proveedores == old(proveedores)[k := r.value]
      ensures refacciones == old(refacciones) && ordenes == old(ordenes) && requisiciones == old(requisiciones)
    {
      if calificacion < 1.0 || calificacion > 5.0 {
        return Err(InvalidArgument);
      }
      var pos := PosicionProveedor(proveedores, id);
      if pos.None? {
        return Err(KeyNotFound);
      }
      var proveedor := proveedores[pos.value].(calificacionPromedio := calificacion);
      proveedores := proveedores[pos.value := proveedor];
      return Ok(proveedor);
    }

    /** CrearRequisicionAsync: a requester and at least one line are required; the requisition
        takes the next REQ number, starts Pendiente and has one item per line, in order. */
    method CrearRequisicion(solicitante: string, lineas: seq<LineaRequisicion>, justificacion: string,
                            id: Guid, anio: int, ahora: Instante) returns (r: Result<Requisicion>)
      modifies this
      ensures EsBlanco(solicitante) || lineas == [] ==> r == Err(InvalidArgument)
      ensures !EsBlanco(solicitante) && lineas != [] ==>
        var numero := NumeroRequisicion(NumerosRequisiciones(old(requisiciones)), anio);
        var ocupado := numero in NumerosRequisiciones(old(requisiciones)) ||
                       exists j :: 0 <= j < |old(requisiciones)| && old(requisiciones)[j].id == id;
        (r.Err? <==> ocupado) && (r.Err? ==> r.error == DbUpdate) &&
        (r.Ok? ==> r.value == Requisicion(id, ahora, numero, "Pendiente", solicitante, "", justificacion, "",
                                          seq(|lineas|, k requires 0 <= k < |lineas| => ItemDeRequisicion(lineas[k]))))
      ensures r.Ok? ==> requisiciones == old(requisiciones) + [r.value]
      ensures r.Err? ==> requisiciones == old(requisiciones)
      ensures proveedores == old(proveedores) && refacciones == old(refacciones) && ordenes == old(ordenes)
    {
      if EsBlanco(solicitante) {
        return Err(InvalidArgument);
      }
      if lineas == [] {
        return Err(InvalidArgument);
      }
      var numero := NumeroRequisicion(NumerosRequisiciones(requisiciones), anio);
      var items: seq<ItemRequisicion> := [];
      var i := 0;
      while i < |lineas|
        invariant 0 <= i <= |lineas|
        invariant |items| == i && forall k :: 0 <= k < i ==> items[k] == ItemDeRequisicion(lineas[k])
      {
        items := items + [ItemDeRequisicion(lineas[i])];
        i := i + 1;
      }
      if numero in NumerosRequisiciones(requisiciones) {
        return Err(DbUpdate);
      }
      if PosicionRequisicion(requisiciones, id).Some? {
        return Err(DbUpdate);
      }
      var requisicion := Requisicion(id, ahora, numero, "Pendiente", solicitante, "", justificacion, "", items);
      requisiciones := requisiciones + [requisicion];
      return Ok(requisicion);
    }

    /** AprobarRequisicionAsync and RechazarRequisicionAsync: the requisition must exist, and
        the decision is taken as Decidir says. */
    method DecidirRequisicion(id: Guid, aprobar: bool, dato: string) returns (r: Result<Requisicion>)
      modifies this
      ensures PosicionRequisicion(old(requisiciones), id).None? ==> r == Err(KeyNotFound) && requisiciones == old(requisiciones)
      ensures PosicionRequisicion(old(requisiciones), id).Some? ==>
        var k := PosicionRequisicion(old(requisiciones), id).value;
        r == Decidir(old(requisiciones)[k], aprobar, dato) &&
        requisiciones == if r.Ok? then old(requisiciones)[k := r.value] else old(requisiciones)
      ensures proveedores == old(proveedores) && refacciones == old(refacciones) && ordenes == old(ordenes)
    {
      var pos := PosicionRequisicion(requisiciones, id);
      if pos.None? {
        return Err(KeyNotFound);
      }
      var requisicion := requisiciones[pos.value];
      if requisicion.estado != "Pendiente" {
        return Err(InvalidOperation);
      }
      if aprobar {
        requisicion := requisicion.(estado := "Aprobada", aprobadorUsuarioId := dato);
      } else {
        requisicion := requisicion.(estado := "Rechazada", observaciones := dato);
      }
      requisiciones := requisiciones[pos.value := requisicion];
      return Ok(requisicion);
    }

    /** The foreach of CrearOrdenCompraAsync: one item per line, the subtotal accumulated, and
        a stop at the first line whose part does not exist. */
    static method ConstruirItems(lineas: seq<LineaOrdenCompra>, refs: set<Guid>)
      returns (items: seq<ItemOrdenCompra>, subtotal: real, faltante: bool)
      ensures faltante <==> exists i :: 0 <= i < |lineas| && lineas[i].refaccionId !in refs
      ensures !faltante ==> items == ItemsDeOrdenCompra(lineas) && subtotal == SumaSubtotales(items)
    {
      items := [];
      subtotal := 0.0;
      var i := 0;
      while i < |lineas|
        invariant 0 <= i <= |lineas|
        invariant |items| == i && forall k :: 0 <= k < i ==> items[k] == ItemDeOrdenCompra(lineas[k])
        invariant forall k :: 0 <= k < i ==> lineas[k].refaccionId in refs
        invariant subtotal == SumaSubtotales(items)
      {
        if lineas[i].refaccionId !in refs {
          return items, subtotal, true;
        }
        var item := ItemDeOrdenCompra(lineas[i]);
        assert (items + [item])[..|items|] == items;
        items := items + [item];
        subtotal := subtotal + (lineas[i].cantidad as real) * lineas[i].precioUnitario;
        i := i + 1;
      }
      faltante := false;
    }

    /** CrearOrdenCompraAsync: fails as ErrorOrdenCompra says; otherwise the order takes the
        next OC number, has one item per line, its Subtotal is the sum of the items' Subtotal,
        its Iva 16 % of that rounded to cents, its Total the two added, and it starts Generada. */
    method CrearOrdenCompra(proveedorId: Guid, lineas: seq<LineaOrdenCompra>, responsable: string,
                            observaciones: string, id: Guid, anio: int, ahora: Instante) returns (r: Result<OrdenCompra>)
      modifies this
      ensures var e := ErrorOrdenCompra(old(proveedores), refacciones, old(ordenes), proveedorId, lineas, id, anio);
        (r.Err? <==> e.Some?) && (r.Err? ==> r.error == e.value)
      ensures r.Err? ==> ordenes == old(ordenes)
      ensures r.Ok? ==> ordenes == old(ordenes) + [r.value]
      ensures r.Ok? ==> (r.value.id == id && r.value.proveedorId == proveedorId &&
        r.value.numero == NumeroOrdenCompra(NumerosOrdenes(old(ordenes)), anio) &&
        r.value.estado == Generada && r.value.fechaCreacion == ahora &&
        r.value.fechaEnvio.None? && r.value.fechaRecepcion.None? && r.value.referencia == "" &&
        r.value.observaciones == observaciones && r.value.responsableUsuarioId == responsable)
      ensures r.Ok? ==> (r.value.items == ItemsDeOrdenCompra(lineas) &&
        r.value.subtotal == SumaSubtotales(r.value.items) &&
        r.value.iva == IvaCompra(r.value.subtotal) && r.value.total == r.value.subtotal + r.value.iva)
      ensures proveedores == old(proveedores) && refacciones == old(refacciones) && requisiciones == old(requisiciones)
    {
      var pos := PosicionProveedor(proveedores, proveedorId);
      if pos.None? {
        return Err(KeyNotFound);
      }
      if !proveedores[pos.value].activo {
        return Err(InvalidOperation);
      }
      if lineas == [] {
        return Err(InvalidArgument);
      }
      var numero := NumeroOrdenCompra(NumerosOrdenes(ordenes), anio);
      var items, subtotal, faltante := ConstruirItems(lineas, refacciones);
      if faltante {
        return Err(KeyNotFound);
      }
      var iva := IvaCompra(subtotal);
      var orden := OrdenCompra(id, proveedorId, Generada, ahora, None, None, numero, "", subtotal, iva,
                               subtotal + iva, observaciones, responsable, items);
      if numero in NumerosOrdenes(ordenes) {
        return Err(DbUpdate);
      }
      if PosicionOrden(ordenes, id).Some? {
        return Err(DbUpdate);
      }
      ordenes := ordenes + [orden];
      return Ok(orden);
    }

    /** EnviarOrdenCompraAsync: only a Generada order can be sent; it becomes Enviada with the
        sending date set. */
    method EnviarOrdenCompra(ordenId: Guid, ahora: Instante) returns (r: Result<OrdenCompra>)
      modifies this
      ensures var pos := PosicionOrden(old(ordenes), ordenId);
        (pos.None? ==> r == Err(KeyNotFound)) &&
        (pos.Some? ==> (r.Ok? <==> old(ordenes)[pos.value].estado == Generada) &&
                       (r.Err? ==> r.error == InvalidOperation) &&
                       (r.Ok? ==> r.value == old(ordenes)[pos.value].(estado := Enviada, fechaEnvio := Some(ahora)) &&
                                  ordenes == old(ordenes)[pos.value := r.value]))
      ensures r.Err? ==> ordenes == old(ordenes)
      ensures proveedores == old(proveedores) && refacciones == old(refacciones) && requisiciones == old(requisiciones)
    {
      var pos := PosicionOrden(ordenes, ordenId);
      if pos.None? {
        return Err(KeyNotFound);
      }
      var orden := ordenes[pos.value];
      if orden.estado != Generada {
        return Err(InvalidOperation);
      }
      orden := orden.(estado := Enviada, fechaEnvio := Some(ahora));
      ordenes := ordenes[pos.value := orden];
      return Ok(orden);
    }

    /** ConfirmarRecepcionAsync: any order not yet Recibida takes the reported quantities; it
        becomes Parcial if one of them falls short and Recibida otherwise, with the reception
        date set. */
    method ConfirmarRecepcion(ordenId: Guid, cantidades: map<Guid, Int32>, ahora: Instante) returns (r: Result<OrdenCompra>)
      modifies this
      ensures var pos := PosicionOrden(old(ordenes), ordenId);
        (pos.None? ==> r == Err(KeyNotFound)) &&
        (pos.Some? ==> var o := old(ordenes)[pos.value];
                       (r.Ok? <==> o.estado != Recibida) &&
                       (r.Err? ==> r.error == InvalidOperation) &&
                       (r.Ok? ==> r.value == o.(items := Recibir(o.items, cantidades),
                                                estado := EstadoTrasRecepcion(o.items, cantidades),
                                                fechaRecepcion := Some(ahora)) &&
                                  ordenes == old(ordenes)[pos.value := r.value]))
      ensures r.Err? ==> ordenes == old(ordenes)
      ensures proveedores == old(proveedores) && refacciones == old(refacciones) && requisiciones == old(requisiciones)
    {
      var pos := PosicionOrden(ordenes, ordenId);
      if pos.None? {
        return Err(KeyNotFound);
      }
      var orden := ordenes[pos.value];
      if orden.estado == Recibida {
        return Err(InvalidOperation);
      }
      var items := orden.items;
      var todoRecibido := true;
      var i := 0;
      while i < |items|
        invariant 0 <= i <= |items| && |items| == |orden.items|
        invariant forall k :: 0 <= k < i ==> items[k] == RecibirItem(orden.items[k], cantidades)
        invariant forall k :: i <= k < |items| ==> items[k] == orden.items[k]
        invariant todoRecibido <==> forall k :: 0 <= k < i ==> !Falta(orden.items[k], cantidades)
      {
        var item := items[i];
        if item.refaccionId in cantidades {
          var cantidadRecibida := cantidades[item.refaccionId];
          items := items[i := item.(cantidadRecibida := cantidadRecibida)];
          if cantidadRecibida < item.cantidad {
            todoRecibido := false;
          }
        }
        i := i + 1;
      }
      assert items == Recibir(orden.items, cantidades);
      var estado := if todoRecibido then Recibida else Parcial;
      orden := orden.(items := items, estado := estado, fechaRecepcion := Some(ahora));
      ordenes := ordenes[pos.value := orden];
      return Ok(orden);
    }
  }
}
