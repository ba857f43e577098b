/** The entities of the body-shop domain and their computed properties (DomainModels.cs).
    Entities whose fields the services overwrite in place and that are handed around as objects
    (the budget and the repair order) are classes; every other record is a value, stored in the
    tables of the service that owns it. Money, hours and percentages are exact reals; C# `int`
    fields are `Int32`. Generated Guids are numbers chosen by the caller, 0 being Guid.Empty, and
    timestamps are tick counts passed in by the caller. */
module Modelos {
  import opened Wrappers
  import opened Sistema

  type Guid = nat

  /** A DateTime as its tick count (100 ns units since 0001-01-01). */
  type Instante = nat

  const TicksPorDia: nat := 864_000_000_000

  /** DateTime.Date, as the number of the day. */
  function Dia(t: Instante): nat
  {
    t / TicksPorDia
  }

  lemma DiaMonotono(a: Instante, b: Instante)
    requires a <= b
    ensures Dia(a) <= Dia(b)
  {
  }

  // ---------------------------------------------------------------- enumerations

  datatype EstadoPresupuesto = Borrador | Aprobado | Rechazado | Cerrado | Facturado

  datatype EstadoOrdenReparacion = Pendiente | EnCurso | Completada | Facturada | Cancelada

  datatype EstadoOrdenCompra = Generada | Enviada | Recibida | Parcial | Cancelada

  datatype TipoMovimientoInventario = Entrada | Salida | Ajuste | Devolucion

  datatype TipoItemPresupuesto = Pieza | ManoObra | Pintura

  // ---------------------------------------------------------------- budgets

  datatype Vehiculo = Vehiculo(vin: string, version: string, antiguedadAnios: Int32, valorResidual: real)

  /** A budget line. Its Guid is not modelled: lines are values in the budget's list. */
  datatype ItemPresupuesto = ItemPresupuesto(
    tipo: TipoItemPresupuesto,
    codigo: string,
    descripcion: string,
    cantidad: Int32,
    tiempoAsignadoHoras: real,
    precioUnitario: real,
    porcentajeAjuste: real,
    requierePintura: bool,
    requiereDesmontajeDoble: bool,
    requiereAlineacion: bool)
  {
    /** Price per hour times hours times quantity. */
    function CostoBase(): real
    {
      precioUnitario * tiempoAsignadoHoras * (cantidad as real)
    }

    /** The base cost moved by a signed percentage. */
    function CostoAjustado(): (r: real)
      ensures porcentajeAjuste == 0.0 ==> r == CostoBase()
      ensures porcentajeAjuste == -100.0 ==> r == 0.0
      ensures CostoBase() >= 0.0 && -100.0 <= porcentajeAjuste <= 0.0 ==> 0.0 <= r <= CostoBase()
      ensures CostoBase() >= 0.0 && porcentajeAjuste >= 0.0 ==> r >= CostoBase()
    {
      var f := 1.0 + porcentajeAjuste / 100.0;
      var b := CostoBase();
      Escalar(b, f, b * f);
      b * f
    }
  }

  /** Scaling a non-negative amount by a factor: a factor in [0, 1] shrinks it, one of at least
      1 grows it. */
  lemma Escalar(b: real, f: real, c: real)
    requires c == b * f
    ensures b >= 0.0 && 0.0 <= f <= 1.0 ==> 0.0 <= c <= b
    ensures b >= 0.0 && f >= 1.0 ==> c >= b
  {
    if b >= 0.0 && 0.0 <= f <= 1.0 {
      assert b * (1.0 - f) >= 0.0;
    }
    if b >= 0.0 && f >= 1.0 {
      assert b * (f - 1.0) >= 0.0;
    }
  }

  /** A line built with an object initialiser: quantity 1, no adjustment, no flags. */
  function NuevoItem(tipo: TipoItemPresupuesto, codigo: string, descripcion: string,
                     horas: real, precio: real): ItemPresupuesto
  {
    ItemPresupuesto(tipo, codigo, descripcion, 1, horas, precio, 0.0, false, false, false)
  }

  /** A new line of price 100 and 5 hours has quantity 1 and costs 500; an adjustment of 10 %
      makes it 550. */
  lemma CostosDeEjemplo()
    ensures NuevoItem(Pieza, "", "", 5.0, 100.0).cantidad == 1
    ensures NuevoItem(Pieza, "", "", 5.0, 100.0).CostoBase() == 500.0
    ensures NuevoItem(Pieza, "", "", 5.0, 100.0).(porcentajeAjuste := 10.0).CostoAjustado() == 550.0
  {
  }

  /** Items.Sum(i => i.CostoAjustado). */
  function SumaCostosAjustados(items: seq<ItemPresupuesto>): real
    decreases |items|
  {
    if items == [] then 0.0 else items[0].CostoAjustado() + SumaCostosAjustados(items[1..])
  }

  /** Appending a line raises the sum by exactly that line's adjusted cost. */
  lemma {:induction false} SumaAgregar(items: seq<ItemPresupuesto>, x: ItemPresupuesto)
    ensures SumaCostosAjustados(items + [x]) == SumaCostosAjustados(items) + x.CostoAjustado()
    decreases |items|
  {
    if items == [] {
      assert [x][1..] == [];
    } else {
      assert (items + [x])[1..] == items[1..] + [x];
      SumaAgregar(items[1..], x);
    }
  }

  /** The sum over two lists laid end to end is the sum of the two sums. */
  lemma {:induction false} SumaConcatenar(a: seq<ItemPresupuesto>, b: seq<ItemPresupuesto>)
    ensures SumaCostosAjustados(a + b) == SumaCostosAjustados(a) + SumaCostosAjustados(b)
    decreases |a|
  {
    if a == [] {
      assert a + b == b;
    } else {
      assert (a + b)[1..] == a[1..] + b;
      SumaConcatenar(a[1..], b);
    }
  }

  /** Two lists that agree line by line on the adjusted cost have the same sum. */
  lemma {:induction false} SumaPorCostos(a: seq<ItemPresupuesto>, b: seq<ItemPresupuesto>)
    requires |a| == |b|
    requires forall k :: 0 <= k < |a| ==> a[k].CostoAjustado() == b[k].CostoAjustado()
    ensures SumaCostosAjustados(a) == SumaCostosAjustados(b)
    decreases |a|
  {
    if a != [] {
      SumaPorCostos(a[1..], b[1..]);
    }
  }

  /** The rates of the workshop. */
  datatype Tarifa = Tarifa(
    precioManoObraHora: real,
    precioPinturaHora: real,
    tasaIva: real,
    factorRecargo: real,
    factorDescuento: real)

  /** Every field of a budget at one moment, so that an operation can say which of them it
      changes and that the others stay. */
  datatype DatosPresupuesto = DatosPresupuesto(
    id: Guid,
    numero: string,
    clienteId: Option<Guid>,
    vehiculo: Option<Vehiculo>,
    placaVehiculo: Option<string>,
    vinVehiculo: Option<string>,
    items: seq<ItemPresupuesto>,
    ivaAplicado: real,
    total: real,
    estado: EstadoPresupuesto,
    fechaCreacion: Instante,
    fechaAprobacion: Option<Instante>,
    observaciones: Option<string>)

  /** A budget. Its subtotal is derived from the lines; VAT and total are stored values that
      only the operations that set them change. */
  class Presupuesto {
    const id: Guid
    var numero: string
    var clienteId: Option<Guid>
    var vehiculo: Option<Vehiculo>
    var placaVehiculo: Option<string>
    var vinVehiculo: Option<string>
    var items: seq<ItemPresupuesto>
    var ivaAplicado: real
    var total: real
    var estado: EstadoPresupuesto
    var fechaCreacion: Instante
    var fechaAprobacion: Option<Instante>
    var observaciones: Option<string>

    /** Items.Sum(i => i.CostoAjustado). */
    function Subtotal(): real
      reads this
    {
      SumaCostosAjustados(items)
    }

    function Datos(): DatosPresupuesto
      reads this
    {
      DatosPresupuesto(id, numero, clienteId, vehiculo, placaVehiculo, vinVehiculo, items, ivaAplicado,
        total, estado, fechaCreacion, fechaAprobacion, observaciones)
    }

    /** `new Presupuesto { ... }` with the fields a caller sets; the rest keep their defaults
        (no vehicle, no approval date). */
    constructor (id: Guid, numero: string, clienteId: Option<Guid>, placa: Option<string>,
                 vin: Option<string>, items: seq<ItemPresupuesto>, iva: real, total: real,
                 estado: EstadoPresupuesto, fechaCreacion: Instante, observaciones: Option<string>)
      ensures this.id == id && this.numero == numero && this.clienteId == clienteId
      ensures this.vehiculo == None && this.placaVehiculo == placa && this.vinVehiculo == vin
      ensures this.items == items && this.ivaAplicado == iva && this.total == total
      ensures this.estado == estado && this.fechaCreacion == fechaCreacion
      ensures this.fechaAprobacion == None && this.observaciones == observaciones
    {
      this.id := id;
      this.numero := numero;
      this.clienteId := clienteId;
      this.vehiculo := None;
      this.placaVehiculo := placa;
      this.vinVehiculo := vin;
      this.items := items;
      this.ivaAplicado := iva;
      this.total := total;
      this.estado := estado;
      this.fechaCreacion := fechaCreacion;
      this.fechaAprobacion := None;
      this.observaciones := observaciones;
    }
  }

  // ---------------------------------------------------------------- workshop

  datatype Tecnico = Tecnico(
    id: Guid,
    nombre: string,
    apellido: string,
    especialidad: string,
    telefono: string,
    email: string,
    activo: bool,
    fechaAlta: Instante,
    horasPorSemana: real,
    costoPorHora: real)

  /** A repair-order line: a copy of a budget line with its real progress. */
  datatype ItemOrdenReparacion = ItemOrdenReparacion(
    codigo: string,
    descripcion: string,
    tipo: TipoItemPresupuesto,
    tiempoEstimadoHoras: real,
    tiempoRealHoras: real,
    precioUnitario: real,
    cantidad: Int32,
    completado: bool)

  /** Every field of a repair order at one moment. */
  datatype DatosOrden = DatosOrden(
    id: Guid,
    presupuestoId: Guid,
    tecnicoId: Option<Guid>,
    estado: EstadoOrdenReparacion,
    fechaCreacion: Instante,
    fechaInicio: Option<Instante>,
    fechaFinEstimada: Option<Instante>,
    fechaFinReal: Option<Instante>,
    horasEstimadas: real,
    horasReales: real,
    observaciones: string,
    prioridad: string,
    items: seq<ItemOrdenReparacion>)

  class OrdenReparacion {
    const id: Guid
    var presupuestoId: Guid
    var tecnicoId: Option<Guid>
    var estado: EstadoOrdenReparacion
    var fechaCreacion: Instante
    var fechaInicio: Option<Instante>
    var fechaFinEstimada: Option<Instante>
    var fechaFinReal: Option<Instante>
    var horasEstimadas: real
    var horasReales: real
    var observaciones: string
    var prioridad: string
    var items: seq<ItemOrdenReparacion>

    function Datos(): DatosOrden
      reads this
    {
      DatosOrden(id, presupuestoId, tecnicoId, estado, fechaCreacion, fechaInicio, fechaFinEstimada,
        fechaFinReal, horasEstimadas, horasReales, observaciones, prioridad, items)
    }

    /** `new OrdenReparacion { PresupuestoId, Estado = Pendiente, HorasEstimadas, Prioridad }`. */
    constructor (id: Guid, presupuestoId: Guid, horasEstimadas: real, prioridad: string, ahora: Instante)
      ensures this.id == id && this.presupuestoId == presupuestoId && this.tecnicoId == None
      ensures this.estado == Pendiente && this.fechaCreacion == ahora
      ensures this.fechaInicio == None && this.fechaFinEstimada == None && this.fechaFinReal == None
      ensures this.horasEstimadas == horasEstimadas && this.horasReales == 0.0
      ensures this.observaciones == "" && this.prioridad == prioridad && this.items == []
    {
      this.id := id;
      this.presupuestoId := presupuestoId;
      this.tecnicoId := None;
      this.estado := Pendiente;
      this.fechaCreacion := ahora;
      this.fechaInicio := None;
      this.fechaFinEstimada := None;
      this.fechaFinReal := None;
      this.horasEstimadas := horasEstimadas;
      this.horasReales := 0.0;
      this.observaciones := "";
      this.prioridad := prioridad;
      this.items := [];
    }
  }

  // ---------------------------------------------------------------- warehouse

  datatype Refaccion = Refaccion(
    id: Guid,
    sku: string,
    nombre: string,
    descripcion: string,
    stockActual: Int32,
    stockMinimo: Int32,
    stockMaximo: Int32,
    costoPromedio: real,
    precioVenta: real,
    categoria: string,
    ubicacion: string,
    activa: bool,
    fechaActualizacion: Instante)

  datatype MovimientoInventario = MovimientoInventario(
    id: Guid,
    refaccionId: Guid,
    tipo: TipoMovimientoInventario,
    cantidad: Int32,
    fecha: Instante,
    razon: string,
    responsableUsuarioId: string,
    ordenCompraId: Option<Guid>,
    ordenReparacionId: Option<Guid>,
    stockAnterior: Int32,
    stockPosterior: Int32)

  /** A physical stock count; its state is one of the strings "Pendiente", "EnCurso", "Completado". */
  datatype CuentoFisico = CuentoFisico(
    id: Guid,
    fechaCreacion: Instante,
    fechaCompletacion: Option<Instante>,
    estado: string,
    observaciones: string,
    responsableUsuarioId: string)

  datatype CuentoFisicoDetalle = CuentoFisicoDetalle(
    id: Guid,
    cuentoFisicoId: Guid,
    refaccionId: Guid,
    stockSistema: Int32,
    stockFisico: Int32,
    observaciones: string)
  {
    /** StockFisico - StockSistema in unchecked 32-bit arithmetic: it is the true difference
        whenever that fits, and it is zero exactly when the two counts agree. */
    function Diferencia(): (r: Int32)
      ensures EnRangoInt32(stockFisico - stockSistema) ==> r == stockFisico - stockSistema
      ensures r == 0 <==> stockFisico == stockSistema
    {
      var x := stockFisico - stockSistema;
      var r := Envolver32(x);
      assert r == 0 ==> x == 0 by {
        if r == 0 {
          assert (0 - x) % 0x1_0000_0000 == 0;
          assert -0x1_0000_0000 < x < 0x1_0000_0000;
        }
      }
      r
    }
  }

  // ---------------------------------------------------------------- purchasing

  datatype Proveedor = Proveedor(
    id: Guid,
    razonSocial: string,
    rfc: string,
    telefono: string,
    email: string,
    direccion: string,
    contactoPrincipal: string,
    condicionesPago: string,
    activo: bool,
    calificacionPromedio: real,
    fechaAlta: Instante)

  datatype ItemOrdenCompra = ItemOrdenCompra(
    refaccionId: Guid,
    cantidad: Int32,
    precioUnitario: real,
    cantidadRecibida: Int32)
  {
    /** Cantidad * PrecioUnitario. */
    function Subtotal(): real
    {
      (cantidad as real) * precioUnitario
    }

    /** CantidadRecibida >= Cantidad. */
    predicate Completado()
    {
      cantidadRecibida >= cantidad
    }
  }

  datatype OrdenCompra = OrdenCompra(
    id: Guid,
    proveedorId: Guid,
    estado: EstadoOrdenCompra,
    fechaCreacion: Instante,
    fechaEnvio: Option<Instante>,
    fechaRecepcion: Option<Instante>,
    numero: string,
    referencia: string,
    subtotal: real,
    iva: real,
    total: real,
    observaciones: string,
    responsableUsuarioId: string,
    items: seq<ItemOrdenCompra>)

  datatype ItemRequisicion = ItemRequisicion(
    sku: string,
    descripcion: string,
    cantidad: Int32,
    precioEstimado: real,
    observaciones: string)

  /** A purchase requisition; its state is one of "Pendiente", "Aprobada", "Rechazada". */
  datatype Requisicion = Requisicion(
    id: Guid,
    fechaCreacion: Instante,
    numero: string,
    estado: string,
    solicitanteUsuarioId: string,
    aprobadorUsuarioId: string,
    justificacion: string,
    observaciones: string,
    items: seq<ItemRequisicion>)

  // ---------------------------------------------------------------- finance

  datatype FacturaCliente = FacturaCliente(
    id: Guid,
    presupuestoId: Guid,
    importe: real,
    fechaEmision: Instante,
    pagada: bool)

  datatype CuentaPorCobrar = CuentaPorCobrar(
    id: Guid,
    facturaId: Guid,
    saldo: real,
    fechaVencimiento: Instante)
  {
    /** Overdue: today's date is past the due date and a balance is left. */
    predicate Vencida(ahora: Instante)
    {
      Dia(ahora) > Dia(fechaVencimiento) && saldo > 0.0
    }
  }

  /** An overdue account stays overdue as time goes on while its balance is unchanged. */
  lemma VencidaPersiste(c: CuentaPorCobrar, t1: Instante, t2: Instante)
    requires t1 <= t2 && c.Vencida(t1)
    ensures c.Vencida(t2)
  {
    DiaMonotono(t1, t2);
  }

  /** Only a later day counts: an account is never overdue on its due date or before it. */
  lemma VencidaSoloDespues(c: CuentaPorCobrar, ahora: Instante)
    requires c.Vencida(ahora)
    ensures ahora > c.fechaVencimiento
    ensures ahora >= (Dia(c.fechaVencimiento) + 1) * TicksPorDia
  {
    if ahora <= c.fechaVencimiento {
      DiaMonotono(ahora, c.fechaVencimiento);
    }
    assert ahora == TicksPorDia * Dia(ahora) + ahora % TicksPorDia;
    assert TicksPorDia * Dia(ahora) >= TicksPorDia * (Dia(c.fechaVencimiento) + 1);
  }

  datatype DashboardKpi = DashboardKpi(
    margenPromedio: real,
    tasaRetrabajo: real,
    ordenesActivas: Int32,
    flujoCajaProyectado: real)

  // ---------------------------------------------------------------- catalogues

  datatype ReferenciaAlternativa = ReferenciaAlternativa(
    id: Guid,
    refaccionId: Guid,
    fabricanteRef: string,
    partNumberRef: string,
    tipo: string,
    proveedorCatalogo: string,
    urlCatalogo: string,
    fechaActualizacion: Instante)

  datatype CrossReference = CrossReference(manufacturer: string, partNumber: string, tipo: string)

  /** The product record the import writes from (the domain-model variant). */
  datatype ProductoCatalogo = ProductoCatalogo(
    proveedor: string,
    partNumber: string,
    manufacturer: string,
    description: string,
    url: string,
    crossReferences: seq<CrossReference>,
    additionalInfo: string)
}
