/** The budget service (PresupuestoService.cs): the preview total, creation with validation and
    numbering, and the approve and reject steps that only a draft accepts. The budgets table is
    a list of budget objects; the clients table is the set of their ids. */
module Presupuestos {
  import opened Wrappers
  import opened Sistema
  import opened Modelos
  import opened Numeracion

  /** ItemPresupuestoVm: a line as the form sends it; its code may be missing. */
  datatype ItemPresupuestoVm = ItemPresupuestoVm(
    tipo: TipoItemPresupuesto,
    codigo: Option<string>,
    descripcion: string,
    cantidad: Int32,
    tiempoAsignadoHoras: real,
    precioUnitario: real,
    porcentajeAjuste: real,
    requierePintura: bool,
    requiereDesmontajeDoble: bool,
    requiereAlineacion: bool)

  /** The budget line built from a form line: a missing code becomes the empty string. */
  function AItem(vm: ItemPresupuestoVm): ItemPresupuesto
  {
    ItemPresupuesto(vm.tipo, if vm.codigo.Some? then vm.codigo.value else "", vm.descripcion,
                    vm.cantidad, vm.tiempoAsignadoHoras, vm.precioUnitario, vm.porcentajeAjuste,
                    vm.requierePintura, vm.requiereDesmontajeDoble, vm.requiereAlineacion)
  }

  function Entidades(items: seq<ItemPresupuestoVm>): (r: seq<ItemPresupuesto>)
    ensures |r| == |items|
  {
    seq(|items|, k requires 0 <= k < |items| => AItem(items[k]))
  }

  /** The preview's own sum: price × hours × quantity × (1 + percentage / 100) per line. */
  function SumaVista(items: seq<ItemPresupuestoVm>): real
    decreases |items|
  {
    if items == [] then 0.0
    else
      var i := items[0];
      i.precioUnitario * i.tiempoAsignadoHoras * (i.cantidad as real) * (1.0 + i.porcentajeAjuste / 100.0)
        + SumaVista(items[1..])
  }

  /** PresupuestoService.CalcularTotal; a null list is the empty list here. */
  function CalcularTotal(items: seq<ItemPresupuestoVm>, tasaIva: real): real
  {
    if items == [] then 0.0
    else
      var subtotal := SumaVista(items);
      subtotal + subtotal * tasaIva
  }

  /** The preview's sum is the subtotal of the budget lines built from the same form lines. */
  lemma {:induction false} SumaVistaEsSubtotal(items: seq<ItemPresupuestoVm>)
    ensures SumaVista(items) == SumaCostosAjustados(Entidades(items))
    decreases |items|
  {
    if items != [] {
      SumaVistaEsSubtotal(items[1..]);
      assert Entidades(items)[1..] == Entidades(items[1..]);
      assert Entidades(items)[0] == AItem(items[0]);
    }
  }

  /** For the same lines and rate, the preview equals the total a created budget stores:
      subtotal plus subtotal × rate. An empty list previews as 0. */
  lemma CalcularTotalEsTotalCreado(items: seq<ItemPresupuestoVm>, tasaIva: real)
    ensures items == [] ==> CalcularTotal(items, tasaIva) == 0.0
    ensures items != [] ==>
      var s := SumaCostosAjustados(Entidades(items));
      CalcularTotal(items, tasaIva) == s + s * tasaIva
  {
    SumaVistaEsSubtotal(items);
  }

  /** What the creation loop checks of each line. */
  predicate ItemValido(i: ItemPresupuestoVm)
  {
    i.cantidad > 0 && i.precioUnitario >= 0.0 && i.tiempoAsignadoHoras >= 0.0
  }

  /** The foreach of CrearPresupuestoAsync: the first line with a non-positive quantity, a
      negative price or negative hours ends in an InvalidOperationException. */
  method ValidarItems(items: seq<ItemPresupuestoVm>) returns (r: Outcome)
    ensures r == Success <==> forall k :: 0 <= k < |items| ==> ItemValido(items[k])
    ensures r.Failure? ==> r.error == InvalidOperation
  {
    var k := 0;
    while k < |items|
      invariant 0 <= k <= |items|
      invariant forall j :: 0 <= j < k ==> ItemValido(items[j])
    {
      var item := items[k];
      if item.cantidad <= 0 {
        return Failure(InvalidOperation);
      }
      if item.precioUnitario < 0.0 {
        return Failure(InvalidOperation);
      }
      if item.tiempoAsignadoHoras < 0.0 {
        return Failure(InvalidOperation);
      }
      k := k + 1;
    }
    return Success;
  }

  /** A client id is checked only when it is given and not Guid.Empty. */
  predicate ClienteAceptado(clienteId: Option<Guid>, clientes: set<Guid>)
  {
    clienteId.None? || clienteId.value == 0 || clienteId.value in clientes
  }

  /** Everything creation demands of its input. */
  predicate CreacionValida(clienteId: Option<Guid>, items: seq<ItemPresupuestoVm>, clientes: set<Guid>)
  {
    ClienteAceptado(clienteId, clientes) && items != [] &&
    forall k :: 0 <= k < |items| ==> ItemValido(items[k])
  }

  /** The VAT of a subtotal at a rate. */
  function IvaDe(subtotal: real, tasaIva: real): real
  {
    subtotal * tasaIva
  }

  /** The creation preconditions in terms of the lines: an empty list, or a line with a
      non-positive quantity, is always refused. */
  lemma CreacionRechaza(clienteId: Option<Guid>, items: seq<ItemPresupuestoVm>, clientes: set<Guid>, k: nat)
    requires k < |items| && items[k].cantidad <= 0
    ensures !CreacionValida(clienteId, items, clientes)
    ensures !CreacionValida(clienteId, [], clientes)
  {
    assert !ItemValido(items[k]);
  }

  class PresupuestoService {
    var clientes: set<Guid>
    var presupuestos: seq<Presupuesto>

    /** The Numero column of the budgets table. */
    function Numeros(): (r: seq<string>)
      reads this, presupuestos
      ensures |r| == |presupuestos|
    {
      seq(|presupuestos|, k reads this, presupuestos requires 0 <= k < |presupuestos| => presupuestos[k].numero)
    }

    constructor (clientes: set<Guid>)
      ensures this.clientes == clientes && presupuestos == []
    {
      this.clientes := clientes;
      presupuestos := [];
    }

    /** No budget of the table has this id (the table's primary key). */
    predicate IdLibre(id: Guid)
      reads this, presupuestos
    {
      forall k :: 0 <= k < |presupuestos| ==> presupuestos[k].id != id
    }

    /** PresupuestoService.CrearPresupuestoAsync, under one transaction: on any error nothing is
        added. A created budget is a draft whose VAT is subtotal × rate and whose total is
        subtotal plus VAT, numbered after the year's highest number. The client id is kept only
        when one was checked. The number carries no unique index, so a repeated number is
        stored; an id already in the table fails the save, which is rolled back and reported as
        an InvalidOperationException. */
    method CrearPresupuesto(clienteId: Option<Guid>, placaVehiculo: Option<string>, vinVehiculo: Option<string>,
                            items: seq<ItemPresupuestoVm>, tasaIva: real, observaciones: Option<string>,
                            id: Guid, anio: int, ahora: Instante)
      returns (r: Result<Presupuesto>)
      modifies this
      ensures clientes == old(clientes)
      ensures r.Ok? <==> CreacionValida(clienteId, items, old(clientes)) && old(IdLibre(id))
      ensures r.Err? ==> r.error == InvalidOperation && presupuestos == old(presupuestos)
      ensures r.Ok? ==> r.value.numero == NumeroPresupuesto(old(Numeros()), anio)
      ensures r.Ok? ==>
        var p := r.value;
        fresh(p) && presupuestos == old(presupuestos) + [p] &&
        p.id == id &&
        p.clienteId == (if clienteId.Some? && clienteId.value != 0 then clienteId else None) &&
        p.placaVehiculo == placaVehiculo && p.vinVehiculo == vinVehiculo &&
        p.items == Entidades(items) && p.vehiculo == None &&
        p.total == p.Subtotal() + p.ivaAplicado &&
        p.estado == Borrador && p.fechaCreacion == ahora && p.fechaAprobacion == None &&
        p.observaciones == observaciones
      ensures r.Ok? ==> r.value.ivaAplicado == IvaDe(r.value.Subtotal(), tasaIva)
    {
      var cliente: Option<Guid> := None;
      if clienteId.Some? && clienteId.value != 0 {
        if clienteId.value !in clientes {
          return Err(InvalidOperation);
        }
        cliente := clienteId;
      }
      if |items| == 0 {
        return Err(InvalidOperation);
      }
      var validacion := ValidarItems(items);
      if validacion.Failure? {
        return Err(validacion.error);
      }
      var existentes := Numeros();
      assert existentes == old(Numeros());
      var numero := NumeroPresupuesto(existentes, anio);
      var p := NuevoBorrador(id, numero, cliente, placaVehiculo, vinVehiculo, items, tasaIva, ahora, observaciones);
      if !IdLibre(id) {
        return Err(InvalidOperation);
      }
      presupuestos := presupuestos + [p];
      r := Ok(p);
    }

    /** The budget CrearPresupuestoAsync adds once its checks pass: a draft of the form's lines
        with the VAT and total worked out from their subtotal. */
    static method NuevoBorrador(id: Guid, numero: string, cliente: Option<Guid>, placaVehiculo: Option<string>,
                                vinVehiculo: Option<string>, items: seq<ItemPresupuestoVm>, tasaIva: real,
                                ahora: Instante, observaciones: Option<string>)
      returns (p: Presupuesto)
      ensures fresh(p) && p.id == id && p.numero == numero && p.clienteId == cliente
      ensures p.placaVehiculo == placaVehiculo && p.vinVehiculo == vinVehiculo
      ensures p.items == Entidades(items) && p.vehiculo == None
      ensures p.ivaAplicado == IvaDe(p.Subtotal(), tasaIva) && p.total == p.Subtotal() + p.ivaAplicado
      ensures p.estado == Borrador && p.fechaCreacion == ahora && p.fechaAprobacion == None
      ensures p.observaciones == observaciones
    {
      var entidades := Entidades(items);
      var subtotal := SumaCostosAjustados(entidades);
      var iva := IvaDe(subtotal, tasaIva);
      p := new Presupuesto(id, numero, cliente, placaVehiculo, vinVehiculo, entidades,
                           iva, subtotal + iva, Borrador, ahora, observaciones);
    }

    /** PresupuestoService.AprobarPresupuestoAsync on the budget the lookup found (null when
        none): only a draft is approved, and it records the approval instant. */
    method AprobarPresupuesto(p: Presupuesto?, ahora: Instante) returns (r: Outcome)
      modifies p
      ensures r == Success <==> p != null && old(p.estado) == Borrador
      ensures r.Failure? ==> r.error == InvalidOperation
      ensures p != null && r == Success ==>
        p.Datos() == old(p.Datos()).(estado := Aprobado, fechaAprobacion := Some(ahora))
      ensures p != null && r.Failure? ==> p.Datos() == old(p.Datos())
    {
      if p == null {
        return Failure(InvalidOperation);
      }
      if p.estado != Borrador {
        return Failure(InvalidOperation);
      }
      p.estado := Aprobado;
      p.fechaAprobacion := Some(ahora);
      return Success;
    }

    /** PresupuestoService.RechazarPresupuestoAsync: only a draft is rejected, and its notes are
        replaced by the reason, or "N/A" without one. */
    method RechazarPresupuesto(p: Presupuesto?, motivo: Option<string>) returns (r: Outcome)
      modifies p
      ensures r == Success <==> p != null && old(p.estado) == Borrador
      ensures r.Failure? ==> r.error == InvalidOperation
      ensures p != null && r == Success ==>
        p.Datos() == old(p.Datos()).(estado := Rechazado, observaciones := Some(NotaRechazo(motivo)))
      ensures p != null && r.Failure? ==> p.Datos() == old(p.Datos())
    {
      if p == null {
        return Failure(InvalidOperation);
      }
      if p.estado != Borrador {
        return Failure(InvalidOperation);
      }
      p.estado := Rechazado;
      p.observaciones := Some(NotaRechazo(motivo));
      return Success;
    }
  }

  /** "Rechazado. Motivo: " followed by the reason, or by "N/A". */
  function NotaRechazo(motivo: Option<string>): (r: string)
    ensures EmpiezaCon(r, "Rechazado. Motivo: ")
    ensures motivo.Some? ==> r[|"Rechazado. Motivo: "|..] == motivo.value
    ensures motivo.None? ==> r[|"Rechazado. Motivo: "|..] == "N/A"
  {
    "Rechazado. Motivo: " + (if motivo.Some? then motivo.value else "N/A")
  }

  // ---------------------------------------------------------------- values from the tests

  /** A part of 100 an hour for 2 hours and labour of 45 an hour for 3 hours. */
  function LineasDePrueba(): seq<ItemPresupuestoVm>
  {
    [ ItemPresupuestoVm(Pieza, Some("PIEZA-01"), "", 1, 2.0, 100.0, 0.0, false, false, false),
      ItemPresupuestoVm(ManoObra, Some("MO-01"), "", 1, 3.0, 45.0, 0.0, false, false, false) ]
  }

  /** A part of 100 an hour for one hour. */
  function LineaDePrueba(): ItemPresupuestoVm
  {
    ItemPresupuestoVm(Pieza, Some("PIEZA-02"), "", 1, 1.0, 100.0, 0.0, false, false, false)
  }

  /** At a 16% rate: subtotal 335, VAT 53.6, total 388.6; a single line of 100 gives 16 and 116. */
  lemma TotalesDePrueba()
    ensures SumaCostosAjustados(Entidades(LineasDePrueba())) == 335.0
    ensures 335.0 * 0.16 == 53.6 && CalcularTotal(LineasDePrueba(), 0.16) == 388.6
    ensures CalcularTotal([LineaDePrueba()], 0.16) == 116.0
  {
    var l := LineasDePrueba();
    SumaVistaEsSubtotal(l);
    assert l[1..][1..] == [];
    assert [LineaDePrueba()][1..] == [];
  }
}
