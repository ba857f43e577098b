/** The workshop service (TallerService.cs): technicians, repair orders created from approved
    budgets, and the repair-order state machine. The technicians table is a map by id and the
    orders table a list of order objects; a lookup that finds nothing is a null reference. */
module Taller {
  import opened Wrappers
  import opened Sistema
  import opened Modelos

  // ---------------------------------------------------------------- the state machine

  /** The transition table: the states each state may move to. */
  function Sucesores(e: EstadoOrdenReparacion): seq<EstadoOrdenReparacion>
  {
    match e
    case Pendiente => [EnCurso, EstadoOrdenReparacion.Cancelada]
    case EnCurso => [Completada, EstadoOrdenReparacion.Cancelada]
    case Completada => [Facturada]
    case Facturada => [EstadoOrdenReparacion.Cancelada]
    case Cancelada => []
  }

  /** TallerService.ValidarTransicionEstado. */
  predicate ValidarTransicionEstado(actual: EstadoOrdenReparacion, nuevo: EstadoOrdenReparacion)
  {
    nuevo in Sucesores(actual)
  }

  /** Position along the work itself; a cancelled order is off that line. */
  function Avance(e: EstadoOrdenReparacion): Option<nat>
  {
    match e
    case Pendiente => Some(0)
    case EnCurso => Some(1)
    case Completada => Some(2)
    case Facturada => Some(3)
    case Cancelada => None
  }

  /** A transition either moves the work one step forward, or cancels an order that is pending,
      in progress or invoiced; a completed order cannot be cancelled and a cancelled one cannot
      move at all. */
  lemma TransicionesExactas(actual: EstadoOrdenReparacion, nuevo: EstadoOrdenReparacion)
    ensures ValidarTransicionEstado(actual, nuevo) <==>
      (Avance(actual).Some? && Avance(nuevo) == Some(Avance(actual).value + 1)) ||
      (nuevo == EstadoOrdenReparacion.Cancelada && actual in {Pendiente, EnCurso, Facturada})
  {
  }

  /** The state after a sequence of CambiarEstado calls, where a refused call changes nothing. */
  function Recorrer(e: EstadoOrdenReparacion, objetivos: seq<EstadoOrdenReparacion>): EstadoOrdenReparacion
    decreases |objetivos|
  {
    if objetivos == [] then e
    else Recorrer(if ValidarTransicionEstado(e, objetivos[0]) then objetivos[0] else e, objetivos[1..])
  }

  /** Whatever the calls, an order never returns to Pendiente once it has left it, a cancelled
      order stays cancelled, and the work never moves backwards. */
  lemma {:induction false} RecorrerNoRetrocede(e: EstadoOrdenReparacion, objetivos: seq<EstadoOrdenReparacion>)
    ensures e != Pendiente ==> Recorrer(e, objetivos) != Pendiente
    ensures e == EstadoOrdenReparacion.Cancelada ==> Recorrer(e, objetivos) == EstadoOrdenReparacion.Cancelada
    ensures Avance(e).Some? && Avance(Recorrer(e, objetivos)).Some? ==>
      Avance(e).value <= Avance(Recorrer(e, objetivos)).value
    decreases |objetivos|
  {
    if objetivos != [] {
      var s := if ValidarTransicionEstado(e, objetivos[0]) then objetivos[0] else e;
      TransicionesExactas(e, objetivos[0]);
      RecorrerNoRetrocede(s, objetivos[1..]);
      if Avance(e).Some? && Avance(Recorrer(e, objetivos)).Some? {
        assert Avance(s).Some?;
      }
    }
  }

  /** A date the state change records when it enters its state: set to now only if unset. */
  function FechaAlEntrar(fecha: Option<Instante>, entra: bool, ahora: Instante): (r: Option<Instante>)
    ensures fecha.Some? ==> r == fecha
    ensures !entra ==> r == fecha
    ensures r.Some? <==> fecha.Some? || entra
  {
    if entra && fecha.None? then Some(ahora) else fecha
  }

  // ---------------------------------------------------------------- order lines

  /** A repair-order line copied from a budget line: always quantity 1, no real time yet. */
  function ItemDeOrden(i: ItemPresupuesto): ItemOrdenReparacion
  {
    ItemOrdenReparacion(i.codigo, i.descripcion, i.tipo, i.tiempoAsignadoHoras, 0.0, i.precioUnitario, 1, false)
  }

  function ItemsDeOrden(items: seq<ItemPresupuesto>): (r: seq<ItemOrdenReparacion>)
    ensures |r| == |items|
  {
    seq(|items|, k requires 0 <= k < |items| => ItemDeOrden(items[k]))
  }

  /** Sum of the estimated hours of an order's lines. */
  function HorasEstimadasDe(items: seq<ItemOrdenReparacion>): real
    decreases |items|
  {
    if items == [] then 0.0 else items[0].tiempoEstimadoHoras + HorasEstimadasDe(items[1..])
  }

  /** Sum of the hours assigned to a budget's lines. */
  function HorasAsignadasDe(items: seq<ItemPresupuesto>): real
    decreases |items|
  {
    if items == [] then 0.0 else items[0].tiempoAsignadoHoras + HorasAsignadasDe(items[1..])
  }

  /** The order's lines keep the budget's codes, descriptions and kinds in order, each with
      quantity 1, and carry the budget's hours in total. */
  lemma {:induction false} ItemsDeOrdenCopian(items: seq<ItemPresupuesto>)
    ensures forall k :: 0 <= k < |items| ==>
      ItemsDeOrden(items)[k].codigo == items[k].codigo &&
      ItemsDeOrden(items)[k].descripcion == items[k].descripcion &&
      ItemsDeOrden(items)[k].tipo == items[k].tipo &&
      ItemsDeOrden(items)[k].cantidad == 1
    ensures HorasEstimadasDe(ItemsDeOrden(items)) == HorasAsignadasDe(items)
    decreases |items|
  {
    if items != [] {
      ItemsDeOrdenCopian(items[1..]);
      assert ItemsDeOrden(items)[1..] == ItemsDeOrden(items[1..]);
    }
  }

  // ---------------------------------------------------------------- the service

  class TallerService {
    var tecnicos: map<Guid, Tecnico>
    var ordenes: seq<OrdenReparacion>

    constructor (tecnicos: map<Guid, Tecnico>)
      ensures this.tecnicos == tecnicos && ordenes == []
    {
      this.tecnicos := tecnicos;
      ordenes := [];
    }

    /** TallerService.CrearTecnicoAsync: a blank name or a non-positive hourly cost is refused
        before anything is saved; an id already in the table is refused by the database. */
    method CrearTecnico(tecnico: Tecnico) returns (r: Result<Tecnico>)
      modifies this
      ensures ordenes == old(ordenes)
      ensures EsBlanco(tecnico.nombre) ==> r == Err(InvalidArgument)
      ensures !EsBlanco(tecnico.nombre) && tecnico.costoPorHora <= 0.0 ==> r == Err(InvalidArgument)
      ensures r.Ok? <==>
        !EsBlanco(tecnico.nombre) && tecnico.costoPorHora > 0.0 && tecnico.id !in old(tecnicos)
      ensures r.Ok? ==> r.value == tecnico && tecnicos == old(tecnicos)[tecnico.id := tecnico]
      ensures r.Err? ==> tecnicos == old(tecnicos)
    {
      if EsBlanco(tecnico.nombre) {
        return Err(InvalidArgument);
      }
      if tecnico.costoPorHora <= 0.0 {
        return Err(InvalidArgument);
      }
      if tecnico.id in tecnicos {
        return Err(DbUpdate);
      }
      tecnicos := tecnicos[tecnico.id := tecnico];
      return Ok(tecnico);
    }

    /** TallerService.CrearOrdenReparacionAsync on the budget the lookup found (null when none):
        only an approved budget gives an order, which starts pending with one line per budget
        line, in order. */
    method CrearOrdenReparacion(p: Presupuesto?, horasEstimadas: real, prioridad: string,
                                id: Guid, ahora: Instante)
      returns (r: Result<OrdenReparacion>)
      modifies this
      ensures tecnicos == old(tecnicos)
      ensures p == null ==> r == Err(KeyNotFound)
      ensures p != null && p.estado != Aprobado ==> r == Err(InvalidOperation)
      ensures r.Ok? <==> p != null && p.estado == Aprobado
      ensures r.Err? ==> ordenes == old(ordenes)
      ensures r.Ok? ==>
        var o := r.value;
        fresh(o) && ordenes == old(ordenes) + [o] &&
        o.Datos() == DatosOrden(id, p.id, None, Pendiente, ahora, None, None, None, horasEstimadas, 0.0, "",
          prioridad, ItemsDeOrden(p.items))
    {
      if p == null {
        return Err(KeyNotFound);
      }
      if p.estado != Aprobado {
        return Err(InvalidOperation);
      }
      var orden := new OrdenReparacion(id, p.id, horasEstimadas, prioridad, ahora);
      var k := 0;
      while k < |p.items|
        invariant 0 <= k <= |p.items|
        invariant tecnicos == old(tecnicos) && ordenes == old(ordenes)
        invariant orden.Datos() == DatosOrden(id, p.id, None, Pendiente, ahora, None, None, None, horasEstimadas,
          0.0, "", prioridad, ItemsDeOrden(p.items[..k]))
      {
        assert p.items[..k + 1] == p.items[..k] + [p.items[k]];
        orden.items := orden.items + [ItemDeOrden(p.items[k])];
        k := k + 1;
      }
      assert p.items[..k] == p.items;
      ordenes := ordenes + [orden];
      return Ok(orden);
    }

    /** TallerService.AsignarTecnicoAsync: the order and the technician must exist and the
        technician must be active; only the order's technician changes. */
    method AsignarTecnico(o: OrdenReparacion?, tecnicoId: Guid) returns (r: Outcome)
      modifies o
      ensures o == null ==> r == Failure(KeyNotFound)
      ensures o != null && tecnicoId !in tecnicos ==> r == Failure(KeyNotFound)
      ensures o != null && tecnicoId in tecnicos && !tecnicos[tecnicoId].activo ==> r == Failure(InvalidOperation)
      ensures r == Success <==> o != null && tecnicoId in tecnicos && tecnicos[tecnicoId].activo
      ensures o != null && r == Success ==> o.Datos() == old(o.Datos()).(tecnicoId := Some(tecnicoId))
      ensures o != null && r.Failure? ==> o.Datos() == old(o.Datos())
    {
      if o == null {
        return Failure(KeyNotFound);
      }
      if tecnicoId !in tecnicos {
        return Failure(KeyNotFound);
      }
      if !tecnicos[tecnicoId].activo {
        return Failure(InvalidOperation);
      }
      o.tecnicoId := Some(tecnicoId);
      return Success;
    }

    /** TallerService.CambiarEstadoAsync: an edge outside the table is refused and changes
        nothing; entering EnCurso records the start and entering Completada the real end, each
        only when not yet recorded. */
    method CambiarEstado(o: OrdenReparacion?, nuevoEstado: EstadoOrdenReparacion, ahora: Instante)
      returns (r: Outcome)
      modifies o
      ensures o == null ==> r == Failure(KeyNotFound)
      ensures o != null ==> (r == Success <==> ValidarTransicionEstado(old(o.estado), nuevoEstado))
      ensures o != null && r.Failure? ==> r.error == InvalidOperation
      ensures o != null && r.Failure? ==> o.Datos() == old(o.Datos())
      ensures o != null && r == Success ==>
        o.Datos() == old(o.Datos()).(estado := nuevoEstado,
          fechaInicio := FechaAlEntrar(old(o.fechaInicio), nuevoEstado == EnCurso, ahora),
          fechaFinReal := FechaAlEntrar(old(o.fechaFinReal), nuevoEstado == Completada, ahora))
    {
      if o == null {
        return Failure(KeyNotFound);
      }
      var estadoAnterior := o.estado;
      if !ValidarTransicionEstado(estadoAnterior, nuevoEstado) {
        return Failure(InvalidOperation);
      }
      if nuevoEstado == EnCurso && o.fechaInicio.None? {
        o.fechaInicio := Some(ahora);
      }
      if nuevoEstado == Completada && o.fechaFinReal.None? {
        o.fechaFinReal := Some(ahora);
      }
      o.estado := nuevoEstado;
      return Success;
    }

    /** TallerService.ActualizarHorasRealesAsync: negative hours are refused. */
    method ActualizarHorasReales(o: OrdenReparacion?, horasReales: real) returns (r: Outcome)
      modifies o
      ensures o == null ==> r == Failure(KeyNotFound)
      ensures o != null ==> (r == Success <==> horasReales >= 0.0)
      ensures o != null && r.Failure? ==> r.error == InvalidArgument
      ensures o != null && r == Success ==> o.Datos() == old(o.Datos()).(horasReales := horasReales)
      ensures o != null && r.Failure? ==> o.Datos() == old(o.Datos())
    {
      if o == null {
        return Failure(KeyNotFound);
      }
      if horasReales < 0.0 {
        return Failure(InvalidArgument);
      }
      o.horasReales := horasReales;
      return Success;
    }
  }
}
