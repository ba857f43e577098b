/** The budget workflow (WorkflowService.cs). A budget moves Borrador → Aprobado → Cerrado →
    Facturado, one step at a time; each step changes only the budget's state and reports whether
    the state it starts from matched. */
module Workflow {
  import opened Wrappers
  import opened Modelos

  /** The state a step towards `hacia` must start from; Borrador and Rechazado are not targets
      of any step. */
  function Origen(hacia: EstadoPresupuesto): Option<EstadoPresupuesto>
  {
    match hacia
    case Aprobado => Some(Borrador)
    case Cerrado => Some(Aprobado)
    case Facturado => Some(Cerrado)
    case _ => None
  }

  /** Whether a step from `desde` to `hacia` succeeds. */
  predicate Permitida(desde: EstadoPresupuesto, hacia: EstadoPresupuesto)
  {
    Origen(hacia) == Some(desde)
  }

  /** WorkflowService.AprobarPresupuesto. */
  method AprobarPresupuesto(p: Presupuesto) returns (exito: bool)
    modifies p`estado
    ensures exito <==> old(p.estado) == Borrador
    ensures p.estado == if exito then Aprobado else old(p.estado)
  {
    if p.estado == Borrador {
      p.estado := Aprobado;
      return true;
    }
    return false;
  }

  /** WorkflowService.CerrarPresupuesto. */
  method CerrarPresupuesto(p: Presupuesto) returns (exito: bool)
    modifies p`estado
    ensures exito <==> old(p.estado) == Aprobado
    ensures p.estado == if exito then Cerrado else old(p.estado)
  {
    if p.estado == Aprobado {
      p.estado := Cerrado;
      return true;
    }
    return false;
  }

  /** WorkflowService.FacturarPresupuesto. */
  method FacturarPresupuesto(p: Presupuesto) returns (exito: bool)
    modifies p`estado
    ensures exito <==> old(p.estado) == Cerrado
    ensures p.estado == if exito then Facturado else old(p.estado)
  {
    if p.estado == Cerrado {
      p.estado := Facturado;
      return true;
    }
    return false;
  }

  /** WorkflowService.CambiarEstado: dispatches on the target; a target no step leads to, or a
      step whose starting state does not match, ends in an InvalidOperationException. */
  method CambiarEstado(p: Presupuesto, nuevoEstado: EstadoPresupuesto) returns (r: Outcome)
    modifies p`estado
    ensures r == Success <==> Permitida(old(p.estado), nuevoEstado)
    ensures r.Failure? ==> r.error == InvalidOperation
    ensures p.estado == if r == Success then nuevoEstado else old(p.estado)
  {
    var exito: bool;
    match nuevoEstado {
      case Aprobado => exito := AprobarPresupuesto(p);
      case Cerrado => exito := CerrarPresupuesto(p);
      case Facturado => exito := FacturarPresupuesto(p);
      case _ => return Failure(InvalidOperation);
    }
    if !exito {
      return Failure(InvalidOperation);
    }
    return Success;
  }

  /** Position of a state along the workflow chain; Rechazado is off the chain. */
  function Etapa(e: EstadoPresupuesto): Option<nat>
  {
    match e
    case Borrador => Some(0)
    case Aprobado => Some(1)
    case Cerrado => Some(2)
    case Facturado => Some(3)
    case Rechazado => None
  }

  /** A step succeeds exactly when it moves one position forward along the chain. */
  lemma PermitidaAvanzaUna(desde: EstadoPresupuesto, hacia: EstadoPresupuesto)
    ensures Permitida(desde, hacia) <==>
      Etapa(desde).Some? && Etapa(hacia) == Some(Etapa(desde).value + 1)
  {
  }

  /** No step leaves Facturado or Rechazado, and none leads to Borrador or Rechazado. */
  lemma EstadosFinales(e: EstadoPresupuesto)
    ensures !Permitida(Facturado, e) && !Permitida(Rechazado, e)
    ensures !Permitida(e, Borrador) && !Permitida(e, Rechazado)
  {
  }

  /** The state after a sequence of CambiarEstado calls, where a failed call changes nothing. */
  function Recorrer(e: EstadoPresupuesto, objetivos: seq<EstadoPresupuesto>): EstadoPresupuesto
    decreases |objetivos|
  {
    if objetivos == [] then e
    else Recorrer(if Permitida(e, objetivos[0]) then objetivos[0] else e, objetivos[1..])
  }

  /** Whatever the calls, the workflow never rejects a budget and never goes back: a budget on
      the chain stays on it, at the same position or further along. */
  lemma {:induction false} RecorrerAvanza(e: EstadoPresupuesto, objetivos: seq<EstadoPresupuesto>)
    requires e != Rechazado
    ensures Recorrer(e, objetivos) != Rechazado
    ensures Etapa(e).value <= Etapa(Recorrer(e, objetivos)).value
    ensures Etapa(Recorrer(e, objetivos)).value <= Etapa(e).value + |objetivos|
    decreases |objetivos|
  {
    if objetivos != [] {
      var s := if Permitida(e, objetivos[0]) then objetivos[0] else e;
      PermitidaAvanzaUna(e, objetivos[0]);
      RecorrerAvanza(s, objetivos[1..]);
    }
  }

  /** The happy path of the workflow: three calls take a draft to invoiced, and invoicing a
      draft directly fails. */
  lemma CicloCompleto()
    ensures Recorrer(Borrador, [Aprobado, Cerrado, Facturado]) == Facturado
    ensures !Permitida(Borrador, Facturado)
  {
    assert [Aprobado, Cerrado, Facturado][1..] == [Cerrado, Facturado];
    assert [Cerrado, Facturado][1..] == [Facturado];
  }
}
