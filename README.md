# AtelierPro core in Dafny

AtelierPro is an ERP for an auto body shop. This project models its business core in Dafny
and proves properties of that model. The core covers:

- **Budgets** (presupuestos): the cost of each line, the subtotal, VAT and total, and the budget numbers.
- **The rule engine**: the age discount on parts and the paint line added for parts that need paint.
- **The budget workflow**: Borrador → Aprobado → Cerrado → Facturado, and rejection of a draft.
- **Repair orders**: their transition table and their dates.
- **The warehouse**: the stock ledger, physical counts and the low-stock and critical alerts.
- **Purchasing**: suppliers, requisitions, purchase orders, VAT rounded to cents, reception and payment.
- **The dashboard KPIs** of the legacy in-memory data service.
- **The parts catalogue**: the provider registry, search, URL routing, the FinditParts
  cross-reference parser, and importing a catalogue product into the warehouse.

One module per source file:

| file | module | source |
|---|---|---|
| `modelos.dfy` | `Modelos` | `Models/DomainModels.cs` |
| `reglas.dfy` | `Reglas` | `Services/ReglaService.cs` |
| `presupuestos.dfy` | `Presupuestos` | `Services/PresupuestoService.cs` |
| `workflow.dfy` | `Workflow` | `Services/WorkflowService.cs` |
| `taller.dfy` | `Taller` | `Services/TallerService.cs` |
| `almacen.dfy` | `Almacen` | `Services/AlmacenService.cs` |
| `compras.dfy` | `Compras` | `Services/ComprasService.cs` |
| `erp_datos.dfy` | `ErpDatos` | `Services/ErpDataService.cs` |
| `findit_parts.dfy` | `FinditParts` | `Services/Catalogos/FinditPartsCatalogoService.cs` |
| `catalogos.dfy` | `Catalogos` | `Services/Catalogos/CatalogosManager.cs` and the provider interface's types |
| `catalogos_controller.dfy` | `CatalogosControlador` | `Controllers/CatalogosController.cs` (the import) |

Four further modules hold what those modules share:

- `Numeracion` is the "last number + 1" generator behind `P{year}-{seq:D5}`, `OC-{year}-{seq:D3}` and `REQ-{year}-{seq:D3}`.
- `Sistema` holds the .NET library behaviour the code relies on: `Trim`, `IsNullOrWhiteSpace`,
  ordinal `Contains`, `Split`, `int.TryParse`, `ToString("D<n>")`, ordinal string order and
  unchecked 32-bit arithmetic.
- `Consultas` holds the LINQ operators: `FirstOrDefault`, `Where`, `Count`, `Select` and a stable `OrderBy`.
- `Wrappers` holds `Option`, `Result` and the exception kinds.

How the model represents the program:

- **Money and hours** are exact reals. The one explicit rounding, `Math.Round(x, 2)` on the
  purchase VAT, is modelled as round-half-to-even on cents.
- **`int` fields** are the 32-bit subtype `Int32`, and unchecked additions wrap explicitly.
- **Entities the source updates in place** are classes with `modifies` clauses: `Presupuesto`,
  `OrdenReparacion` and the services.
- **Database tables** are `seq` or `map` fields of the service classes.
- **A `FindAsync(id) ?? throw`** on a single object becomes a parameter that may be `null`.
- **Timestamps** (`DateTime.UtcNow`) are parameters, counted in ticks.
- **New `Guid`s** are parameters or come from a counter.

The services follow the code as written, including the two defects listed under Findings. The
corrected definitions sit next to them, each with its intended property proved.

## Model

| member | source | states |
|---|---|---|
| Modelos.ItemPresupuesto.CostoAjustado | AtelierPro/Models/DomainModels.cs:84-85 | An adjustment of 0 % leaves the base cost and one of -100 % gives 0. A discount between 0 and -100 % keeps a non-negative cost between 0 and the base cost. A surcharge never lowers it. |
| Modelos.ItemPresupuesto.CostoBase | AtelierPro/Models/DomainModels.cs:84 | Definition: price per hour × hours × quantity. CostosDeEjemplo and CostoAjustado build on it. |
| Modelos.CostosDeEjemplo | AtelierPro.Tests/ServiceTests.cs:33-66 | A new line has quantity 1. At price 100 and 5 hours it costs 500, and 550 with a 10 % adjustment. |
| Modelos.SumaAgregar | AtelierPro/Models/DomainModels.cs:449 | Appending a line raises `Subtotal` by exactly that line's adjusted cost. |
| Modelos.SumaConcatenar | AtelierPro/Models/DomainModels.cs:449 | The subtotal of two lists laid end to end is the sum of their subtotals. |
| Modelos.SumaPorCostos | AtelierPro/Models/DomainModels.cs:449 | Lists that agree line by line on the adjusted cost have the same subtotal. |
| Modelos.Presupuesto.Subtotal | AtelierPro/Models/DomainModels.cs:449 | Definition: the sum of the lines' adjusted costs, which SumaAgregar, SumaConcatenar and SumaPorCostos characterise. |
| Modelos.Presupuesto.Datos | AtelierPro/Models/DomainModels.cs:432-457 | Every field of a budget as one value, so that an operation states the whole new state. |
| Modelos.OrdenReparacion.Datos | AtelierPro/Models/DomainModels.cs:115-141 | Every field of a repair order as one value, so that an operation states the whole new state. |
| Modelos.ItemOrdenCompra.Subtotal | AtelierPro/Models/DomainModels.cs:321 | Definition: quantity × unit price. SumaSubtotalesNoNegativa builds on it. |
| Modelos.ItemOrdenCompra.Completado | AtelierPro/Models/DomainModels.cs:324 | Definition: received at least the quantity ordered. RecepcionCompleta builds on it. |
| Modelos.CuentaPorCobrar.Vencida | AtelierPro/Models/DomainModels.cs:544 | Definition: today's date is past the due date and a balance is left. VencidaPersiste and VencidaSoloDespues characterise it. |
| Modelos.Presupuesto.constructor | AtelierPro/Models/DomainModels.cs:432-457 | The object initialiser sets the given fields and leaves the vehicle and the approval date unset. |
| Modelos.OrdenReparacion.constructor | AtelierPro/Models/DomainModels.cs:115-141 | The object initialiser sets the given fields, leaves no technician, no dates and no real hours, and starts with no lines. |
| Modelos.CuentoFisicoDetalle.Diferencia | AtelierPro/Models/DomainModels.cs:247 | `StockFisico - StockSistema` in unchecked int arithmetic. It is the true difference whenever that fits, and 0 exactly when the two counts agree. |
| Modelos.VencidaPersiste | AtelierPro/Models/DomainModels.cs:544 | An overdue account stays overdue at every later instant while its balance is unchanged. |
| Modelos.VencidaSoloDespues | AtelierPro/Models/DomainModels.cs:544 | Only dates count: an account is not overdue before the day after its due date. |
| Reglas.AjusteDepreciacion | AtelierPro/Services/ReglaService.cs:26-28 | For a positive age the adjustment is -10 points per year, capped at -50, so ages 1, 3, 5 and 10 give -10, -30, -50 and -50. |
| Reglas.DepreciarItem | AtelierPro/Services/ReglaService.cs:26-33 | Definition: a part of a vehicle with a positive age takes the age adjustment in place of its own, and other lines stay. |
| Reglas.Depreciados | AtelierPro/Services/ReglaService.cs:23-35 | The age rule over a list keeps its length. DepreciacionSoloPiezas, DepreciacionIdempotente and DepreciacionAbarata characterise it. |
| Reglas.AplicarDepreciacion | AtelierPro/Services/ReglaService.cs:23-35 | The in-place loop leaves exactly the depreciated list of the old lines. |
| Reglas.DepreciacionSoloPiezas | AtelierPro/Services/ReglaService.cs:26-33 | The age rule changes only a line's adjustment. It changes nothing when the age is not positive or the line is not a part. |
| Reglas.DepreciacionIdempotente | AtelierPro/Services/ReglaService.cs:29-33 | The adjustment is overwritten, not accumulated, so a second application changes nothing. |
| Reglas.DepreciacionAbarata | AtelierPro/Services/ReglaService.cs:28-32 | A depreciated part costs between half and nine tenths of its base cost. |
| Reglas.AplicarComplementos | AtelierPro/Services/ReglaService.cs:37-57 | The loop over the snapshot leaves exactly the list the paint rule describes, using the service's description check. |
| Reglas.Complementados | AtelierPro/Services/ReglaService.cs:37-57 | Definition: the paint rule's loop over a snapshot of the list, with the check as a parameter. ComplementarExtiende, ComplementarCubre and ComplementarSinCambios characterise it. |
| Reglas.ComplementarExtiende | AtelierPro/Services/ReglaService.cs:39-56 | The rule only appends. Existing lines keep their places, each added line is the paint line of a snapshot part that needs paint, and at most one line is added per such part. |
| Reglas.ComplementarCubre | AtelierPro/Services/ReglaService.cs:40-53 | Afterwards, every snapshot part that needs paint has a paint line that passes the check, or the paint line built for it. |
| Reglas.ComplementarSinCambios | AtelierPro/Services/ReglaService.cs:40-53 | The list is left unchanged if and only if every part that needs paint already passes the check. |
| Reglas.ComplementadosIdempotente | AtelierPro/Services/ReglaService.cs:43-52 | A second application adds nothing if the check recognises the added lines. That holds always for the by-code check, and for the service's check when each part's description names its code. |
| Reglas.ComplementadosPorCodigoIdempotente | AtelierPro/Services/ReglaService.cs:43-52 | With a check that also recognises a paint line by its code, the paint rule is idempotent. |
| Reglas.UnaPiezaConPintura | AtelierPro/Services/ReglaService.cs:43-52 | One part that needs paint and has no paint line grows into two lines. The new line's code is "PINT-" followed by the part's code. |
| Reglas.PinturaNoReconocida | AtelierPro/Services/ReglaService.cs:43-49 | The paint line built for the door panel does not hold the panel's code in its description, so the service's check misses it. |
| Reglas.SegundaPasada | AtelierPro/Services/ReglaService.cs:40-53 | Applied again to the panel and its paint line, the rule appends a second copy of the paint line. |
| Reglas.PinturaDuplicada | AtelierPro/Services/ReglaService.cs:43-52 | With the service's check, one line becomes two, and a second application makes three. |
| Reglas.AplicarReglas | AtelierPro/Services/ReglaService.cs:7-21 | The budget is returned as given. Without a vehicle its lines are unchanged. With a vehicle the age rule runs, then the paint rule. |
| Reglas.Reglas | AtelierPro/Services/ReglaService.cs:7-21 | Definition: no vehicle leaves the lines; with one, the age rule and then the paint rule. ReglasConservan and ReglasIdempotentes characterise it. |
| Reglas.ReglasConservan | AtelierPro/Services/ReglaService.cs:14-33 | Labour and paint lines are never changed and a part changes only its adjustment. No line is removed or reordered. |
| Reglas.ReglasIdempotentes | AtelierPro/Services/ReglaService.cs:7-21 | Both rules together are idempotent when each part that needs paint names its own code in its description. |
| Presupuestos.Entidades | AtelierPro/Services/PresupuestoService.cs:139-152 | One budget line per form line. |
| Presupuestos.CalcularTotal | AtelierPro/Services/PresupuestoService.cs:309-320 | Definition of the preview total. CalcularTotalEsTotalCreado proves it equals the total a created budget stores. |
| Presupuestos.SumaVistaEsSubtotal | AtelierPro/Services/PresupuestoService.cs:309-320 | The preview's sum equals the `Subtotal` of the budget lines built from the same form lines. |
| Presupuestos.CalcularTotalEsTotalCreado | AtelierPro/Services/PresupuestoService.cs:309-320 | `CalcularTotal` equals the total a created budget stores, subtotal plus subtotal × rate, and an empty list gives 0. |
| Presupuestos.ValidarItems | AtelierPro/Services/PresupuestoService.cs:120-133 | Succeeds if and only if every line has a positive quantity and non-negative price and hours. A failure is an `InvalidOperationException`. |
| Presupuestos.CreacionRechaza | AtelierPro/Services/PresupuestoService.cs:113-133 | An empty list, or one line with a non-positive quantity, is always refused. |
| Presupuestos.PresupuestoService.constructor | AtelierPro/Services/PresupuestoService.cs:17-24 | The service starts over the given clients and no budgets. |
| Presupuestos.PresupuestoService.Numeros | AtelierPro/Services/PresupuestoService.cs:276-304 | The Numero column the number generator reads, one entry per budget. |
| Presupuestos.PresupuestoService.CrearPresupuesto | AtelierPro/Services/PresupuestoService.cs:86-201 | Fails with `InvalidOperationException`, adding nothing, exactly when the client is unknown, the lines are empty or invalid, or the id is already in the table (its primary key). Otherwise it appends a draft with the next `P{year}-` number, VAT = subtotal × rate and total = subtotal + VAT. The number has no unique index, so a repeated number is stored. |
| Presupuestos.PresupuestoService.NuevoBorrador | AtelierPro/Services/PresupuestoService.cs:139-174 | The budget built from the form: its lines, subtotal-based VAT and total, state Borrador, and no approval date. |
| Presupuestos.PresupuestoService.AprobarPresupuesto | AtelierPro/Services/PresupuestoService.cs:206-236 | Succeeds if and only if the budget exists and is a draft. It then becomes Aprobado with the approval instant, and every other field keeps its value. Otherwise no field changes. |
| Presupuestos.PresupuestoService.RechazarPresupuesto | AtelierPro/Services/PresupuestoService.cs:241-271 | Succeeds if and only if the budget exists and is a draft. It then becomes Rechazado, its notes become the rejection note, and every other field keeps its value. Otherwise no field changes. |
| Presupuestos.NotaRechazo | AtelierPro/Services/PresupuestoService.cs:256 | "Rechazado. Motivo: " followed by the reason, or by "N/A" when there is none. |
| Presupuestos.TotalesDePrueba | AtelierPro.Tests/PresupuestoServiceTests.cs:58-101 | At a 16 % rate, subtotal 335 gives VAT 53.6 and total 388.6, and a single line of 100 gives a total of 116. |
| Workflow.AprobarPresupuesto | AtelierPro/Services/WorkflowService.cs:7-16 | True if and only if the budget was Borrador. It becomes Aprobado, and is unchanged otherwise. |
| Workflow.CerrarPresupuesto | AtelierPro/Services/WorkflowService.cs:18-27 | True if and only if the budget was Aprobado. It becomes Cerrado, and is unchanged otherwise. |
| Workflow.FacturarPresupuesto | AtelierPro/Services/WorkflowService.cs:29-37 | True if and only if the budget was Cerrado. It becomes Facturado, and is unchanged otherwise. |
| Workflow.CambiarEstado | AtelierPro/Services/WorkflowService.cs:39-62 | Succeeds exactly on a permitted step and then sets the target. Otherwise it throws `InvalidOperationException` and leaves the state as it was. |
| Workflow.PermitidaAvanzaUna | AtelierPro/Services/WorkflowService.cs:39-62 | A step is permitted if and only if it moves one position forward along Borrador, Aprobado, Cerrado, Facturado. |
| Workflow.EstadosFinales | AtelierPro/Services/WorkflowService.cs:39-55 | No step leaves Facturado or Rechazado, and none leads to Borrador or Rechazado. |
| Workflow.RecorrerAvanza | AtelierPro/Services/WorkflowService.cs:39-62 | Over any sequence of calls a budget is never rejected and never goes back, and it advances at most one step per call. |
| Workflow.CicloCompleto | AtelierPro/Services/WorkflowService.cs:7-37 | Three calls take a draft to Facturado, and invoicing a draft directly is refused. |
| Taller.TransicionesExactas | AtelierPro/Services/TallerService.cs:268-284 | A transition is allowed if and only if it moves one step forward, or cancels an order that is Pendiente, EnCurso or Facturada. |
| Taller.ValidarTransicionEstado | AtelierPro/Services/TallerService.cs:268-284 | Definition: the transition dictionary of the source. TransicionesExactas characterises it. |
| Taller.RecorrerNoRetrocede | AtelierPro/Services/TallerService.cs:268-284 | Over any sequence of calls an order never goes back, and a cancelled order stays cancelled. |
| Taller.FechaAlEntrar | AtelierPro/Services/TallerService.cs:250-254 | A recorded date is never overwritten. An unset date is set exactly when the order enters its state. |
| Taller.ItemsDeOrden | AtelierPro/Services/TallerService.cs:185-198 | One order line per budget line. |
| Taller.ItemDeOrden | AtelierPro/Services/TallerService.cs:185-198 | Definition: a budget line copied into an order line with quantity 1 and no real time yet. |
| Taller.ItemsDeOrdenCopian | AtelierPro/Services/TallerService.cs:185-198 | The order lines keep the budget lines' codes, descriptions and kinds in order, each with quantity 1, and keep the total hours. |
| Taller.TallerService.constructor | AtelierPro/Services/TallerService.cs:16-20 | The service starts over the given technicians and no orders. |
| Taller.TallerService.CrearTecnico | AtelierPro/Services/TallerService.cs:51-65 | A blank name or a non-positive hourly cost is refused, and so is an id already present. Otherwise the technician is added. |
| Taller.TallerService.CrearOrdenReparacion | AtelierPro/Services/TallerService.cs:160-205 | A missing budget gives `KeyNotFoundException` and an unapproved one `InvalidOperationException`. Otherwise a new order is appended with every field stated: Pendiente, created now, no technician and no dates, 0 real hours, empty notes, and one line per budget line. |
| Taller.TallerService.AsignarTecnico | AtelierPro/Services/TallerService.cs:210-229 | The order and the technician must exist and the technician must be active. On success only the order's technician changes, and on failure no field changes. |
| Taller.TallerService.CambiarEstado | AtelierPro/Services/TallerService.cs:234-263 | An edge outside the table throws and changes no field. Otherwise the state is set, the start and end dates are recorded as `FechaAlEntrar` says, and every other field keeps its value. |
| Taller.TallerService.ActualizarHorasReales | AtelierPro/Services/TallerService.cs:289-303 | Negative hours are refused and change no field. Otherwise only `HorasReales` changes. |
| Almacen.NuevoStock | AtelierPro/Services/AlmacenService.cs:150-170 | Salida and Devolucion succeed if and only if the stock covers the quantity, and leave old minus quantity, never negative. Entrada adds with 32-bit wrap-around. Ajuste sets the quantity. |
| Almacen.Registrar | AtelierPro/Services/AlmacenService.cs:132-198 | Definition of a movement on the tables. RegistrarConservaClaves, RegistrarConservaPosiciones and RegistrarAnota characterise it. |
| Almacen.VerificarDisponibilidad | AtelierPro/Services/AlmacenService.cs:442-446 | Definition: the part exists and holds at least the quantity. SalidaSegunDisponibilidad relates it to a Salida. |
| Almacen.RegistrarConservaClaves | AtelierPro/Services/AlmacenService.cs:186-188 | A movement changes only the moved part's stock and update time. |
| Almacen.RegistrarConservaPosiciones | AtelierPro/Services/AlmacenService.cs:141-188 | After a movement every part is found at the same position. |
| Almacen.RegistrarAnota | AtelierPro/Services/AlmacenService.cs:150-194 | The movement appended records the stock before and after, and the part now holds the after stock. Other parts keep theirs, and a Salida never goes below zero. |
| Almacen.SalidaSegunDisponibilidad | AtelierPro/Services/AlmacenService.cs:141-160 | With a positive quantity and a reason, a Salida or Devolucion is accepted if and only if `VerificarDisponibilidadAsync` says the part is available. |
| Almacen.RazonCuento | AtelierPro/Services/AlmacenService.cs:313 | The adjustment reason of a count is never blank, so it passes the movement's guard. |
| Almacen.Ajustar | AtelierPro/Services/AlmacenService.cs:307-315 | Definition: the adjustments issued one after another as Ajuste movements, stopping at the first refusal. The Ajustar* lemmas characterise it. |
| Almacen.AjusteSinExistenciasFalla | AtelierPro/Services/AlmacenService.cs:307-315 | A counted stock of zero or less makes completing the count stop with an error. |
| Almacen.AjustarRegistraUnoPorLinea | AtelierPro/Services/AlmacenService.cs:307-315 | When every adjustment passes, one Ajuste per line is appended in order, setting its part to the counted stock. |
| Almacen.AjustarRespetaOtras | AtelierPro/Services/AlmacenService.cs:307-315 | Adjustments of other parts leave a part's stock alone. |
| Almacen.AjustarFijaConteo | AtelierPro/Services/AlmacenService.cs:307-315 | When every adjustment passes and no part is counted twice, each counted part ends with its counted stock. |
| Almacen.StockBajo | AtelierPro/Services/AlmacenService.cs:345-353 | Definition: the active parts at or below their minimum, sorted by stock. StockBajoCorrecto characterises it. |
| Almacen.Criticas | AtelierPro/Services/AlmacenService.cs:358-364 | Definition: the active parts with nothing or less in stock. CriticaEsStockBajo and ImportadaEnAlertas build on it. |
| Almacen.StockBajoCorrecto | AtelierPro/Services/AlmacenService.cs:345-353 | The low-stock list holds exactly the active parts at or below their minimum, each as often as in the table, in ascending order of stock. |
| Almacen.CriticaEsStockBajo | AtelierPro/Services/AlmacenService.cs:358-364 | A critical part with a non-negative minimum is also low stock. |
| Almacen.AltaConservaClaves | AtelierPro/Services/AlmacenService.cs:65-84 | A part that passes the guards keeps ids and SKUs unique and has usable limits. |
| Almacen.ErrorAlta | AtelierPro/Services/AlmacenService.cs:65-84 | Definition: the first guard of the part's creation that fails, in source order. |
| Almacen.AlmacenService.constructor | AtelierPro/Services/AlmacenService.cs:16-20 | The service starts over the given parts with no movements and no counts. |
| Almacen.AlmacenService.CrearRefaccion | AtelierPro/Services/AlmacenService.cs:65-84 | The part is refused exactly when the guards reject it: a blank or duplicate SKU, or bad limits. Otherwise it is appended. |
| Almacen.AlmacenService.RegistrarMovimiento | AtelierPro/Services/AlmacenService.cs:132-198 | Does to the stock and the ledger what `Registrar` describes. On an error both are left as they were. |
| Almacen.AlmacenService.CrearCuentoFisico | AtelierPro/Services/AlmacenService.cs:230-249 | A blank responsible user is refused. Otherwise a Pendiente count is appended. |
| Almacen.AlmacenService.AgregarDetalle | AtelierPro/Services/AlmacenService.cs:254-285 | The count and the part must exist and the count must be Pendiente or EnCurso. The line snapshots the current stock next to the counted one. |
| Almacen.AlmacenService.CompletarCuentoFisico | AtelierPro/Services/AlmacenService.cs:290-319 | A completed count is refused. Otherwise the count is marked Completado and the changed lines are applied as adjustments. The first refused adjustment ends the call with its error. |
| Compras.CentavosMasCercano | AtelierPro/Services/ComprasService.cs:274 | The cents chosen are a nearest integer, and on a tie the even one. |
| Compras.RedondearPar | AtelierPro/Services/ComprasService.cs:274 | Definition of `Math.Round(x, 2)`. CentavosMasCercano, RedondeoCercano and RedondeoConservaCentavos characterise it. |
| Compras.RedondeoCercano | AtelierPro/Services/ComprasService.cs:274 | Rounding to cents moves a value by at most half a cent. |
| Compras.RedondeoConservaCentavos | AtelierPro/Services/ComprasService.cs:274 | An amount already in whole cents is left as it is. |
| Compras.RedondeoEjemplos | AtelierPro/Services/ComprasService.cs:274 | 0.125 rounds to 0.12, 0.135 to 0.14 and -0.125 to -0.12. |
| Compras.AltaProveedorConservaRfc | AtelierPro/Services/ComprasService.cs:53-73 | A supplier that passes the guards keeps RFCs unique and has a company name and an RFC. |
| Compras.ErrorProveedor | AtelierPro/Services/ComprasService.cs:53-73 | Definition: the first guard of the supplier's creation that fails, in source order. |
| Compras.Decidir | AtelierPro/Services/ComprasService.cs:164-202 | Definition of approval and rejection of a Pendiente requisition. DecisionDefinitiva characterises it. |
| Compras.DecisionDefinitiva | AtelierPro/Services/ComprasService.cs:164-202 | Approval gives Aprobada and rejection gives Rechazada. After either, every further decision is refused. |
| Compras.SumaSubtotalesNoNegativa | AtelierPro/Services/ComprasService.cs:255-270 | With no negative quantity or price, the order subtotal is not negative. |
| Compras.SumaSubtotales | AtelierPro/Services/ComprasService.cs:255-270 | Definition: the order subtotal the loop accumulates. |
| Compras.IvaCompra | AtelierPro/Services/ComprasService.cs:273-275 | Definition: 16 % of the subtotal rounded to cents. IvaCompraCercana bounds it. |
| Compras.ErrorOrdenCompra | AtelierPro/Services/ComprasService.cs:228-284 | Definition: the first way the order's creation fails, in source order. |
| Compras.IvaCompraCercana | AtelierPro/Services/ComprasService.cs:273-275 | The order's VAT is within half a cent of 16 % of its subtotal. |
| Compras.OrdenTrasMilRechazada | AtelierPro/Services/ComprasService.cs:412-428 | With OC-{year}-999 and OC-{year}-1000 on file, every further valid order of that year is refused by the unique index. |
| Compras.RecepcionCompleta | AtelierPro/Services/ComprasService.cs:364-379 | An order is Recibida if and only if every reported item is complete, and Parcial otherwise. An empty report receives all and changes no item. |
| Compras.RecibirItem | AtelierPro/Services/ComprasService.cs:366-372 | Definition: a reported quantity overwrites the item's received quantity. |
| Compras.Recibir | AtelierPro/Services/ComprasService.cs:364-379 | Definition: every item of the order received in turn. RecepcionCompleta characterises it. |
| Compras.ObtenerEstadoPago | AtelierPro/Services/ComprasService.cs:393-403 | A missing order gives `KeyNotFoundException`. Paid is the total once Recibida and 0 before, and paid plus pending is the total. |
| Compras.ComprasService.constructor | AtelierPro/Services/ComprasService.cs:16-20 | The service starts over the given suppliers and parts with no orders and no requisitions. |
| Compras.ComprasService.CrearProveedor | AtelierPro/Services/ComprasService.cs:53-73 | Refused exactly when a name or RFC is blank or the RFC is taken. Otherwise the supplier is appended. |
| Compras.ComprasService.CalificarProveedor | AtelierPro/Services/ComprasService.cs:99-113 | A rating outside [1, 5] is refused before the lookup, and a missing supplier next. Otherwise only the rating is overwritten. |
| Compras.ComprasService.CrearRequisicion | AtelierPro/Services/ComprasService.cs:122-159 | Needs a requester and a line. Otherwise a Pendiente requisition with the next REQ number and one item per line is appended. |
| Compras.ComprasService.DecidirRequisicion | AtelierPro/Services/ComprasService.cs:164-202 | A missing requisition is refused. Otherwise approve or reject acts only on a Pendiente one. |
| Compras.ComprasService.ConstruirItems | AtelierPro/Services/ComprasService.cs:257-270 | Stops exactly when some line's part does not exist. Otherwise it gives one item per line and the sum of their subtotals. |
| Compras.ComprasService.CrearOrdenCompra | AtelierPro/Services/ComprasService.cs:228-284 | Fails as the guards say. Otherwise a Generada order with the next OC number is appended: subtotal = Σ quantity × price, VAT = 16 % rounded to cents, total = the two added. |
| Compras.ComprasService.EnviarOrdenCompra | AtelierPro/Services/ComprasService.cs:331-346 | Only a Generada order is sent. It becomes Enviada with the sending date. |
| Compras.ComprasService.ConfirmarRecepcion | AtelierPro/Services/ComprasService.cs:351-388 | A Recibida order is refused. Otherwise the reported quantities are applied and the order becomes Recibida or Parcial, with the reception date. |
| Numeracion.MaximoLex | AtelierPro/Services/ComprasService.cs:415-417 | The number chosen is a candidate, and no candidate sorts after it in ordinal order. |
| Numeracion.FiltrarPrefijo | AtelierPro/Services/ComprasService.cs:415 | The candidates are exactly the existing numbers that start with the filter. |
| Numeracion.FiltrarAgregando | AtelierPro/Services/ComprasService.cs:415 | A new number with the prefix joins the candidates at the end. |
| Numeracion.UltimoSegmentoTras | AtelierPro/Services/ComprasService.cs:422-423 | The text after the last '-' is what was written after it. |
| Numeracion.SecuenciaDeFormato | AtelierPro/Services/ComprasService.cs:422-428 | A prefix ending in '-' followed by a formatted non-negative number reads back as that number. |
| Numeracion.SiguienteSecuencia | AtelierPro/Services/ComprasService.cs:420-425 | The next sequence number is always a 32-bit int. |
| Numeracion.PrefijosBienFormados | AtelierPro/Services/ComprasService.cs:415-428 | The budget, order and requisition prefixes end in '-' and start with their filters. |
| Numeracion.GeneradoSeLee | AtelierPro/Services/ComprasService.cs:412-428 | A generated number carries the filter and reads back as the sequence number it was made from. |
| Numeracion.SecuenciaAvanza | AtelierPro/Services/ComprasService.cs:412-428 | While the new number sorts after every candidate, the next call continues from it and the sequence goes up by exactly one. |
| Numeracion.OrdenCompraRepetida | AtelierPro/Services/ComprasService.cs:412-428 | With ...-999 and ...-1000 on file, ...-999 still sorts last and ...-1000 is generated again. |
| Numeracion.MaximaSecuencia | AtelierPro/Services/ComprasService.cs:415-424 | The numeric maximum bounds every candidate's sequence number. |
| Numeracion.Generar | AtelierPro/Services/ComprasService.cs:412-428 | Definition: the prefix followed by the next sequence in `D<n>` format. GeneradoSeLee and SecuenciaAvanza characterise it. |
| Numeracion.NumeroPresupuesto | AtelierPro/Services/PresupuestoService.cs:276-304 | Definition of the `P{year}-{seq:D5}` generator. |
| Numeracion.NumeroOrdenCompra | AtelierPro/Services/ComprasService.cs:412-428 | Definition of the `OC-{year}-{seq:D3}` generator. |
| Numeracion.NumeroRequisicion | AtelierPro/Services/ComprasService.cs:434-450 | Definition of the `REQ-{year}-{seq:D3}` generator. |
| Numeracion.GenerarPorValorEsNuevo | AtelierPro/Services/ComprasService.cs:412-428 | The generator by numeric maximum never repeats an existing number while the sequence fits in an int. |
| Numeracion.OrdenCompraPorValorSigue | AtelierPro/Services/ComprasService.cs:412-428 | On the input where the string maximum repeats a number, the numeric one moves on to ...-1001. |
| ErpDatos.MargenEntreExtremos | AtelierPro/Services/ErpDataService.cs:167-171 | The average margin lies between the smallest and the largest VAT averaged. |
| ErpDatos.MargenPromedio | AtelierPro/Services/ErpDataService.cs:167-171 | Definition: the average VAT, or 0 with no budgets. MargenEntreExtremos bounds it. |
| ErpDatos.FlujoCaja | AtelierPro/Services/ErpDataService.cs:181 | Definition: the sum of the unpaid invoices. PagarFactura and TodasPagadas characterise it. |
| ErpDatos.Faltantes | AtelierPro/Services/ErpDataService.cs:185-186 | Definition: the parts below their minimum. FaltantesFrenteAStockBajo relates it to the warehouse. |
| ErpDatos.MargenEjemplos | AtelierPro.Tests/PresupuestoServiceTests.cs:104-139 | 50 and 100 average to 75, and no budgets give 0. |
| ErpDatos.PagarFactura | AtelierPro/Services/ErpDataService.cs:181 | Paying an unpaid invoice takes exactly its amount off the projected cash flow. Paying a paid one changes nothing. |
| ErpDatos.TodasPagadas | AtelierPro/Services/ErpDataService.cs:181 | With every invoice paid, nothing is projected. |
| ErpDatos.FaltantesFrenteAStockBajo | AtelierPro/Services/ErpDataService.cs:185-186 | Every active shortage is low stock for the warehouse. A part exactly at its minimum is low stock without being a shortage. |
| ErpDatos.ErpDataService.ConstruirKpis | AtelierPro/Services/ErpDataService.cs:160-183 | No budgets give a margin of 0, and one budget gives its VAT. Active orders is the count and rework is 0.04. Nothing is projected when all invoices are paid. |
| ErpDatos.ErpDataService.constructor | AtelierPro/Services/ErpDataService.cs:39-147 | The seeded budget has subtotal 435, VAT 69.6 and total 504.6. Its unpaid invoice makes the projected cash flow 504.6, and only the door is short. |
| FinditParts.PartesNoVacias | AtelierPro/Services/Catalogos/FinditPartsCatalogoService.cs:187-197 | A trimmed segment with a space splits into a manufacturer without spaces and a part number, both non-empty once trimmed. |
| FinditParts.ReferenciaDe | AtelierPro/Services/Catalogos/FinditPartsCatalogoService.cs:185-206 | Definition of one segment's reference. ReferenciaDeCorrecta and ReferenciaDeVacia characterise it. |
| FinditParts.ReferenciaDeCorrecta | AtelierPro/Services/Catalogos/FinditPartsCatalogoService.cs:187-206 | Equivalente if and only if the trimmed segment holds a space. Otherwise Alternativo, with no manufacturer and the trimmed segment as part number. |
| FinditParts.ReferenciaDeVacia | AtelierPro/Services/Catalogos/FinditPartsCatalogoService.cs:187-206 | The part number is empty if and only if the segment is blank, and a reference takes its characters from its segment. |
| FinditParts.ReferenciasDe | AtelierPro/Services/Catalogos/FinditPartsCatalogoService.cs:175-210 | A blank text gives no reference, and there is at most one more reference than separators. |
| FinditParts.CaracterDeSegmento | AtelierPro/Services/Catalogos/FinditPartsCatalogoService.cs:183 | A character of a non-empty segment is a character of the text and not a separator. |
| FinditParts.ReferenciasSinSeparadores | AtelierPro/Services/Catalogos/FinditPartsCatalogoService.cs:183-206 | Every reference's parts are taken from the text and hold no separator. |
| FinditParts.UnaReferencia | AtelierPro/Services/Catalogos/FinditPartsCatalogoService.cs:179-206 | A non-blank text without separators is exactly one reference. |
| FinditParts.ParsearCrossReferences | AtelierPro/Services/Catalogos/FinditPartsCatalogoService.cs:175-210 | A blank text gives nothing. Otherwise the loop yields the references of the non-empty segments. |
| FinditParts.ParsearSegmentos | AtelierPro/Services/Catalogos/FinditPartsCatalogoService.cs:185-207 | The foreach appends one reference per segment, in order. |
| FinditParts.ConvertirAProductoCatalogo | AtelierPro/Services/Catalogos/FinditPartsCatalogoService.cs:153-173 | The product has the provider's name, the address, the record's fields, and the references parsed from its text. |
| FinditParts.PiezaEnTexto | AtelierPro/Services/Catalogos/FinditPartsCatalogoService.cs:183 | A character of one piece is a character of the pieces joined. |
| FinditParts.SinSeparadoresEnTexto | AtelierPro/Services/Catalogos/FinditPartsCatalogoService.cs:183 | The text without separators holds only characters of the text. |
| Catalogos.RegistrarCorrecto | AtelierPro/Services/Catalogos/CatalogosManager.cs:28-34 | Registering keeps names unique and lists them in registration order. Registering a name again changes nothing. |
| Catalogos.Registrar | AtelierPro/Services/Catalogos/CatalogosManager.cs:28-34 | Definition: a provider is added only when no registered one has its name. RegistrarCorrecto characterises it. |
| Catalogos.CatalogosManager.constructor | AtelierPro/Services/Catalogos/CatalogosManager.cs:20-26 | The manager starts with no providers. |
| Catalogos.CatalogosManager.RegistrarServicio | AtelierPro/Services/Catalogos/CatalogosManager.cs:28-34 | The registry becomes `Registrar` of the old one and keeps names unique. |
| Catalogos.CatalogosManager.ObtenerProveedoresDisponibles | AtelierPro/Services/Catalogos/CatalogosManager.cs:39-42 | The registered names in registration order, without repeats. |
| Catalogos.SinResultados | AtelierPro/Services/Catalogos/CatalogosManager.cs:92-98 | A failed search: no success and no products. |
| Catalogos.BuscarEnCatalogo | AtelierPro/Services/Catalogos/CatalogosManager.cs:87-128 | Success if and only if there is a product, and the count is the number of products. An unknown name gives "Proveedor '…' no encontrado". |
| Catalogos.BuscarEnProveedor | AtelierPro/Services/Catalogos/CatalogosManager.cs:92-116 | The products come from the first provider whose name matches ignoring case, when it is available. |
| Catalogos.BuscarIgnoraMayusculas | AtelierPro/Services/Catalogos/CatalogosManager.cs:92 | Names that differ only in letter case find the same products. |
| Catalogos.ReunirProcedencia | AtelierPro/Services/Catalogos/CatalogosManager.cs:47-82 | A product is gathered if and only if some registered provider contributed it. |
| Catalogos.ProductosDe | AtelierPro/Services/Catalogos/CatalogosManager.cs:55-66 | Definition: a provider contributes its products when available, and nothing when unavailable or on an exception. |
| Catalogos.Reunir | AtelierPro/Services/Catalogos/CatalogosManager.cs:47-82 | Definition: the providers' products concatenated in registration order. ReunirProcedencia characterises it. |
| Catalogos.BuscarEnTodos | AtelierPro/Services/Catalogos/CatalogosManager.cs:47-82 | Success if and only if there is a product, and the count is the number of products. |
| Catalogos.ConPrecioOrdenadosCorrecto | AtelierPro/Services/Catalogos/CatalogosManager.cs:203-207 | The priced products sorted by price are a permutation of the priced products found. |
| Catalogos.CompararPreciosCorrecto | AtelierPro/Services/Catalogos/CatalogosManager.cs:199-216 | Every priced product is listed once per occurrence, nothing else, cheapest first. |
| Catalogos.CompararPrecios | AtelierPro/Services/Catalogos/CatalogosManager.cs:199-216 | Definition of the price comparison. CompararPreciosCorrecto characterises it. |
| Catalogos.ServicioPorUrl | AtelierPro/Services/Catalogos/CatalogosManager.cs:138-145 | finditparts.com routes to FinditParts, otherwise fleetpride.com routes to FleetPride, when one is registered. |
| Catalogos.ObtenerProductoPorUrl | AtelierPro/Services/Catalogos/CatalogosManager.cs:133-148 | An address no registered provider serves throws. Otherwise the chosen provider's answer is returned. |
| Catalogos.ImportarProductoAlInventario | AtelierPro/Services/Catalogos/CatalogosManager.cs:176-194 | An empty part number or manufacturer throws before saving. Otherwise the save result is returned and a save error is re-thrown with the prefix. |
| Catalogos.ErrorImportacion | AtelierPro/Services/Catalogos/CatalogosManager.cs:176-186 | Definition: the first missing field of the minimum data, part number before manufacturer. |
| CatalogosControlador.ConvertirProductoCatalogo | AtelierPro/Controllers/CatalogosController.cs:274-291 | Every field is copied and each cross reference is converted in order. A null list becomes empty. |
| CatalogosControlador.NombreImportado | AtelierPro/Controllers/CatalogosController.cs:223-225 | The name is the description when it has at most 100 characters, its first 100 characters when longer, and the part number when there is no description. |
| CatalogosControlador.ImportadaEnAlertas | AtelierPro/Controllers/CatalogosController.cs:220-236 | An imported part, with stock 0 below a minimum of 1, shows as both low stock and critical. |
| CatalogosControlador.GuardarConservaClaves | AtelierPro/Controllers/CatalogosController.cs:205-257 | Importing under a free SKU keeps ids and SKUs unique, and every new reference points at the new part. |
| CatalogosControlador.ImportarDesdeFinditParts | AtelierPro/Controllers/CatalogosController.cs:242-256 | A FinditParts product writes one alternative reference per parsed segment, in order, each without separators. |
| CatalogosControlador.CatalogosController.constructor | AtelierPro/Controllers/CatalogosController.cs:35-66 | The controller registers FinditParts in a new manager. |
| CatalogosControlador.CatalogosController.GuardarProductoEnBD | AtelierPro/Controllers/CatalogosController.cs:205-269 | False, changing nothing, if and only if the SKU is taken. Otherwise the part and its alternative references are added. |
| CatalogosControlador.CatalogosController.ImportarProductoAlInventario | AtelierPro/Controllers/CatalogosController.cs:153-180 | The manager's guards apply, then the save. Tables change only on a successful save, which adds the part and its alternative references and advances the id counter past them. |
| Sistema.Recortar | AtelierPro/Services/Catalogos/FinditPartsCatalogoService.cs:187 | `Trim` leaves no white space at either end, and its result is empty if and only if the text is blank. |
| Sistema.RecortarCaracteres | AtelierPro/Services/Catalogos/FinditPartsCatalogoService.cs:187 | `Trim` only removes characters. |
| Sistema.RecortarIdempotente | AtelierPro/Services/Catalogos/FinditPartsCatalogoService.cs:187-203 | Trimming again changes nothing. |
| Sistema.Dividir | AtelierPro/Services/ComprasService.cs:422 | `Split` gives one more piece than separators, and no piece holds a separator. |
| Sistema.DividirConserva | AtelierPro/Services/Catalogos/FinditPartsCatalogoService.cs:183 | The pieces joined are the text without its separators. |
| Sistema.QuitarVacios | AtelierPro/Services/Catalogos/FinditPartsCatalogoService.cs:183 | `RemoveEmptyEntries` keeps only non-empty pieces. |
| Sistema.QuitarVaciosConserva | AtelierPro/Services/Catalogos/FinditPartsCatalogoService.cs:183 | Dropping empty pieces does not change the text they hold. |
| Sistema.DividirSinSeparador | AtelierPro/Services/Catalogos/FinditPartsCatalogoService.cs:183 | A text without separators is one piece. |
| Sistema.UltimaPiezaTrasSeparador | AtelierPro/Services/ComprasService.cs:422-423 | The last piece after a separator is the last piece of what follows it. |
| Sistema.PartirEnPrimerEspacio | AtelierPro/Services/Catalogos/FinditPartsCatalogoService.cs:187 | `Split(' ', 2)` gives the text before the first space and the rest, or the text alone when it has no space. |
| Sistema.FormatoD | AtelierPro/Services/ComprasService.cs:428 | `D3` gives at least three zero-padded digits, with a '-' in front of a negative value. |
| Sistema.IntentarConvertirEntero | AtelierPro/Services/ComprasService.cs:423 | `int.TryParse` only yields 32-bit values. |
| Sistema.ConvertirFormatoD | AtelierPro/Services/ComprasService.cs:423-428 | `int.TryParse` reads back what `ToString("D<n>")` wrote. |
| Sistema.Envolver32 | AtelierPro/Services/ComprasService.cs:424 | Unchecked int addition: the true value when it fits, otherwise congruent modulo 2^32. |
| Sistema.LexTotal | AtelierPro/Services/ComprasService.cs:416 | Ordinal string order is total. |
| Sistema.LexTransitivo | AtelierPro/Services/ComprasService.cs:416 | Ordinal string order is transitive. |
| Sistema.LexAntisimetrico | AtelierPro/Services/ComprasService.cs:416 | Ordinal string order is antisymmetric. |
| Sistema.LexPrefijoComun | AtelierPro/Services/ComprasService.cs:416 | A common prefix does not decide the order. |
| Sistema.ContieneEnPosicion | AtelierPro/Services/ReglaService.cs:43 | `Contains` holds when the text is found at some position. |
| Sistema.Contiene | AtelierPro/Services/ReglaService.cs:43 | Definition of ordinal `Contains`. ContieneEnPosicion and ContieneTienePosicion characterise it. |
| Sistema.ContieneTienePosicion | AtelierPro/Services/ReglaService.cs:43 | `Contains` finds the text at some position. |
| Sistema.ContieneCaracteres | AtelierPro/Services/ReglaService.cs:43 | Every character of a contained text occurs in the containing one. |
| Consultas.Primero | AtelierPro/Controllers/CatalogosController.cs:210-211 | `FirstOrDefault` finds the first element satisfying the condition, or none. |
| Consultas.Filtrar | AtelierPro/Services/AlmacenService.cs:350 | `Where` keeps the elements satisfying the condition, in order. |
| Consultas.ContarEsFiltrar | AtelierPro/Services/AlmacenService.cs:304 | `Count` with a condition is the length of `Where`. |
| Consultas.Proyectar | AtelierPro/Controllers/CatalogosController.cs:244-253 | `Select` keeps the length. |
| Consultas.ProyectarEnPosicion | AtelierPro/Controllers/CatalogosController.cs:244-253 | Element k of the projection is f of element k. |
| Consultas.InsertarOrdenada | AtelierPro/Services/AlmacenService.cs:351 | Inserting into a sorted list keeps it sorted. |
| Consultas.OrdenarPorOrdena | AtelierPro/Services/AlmacenService.cs:351 | `OrderBy` gives the same elements, sorted by the key. |
| Consultas.FiltrarMiembro | AtelierPro/Services/AlmacenService.cs:350 | An element is in `Where`'s result if and only if it is in the list and satisfies the condition. |
| Consultas.PrimeroEquivalente | AtelierPro/Services/Catalogos/CatalogosManager.cs:92 | Conditions that agree on a list pick the same first match. |

## Left out

- Persistence: Entity Framework, migrations and the database context are not modelled. Tables are sequences and maps. `SaveChangesAsync` is the assignment to them, and the transaction of `CrearPresupuestoAsync` is all-or-nothing.
- Unique indexes: a `DbUpdateException` from a unique index (order or requisition number, SKU, RFC) or a primary key is modelled as a refusal decided from the table's contents. Budget numbers have no unique index.
- Clock: `DateTime.UtcNow` and `DateTime.Now` are parameters (ticks), and the year is a parameter.
- Ids: `Guid.NewGuid` is a parameter or a counter, and a Guid written into a text is written as its number.
- Decimal arithmetic: money, hours and rates are exact reals. Decimal precision, decimal overflow and the `double` to `decimal` conversion of hours are not modelled. The cents rounding of the purchase VAT is modelled.
- Line identity: budget lines carry no `Id`, and the same line object appearing twice in a list is not modelled.
- Logging: all `_logger` calls are left out.
- Network: the HTTP calls of FinditPartsCatalogoService (search, product, batch and availability) are left out.
- Catalogue providers: their answers (availability, products, exceptions) are parameters of the search functions.
- Concurrency and timing: `BuscarEnTodosCatalogosAsync` is modelled as a sequential walk over the providers. The `Task.WhenAll` fan-out and the `Stopwatch` response time are left out.
- `CatalogosManager.VerificarDisponibilidadServiciosAsync`: left out, because it only relays provider availability.
- Case-insensitive matching: `OrdinalIgnoreCase` is modelled as upper-casing ASCII letters only.
- Null strings are modelled as "". `string.Substring` counts UTF-16 code units, and the model counts characters.
- Read-only queries are left out: the listings, history, statistics, calendar, today's orders and best-sellers of the services, and `VerificarDisponibilidadMultipleAsync`.
- Plain field edits are left out: `ActualizarProveedorAsync`, `ActualizarRefaccionAsync`, `DesactivarRefaccionAsync`, `ActualizarTecnicoAsync` and `DesactivarTecnicoAsync`.
- The HTTP actions of CatalogosController other than the import only hand requests to the manager, and are left out.
- ErpDataService does not compile against DomainModels.cs: it uses `TotalFinal` and a string supplier on `OrdenCompra`. Only the KPI formulas, the shortages and the seeded totals are modelled.
- The KPIs' cycle time, NPS and retention are `double` averages that depend on the clock, and are left out. So are the seeded clients, assets, maintenance plans and transactions.
- `Activo.CalibracionVencida` and `Tecnico.NombreCompleto` are left out: the first depends on the clock and the second only builds a message.
- `PresupuestoServiceTests.cs` calls `CalcularTotales`, `CalcularMargen`, `AgregarItem` and `TotalFinal`, none of which exist in the service. Only its numeric expectations are modelled, against `CalcularTotal`, the creation formulas and the dashboard margin.
- Almacen.Criticas: the list is not ordered by name. `OrderBy(r => r.Nombre)` runs as SQL `ORDER BY` under the database's collation, which the model does not know. The model keeps the table's order, and the lemmas about it speak only of membership.
- Almacen.AlmacenService.CompletarCuentoFisico: the count is marked Completado before the adjustments. Each adjustment saves on its own, so one that fails leaves the earlier ones in place. The model keeps the count marked in that case. It does not model whether the change-tracked state of the count still reaches the database.
- FinditParts.ParsearCrossReferences: the foreach lives in the helper method ParsearSegmentos, which is proved against the `Select` it amounts to.

## Findings

| source | as written | input that shows it | evidently intended | confidence | as-written member | corrected member |
|---|---|---|---|---|---|---|
| AtelierPro/Services/ReglaService.cs:43-48 | A paint line is found by `Descripcion.Contains(item.Codigo)`, but the added line's description is "Pintura para " + the part's description | A door part "PUERT-DEL", "Puerta delantera", that needs paint: one application gives 2 lines and a second gives 3, with the paint line duplicated | Applying the rules again adds no further paint line | not executed | Reglas.PinturaDuplicada | Reglas.ComplementadosPorCodigoIdempotente |
| AtelierPro/Services/ComprasService.cs:412-428 | The last number is chosen by string order (`OrderByDescending(o => o.Numero)`) | With OC-{year}-999 and OC-{year}-1000 on file, "-999" sorts last, so "-1000" is generated again and every further order of the year fails the unique index | The next number follows the numerically greatest one | not executed | Numeracion.OrdenCompraRepetida | Numeracion.GenerarPorValorEsNuevo |

Compras.OrdenTrasMilRechazada lifts the second finding to `CrearOrdenCompra`, and
Numeracion.OrdenCompraPorValorSigue shows the corrected generator moving on to "-1001".
`REQ-` numbers share the generator and hit the same defect at 1000. `P{year}-` numbers share
it too and repeat from 100000 on; budget numbers have no unique index, so the repeated number is
stored rather than refused. Reglas.ComplementadosIdempotente gives the condition under which the paint rule as
written is idempotent.
