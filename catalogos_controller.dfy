/** The import half of the catalogue controller (CatalogosController.cs): a catalogue product
    becomes a part of the warehouse (a Refaccion) plus one alternative reference per cross
    reference. The two tables are sequences and new rows take their ids from a counter. The HTTP
    actions that only hand a request on to the catalogue manager are not part of this model. */
module CatalogosControlador {
  import opened Wrappers
  import opened Sistema
  import opened Modelos
  import opened Consultas
  import opened Almacen
  import Catalogos
  import FinditParts

  /** The longest name an imported part gets. */
  const LongitudNombre: nat := 100

  const CategoriaImportada: string := "Catálogo Importado"

  /** ConvertirProductoCatalogo: the provider's product as the domain model's; a null list of
      cross references becomes an empty one. */
  function ConvertirProductoCatalogo(p: Catalogos.Producto): (r: ProductoCatalogo)
    ensures r.proveedor == p.proveedor && r.partNumber == p.partNumber && r.manufacturer == p.manufacturer
    ensures r.description == p.description && r.url == p.url && r.additionalInfo == p.additionalInfo
    ensures p.crossReferences.None? ==> r.crossReferences == []
    ensures p.crossReferences.Some? ==> |r.crossReferences| == |p.crossReferences.value|
    ensures p.crossReferences.Some? ==> forall k :: 0 <= k < |r.crossReferences| ==>
      var c := p.crossReferences.value[k];
      r.crossReferences[k] == CrossReference(c.manufacturer, c.partNumber, c.tipo)
  {
    var referencias := match p.crossReferences
      case None => []
      case Some(cs) =>
        seq(|cs|, k requires 0 <= k < |cs| => CrossReference(cs[k].manufacturer, cs[k].partNumber, cs[k].tipo));
    ProductoCatalogo(p.proveedor, p.partNumber, p.manufacturer, p.description, p.url, referencias, p.additionalInfo)
  }

  /** Nombre of an imported part: its description cut to 100 characters, or its part number when
      it has no description. */
  function NombreImportado(p: ProductoCatalogo): (r: string)
    ensures p.description != "" ==> 0 < |r| <= LongitudNombre && EmpiezaCon(p.description, r)
    ensures p.description != "" && |p.description| <= LongitudNombre ==> r == p.description
    ensures |p.description| > LongitudNombre ==> r == p.description[..LongitudNombre]
    ensures p.description == "" ==> r == p.partNumber
  {
    if p.description != "" then
      p.description[..if |p.description| < LongitudNombre then |p.description| else LongitudNombre]
    else p.partNumber
  }

  /** The part GuardarProductoEnBDAsync creates. */
  function RefaccionImportada(p: ProductoCatalogo, id: Guid, ahora: Instante): Refaccion
  {
    Refaccion(id, p.partNumber, NombreImportado(p), p.description + " " + p.additionalInfo,
      0, 1, 10, 0.0, 0.0, CategoriaImportada, "", true, ahora)
  }

  /** The alternative references GuardarProductoEnBDAsync adds for the part `refaccionId`, with
      ids from `primerId` upwards. */
  function ReferenciasImportadas(p: ProductoCatalogo, refaccionId: Guid, primerId: Guid, ahora: Instante): seq<ReferenciaAlternativa>
  {
    var cs := p.crossReferences;
    seq(|cs|, k requires 0 <= k < |cs| =>
      ReferenciaAlternativa(primerId + k, refaccionId, cs[k].manufacturer, cs[k].partNumber, cs[k].tipo,
        p.proveedor, p.url, ahora))
  }

  /** An imported part starts with nothing in stock below a minimum of one: the warehouse lists
      it both as low stock and as critical. */
  lemma ImportadaEnAlertas(refs: seq<Refaccion>, p: ProductoCatalogo, id: Guid, ahora: Instante)
    ensures var r := RefaccionImportada(p, id, ahora);
      r in StockBajo(refs + [r]) && r in Criticas(refs + [r])
  {
    var r := RefaccionImportada(p, id, ahora);
    StockBajoCorrecto(refs + [r]);
    FiltrarMiembro(refs + [r], EsCritica, r);
    assert (refs + [r])[|refs|] == r;
  }

  function ConSku(sku: string): Refaccion -> bool
  {
    (r: Refaccion) => r.sku == sku
  }

  /** No part of the table has this SKU (the FirstOrDefaultAsync lookup finds nothing). */
  predicate SkuLibre(refs: seq<Refaccion>, sku: string)
  {
    Primero(refs, ConSku(sku)).None?
  }

  /** Every id of both tables is below the counter. */
  predicate IdsPorDebajo(refs: seq<Refaccion>, alternativas: seq<ReferenciaAlternativa>, siguienteId: Guid)
  {
    (forall i :: 0 <= i < |refs| ==> refs[i].id < siguienteId) &&
    (forall i :: 0 <= i < |alternativas| ==> alternativas[i].id < siguienteId)
  }

  /** Importing a product whose SKU is free keeps part ids and SKUs unique and every id below the
      advanced counter; its alternative references all point at the new part. */
  lemma GuardarConservaClaves(refs: seq<Refaccion>, alternativas: seq<ReferenciaAlternativa>, id: Guid,
                              p: ProductoCatalogo, ahora: Instante)
    requires ClavesUnicas(refs) && IdsPorDebajo(refs, alternativas, id) && SkuLibre(refs, p.partNumber)
    ensures ClavesUnicas(refs + [RefaccionImportada(p, id, ahora)])
    ensures IdsPorDebajo(refs + [RefaccionImportada(p, id, ahora)],
      alternativas + ReferenciasImportadas(p, id, id + 1, ahora), id + 1 + |p.crossReferences|)
    ensures var nuevas := ReferenciasImportadas(p, id, id + 1, ahora);
      forall k :: 0 <= k < |nuevas| ==> nuevas[k].refaccionId == id
  {
    var t := refs + [RefaccionImportada(p, id, ahora)];
    forall i, j | 0 <= i < j < |t| ensures t[i].id != t[j].id && t[i].sku != t[j].sku {
      if j == |refs| {
        assert !ConSku(p.partNumber)(refs[i]);
        assert t[i] == refs[i];
      } else {
        assert t[i] == refs[i] && t[j] == refs[j];
      }
    }
    var a := alternativas + ReferenciasImportadas(p, id, id + 1, ahora);
    forall i | 0 <= i < |a| ensures a[i].id < id + 1 + |p.crossReferences| {
      if i >= |alternativas| {
        assert a[i] == ReferenciasImportadas(p, id, id + 1, ahora)[i - |alternativas|];
      } else {
        assert a[i] == alternativas[i];
      }
    }
  }

  /** The save function the import hands to the manager: true exactly when the SKU is free. */
  function GuardadoSegun(refs: seq<Refaccion>): Catalogos.Producto -> Catalogos.Llamada<bool>
  {
    (q: Catalogos.Producto) => Catalogos.Devuelve(SkuLibre(refs, q.partNumber))
  }

  /** A FinditParts product imported under a free SKU writes one alternative reference per segment
      of its cross-reference text, in order, each tagged with FinditParts and the product's
      address and holding no separator in its part number. */
  lemma ImportarDesdeFinditParts(data: FinditParts.ProductoData, url: string, consulta: Instante,
                                 id: Guid, ahora: Instante, k: nat, c: char)
    ensures var p := Catalogos.Producto(FinditParts.NombreProveedor, url, data.partNumber, data.manufacturer,
        data.description, data.additionalInfo, Some(FinditParts.ReferenciasDe(data.crossReferences)),
        None, "", "", "", consulta);
      var alternativas := ReferenciasImportadas(ConvertirProductoCatalogo(p), id, id + 1, ahora);
      var cs := FinditParts.ReferenciasDe(data.crossReferences);
      |alternativas| == |cs| &&
      (k < |cs| ==>
        alternativas[k].partNumberRef == cs[k].partNumber && alternativas[k].fabricanteRef == cs[k].manufacturer &&
        alternativas[k].tipo == cs[k].tipo && alternativas[k].proveedorCatalogo == FinditParts.NombreProveedor &&
        alternativas[k].urlCatalogo == url &&
        (c in alternativas[k].partNumberRef ==> c in data.crossReferences && c !in FinditParts.Separadores))
  {
    var cs := FinditParts.ReferenciasDe(data.crossReferences);
    if k < |cs| && c in cs[k].partNumber {
      FinditParts.ReferenciasSinSeparadores(data.crossReferences, k, c);
    }
  }

  class CatalogosController {
    var manager: Catalogos.CatalogosManager
    var refacciones: seq<Refaccion>
    var referencias: seq<ReferenciaAlternativa>
    /** The id the next new row receives (Guid.NewGuid in the source). */
    var siguienteId: Guid

    predicate Valido()
      reads this
    {
      ClavesUnicas(refacciones) && IdsPorDebajo(refacciones, referencias, siguienteId)
    }

    /** The controller over the given tables; InicializarServicios registers FinditParts in a new
        manager. */
    constructor (refacciones: seq<Refaccion>, referencias: seq<ReferenciaAlternativa>, siguienteId: Guid, finditParts: nat)
      ensures this.refacciones == refacciones && this.referencias == referencias && this.siguienteId == siguienteId
      ensures fresh(manager) && manager.servicios == [Catalogos.Servicio(FinditParts.NombreProveedor, finditParts)]
    {
      var m := new Catalogos.CatalogosManager();
      m.RegistrarServicio(Catalogos.Servicio(FinditParts.NombreProveedor, finditParts));
      assert Catalogos.Nombres([]) == [];
      manager := m;
      this.refacciones := refacciones;
      this.referencias := referencias;
      this.siguienteId := siguienteId;
    }

    /** GuardarProductoEnBDAsync: false, changing nothing, when a part already has the product's
        part number as SKU; otherwise the new part and its alternative references are added. */
    method GuardarProductoEnBD(producto: ProductoCatalogo, ahora: Instante) returns (guardado: bool)
      modifies this
      ensures guardado <==> SkuLibre(old(refacciones), producto.partNumber)
      ensures !guardado ==> refacciones == old(refacciones) && referencias == old(referencias) && siguienteId == old(siguienteId)
      ensures guardado ==> refacciones == old(refacciones) + [RefaccionImportada(producto, old(siguienteId), ahora)]
      ensures guardado ==> referencias == old(referencias) + ReferenciasImportadas(producto, old(siguienteId), old(siguienteId) + 1, ahora)
      ensures guardado ==> siguienteId == old(siguienteId) + 1 + |producto.crossReferences|
      ensures manager == old(manager)
      ensures old(Valido()) ==> Valido()
    {
      var existente := Primero(refacciones, ConSku(producto.partNumber));
      if existente.Some? {
        return false;
      }
      if Valido() {
        GuardarConservaClaves(refacciones, referencias, siguienteId, producto, ahora);
      }
      var nueva := RefaccionImportada(producto, siguienteId, ahora);
      refacciones := refacciones + [nueva];
      siguienteId := siguienteId + 1;
      if |producto.crossReferences| > 0 {
        referencias := referencias + ReferenciasImportadas(producto, nueva.id, siguienteId, ahora);
        siguienteId := siguienteId + |producto.crossReferences|;
      }
      guardado := true;
    }

    /** The import action: the manager's checks, then GuardarProductoEnBDAsync on the converted
        product. */
    method ImportarProductoAlInventario(p: Catalogos.Producto, ahora: Instante) returns (r: Catalogos.Llamada<bool>)
      modifies this
      ensures r == Catalogos.ImportarProductoAlInventario(p, GuardadoSegun(old(refacciones)))
      ensures r != Catalogos.Devuelve(true) ==>
        refacciones == old(refacciones) && referencias == old(referencias) && siguienteId == old(siguienteId)
      ensures r == Catalogos.Devuelve(true) ==>
        var q := ConvertirProductoCatalogo(p);
        refacciones == old(refacciones) + [RefaccionImportada(q, old(siguienteId), ahora)] &&
        referencias == old(referencias) + ReferenciasImportadas(q, old(siguienteId), old(siguienteId) + 1, ahora) &&
        siguienteId == old(siguienteId) + 1 + |q.crossReferences|
      ensures manager == old(manager)
      ensures old(Valido()) ==> Valido()
    {
      var error := Catalogos.ErrorImportacion(p);
      if error.Some? {
        r := Catalogos.Lanza(Catalogos.PrefijoImportacion + error.value);
        return;
      }
      var guardado := GuardarProductoEnBD(ConvertirProductoCatalogo(p), ahora);
      r := Catalogos.Devuelve(guardado);
    }
  }
}
