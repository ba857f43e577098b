/** The catalogue manager (CatalogosManager.cs) and the records of the provider interface
    (ICatalogoProveedorService.cs). A provider is known by its name; what it answers over the
    network is passed in as a function from the provider to its answer. */
module Catalogos {
  import opened Wrappers
  import opened Sistema
  import opened Consultas
  import opened Modelos

  /** A call into a provider or a save function: it returns a value or throws an exception
      carrying a message. */
  datatype Llamada<T> = Devuelve(valor: T) | Lanza(mensaje: string)

  /** CrossReference of the provider interface. */
  datatype Referencia = Referencia(manufacturer: string, partNumber: string, tipo: string)

  /** ProductoCatalogo of the provider interface. A CrossReferences list set to null is None;
      a string property never set (null) is "". */
  datatype Producto = Producto(
    proveedor: string,
    url: string,
    partNumber: string,
    manufacturer: string,
    description: string,
    additionalInfo: string,
    crossReferences: Option<seq<Referencia>>,
    precio: Option<real>,
    disponibilidad: string,
    imageUrl: string,
    categoria: string,
    fechaConsulta: Instante)

  /** ResultadoBusqueda of the provider interface, without its response time. */
  datatype ResultadoBusqueda = ResultadoBusqueda(
    success: bool,
    mensaje: string,
    productos: seq<Producto>,
    totalResultados: int)

  datatype ComparacionPrecio = ComparacionPrecio(
    proveedor: string,
    partNumber: string,
    manufacturer: string,
    precio: real,
    disponibilidad: string,
    url: string)

  /** A registered provider: its NombreProveedor, and which object it is. */
  datatype Servicio = Servicio(nombreProveedor: string, instancia: nat)

  /** What a provider answers to one search: VerificarDisponibilidadAsync, then
      BuscarPorPartNumberAsync. */
  datatype Respuesta = Respuesta(disponible: Llamada<bool>, productos: Llamada<seq<Producto>>)

  // ---------------------------------------------------------------- registry

  function Nombres(servicios: seq<Servicio>): seq<string>
  {
    seq(|servicios|, k requires 0 <= k < |servicios| => servicios[k].nombreProveedor)
  }

  predicate NombresUnicos(servicios: seq<Servicio>)
  {
    forall i, j :: 0 <= i < j < |servicios| ==> servicios[i].nombreProveedor != servicios[j].nombreProveedor
  }

  /** RegistrarServicio: the provider is added only when no registered one has its name. */
  function Registrar(servicios: seq<Servicio>, s: Servicio): seq<Servicio>
  {
    if s.nombreProveedor in Nombres(servicios) then servicios else servicios + [s]
  }

  /** Registering keeps the names unique, leaves the name registered, lists the names in
      registration order, and registering a name a second time changes nothing. */
  lemma RegistrarCorrecto(servicios: seq<Servicio>, s: Servicio, t: Servicio)
    ensures NombresUnicos(servicios) ==> NombresUnicos(Registrar(servicios, s))
    ensures s.nombreProveedor in Nombres(Registrar(servicios, s))
    ensures Nombres(Registrar(servicios, s)) ==
      Nombres(servicios) + (if s.nombreProveedor in Nombres(servicios) then [] else [s.nombreProveedor])
    ensures t.nombreProveedor == s.nombreProveedor ==> Registrar(Registrar(servicios, s), t) == Registrar(servicios, s)
  {
    var r := Registrar(servicios, s);
    if s.nombreProveedor !in Nombres(servicios) {
      if NombresUnicos(servicios) {
        forall i, j | 0 <= i < j < |r| ensures r[i].nombreProveedor != r[j].nombreProveedor {
          if j == |servicios| {
            assert Nombres(servicios)[i] == r[i].nombreProveedor;
          }
        }
      }
      assert Nombres(r)[|servicios|] == s.nombreProveedor;
    }
  }

  class CatalogosManager {
    var servicios: seq<Servicio>

    constructor ()
      ensures servicios == []
    {
      servicios := [];
    }

    method RegistrarServicio(s: Servicio)
      modifies this
      ensures servicios == Registrar(old(servicios), s)
      ensures old(NombresUnicos(servicios)) ==> NombresUnicos(servicios)
    {
      RegistrarCorrecto(servicios, s, s);
      if s.nombreProveedor !in Nombres(servicios) {
        servicios := servicios + [s];
      }
    }

    /** The registered names, in registration order; with unique names, without repeats. */
    function ObtenerProveedoresDisponibles(): (r: seq<string>)
      reads this
      ensures |r| == |servicios| && forall k :: 0 <= k < |r| ==> r[k] == servicios[k].nombreProveedor
      ensures NombresUnicos(servicios) ==> forall i, j :: 0 <= i < j < |r| ==> r[i] != r[j]
    {
      Nombres(servicios)
    }
  }

  // ---------------------------------------------------------------- search

  /** The upper-case form OrdinalIgnoreCase compares, for the ASCII letters. */
  function Mayuscula(c: char): char
  {
    if 'a' <= c <= 'z' then (c as int - 32) as char else c
  }

  /** string.Equals(a, b, StringComparison.OrdinalIgnoreCase). */
  predicate IgualSinMayusculas(a: string, b: string)
  {
    |a| == |b| && forall i :: 0 <= i < |a| ==> Mayuscula(a[i]) == Mayuscula(b[i])
  }

  function ConNombreSinMayusculas(nombre: string): Servicio -> bool
  {
    (s: Servicio) => IgualSinMayusculas(s.nombreProveedor, nombre)
  }

  function SinResultados(mensaje: string): (r: ResultadoBusqueda)
    ensures !r.success && r.productos == [] && r.totalResultados == 0
  {
    ResultadoBusqueda(false, mensaje, [], 0)
  }

  /** BuscarEnCatalogoAsync: the first provider whose name matches ignoring case is asked whether
      it is available and then for the part; a thrown exception ends the search with its message. */
  function BuscarEnCatalogo(servicios: seq<Servicio>, nombre: string, consulta: Servicio -> Respuesta): (r: ResultadoBusqueda)
    ensures r.success <==> r.totalResultados > 0
    ensures r.totalResultados == |r.productos|
    ensures (forall i :: 0 <= i < |servicios| ==> !IgualSinMayusculas(servicios[i].nombreProveedor, nombre)) ==>
      r == SinResultados("Proveedor '" + nombre + "' no encontrado")
  {
    match Primero(servicios, ConNombreSinMayusculas(nombre))
    case None => SinResultados("Proveedor '" + nombre + "' no encontrado")
    case Some(k) =>
      var respuesta := consulta(servicios[k]);
      match respuesta.disponible
      case Lanza(m) => SinResultados("Error: " + m)
      case Devuelve(disponible) =>
        if !disponible then SinResultados("El servicio de " + nombre + " no está disponible")
        else match respuesta.productos
          case Lanza(m) => SinResultados("Error: " + m)
          case Devuelve(ps) =>
            var n := |ps|;
            ResultadoBusqueda(n > 0,
              if n > 0 then "Se encontraron " + EnteroATexto(n) + " productos" else "No se encontraron productos",
              ps, n)
  }

  /** The products come from the first provider matching the name: when it is available and
      answers, they are its answer. */
  lemma BuscarEnProveedor(servicios: seq<Servicio>, nombre: string, consulta: Servicio -> Respuesta, k: nat, ps: seq<Producto>)
    requires k < |servicios| && IgualSinMayusculas(servicios[k].nombreProveedor, nombre)
    requires forall j :: 0 <= j < k ==> !IgualSinMayusculas(servicios[j].nombreProveedor, nombre)
    requires consulta(servicios[k]) == Respuesta(Devuelve(true), Devuelve(ps))
    ensures BuscarEnCatalogo(servicios, nombre, consulta).productos == ps
    ensures BuscarEnCatalogo(servicios, nombre, consulta).success <==> ps != []
  {
    var p := Primero(servicios, ConNombreSinMayusculas(nombre));
    assert ConNombreSinMayusculas(nombre)(servicios[k]);
    assert p.Some? && p.value == k;
  }

  /** Names that differ only in the case of their letters find the same products. */
  lemma BuscarIgnoraMayusculas(servicios: seq<Servicio>, a: string, b: string, consulta: Servicio -> Respuesta)
    requires IgualSinMayusculas(a, b)
    ensures BuscarEnCatalogo(servicios, a, consulta).productos == BuscarEnCatalogo(servicios, b, consulta).productos
    ensures BuscarEnCatalogo(servicios, a, consulta).success == BuscarEnCatalogo(servicios, b, consulta).success
  {
    forall j | 0 <= j < |servicios|
      ensures ConNombreSinMayusculas(a)(servicios[j]) == ConNombreSinMayusculas(b)(servicios[j])
    {
      var n := servicios[j].nombreProveedor;
      if IgualSinMayusculas(n, a) {
        assert forall i :: 0 <= i < |n| ==> Mayuscula(n[i]) == Mayuscula(a[i]) == Mayuscula(b[i]);
      }
      if IgualSinMayusculas(n, b) {
        assert forall i :: 0 <= i < |n| ==> Mayuscula(n[i]) == Mayuscula(b[i]) == Mayuscula(a[i]);
      }
    }
    PrimeroEquivalente(servicios, ConNombreSinMayusculas(a), ConNombreSinMayusculas(b));
  }

  /** The products a provider contributes to a search over all catalogues: nothing when it is
      unavailable or throws. */
  function ProductosDe(r: Respuesta): seq<Producto>
  {
    match r.disponible
    case Devuelve(true) => (match r.productos case Devuelve(ps) => ps case Lanza(_) => [])
    case _ => []
  }

  /** The providers' answers concatenated in registration order (Task.WhenAll keeps it). */
  function Reunir(servicios: seq<Servicio>, consulta: Servicio -> Respuesta): seq<Producto>
    decreases |servicios|
  {
    if servicios == [] then [] else ProductosDe(consulta(servicios[0])) + Reunir(servicios[1..], consulta)
  }

  /** A product is in the gathered list exactly when some registered provider contributed it. */
  lemma {:induction false} ReunirProcedencia(servicios: seq<Servicio>, consulta: Servicio -> Respuesta, p: Producto)
    ensures p in Reunir(servicios, consulta) <==>
      exists i :: 0 <= i < |servicios| && p in ProductosDe(consulta(servicios[i]))
    decreases |servicios|
  {
    if servicios != [] {
      ReunirProcedencia(servicios[1..], consulta, p);
      if p in ProductosDe(consulta(servicios[0])) {
      } else if exists i :: 0 <= i < |servicios[1..]| && p in ProductosDe(consulta(servicios[1..][i])) {
        var i :| 0 <= i < |servicios[1..]| && p in ProductosDe(consulta(servicios[1..][i]));
        assert servicios[i + 1] == servicios[1..][i];
      } else {
        forall i | 0 <= i < |servicios| ensures p !in ProductosDe(consulta(servicios[i])) {
          if i > 0 {
            assert servicios[i] == servicios[1..][i - 1];
          }
        }
      }
    }
  }

  /** BuscarEnTodosCatalogosAsync. */
  function BuscarEnTodos(servicios: seq<Servicio>, consulta: Servicio -> Respuesta): (r: ResultadoBusqueda)
    ensures r.success <==> r.totalResultados > 0
    ensures r.totalResultados == |r.productos|
  {
    var ps := Reunir(servicios, consulta);
    var n := |ps|;
    ResultadoBusqueda(n > 0,
      if n > 0 then "Se encontraron " + EnteroATexto(n) + " productos en " + EnteroATexto(|servicios|) + " catálogos"
      else "No se encontraron productos en ningún catálogo",
      ps, n)
  }

  // ---------------------------------------------------------------- price comparison

  predicate TienePrecio(p: Producto)
  {
    p.precio.Some?
  }

  function PrecioDe(p: Producto): real
  {
    if p.precio.Some? then p.precio.value else 0.0
  }

  function Comparar(p: Producto): ComparacionPrecio
  {
    ComparacionPrecio(p.proveedor, p.partNumber, p.manufacturer, PrecioDe(p), p.disponibilidad, p.url)
  }

  /** Where(p => p.Precio.HasValue).OrderBy(p => p.Precio). */
  function ConPrecioOrdenados(ps: seq<Producto>): seq<Producto>
  {
    OrdenarPor(Filtrar(ps, TienePrecio), PrecioDe)
  }

  /** The comparisons made from a list of found products. */
  function Comparaciones(todos: seq<Producto>): seq<ComparacionPrecio>
  {
    var ps := ConPrecioOrdenados(todos);
    seq(|ps|, k requires 0 <= k < |ps| => Comparar(ps[k]))
  }

  /** CompararPreciosAsync. */
  function CompararPrecios(servicios: seq<Servicio>, consulta: Servicio -> Respuesta): seq<ComparacionPrecio>
  {
    Comparaciones(BuscarEnTodos(servicios, consulta).productos)
  }

  /** The priced products, sorted by price, are the priced products found, with their repeats. */
  lemma ConPrecioOrdenadosCorrecto(todos: seq<Producto>)
    ensures OrdenadaPor(ConPrecioOrdenados(todos), PrecioDe)
    ensures multiset(ConPrecioOrdenados(todos)) == multiset(Filtrar(todos, TienePrecio))
    ensures |ConPrecioOrdenados(todos)| == Contar(todos, TienePrecio)
    ensures forall p :: p in ConPrecioOrdenados(todos) <==> p in todos && TienePrecio(p)
  {
    var f := Filtrar(todos, TienePrecio);
    var ps := ConPrecioOrdenados(todos);
    OrdenarPorOrdena(f, PrecioDe);
    assert |ps| == |multiset(ps)| == |multiset(f)| == |f|;
    ContarEsFiltrar(todos, TienePrecio);
    forall p ensures p in ps <==> p in todos && TienePrecio(p) {
      FiltrarMiembro(todos, TienePrecio, p);
      assert p in ps <==> p in multiset(ps);
      assert p in f <==> p in multiset(f);
    }
  }

  /** The comparison lists every found product that has a price, once per occurrence and no
      other, cheapest first. */
  lemma CompararPreciosCorrecto(todos: seq<Producto>)
    ensures var r := Comparaciones(todos);
      forall i, j :: 0 <= i < j < |r| ==> r[i].precio <= r[j].precio
    ensures |Comparaciones(todos)| == Contar(todos, TienePrecio)
    ensures forall p :: p in todos && TienePrecio(p) ==> Comparar(p) in Comparaciones(todos)
    ensures var r := Comparaciones(todos);
      forall k :: 0 <= k < |r| ==> exists p :: p in todos && TienePrecio(p) && r[k] == Comparar(p)
  {
    var ps := ConPrecioOrdenados(todos);
    var r := Comparaciones(todos);
    ConPrecioOrdenadosCorrecto(todos);
    forall i, j | 0 <= i < j < |r| ensures r[i].precio <= r[j].precio {
      assert r[i].precio == PrecioDe(ps[i]) && r[j].precio == PrecioDe(ps[j]);
    }
    forall p | p in todos && TienePrecio(p) ensures Comparar(p) in r {
      var k :| 0 <= k < |ps| && ps[k] == p;
      assert r[k] == Comparar(p);
    }
    forall k | 0 <= k < |r| ensures exists p :: p in todos && TienePrecio(p) && r[k] == Comparar(p) {
      assert ps[k] in ps;
      assert r[k] == Comparar(ps[k]);
    }
  }

  // ---------------------------------------------------------------- product by URL

  /** The provider ObtenerProductoPorUrlAsync asks: FinditParts for a finditparts.com address,
      otherwise FleetPride for a fleetpride.com one, the first registered under that exact name. */
  function ServicioPorUrl(servicios: seq<Servicio>, url: string): (r: Option<Servicio>)
    ensures r.Some? ==> r.value in servicios
    ensures r.Some? ==>
      (Contiene(url, "finditparts.com") && r.value.nombreProveedor == "FinditParts") ||
      (!Contiene(url, "finditparts.com") && Contiene(url, "fleetpride.com") && r.value.nombreProveedor == "FleetPride")
    ensures r.Some? <==>
      (Contiene(url, "finditparts.com") && exists i :: 0 <= i < |servicios| && servicios[i].nombreProveedor == "FinditParts") ||
      (!Contiene(url, "finditparts.com") && Contiene(url, "fleetpride.com") &&
        exists i :: 0 <= i < |servicios| && servicios[i].nombreProveedor == "FleetPride")
  {
    var nombre := if Contiene(url, "finditparts.com") then Some("FinditParts")
      else if Contiene(url, "fleetpride.com") then Some("FleetPride")
      else None;
    match nombre
    case None => None
    case Some(n) =>
      match Primero(servicios, (s: Servicio) => s.nombreProveedor == n)
      case None => None
      case Some(k) => Some(servicios[k])
  }

  /** ObtenerProductoPorUrlAsync: an address no registered provider serves throws; otherwise the
      chosen provider's answer is returned as it is. */
  function ObtenerProductoPorUrl(servicios: seq<Servicio>, url: string, obtener: Servicio -> Llamada<Producto>): (r: Llamada<Producto>)
    ensures ServicioPorUrl(servicios, url).None? ==> r == Lanza("No se encontró servicio para esta URL")
    ensures ServicioPorUrl(servicios, url).Some? ==> r == obtener(ServicioPorUrl(servicios, url).value)
  {
    match ServicioPorUrl(servicios, url)
    case None => Lanza("No se encontró servicio para esta URL")
    case Some(s) => obtener(s)
  }

  // ---------------------------------------------------------------- import

  const PrefijoImportacion: string := "Error importando producto: "

  /** The minimum data ImportarProductoAlInventarioAsync checks, in order. */
  function ErrorImportacion(p: Producto): Option<string>
  {
    if p.partNumber == "" then Some("Part Number es requerido")
    else if p.manufacturer == "" then Some("Manufacturer es requerido")
    else None
  }

  /** ImportarProductoAlInventarioAsync: a product without part number or manufacturer throws
      before the save function is called, whatever that function would do; otherwise the save
      function's answer is returned, an exception re-thrown with the import prefix. */
  function ImportarProductoAlInventario(p: Producto, guardar: Producto -> Llamada<bool>): (r: Llamada<bool>)
    ensures p.partNumber == "" ==> r == Lanza(PrefijoImportacion + "Part Number es requerido")
    ensures p.partNumber != "" && p.manufacturer == "" ==> r == Lanza(PrefijoImportacion + "Manufacturer es requerido")
    ensures p.partNumber != "" && p.manufacturer != "" ==>
      (forall b :: r == Devuelve(b) <==> guardar(p) == Devuelve(b)) &&
      (guardar(p).Lanza? ==> r == Lanza(PrefijoImportacion + guardar(p).mensaje))
  {
    match ErrorImportacion(p)
    case Some(m) => Lanza(PrefijoImportacion + m)
    case None =>
      match guardar(p)
      case Devuelve(b) => Devuelve(b)
      case Lanza(m) => Lanza(PrefijoImportacion + m)
  }
}
