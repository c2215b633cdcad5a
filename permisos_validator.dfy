/** The permit validators (CarnavalLogistics/src/modules/permisos/validators/PermisosValidator.ts): the closed
    interval overlap test, the search for an overlapping period, and the bounds of the permit request schema. */
module PermisosValidators {
  import opened Common
  import opened PermisosModels

  /** A closed period `[inicio, fin]` already granted. */
  datatype Intervalo = Intervalo(inicio: int, fin: int)

  /** The per-period test: `[inicio, fin]` and `[inicioExistente, finExistente]` overlap unless one ends
      strictly before the other starts. */
  predicate Solapan(inicio: int, fin: int, inicioExistente: int, finExistente: int) {
    !(fin < inicioExistente || inicio > finExistente)
  }

  /** The instant `t` lies in the closed period `[inicio, fin]`. */
  predicate EnPeriodo(t: int, inicio: int, fin: int) {
    inicio <= t <= fin
  }

  /** For well-formed periods the test means what it says: the two closed periods share an instant. */
  lemma SolapanSiCompartenPunto(inicio: int, fin: int, inicioExistente: int, finExistente: int)
    requires inicio <= fin && inicioExistente <= finExistente
    ensures Solapan(inicio, fin, inicioExistente, finExistente)
            <==> exists t :: EnPeriodo(t, inicio, fin) && EnPeriodo(t, inicioExistente, finExistente)
  {
    if Solapan(inicio, fin, inicioExistente, finExistente) {
      var t := if inicio < inicioExistente then inicioExistente else inicio;
      assert EnPeriodo(t, inicio, fin) && EnPeriodo(t, inicioExistente, finExistente);
    }
  }

  /** Well-formed periods that only share an endpoint overlap. */
  lemma ExtremoCompartidoSolapa(a: int, b: int, c: int)
    requires a <= b <= c
    ensures Solapan(a, b, b, c) && Solapan(b, c, a, b)
  {
  }

  /** `validateFechasNoSolapadas`: true when no existing period overlaps `[fechaInicio, fechaFin]`; the
      search stops at the first overlap. */
  method ValidateFechasNoSolapadas(fechaInicio: int, fechaFin: int, fechasExistentes: seq<Intervalo>)
    returns (r: bool)
    ensures r <==> forall i | 0 <= i < |fechasExistentes| ::
                     !Solapan(fechaInicio, fechaFin, fechasExistentes[i].inicio, fechasExistentes[i].fin)
    ensures fechasExistentes == [] ==> r
  {
    for i := 0 to |fechasExistentes|
      invariant forall j | 0 <= j < i :: !Solapan(fechaInicio, fechaFin, fechasExistentes[j].inicio, fechasExistentes[j].fin)
    {
      var existente := fechasExistentes[i];
      if !(fechaFin < existente.inicio || fechaInicio > existente.fin) {
        return false;
      }
    }
    return true;
  }

  /** The categories `solicitudPermisoSchema` lists, by name. */
  function TipoProductoDe(nombre: string): (r: Option<TipoProducto>)
    ensures r.Some? ==> r.value.Nombre() == nombre
  {
    if nombre == "alimentos" then Some(Alimentos)
    else if nombre == "bebidas" then Some(Bebidas)
    else if nombre == "artesanias" then Some(Artesanias)
    else if nombre == "entretenimiento" then Some(Entretenimiento)
    else if nombre == "otro" then Some(Otro)
    else None
  }

  /** Every category is recognised by its own name. */
  lemma TipoProductoDeNombre(t: TipoProducto)
    ensures TipoProductoDe(t.Nombre()) == Some(t)
  {
  }

  /** The numeric and enumeration bounds of `solicitudPermisoSchema`: a listed category, a description of 10
      to 1000 characters, a start after `ahora` and an end strictly after the start, a location of 5 to 200
      characters, a positive area of at most 500 m² and a positive declared amount. */
  predicate SolicitudPermisoValida(tipoProducto: string, descripcion: string, fechaInicio: int, fechaFin: int,
                                   ubicacionSolicitada: string, areaMetrosCuadrados: real, monto: real, ahora: int)
  {
    && TipoProductoDe(tipoProducto).Some?
    && 10 <= |descripcion| <= 1000
    && fechaInicio > ahora
    && fechaFin > fechaInicio
    && 5 <= |ubicacionSolicitada| <= 200
    && 0.0 < areaMetrosCuadrados <= 500.0
    && monto > 0.0
  }

  /** An accepted request has a positive area of at most 500 m², a non-empty period, and a listed category. */
  lemma SolicitudAceptada(tipoProducto: string, descripcion: string, fechaInicio: int, fechaFin: int,
                          ubicacionSolicitada: string, areaMetrosCuadrados: real, monto: real, ahora: int)
    requires SolicitudPermisoValida(tipoProducto, descripcion, fechaInicio, fechaFin, ubicacionSolicitada,
                                    areaMetrosCuadrados, monto, ahora)
    ensures 0.0 < areaMetrosCuadrados <= 500.0
    ensures fechaInicio < fechaFin
    ensures tipoProducto in {"alimentos", "bebidas", "artesanias", "entretenimiento", "otro"}
  {
  }
}
