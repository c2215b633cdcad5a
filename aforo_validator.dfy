/** The venue-capacity validators (CarnavalLogistics/src/modules/aforo/validators/AforoValidator.ts):
    the numeric and enumeration bounds of the two request schemas, and the capacity comparison. */
module AforoValidators {
  import opened Common
  import opened AforoModels

  /** Largest `capacidadMaxima` the creation schema accepts. */
  const CapacidadMaximaPermitida: int := 1000000

  /** The venue kinds the creation schema lists, by name. */
  function TipoRecintoDe(nombre: string): Option<TipoRecinto> {
    if nombre == "plaza" then Some(Plaza)
    else if nombre == "parque" then Some(Parque)
    else if nombre == "estadio" then Some(Estadio)
    else if nombre == "auditorio" then Some(Auditorio)
    else None
  }

  /** `recintoCreateSchema`: name of 3 to 100 characters, location of 5 to 200, a positive capacity of at
      most 1 000 000, one of the four venue kinds, and an optional description of 1 to 500 characters
      (`Joi.string()` refuses the empty string). */
  predicate RecintoCreacionValida(nombre: string, ubicacion: string, capacidadMaxima: int,
                                  tipoRecinto: string, descripcion: Option<string>)
  {
    && 3 <= |nombre| <= 100
    && 5 <= |ubicacion| <= 200
    && 0 < capacidadMaxima <= CapacidadMaximaPermitida
    && TipoRecintoDe(tipoRecinto).Some?
    && (descripcion.Some? ==> 1 <= |descripcion.value| <= 500)
  }

  /** An accepted creation request carries a capacity of 1 to 1 000 000 and names one of the four venue
      kinds, which maps back to that name. */
  lemma RecintoAceptadoTieneCapacidadYTipo(nombre: string, ubicacion: string, capacidadMaxima: int,
                                           tipoRecinto: string, descripcion: Option<string>)
    requires RecintoCreacionValida(nombre, ubicacion, capacidadMaxima, tipoRecinto, descripcion)
    ensures 0 < capacidadMaxima <= 1000000
    ensures tipoRecinto in {"plaza", "parque", "estadio", "auditorio"}
    ensures NombreTipoRecinto(TipoRecintoDe(tipoRecinto).value) == tipoRecinto
  {
  }

  /** The name under which the schema lists a venue kind. */
  function NombreTipoRecinto(t: TipoRecinto): string {
    match t
    case Plaza => "plaza"
    case Parque => "parque"
    case Estadio => "estadio"
    case Auditorio => "auditorio"
  }

  /** Every venue kind is recognised by its own name. */
  lemma TipoRecintoDeNombre(t: TipoRecinto)
    ensures TipoRecintoDe(NombreTipoRecinto(t)) == Some(t)
  {
  }

  /** The custom hook of `ocupacionUpdateSchema`: it hands the value back unchanged. */
  function ValidacionPersonalizada(value: int): int {
    value
  }

  /** `ocupacionUpdateSchema` on the occupancy field: a number of at least 0, passed through the custom hook.
      `None` stands for a validation error. */
  function ValidarOcupacionUpdate(ocupacionActual: int): (r: Option<int>)
    ensures r.Some? <==> 0 <= ocupacionActual
    ensures r.Some? ==> r.value == ocupacionActual
  {
    if ocupacionActual < 0 then None else Some(ValidacionPersonalizada(ocupacionActual))
  }

  /** The update schema does not enforce capacity: for every capacity, an occupancy above it is accepted. */
  lemma ActualizacionNoLimitaCapacidad(capacidad: Capacidad)
    ensures exists o :: o > capacidad && ValidarOcupacionUpdate(o) == Some(o)
  {
    assert ValidarOcupacionUpdate(capacidad + 1) == Some(capacidad + 1);
  }

  /** `validateCapacidadNoExcedida`: an occupancy fits when it does not exceed the capacity. */
  function ValidateCapacidadNoExcedida(ocupacion: int, capacidad: int): bool {
    ocupacion <= capacidad
  }

  /** A venue filled exactly to capacity passes; one more person does not. */
  lemma CapacidadExactaAceptada(capacidad: int)
    ensures ValidateCapacidadNoExcedida(capacidad, capacidad)
    ensures !ValidateCapacidadNoExcedida(capacidad + 1, capacidad)
  {
  }
}
