/** The records of the venue-capacity ("aforo") domain: venues, their occupancy, alerts and the
    alert thresholds (CarnavalLogistics/src/modules/aforo/models/Recinto.ts).
    Dates are integer timestamps. Percentages and thresholds are integers in hundredths of a percent
    (5000 stands for 50.00 %), the precision the repository rounds to. */
module AforoModels {
  import opened Common

  datatype TipoRecinto = Plaza | Parque | Estadio | Auditorio

  datatype EstadoRecinto = Activo | Mantenimiento | Cerrado

  /** A maximum capacity: positive, as the creation schema demands; a capacity of 0 would make the
      stored percentage a division by zero. */
  type Capacidad = c: int | 0 < c witness 1

  datatype Recinto = Recinto(
    id: string,
    nombre: string,
    ubicacion: string,
    capacidadMaxima: Capacidad,
    tipoRecinto: TipoRecinto,
    estado: EstadoRecinto,
    descripcion: Option<string>,
    createdAt: int,
    updatedAt: int)

  datatype OcupacionActual = OcupacionActual(
    recintoId: string,
    ocupacionActual: nat,
    porcentajeOcupacion: nat,   // hundredths of a percent
    ultimaActualizacion: int,
    alertaEmitida: bool)

  datatype TipoAlerta = CapacidadCritica | CapacidadAdvertencia | BajoAforo

  datatype AforoAlert = AforoAlert(
    id: string,
    recintoId: string,
    tipo: TipoAlerta,
    porcentajeOcupacion: nat,   // hundredths of a percent
    timestamp: int,
    procesada: bool)

  /** Alert thresholds, in hundredths of a percent. */
  datatype ConfiguracionAforo = ConfiguracionAforo(umbralCritico: int, umbralAdvertencia: int, umbralBajo: int)

  /** The service's initial thresholds: 90 %, 75 % and 20 %. */
  const ConfiguracionInicial := ConfiguracionAforo(9000, 7500, 2000)

  /** `Partial<ConfiguracionAforo>`: the thresholds an update carries. */
  datatype ConfiguracionCambios = ConfiguracionCambios(
    umbralCritico: Option<int>,
    umbralAdvertencia: Option<int>,
    umbralBajo: Option<int>)

  /** The failures the aforo repository and service report by throwing. */
  datatype AforoError =
    | RecintoNoEncontrado(recintoId: string)
    | OcupacionNoEncontrada(recintoId: string)
      /** `actualizarOcupacion`: the requested occupancy exceeds the capacity. */
    | CapacidadExcedida(ocupacion: int, capacidadMaxima: int)
      /** `registrarEntrada`: the entry would take the venue past its capacity. */
    | CapacidadAlcanzada(capacidadMaxima: int)

  /** The occupancy class the service derives from a percentage. */
  datatype EstadoOcupacion = Normal | Advertencia | Critico | Bajo

  /** `Partial<Recinto>` without `updatedAt`, which `actualizarRecinto` always overwrites.
      The optional `descripcion` is `Some(None)` when the patch sets it to `undefined`. */
  datatype RecintoCambios = RecintoCambios(
    id: Option<string>,
    nombre: Option<string>,
    ubicacion: Option<string>,
    capacidadMaxima: Option<Capacidad>,
    tipoRecinto: Option<TipoRecinto>,
    estado: Option<EstadoRecinto>,
    descripcion: Option<Option<string>>,
    createdAt: Option<int>)

  /** `{ ...recinto, ...cambios, updatedAt: ahora }`. */
  function AplicarCambios(r: Recinto, c: RecintoCambios, ahora: int): Recinto {
    Recinto(
      Merge(c.id, r.id),
      Merge(c.nombre, r.nombre),
      Merge(c.ubicacion, r.ubicacion),
      Merge(c.capacidadMaxima, r.capacidadMaxima),
      Merge(c.tipoRecinto, r.tipoRecinto),
      Merge(c.estado, r.estado),
      Merge(c.descripcion, r.descripcion),
      Merge(c.createdAt, r.createdAt),
      ahora)
  }

  /** An empty patch changes nothing but `updatedAt`. */
  lemma CambiosVaciosSoloRefrescan(r: Recinto, ahora: int)
    ensures AplicarCambios(r, RecintoCambios(None, None, None, None, None, None, None, None), ahora)
            == r.(updatedAt := ahora)
  {
  }

  /** Applying the same patch twice is the same as applying it once (with the later timestamp). */
  lemma AplicarCambiosIdempotente(r: Recinto, c: RecintoCambios, t1: int, t2: int)
    ensures AplicarCambios(AplicarCambios(r, c, t1), c, t2) == AplicarCambios(r, c, t2)
  {
  }
}
