/** The venue-capacity service `AforoService` (CarnavalLogistics/src/modules/aforo/services/AforoService.ts):
    the capacity rule, entries and exits, the threshold classification and the alert it raises, and the
    occupancy report. Its invariant is that no venue holds more people than its capacity, which the raw
    repository operations do not keep on their own. */
module AforoServices {
  import opened Common
  import opened OrderedMaps
  import opened AforoModels
  import opened AforoValidators
  import opened AforoRepositories

  /** `obtenerEstadoBasadoEnPorcentaje`: critical, warning and low thresholds tested in that order. */
  function EstadoBasadoEnPorcentaje(porcentaje: int, cfg: ConfiguracionAforo): EstadoOcupacion {
    if porcentaje >= cfg.umbralCritico then Critico
    else if porcentaje >= cfg.umbralAdvertencia then Advertencia
    else if porcentaje <= cfg.umbralBajo then Bajo
    else Normal
  }

  /** The alert kind `verificarYGenerarAlertas` chooses by its own chain of the same three tests; none when
      no test matches. */
  function TipoAlertaPara(porcentaje: int, cfg: ConfiguracionAforo): Option<TipoAlerta> {
    if porcentaje >= cfg.umbralCritico then Some(CapacidadCritica)
    else if porcentaje >= cfg.umbralAdvertencia then Some(CapacidadAdvertencia)
    else if porcentaje <= cfg.umbralBajo then Some(BajoAforo)
    else None
  }

  /** The alert kind that belongs to each occupancy class. */
  function AlertaDeEstado(e: EstadoOcupacion): Option<TipoAlerta> {
    match e
    case Critico => Some(CapacidadCritica)
    case Advertencia => Some(CapacidadAdvertencia)
    case Bajo => Some(BajoAforo)
    case Normal => None
  }

  /** The alerting chain and the classifier agree: an alert is raised exactly when the class is not normal,
      and it is of the class's kind. */
  lemma AlertaSegunEstado(porcentaje: int, cfg: ConfiguracionAforo)
    ensures TipoAlertaPara(porcentaje, cfg) == AlertaDeEstado(EstadoBasadoEnPorcentaje(porcentaje, cfg))
    ensures TipoAlertaPara(porcentaje, cfg).None? <==> EstadoBasadoEnPorcentaje(porcentaje, cfg) == Normal
  {
  }

  /** Priority order: at or above the critical threshold the class is critical, whatever the other
      thresholds say. */
  lemma CriticoTienePrioridad(porcentaje: int, cfg: ConfiguracionAforo)
    requires porcentaje >= cfg.umbralCritico
    ensures EstadoBasadoEnPorcentaje(porcentaje, cfg) == Critico
    ensures TipoAlertaPara(porcentaje, cfg) == Some(CapacidadCritica)
  {
  }

  /** With the initial thresholds (90 %, 75 %, 20 %), the class of a venue with `ocupacion` people out of
      `capacidad`, stated on the counts themselves: each threshold is effectively lowered by half a
      hundredth of a percent by the rounding of the stored percentage. */
  lemma {:induction false} EstadoConConfiguracionInicial(ocupacion: nat, capacidad: Capacidad)
    ensures var e := EstadoBasadoEnPorcentaje(Porcentaje(ocupacion, capacidad), ConfiguracionInicial);
            && (e == Critico <==> 20000 * ocupacion >= 17999 * capacidad)
            && (e == Advertencia <==> 14999 * capacidad <= 20000 * ocupacion < 17999 * capacidad)
            && (e == Bajo <==> 20000 * ocupacion < 4001 * capacidad)
            && (e == Normal <==> 4001 * capacidad <= 20000 * ocupacion < 14999 * capacidad)
  {
    PorcentajeAlcanza(ocupacion, capacidad, 9000);
    PorcentajeAlcanza(ocupacion, capacidad, 7500);
    PorcentajeHasta(ocupacion, capacidad, 2000);
  }

  /** 95 people in a venue for 100 are stored at 95 % and classified critical under the initial thresholds. */
  lemma NoventaYCincoDeCienEsCritico()
    ensures Porcentaje(95, 100) == 9500
    ensures EstadoBasadoEnPorcentaje(Porcentaje(95, 100), ConfiguracionInicial) == Critico
  {
    PorcentajeAlcanza(95, 100, 9500);
    PorcentajeHasta(95, 100, 9500);
  }

  /** The alert `verificarYGenerarAlertas` records for a stored occupancy: unprocessed, of the kind the
      percentage calls for, carrying that percentage; none when the class is normal. */
  function AlertaPara(recintoId: string, porcentaje: nat, cfg: ConfiguracionAforo, alertaId: string, ahora: int)
    : (a: Option<AforoAlert>)
    ensures a.Some? <==> EstadoBasadoEnPorcentaje(porcentaje, cfg) != Normal
    ensures a.Some? ==> a.value == AforoAlert(alertaId, recintoId, AlertaDeEstado(EstadoBasadoEnPorcentaje(porcentaje, cfg)).value,
                                              porcentaje, ahora, false)
  {
    match TipoAlertaPara(porcentaje, cfg)
    case None => None
    case Some(tipo) => Some(AforoAlert(alertaId, recintoId, tipo, porcentaje, ahora, false))
  }

  /** The service invariant over the venue and occupancy tables: every venue is stored under its own id and
      has an occupancy record for it, that record holds at most the venue's capacity, and its percentage is
      the rounded ratio. */
  ghost predicate OcupacionesConsistentes(recintos: OrderedMap<Recinto>, ocupaciones: OrderedMap<OcupacionActual>) {
    forall id | id in recintos.entries ::
      && recintos.entries[id].id == id
      && id in ocupaciones.entries
      && ocupaciones.entries[id].recintoId == id
      && ocupaciones.entries[id].ocupacionActual <= recintos.entries[id].capacidadMaxima
      && ocupaciones.entries[id].porcentajeOcupacion
         == Porcentaje(ocupaciones.entries[id].ocupacionActual, recintos.entries[id].capacidadMaxima)
  }

  /** One row of `generarReporteOcupacion`. */
  datatype FilaReporte = FilaReporte(
    recintoId: string,
    nombreRecinto: string,
    tipo: TipoRecinto,
    capacidadMaxima: Capacidad,
    ocupacionActual: nat,
    porcentajeOcupacion: nat,
    estado: EstadoOcupacion)

  function Fila(recinto: Recinto, ocupacion: OcupacionActual, cfg: ConfiguracionAforo): FilaReporte {
    FilaReporte(recinto.id, recinto.nombre, recinto.tipoRecinto, recinto.capacidadMaxima,
                ocupacion.ocupacionActual, ocupacion.porcentajeOcupacion,
                EstadoBasadoEnPorcentaje(ocupacion.porcentajeOcupacion, cfg))
  }

  /** The report over a list of venues: one row per venue that has an occupancy record, in list order;
      venues without one are skipped. */
  function Reporte(recintos: seq<Recinto>, ocupaciones: OrderedMap<OcupacionActual>, cfg: ConfiguracionAforo)
    : (r: seq<FilaReporte>)
    ensures |r| <= |recintos|
  {
    if recintos == [] then []
    else
      var previas := Reporte(recintos[..|recintos| - 1], ocupaciones, cfg);
      var recinto := recintos[|recintos| - 1];
      match Get(ocupaciones, recinto.id)
      case None => previas
      case Some(o) => previas + [Fila(recinto, o, cfg)]
  }

  /** When every listed venue has an occupancy record (as the service invariant guarantees), no venue is
      skipped: row i describes venue i and the occupancy stored for it. */
  lemma {:induction false} ReporteCompleto(recintos: seq<Recinto>, ocupaciones: OrderedMap<OcupacionActual>, cfg: ConfiguracionAforo)
    requires forall r | r in recintos :: r.id in ocupaciones.entries
    ensures |Reporte(recintos, ocupaciones, cfg)| == |recintos|
    ensures forall i | 0 <= i < |recintos| ::
              Reporte(recintos, ocupaciones, cfg)[i] == Fila(recintos[i], ocupaciones.entries[recintos[i].id], cfg)
  {
    if recintos != [] {
      var n := |recintos| - 1;
      ReporteCompleto(recintos[..n], ocupaciones, cfg);
    }
  }

  class AforoService {
    const repository: AforoRepositoryMock
    var configuracion: ConfiguracionAforo

    ghost predicate Valid()
      reads this, repository
    {
      repository.Valid() && OcupacionesConsistentes(repository.recintos, repository.ocupaciones)
    }

    /** A service over a repository that holds no venue breaking the invariant (a new one holds none). */
    constructor (repository: AforoRepositoryMock)
      requires repository.Valid() && OcupacionesConsistentes(repository.recintos, repository.ocupaciones)
      ensures Valid()
      ensures this.repository == repository && configuracion == ConfiguracionInicial
    {
      this.repository := repository;
      configuracion := ConfiguracionInicial;
    }

    /** `crearRecinto`: a new active venue, stored with an empty occupancy record. */
    method CrearRecinto(id: string, nombre: string, ubicacion: string, capacidadMaxima: Capacidad,
                        tipoRecinto: TipoRecinto, descripcion: Option<string>, ahora: int) returns (r: Recinto)
      requires Valid()
      modifies repository
      ensures Valid()
      ensures r == Recinto(id, nombre, ubicacion, capacidadMaxima, tipoRecinto, Activo, descripcion, ahora, ahora)
      ensures repository.recintos == Set(old(repository.recintos), id, r)
      ensures repository.ocupaciones == Set(old(repository.ocupaciones), id, OcupacionActual(id, 0, 0, ahora, false))
      ensures repository.alertas == old(repository.alertas)
    {
      var recinto := Recinto(id, nombre, ubicacion, capacidadMaxima, tipoRecinto, Activo, descripcion, ahora, ahora);
      r := repository.CrearRecinto(recinto, ahora);
      PorcentajeExtremos(0, capacidadMaxima);
    }

    /** `obtenerRecintos`. */
    method ObtenerRecintos() returns (rs: seq<Recinto>)
      requires Valid()
      ensures rs == Values(repository.recintos)
    {
      rs := repository.ObtenerTodosRecintos();
    }

    /** `obtenerDetallesRecinto`: a known venue with its occupancy, which is within capacity and carries
        the rounded percentage. */
    method ObtenerDetallesRecinto(recintoId: string) returns (r: Result<(Recinto, OcupacionActual), AforoError>)
      requires Valid()
      ensures recintoId !in repository.recintos.entries <==> r == Err(RecintoNoEncontrado(recintoId))
      ensures recintoId in repository.recintos.entries ==> r.Ok?
      ensures r.Ok? ==> && r.value.0 == repository.recintos.entries[recintoId]
                        && r.value.1 == repository.ocupaciones.entries[recintoId]
                        && r.value.1.ocupacionActual <= r.value.0.capacidadMaxima
                        && r.value.1.porcentajeOcupacion == Porcentaje(r.value.1.ocupacionActual, r.value.0.capacidadMaxima)
    {
      var recinto := repository.ObtenerRecinto(recintoId);
      if recinto.None? {
        return Err(RecintoNoEncontrado(recintoId));
      }
      var ocupacion := repository.ObtenerOcupacionActual(recintoId);
      if ocupacion.None? {
        return Err(OcupacionNoEncontrada(recintoId));
      }
      r := Ok((recinto.value, ocupacion.value));
    }

    /** `actualizarOcupacion`: fails for an unknown venue, and for an occupancy above the capacity (leaving
        occupancy and alerts unchanged); otherwise stores it with its rounded percentage and logs the alert
        its class calls for. */
    method ActualizarOcupacion(recintoId: string, nuevaOcupacion: nat, ahora: int, alertaId: string)
      returns (r: Result<OcupacionActual, AforoError>)
      requires Valid()
      requires alertaId !in repository.alertas.entries
      modifies repository
      ensures Valid()
      ensures recintoId !in old(repository.recintos.entries) ==>
                r == Err(RecintoNoEncontrado(recintoId)) && unchanged(repository)
      ensures recintoId in old(repository.recintos.entries) ==>
                var capacidad := old(repository.recintos.entries[recintoId]).capacidadMaxima;
                && (!ValidateCapacidadNoExcedida(nuevaOcupacion, capacidad) ==>
                      r == Err(CapacidadExcedida(nuevaOcupacion, capacidad)) && unchanged(repository))
                && (ValidateCapacidadNoExcedida(nuevaOcupacion, capacidad) ==>
                      && r == Ok(OcupacionActual(recintoId, nuevaOcupacion, Porcentaje(nuevaOcupacion, capacidad), ahora, false))
                      && repository.ocupaciones == Set(old(repository.ocupaciones), recintoId, r.value)
                      && ConAlerta(old(repository.alertas), repository.alertas,
                                   AlertaPara(recintoId, r.value.porcentajeOcupacion, configuracion, alertaId, ahora)))
      ensures repository.recintos == old(repository.recintos)
    {
      var recinto := repository.ObtenerRecinto(recintoId);
      if recinto.None? {
        return Err(RecintoNoEncontrado(recintoId));
      }
      if nuevaOcupacion > recinto.value.capacidadMaxima {
        return Err(CapacidadExcedida(nuevaOcupacion, recinto.value.capacidadMaxima));
      }
      r := repository.ActualizarOcupacion(recintoId, nuevaOcupacion, ahora);
      VerificarYGenerarAlertas(recinto.value, r.value, ahora, alertaId);
    }

    /** The alert log `after` is `before` with `alerta` appended, or unchanged when there is none. */
    ghost predicate ConAlerta(before: OrderedMap<AforoAlert>, after: OrderedMap<AforoAlert>, alerta: Option<AforoAlert>) {
      && before.Valid()
      && (alerta.None? ==> after == before)
      && (alerta.Some? ==> after == Set(before, alerta.value.id, alerta.value)
                           && Values(after) == Values(before) + [alerta.value])
    }

    /** `verificarYGenerarAlertas`: logs one alert when the stored percentage is critical, warning or low. */
    method VerificarYGenerarAlertas(recinto: Recinto, ocupacion: OcupacionActual, ahora: int, alertaId: string)
      requires repository.Valid()
      requires alertaId !in repository.alertas.entries
      modifies repository
      ensures repository.Valid()
      ensures ConAlerta(old(repository.alertas), repository.alertas,
                        AlertaPara(recinto.id, ocupacion.porcentajeOcupacion, configuracion, alertaId, ahora))
      ensures repository.recintos == old(repository.recintos) && repository.ocupaciones == old(repository.ocupaciones)
    {
      var porcentaje := ocupacion.porcentajeOcupacion;
      var alerta: Option<AforoAlert> := None;
      if porcentaje >= configuracion.umbralCritico {
        alerta := Some(AforoAlert(alertaId, recinto.id, CapacidadCritica, porcentaje, ahora, false));
      } else if porcentaje >= configuracion.umbralAdvertencia {
        alerta := Some(AforoAlert(alertaId, recinto.id, CapacidadAdvertencia, porcentaje, ahora, false));
      } else if porcentaje <= configuracion.umbralBajo {
        alerta := Some(AforoAlert(alertaId, recinto.id, BajoAforo, porcentaje, ahora, false));
      }
      if alerta.Some? {
        var _ := repository.CrearAlerta(alerta.value);
      }
    }

    /** `registrarEntrada`: `cantidad` more people, failing for an unknown venue or when the sum would exceed
        the capacity. */
    method RegistrarEntrada(recintoId: string, cantidad: nat, ahora: int, alertaId: string)
      returns (r: Result<OcupacionActual, AforoError>)
      requires Valid()
      requires alertaId !in repository.alertas.entries
      modifies repository
      ensures Valid()
      ensures recintoId !in old(repository.recintos.entries) ==>
                r == Err(RecintoNoEncontrado(recintoId)) && unchanged(repository)
      ensures recintoId in old(repository.recintos.entries) ==>
                var capacidad := old(repository.recintos.entries[recintoId]).capacidadMaxima;
                var nueva := old(repository.ocupaciones.entries[recintoId]).ocupacionActual + cantidad;
                && (nueva > capacidad ==> r == Err(CapacidadAlcanzada(capacidad)) && unchanged(repository))
                && (nueva <= capacidad ==>
                      && r == Ok(OcupacionActual(recintoId, nueva, Porcentaje(nueva, capacidad), ahora, false))
                      && repository.ocupaciones == Set(old(repository.ocupaciones), recintoId, r.value)
                      && ConAlerta(old(repository.alertas), repository.alertas,
                                   AlertaPara(recintoId, r.value.porcentajeOcupacion, configuracion, alertaId, ahora)))
      ensures repository.recintos == old(repository.recintos)
    {
      var recinto := repository.ObtenerRecinto(recintoId);
      if recinto.None? {
        return Err(RecintoNoEncontrado(recintoId));
      }
      var ocupacionActual := repository.ObtenerOcupacionActual(recintoId);
      if ocupacionActual.None? {
        return Err(OcupacionNoEncontrada(recintoId));
      }
      var nuevaOcupacion := ocupacionActual.value.ocupacionActual + cantidad;
      if nuevaOcupacion > recinto.value.capacidadMaxima {
        return Err(CapacidadAlcanzada(recinto.value.capacidadMaxima));
      }
      r := ActualizarOcupacion(recintoId, nuevaOcupacion, ahora, alertaId);
    }

    /** `registrarSalida`: `cantidad` fewer people, clamped at 0; fails only when there is no occupancy
        record or no venue. */
    method RegistrarSalida(recintoId: string, cantidad: nat, ahora: int, alertaId: string)
      returns (r: Result<OcupacionActual, AforoError>)
      requires Valid()
      requires alertaId !in repository.alertas.entries
      modifies repository
      ensures Valid()
      ensures recintoId !in old(repository.ocupaciones.entries) ==>
                r == Err(OcupacionNoEncontrada(recintoId)) && unchanged(repository)
      ensures recintoId in old(repository.ocupaciones.entries) && recintoId !in old(repository.recintos.entries) ==>
                r == Err(RecintoNoEncontrado(recintoId)) && unchanged(repository)
      ensures recintoId in old(repository.recintos.entries) ==>
                var capacidad := old(repository.recintos.entries[recintoId]).capacidadMaxima;
                var antes := old(repository.ocupaciones.entries[recintoId]).ocupacionActual;
                var nueva := if antes >= cantidad then antes - cantidad else 0;
                && r == Ok(OcupacionActual(recintoId, nueva, Porcentaje(nueva, capacidad), ahora, false))
                && repository.ocupaciones == Set(old(repository.ocupaciones), recintoId, r.value)
                && ConAlerta(old(repository.alertas), repository.alertas,
                             AlertaPara(recintoId, r.value.porcentajeOcupacion, configuracion, alertaId, ahora))
      ensures repository.recintos == old(repository.recintos)
    {
      var ocupacionActual := repository.ObtenerOcupacionActual(recintoId);
      if ocupacionActual.None? {
        return Err(OcupacionNoEncontrada(recintoId));
      }
      var antes := ocupacionActual.value.ocupacionActual;
      var nuevaOcupacion := if antes - cantidad < 0 then 0 else antes - cantidad;
      r := ActualizarOcupacion(recintoId, nuevaOcupacion, ahora, alertaId);
    }

    /** `obtenerEstadoOcupacion`: the venue, its occupancy and the class of its stored percentage, found by
        the method's own if-chain, which agrees with `obtenerEstadoBasadoEnPorcentaje` on every input. */
    method ObtenerEstadoOcupacion(recintoId: string)
      returns (r: Result<(Recinto, OcupacionActual, EstadoOcupacion), AforoError>)
      requires Valid()
      ensures recintoId !in repository.recintos.entries <==> r == Err(RecintoNoEncontrado(recintoId))
      ensures recintoId in repository.recintos.entries ==> r.Ok?
      ensures r.Ok? ==> && r.value.0 == repository.recintos.entries[recintoId]
                        && r.value.1 == repository.ocupaciones.entries[recintoId]
                        && r.value.2 == EstadoBasadoEnPorcentaje(r.value.1.porcentajeOcupacion, configuracion)
    {
      var detalles := ObtenerDetallesRecinto(recintoId);
      if detalles.Err? {
        return Err(detalles.error);
      }
      var (recinto, ocupacion) := detalles.value;
      var estado := Normal;
      if ocupacion.porcentajeOcupacion >= configuracion.umbralCritico {
        estado := Critico;
      } else if ocupacion.porcentajeOcupacion >= configuracion.umbralAdvertencia {
        estado := Advertencia;
      } else if ocupacion.porcentajeOcupacion <= configuracion.umbralBajo {
        estado := Bajo;
      }
      r := Ok((recinto, ocupacion, estado));
    }

    /** `obtenerAlertasRecinto`: the venue's unprocessed alerts, in log order. */
    method ObtenerAlertasRecinto(recintoId: string) returns (rs: seq<AforoAlert>)
      requires Valid()
      ensures rs == Activas(Values(repository.alertas), recintoId)
      ensures forall a :: a in rs <==> a in Values(repository.alertas) && a.recintoId == recintoId && !a.procesada
    {
      rs := repository.ObtenerAlertasActivas(recintoId);
    }

    /** `getConfiguracion`. */
    method GetConfiguracion() returns (cfg: ConfiguracionAforo)
      ensures cfg == configuracion
    {
      cfg := configuracion;
    }

    /** `updateConfiguracion`: overwrites only the thresholds it is given. */
    method UpdateConfiguracion(nuevaConfig: ConfiguracionCambios)
      modifies this
      ensures nuevaConfig.umbralCritico.Some? ==> configuracion.umbralCritico == nuevaConfig.umbralCritico.value
      ensures nuevaConfig.umbralCritico.None? ==> configuracion.umbralCritico == old(configuracion.umbralCritico)
      ensures nuevaConfig.umbralAdvertencia.Some? ==> configuracion.umbralAdvertencia == nuevaConfig.umbralAdvertencia.value
      ensures nuevaConfig.umbralAdvertencia.None? ==> configuracion.umbralAdvertencia == old(configuracion.umbralAdvertencia)
      ensures nuevaConfig.umbralBajo.Some? ==> configuracion.umbralBajo == nuevaConfig.umbralBajo.value
      ensures nuevaConfig.umbralBajo.None? ==> configuracion.umbralBajo == old(configuracion.umbralBajo)
    {
      configuracion := ConfiguracionAforo(
        Merge(nuevaConfig.umbralCritico, configuracion.umbralCritico),
        Merge(nuevaConfig.umbralAdvertencia, configuracion.umbralAdvertencia),
        Merge(nuevaConfig.umbralBajo, configuracion.umbralBajo));
    }

    /** `generarReporteOcupacion`: one row per venue, in table order, each within capacity and classified
        like `obtenerEstadoOcupacion` would. */
    method GenerarReporteOcupacion() returns (reportes: seq<FilaReporte>)
      requires Valid()
      ensures reportes == Reporte(Values(repository.recintos), repository.ocupaciones, configuracion)
      ensures |reportes| == |repository.recintos.entries|
      ensures forall i | 0 <= i < |reportes| ::
                && reportes[i].recintoId == Values(repository.recintos)[i].id
                && reportes[i].ocupacionActual <= reportes[i].capacidadMaxima
                && reportes[i].estado == EstadoBasadoEnPorcentaje(reportes[i].porcentajeOcupacion, configuracion)
    {
      var recintos := repository.ObtenerTodosRecintos();
      reportes := [];
      var i := 0;
      while i < |recintos|
        invariant 0 <= i <= |recintos|
        invariant reportes == Reporte(recintos[..i], repository.ocupaciones, configuracion)
      {
        var recinto := recintos[i];
        var ocupacion := repository.ObtenerOcupacionActual(recinto.id);
        if ocupacion.Some? {
          reportes := reportes + [Fila(recinto, ocupacion.value, configuracion)];
        }
        assert recintos[..i + 1][..i] == recintos[..i];
        i := i + 1;
      }
      assert recintos[..|recintos|] == recintos;
      forall r | r in recintos
        ensures r.id in repository.ocupaciones.entries && r.id in repository.recintos.entries
        ensures repository.recintos.entries[r.id] == r
      {
        InValues(repository.recintos, r);
      }
      ReporteCompleto(recintos, repository.ocupaciones, configuracion);
    }
  }
}
