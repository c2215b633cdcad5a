/** The records of the vendor-permit ("permisos") domain (CarnavalLogistics/src/modules/permisos/models/Permiso.ts):
    vendors, permit requests, approvals and the statistics summary, plus the partial updates the repository
    merges into them and the request life cycle the service enforces.
    Dates are integer timestamps; areas and amounts are reals. */
module PermisosModels {
  import opened Common

  datatype EstadoComerciante = Activo | Inactivo | Bloqueado

  datatype TipoProducto = Alimentos | Bebidas | Artesanias | Entretenimiento | Otro
  {
    /** The category's name as it is stored and looked up in the fee table. */
    function Nombre(): string {
      match this
      case Alimentos => "alimentos"
      case Bebidas => "bebidas"
      case Artesanias => "artesanias"
      case Entretenimiento => "entretenimiento"
      case Otro => "otro"
    }
  }

  datatype EstadoSolicitud = Pendiente | Aprobado | Rechazado | Cancelado
  {
    /** The status name the repository's status filter compares against. */
    function Nombre(): string {
      match this
      case Pendiente => "pendiente"
      case Aprobado => "aprobado"
      case Rechazado => "rechazado"
      case Cancelado => "cancelado"
    }
  }

  /** Distinct statuses have distinct names, so filtering by name is filtering by status. */
  lemma NombreEstadoInyectivo(a: EstadoSolicitud, b: EstadoSolicitud)
    ensures a.Nombre() == b.Nombre() <==> a == b
  {
  }

  datatype Comerciante = Comerciante(
    id: string,
    nombre: string,
    apellido: string,
    email: string,
    telefono: string,
    cedula: string,
    razonSocial: string,
    estado: EstadoComerciante,
    createdAt: int)

  datatype SolicitudPermiso = SolicitudPermiso(
    id: string,
    comercianteId: string,
    tipoProducto: TipoProducto,
    descripcion: string,
    fechaSolicitud: int,
    fechaInicio: int,
    fechaFin: int,
    ubicacionSolicitada: string,
    areaMetrosCuadrados: real,
    monto: real,
    estado: EstadoSolicitud,
    razonRechazo: Option<string>,
    fechaAprobacion: Option<int>,
    documentosAdjuntos: seq<string>)

  datatype AprobacionPermiso = AprobacionPermiso(
    permisoId: string,
    comercianteId: string,
    aprobadoPor: string,
    fechaAprobacion: int,
    condiciones: Option<seq<string>>,
    numeroPermiso: string)

  datatype EstadisticasPermisos = EstadisticasPermisos(
    totalSolicitudes: nat,
    aprobadas: nat,
    rechazadas: nat,
    pendientes: nat,
    canceladas: nat,
    ingresoTotal: real)

  /** The failures the permit repository, service and request flow report by throwing or by an HTTP error. */
  datatype PermisosError =
    | ComercianteNoEncontrado(comercianteId: string)
    | ComercianteBloqueado(comercianteId: string)
    | SolicitudNoEncontrada(solicitudId: string)
      /** A request that is no longer pending cannot be approved or rejected. */
    | EstadoInvalido(estado: EstadoSolicitud)
      /** The request fails the request schema. */
    | ValidacionFallida
      /** An approved request already holds the location for an overlapping period. */
    | UbicacionNoDisponible

  /** `Partial<Comerciante>`: the fields an update carries. */
  datatype ComercianteCambios = ComercianteCambios(
    id: Option<string>,
    nombre: Option<string>,
    apellido: Option<string>,
    email: Option<string>,
    telefono: Option<string>,
    cedula: Option<string>,
    razonSocial: Option<string>,
    estado: Option<EstadoComerciante>,
    createdAt: Option<int>)

  const SinCambiosComerciante := ComercianteCambios(None, None, None, None, None, None, None, None, None)

  /** `{ ...comerciante, ...updates }`. */
  function AplicarCambiosComerciante(c: Comerciante, u: ComercianteCambios): Comerciante {
    Comerciante(
      Merge(u.id, c.id),
      Merge(u.nombre, c.nombre),
      Merge(u.apellido, c.apellido),
      Merge(u.email, c.email),
      Merge(u.telefono, c.telefono),
      Merge(u.cedula, c.cedula),
      Merge(u.razonSocial, c.razonSocial),
      Merge(u.estado, c.estado),
      Merge(u.createdAt, c.createdAt))
  }

  /** A patch carrying only a status changes only the status. */
  lemma CambioDeEstadoComerciante(c: Comerciante, e: EstadoComerciante)
    ensures AplicarCambiosComerciante(c, SinCambiosComerciante.(estado := Some(e))) == c.(estado := e)
  {
  }

  /** Merging the same vendor patch twice is merging it once. */
  lemma CambiosComercianteIdempotentes(c: Comerciante, u: ComercianteCambios)
    ensures AplicarCambiosComerciante(AplicarCambiosComerciante(c, u), u) == AplicarCambiosComerciante(c, u)
  {
  }

  /** `Partial<SolicitudPermiso>`. The optional fields are `Some(None)` when the patch sets them to
      `undefined`. */
  datatype SolicitudCambios = SolicitudCambios(
    id: Option<string>,
    comercianteId: Option<string>,
    tipoProducto: Option<TipoProducto>,
    descripcion: Option<string>,
    fechaSolicitud: Option<int>,
    fechaInicio: Option<int>,
    fechaFin: Option<int>,
    ubicacionSolicitada: Option<string>,
    areaMetrosCuadrados: Option<real>,
    monto: Option<real>,
    estado: Option<EstadoSolicitud>,
    razonRechazo: Option<Option<string>>,
    fechaAprobacion: Option<Option<int>>,
    documentosAdjuntos: Option<seq<string>>)

  const SinCambiosSolicitud :=
    SolicitudCambios(None, None, None, None, None, None, None, None, None, None, None, None, None, None)

  /** `{ ...solicitud, ...updates }`. */
  function AplicarCambiosSolicitud(s: SolicitudPermiso, u: SolicitudCambios): SolicitudPermiso {
    SolicitudPermiso(
      Merge(u.id, s.id),
      Merge(u.comercianteId, s.comercianteId),
      Merge(u.tipoProducto, s.tipoProducto),
      Merge(u.descripcion, s.descripcion),
      Merge(u.fechaSolicitud, s.fechaSolicitud),
      Merge(u.fechaInicio, s.fechaInicio),
      Merge(u.fechaFin, s.fechaFin),
      Merge(u.ubicacionSolicitada, s.ubicacionSolicitada),
      Merge(u.areaMetrosCuadrados, s.areaMetrosCuadrados),
      Merge(u.monto, s.monto),
      Merge(u.estado, s.estado),
      Merge(u.razonRechazo, s.razonRechazo),
      Merge(u.fechaAprobacion, s.fechaAprobacion),
      Merge(u.documentosAdjuntos, s.documentosAdjuntos))
  }

  /** The empty request patch changes nothing, and merging a patch twice is merging it once. */
  lemma CambiosSolicitudIdempotentes(s: SolicitudPermiso, u: SolicitudCambios)
    ensures AplicarCambiosSolicitud(s, SinCambiosSolicitud) == s
    ensures AplicarCambiosSolicitud(AplicarCambiosSolicitud(s, u), u) == AplicarCambiosSolicitud(s, u)
  {
  }

  /** The three service operations that move a request through its life cycle. */
  datatype Accion = Aprobar | Rechazar | Cancelar

  /** The status an operation leaves, or `None` when the service refuses it: approving and rejecting need a
      pending request; cancelling is accepted from every status. */
  function Transicion(e: EstadoSolicitud, a: Accion): (r: Option<EstadoSolicitud>)
    ensures r.Some? <==> e == Pendiente || a == Cancelar
    ensures r.Some? ==> r.value != Pendiente
  {
    match a
    case Aprobar => if e == Pendiente then Some(Aprobado) else None
    case Rechazar => if e == Pendiente then Some(Rechazado) else None
    case Cancelar => Some(Cancelado)
  }

  /** The status after a series of calls; a refused call leaves the status as it was. */
  function Recorrido(e: EstadoSolicitud, acciones: seq<Accion>): EstadoSolicitud
    decreases |acciones|
  {
    if acciones == [] then e
    else Recorrido(Merge(Transicion(e, acciones[0]), e), acciones[1..])
  }

  /** Approving the same request twice fails the second time. */
  lemma AprobarDosVecesFalla()
    ensures Transicion(Transicion(Pendiente, Aprobar).value, Aprobar).None?
  {
  }

  /** Once a request has left `pendiente`, no series of calls brings it back. */
  lemma {:induction false} NuncaVuelveAPendiente(e: EstadoSolicitud, acciones: seq<Accion>)
    requires e != Pendiente
    ensures Recorrido(e, acciones) != Pendiente
    decreases |acciones|
  {
    if acciones != [] {
      NuncaVuelveAPendiente(Merge(Transicion(e, acciones[0]), e), acciones[1..]);
    }
  }

  /** A decided request (approved or rejected) can afterwards only stay as it is or be cancelled; a cancelled
      request stays cancelled. */
  lemma {:induction false} DecididoSoloSeCancela(e: EstadoSolicitud, acciones: seq<Accion>)
    requires e != Pendiente
    ensures Recorrido(e, acciones) in {e, Cancelado}
    ensures e == Cancelado ==> Recorrido(e, acciones) == Cancelado
    decreases |acciones|
  {
    if acciones != [] {
      var siguiente := Merge(Transicion(e, acciones[0]), e);
      DecididoSoloSeCancela(siguiente, acciones[1..]);
      if siguiente == Cancelado {
        DecididoSoloSeCancela(Cancelado, acciones[1..]);
      }
    }
  }
}
