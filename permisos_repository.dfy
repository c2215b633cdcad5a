/** The in-memory permit repository `PermisosRepositoryMock`
    (CarnavalLogistics/src/modules/permisos/repositories/PermisosRepository.ts): three tables, for vendors,
    permit requests and approvals, written by `set` with spread-merged records, and the request filters. */
module PermisosRepositories {
  import opened Common
  import opened OrderedMaps
  import opened PermisosModels

  /** The requests whose status has the given name, in table order (the filter of
      `obtenerSolicitudesPorEstado` and, with "pendiente", of `obtenerSolicitudesPendientes`). */
  function ConEstado(solicitudes: seq<SolicitudPermiso>, estado: string): (r: seq<SolicitudPermiso>)
    ensures |r| <= |solicitudes|
  {
    if solicitudes == [] then []
    else
      var rest := ConEstado(solicitudes[1..], estado);
      if solicitudes[0].estado.Nombre() == estado then [solicitudes[0]] + rest else rest
  }

  /** The status filter keeps exactly the requests whose status has that name. */
  lemma {:induction false} ConEstadoMiembros(solicitudes: seq<SolicitudPermiso>, estado: string)
    ensures forall s :: s in ConEstado(solicitudes, estado) <==> s in solicitudes && s.estado.Nombre() == estado
  {
    if solicitudes != [] {
      ConEstadoMiembros(solicitudes[1..], estado);
      assert forall s :: s in solicitudes <==> s == solicitudes[0] || s in solicitudes[1..];
    }
  }

  /** Filtering a table's values by status name keeps exactly the stored requests with that status name. */
  lemma ConEstadoEnTabla(m: OrderedMap<SolicitudPermiso>, estado: string)
    requires m.Valid()
    ensures forall s :: s in ConEstado(Values(m), estado) <==> (exists k :: k in m.entries && m.entries[k] == s)
                                                               && s.estado.Nombre() == estado
  {
    ConEstadoMiembros(Values(m), estado);
    forall s {
      InValues(m, s);
    }
  }

  /** The requests of one vendor, in table order (the filter of `obtenerSolicitudesComerciante`). */
  function DelComerciante(solicitudes: seq<SolicitudPermiso>, comercianteId: string): (r: seq<SolicitudPermiso>)
    ensures forall s :: s in r <==> s in solicitudes && s.comercianteId == comercianteId
    ensures |r| <= |solicitudes|
  {
    if solicitudes == [] then []
    else
      var rest := DelComerciante(solicitudes[1..], comercianteId);
      if solicitudes[0].comercianteId == comercianteId then [solicitudes[0]] + rest else rest
  }

  /** A status name outside the four statuses matches no request. */
  lemma EstadoDesconocidoVacio(solicitudes: seq<SolicitudPermiso>, estado: string)
    requires estado !in {"pendiente", "aprobado", "rechazado", "cancelado"}
    ensures ConEstado(solicitudes, estado) == []
  {
    ConEstadoMiembros(solicitudes, estado);
  }

  /** Every request has exactly one of the four statuses, so the four status filters split the table. */
  lemma {:induction false} ParticionPorEstado(solicitudes: seq<SolicitudPermiso>)
    ensures |ConEstado(solicitudes, "pendiente")| + |ConEstado(solicitudes, "aprobado")|
            + |ConEstado(solicitudes, "rechazado")| + |ConEstado(solicitudes, "cancelado")| == |solicitudes|
  {
    if solicitudes != [] {
      ParticionPorEstado(solicitudes[1..]);
    }
  }

  class PermisosRepositoryMock {
    var comerciantes: OrderedMap<Comerciante>
    var solicitudes: OrderedMap<SolicitudPermiso>
    var aprobaciones: OrderedMap<AprobacionPermiso>

    ghost predicate Valid()
      reads this
    {
      comerciantes.Valid() && solicitudes.Valid() && aprobaciones.Valid()
    }

    constructor ()
      ensures Valid()
      ensures comerciantes.entries == map[] && solicitudes.entries == map[] && aprobaciones.entries == map[]
    {
      comerciantes, solicitudes, aprobaciones := Empty(), Empty(), Empty();
    }

    /** `crearComerciante`: stores the vendor under its id. */
    method CrearComerciante(comerciante: Comerciante) returns (r: Comerciante)
      requires Valid()
      modifies this
      ensures Valid()
      ensures r == comerciante
      ensures comerciantes == Set(old(comerciantes), comerciante.id, comerciante)
      ensures Get(comerciantes, comerciante.id) == Some(comerciante)
      ensures solicitudes == old(solicitudes) && aprobaciones == old(aprobaciones)
    {
      comerciantes := Set(comerciantes, comerciante.id, comerciante);
      r := comerciante;
    }

    method ObtenerComerciante(id: string) returns (r: Option<Comerciante>)
      ensures r.Some? <==> id in comerciantes.entries
      ensures r.Some? ==> r.value == comerciantes.entries[id]
    {
      r := Get(comerciantes, id);
    }

    /** `obtenerTodosComerciantes`: every vendor, in registration order. */
    method ObtenerTodosComerciantes() returns (rs: seq<Comerciante>)
      requires Valid()
      ensures rs == Values(comerciantes)
      ensures |rs| == |comerciantes.entries|
    {
      rs := Values(comerciantes);
      ValuesCount(comerciantes);
    }

    /** `listarComerciantes`: the same list as `obtenerTodosComerciantes`. */
    method ListarComerciantes() returns (rs: seq<Comerciante>)
      requires Valid()
      ensures rs == Values(comerciantes)
      ensures |rs| == |comerciantes.entries|
    {
      rs := ObtenerTodosComerciantes();
    }

    /** `actualizarComerciante`: fails on an unknown id; otherwise merges the given fields into the stored
        vendor, keeping it under the same key. */
    method ActualizarComerciante(id: string, cambios: ComercianteCambios) returns (r: Result<Comerciante, PermisosError>)
      requires Valid()
      modifies this
      ensures Valid()
      ensures id !in old(comerciantes.entries) ==> r == Err(ComercianteNoEncontrado(id)) && comerciantes == old(comerciantes)
      ensures id in old(comerciantes.entries) ==>
                && r == Ok(AplicarCambiosComerciante(old(comerciantes.entries[id]), cambios))
                && comerciantes == Set(old(comerciantes), id, r.value)
      ensures comerciantes.entries.Keys == old(comerciantes.entries.Keys)
      ensures solicitudes == old(solicitudes) && aprobaciones == old(aprobaciones)
    {
      if id !in comerciantes.entries {
        return Err(ComercianteNoEncontrado(id));
      }
      var actualizado := AplicarCambiosComerciante(comerciantes.entries[id], cambios);
      comerciantes := Set(comerciantes, id, actualizado);
      r := Ok(actualizado);
    }

    /** `crearSolicitud`: stores the request under its id, where `obtenerSolicitud` then finds it. */
    method CrearSolicitud(solicitud: SolicitudPermiso) returns (r: SolicitudPermiso)
      requires Valid()
      modifies this
      ensures Valid()
      ensures r == solicitud
      ensures solicitudes == Set(old(solicitudes), solicitud.id, solicitud)
      ensures Get(solicitudes, solicitud.id) == Some(solicitud)
      ensures comerciantes == old(comerciantes) && aprobaciones == old(aprobaciones)
    {
      solicitudes := Set(solicitudes, solicitud.id, solicitud);
      r := solicitud;
    }

    method ObtenerSolicitud(id: string) returns (r: Option<SolicitudPermiso>)
      ensures r.Some? <==> id in solicitudes.entries
      ensures r.Some? ==> r.value == solicitudes.entries[id]
    {
      r := Get(solicitudes, id);
    }

    /** `obtenerSolicitudesComerciante`: exactly the stored requests of that vendor. */
    method ObtenerSolicitudesComerciante(comercianteId: string) returns (rs: seq<SolicitudPermiso>)
      requires Valid()
      ensures rs == DelComerciante(Values(solicitudes), comercianteId)
      ensures forall s :: s in rs <==> (exists k :: k in solicitudes.entries && solicitudes.entries[k] == s)
                                       && s.comercianteId == comercianteId
    {
      rs := DelComerciante(Values(solicitudes), comercianteId);
      forall s {
        InValues(solicitudes, s);
      }
    }

    /** `obtenerSolicitudesPendientes`: exactly the stored pending requests, the same list as
        `obtenerSolicitudesPorEstado("pendiente")`. */
    method ObtenerSolicitudesPendientes() returns (rs: seq<SolicitudPermiso>)
      requires Valid()
      ensures rs == ConEstado(Values(solicitudes), Pendiente.Nombre())
    {
      rs := ConEstado(Values(solicitudes), "pendiente");
    }

    /** `actualizarSolicitud`: fails on an unknown id; otherwise merges the given fields into that request
        and leaves every other request as it was. */
    method ActualizarSolicitud(id: string, cambios: SolicitudCambios) returns (r: Result<SolicitudPermiso, PermisosError>)
      requires Valid()
      modifies this
      ensures Valid()
      ensures id !in old(solicitudes.entries) ==> r == Err(SolicitudNoEncontrada(id)) && solicitudes == old(solicitudes)
      ensures id in old(solicitudes.entries) ==>
                && r == Ok(AplicarCambiosSolicitud(old(solicitudes.entries[id]), cambios))
                && solicitudes == Set(old(solicitudes), id, r.value)
      ensures forall k | k in old(solicitudes.entries) && k != id :: k in solicitudes.entries && solicitudes.entries[k] == old(solicitudes.entries[k])
      ensures solicitudes.entries.Keys == old(solicitudes.entries.Keys)
      ensures comerciantes == old(comerciantes) && aprobaciones == old(aprobaciones)
    {
      if id !in solicitudes.entries {
        return Err(SolicitudNoEncontrada(id));
      }
      var actualizada := AplicarCambiosSolicitud(solicitudes.entries[id], cambios);
      solicitudes := Set(solicitudes, id, actualizada);
      r := Ok(actualizada);
    }

    /** `obtenerSolicitudesPorEstado`: exactly the stored requests whose status has that name; none for a
        name outside the four statuses. */
    method ObtenerSolicitudesPorEstado(estado: string) returns (rs: seq<SolicitudPermiso>)
      requires Valid()
      ensures rs == ConEstado(Values(solicitudes), estado)
    {
      rs := ConEstado(Values(solicitudes), estado);
    }

    /** `registrarAprobacion`: stores the approval under its request's id, where `obtenerAprobacion` then
        finds it. */
    method RegistrarAprobacion(aprobacion: AprobacionPermiso) returns (r: AprobacionPermiso)
      requires Valid()
      modifies this
      ensures Valid()
      ensures r == aprobacion
      ensures aprobaciones == Set(old(aprobaciones), aprobacion.permisoId, aprobacion)
      ensures Get(aprobaciones, aprobacion.permisoId) == Some(aprobacion)
      ensures comerciantes == old(comerciantes) && solicitudes == old(solicitudes)
    {
      aprobaciones := Set(aprobaciones, aprobacion.permisoId, aprobacion);
      r := aprobacion;
    }

    method ObtenerAprobacion(permisoId: string) returns (r: Option<AprobacionPermiso>)
      ensures r.Some? <==> permisoId in aprobaciones.entries
      ensures r.Some? ==> r.value == aprobaciones.entries[permisoId]
    {
      r := Get(aprobaciones, permisoId);
    }
  }
}
