/** The in-memory venue repository `AforoRepositoryMock`
    (CarnavalLogistics/src/modules/aforo/repositories/AforoRepository.ts): three tables, for venues,
    one occupancy record per venue and the alert log. The repository checks no capacity. */
module AforoRepositories {
  import opened Common
  import opened OrderedMaps
  import opened AforoModels

  /** `Math.round(ocupacion / capacidad * 100 * 100) / 100` in hundredths of a percent: the whole number of
      hundredths nearest to 10000 * ocupacion / capacidad, a half rounded up (as `Math.round` rounds
      non-negative halves). */
  function Porcentaje(ocupacion: nat, capacidad: Capacidad): (h: nat)
    ensures 2 * capacidad * h <= 20000 * ocupacion + capacidad < 2 * capacidad * (h + 1)
  {
    var n, d := 20000 * ocupacion + capacidad, 2 * capacidad;
    var h := n / d;
    assert n == d * h + n % d;
    h
  }

  lemma MulMonotone(c: int, a: int, b: int)
    requires 0 < c && a <= b
    ensures c * a <= c * b
  {
    assert c * b - c * a == c * (b - a);
  }

  /** The stored percentage reaches a threshold `t` (in hundredths) exactly when
      20000 * ocupacion >= (2t - 1) * capacidad: the rounding moves every threshold down by half a hundredth. */
  lemma {:induction false} PorcentajeAlcanza(ocupacion: nat, capacidad: Capacidad, t: int)
    ensures Porcentaje(ocupacion, capacidad) >= t <==> 20000 * ocupacion >= (2 * t - 1) * capacidad
  {
    var h := Porcentaje(ocupacion, capacidad);
    if h >= t {
      MulMonotone(2 * capacidad, t, h);
    } else {
      MulMonotone(2 * capacidad, h + 1, t);
    }
  }

  /** The stored percentage stays at or below `t` exactly when 20000 * ocupacion < (2t + 1) * capacidad. */
  lemma {:induction false} PorcentajeHasta(ocupacion: nat, capacidad: Capacidad, t: int)
    ensures Porcentaje(ocupacion, capacidad) <= t <==> 20000 * ocupacion < (2 * t + 1) * capacidad
  {
    PorcentajeAlcanza(ocupacion, capacidad, t + 1);
  }

  /** An empty venue is at 0 %, a full one at exactly 100 %, and one within capacity never above 100 %. */
  lemma {:induction false} PorcentajeExtremos(ocupacion: nat, capacidad: Capacidad)
    ensures Porcentaje(0, capacidad) == 0
    ensures Porcentaje(capacidad, capacidad) == 10000
    ensures ocupacion <= capacidad ==> Porcentaje(ocupacion, capacidad) <= 10000
  {
    PorcentajeHasta(0, capacidad, 0);
    PorcentajeHasta(capacidad, capacidad, 10000);
    PorcentajeAlcanza(capacidad, capacidad, 10000);
    PorcentajeHasta(ocupacion, capacidad, 10000);
  }

  /** More people never give a smaller percentage. */
  lemma {:induction false} PorcentajeMonotono(o1: nat, o2: nat, capacidad: Capacidad)
    requires o1 <= o2
    ensures Porcentaje(o1, capacidad) <= Porcentaje(o2, capacidad)
  {
    var h1, h2 := Porcentaje(o1, capacidad), Porcentaje(o2, capacidad);
    if h2 < h1 {
      MulMonotone(2 * capacidad, h2 + 1, h1);
    }
  }

  /** The alerts of one venue that are not processed, in log order (the filter of `obtenerAlertasActivas`). */
  function Activas(alertas: seq<AforoAlert>, recintoId: string): (r: seq<AforoAlert>)
    ensures forall a :: a in r <==> a in alertas && a.recintoId == recintoId && !a.procesada
    ensures |r| <= |alertas|
  {
    if alertas == [] then []
    else
      var rest := Activas(alertas[1..], recintoId);
      if alertas[0].recintoId == recintoId && !alertas[0].procesada then [alertas[0]] + rest else rest
  }

  /** Every alert is stored under its own id. */
  ghost predicate AlertasPorId(alertas: OrderedMap<AforoAlert>) {
    forall k | k in alertas.entries :: alertas.entries[k].id == k
  }

  /** The alert log after `marcarAlertaProcesada(alertaId)`: that alert flagged as processed, in place. */
  function MarcarProcesada(alertas: OrderedMap<AforoAlert>, alertaId: string): (r: OrderedMap<AforoAlert>)
    requires alertas.Valid()
    ensures r.Valid()
  {
    if alertaId in alertas.entries then Set(alertas, alertaId, alertas.entries[alertaId].(procesada := true))
    else alertas
  }

  /** Marking an alert as processed takes exactly that alert out of every venue's active list. */
  lemma {:induction false} MarcarProcesadaQuitaDeActivas(alertas: OrderedMap<AforoAlert>, alertaId: string, recintoId: string)
    requires alertas.Valid() && AlertasPorId(alertas)
    ensures AlertasPorId(MarcarProcesada(alertas, alertaId))
    ensures forall a :: a in Activas(Values(MarcarProcesada(alertas, alertaId)), recintoId) <==>
                        a in Activas(Values(alertas), recintoId) && a.id != alertaId
  {
    var m := MarcarProcesada(alertas, alertaId);
    forall a
      ensures a in Activas(Values(m), recintoId) <==> a in Activas(Values(alertas), recintoId) && a.id != alertaId
    {
      InValues(m, a);
      InValues(alertas, a);
    }
  }

  class AforoRepositoryMock {
    var recintos: OrderedMap<Recinto>
    var ocupaciones: OrderedMap<OcupacionActual>
    var alertas: OrderedMap<AforoAlert>

    ghost predicate Valid()
      reads this
    {
      recintos.Valid() && ocupaciones.Valid() && alertas.Valid() && AlertasPorId(alertas)
    }

    constructor ()
      ensures Valid()
      ensures recintos.entries == map[] && ocupaciones.entries == map[] && alertas.entries == map[]
    {
      recintos, ocupaciones, alertas := Empty(), Empty(), Empty();
    }

    /** `crearRecinto`: stores the venue and an occupancy record at 0 people, 0 %, no alert emitted. */
    method CrearRecinto(recinto: Recinto, ahora: int) returns (r: Recinto)
      requires Valid()
      modifies this
      ensures Valid()
      ensures r == recinto
      ensures recintos == Set(old(recintos), recinto.id, recinto)
      ensures ocupaciones == Set(old(ocupaciones), recinto.id, OcupacionActual(recinto.id, 0, 0, ahora, false))
      ensures alertas == old(alertas)
    {
      recintos := Set(recintos, recinto.id, recinto);
      ocupaciones := Set(ocupaciones, recinto.id, OcupacionActual(recinto.id, 0, 0, ahora, false));
      r := recinto;
    }

    method ObtenerRecinto(id: string) returns (r: Option<Recinto>)
      ensures r.Some? <==> id in recintos.entries
      ensures r.Some? ==> r.value == recintos.entries[id]
    {
      r := Get(recintos, id);
    }

    method ObtenerTodosRecintos() returns (rs: seq<Recinto>)
      requires Valid()
      ensures rs == Values(recintos)
      ensures |rs| == |recintos.entries|
    {
      rs := Values(recintos);
      ValuesCount(recintos);
    }

    /** `actualizarRecinto`: fails on an unknown id; otherwise merges the given fields and refreshes
        `updatedAt`. No capacity check: the new capacity may be below the stored occupancy. */
    method ActualizarRecinto(id: string, cambios: RecintoCambios, ahora: int) returns (r: Result<Recinto, AforoError>)
      requires Valid()
      modifies this
      ensures Valid()
      ensures id !in old(recintos.entries) ==> r == Err(RecintoNoEncontrado(id)) && recintos == old(recintos)
      ensures id in old(recintos.entries) ==>
                && r == Ok(AplicarCambios(old(recintos.entries[id]), cambios, ahora))
                && recintos == Set(old(recintos), id, r.value)
      ensures ocupaciones == old(ocupaciones) && alertas == old(alertas)
    {
      if id !in recintos.entries {
        return Err(RecintoNoEncontrado(id));
      }
      var actualizado := AplicarCambios(recintos.entries[id], cambios, ahora);
      recintos := Set(recintos, id, actualizado);
      r := Ok(actualizado);
    }

    /** `eliminarRecinto`: reports whether the venue existed; its occupancy record stays. */
    method EliminarRecinto(id: string) returns (existia: bool)
      requires Valid()
      modifies this
      ensures Valid()
      ensures existia <==> id in old(recintos.entries)
      ensures recintos == Delete(old(recintos), id) && id !in recintos.entries
      ensures ocupaciones == old(ocupaciones) && alertas == old(alertas)
    {
      existia := id in recintos.entries;
      recintos := Delete(recintos, id);
    }

    method ObtenerOcupacionActual(recintoId: string) returns (r: Option<OcupacionActual>)
      ensures r.Some? <==> recintoId in ocupaciones.entries
      ensures r.Some? ==> r.value == ocupaciones.entries[recintoId]
    {
      r := Get(ocupaciones, recintoId);
    }

    /** `actualizarOcupacion`: fails for an unknown venue; otherwise stores the count with its rounded
        percentage, whatever the venue's capacity, and touches no other venue's record. */
    method ActualizarOcupacion(recintoId: string, ocupacion: nat, ahora: int) returns (r: Result<OcupacionActual, AforoError>)
      requires Valid()
      modifies this
      ensures Valid()
      ensures recintoId !in old(recintos.entries) ==>
                r == Err(RecintoNoEncontrado(recintoId)) && ocupaciones == old(ocupaciones)
      ensures recintoId in old(recintos.entries) ==>
                && r.Ok?
                && r.value == OcupacionActual(recintoId, ocupacion,
                                              Porcentaje(ocupacion, old(recintos.entries[recintoId]).capacidadMaxima),
                                              ahora, false)
                && ocupaciones == Set(old(ocupaciones), recintoId, r.value)
      ensures recintos == old(recintos) && alertas == old(alertas)
    {
      if recintoId !in recintos.entries {
        return Err(RecintoNoEncontrado(recintoId));
      }
      var recinto := recintos.entries[recintoId];
      var nueva := OcupacionActual(recintoId, ocupacion, Porcentaje(ocupacion, recinto.capacidadMaxima), ahora, false);
      ocupaciones := Set(ocupaciones, recintoId, nueva);
      r := Ok(nueva);
    }

    /** `incrementarOcupacion`: adds `cantidad` to the stored count and stores it through
        `actualizarOcupacion`, with no capacity check. */
    method IncrementarOcupacion(recintoId: string, cantidad: nat, ahora: int) returns (r: Result<OcupacionActual, AforoError>)
      requires Valid()
      modifies this
      ensures Valid()
      ensures recintoId !in old(ocupaciones.entries) ==>
                r == Err(OcupacionNoEncontrada(recintoId)) && ocupaciones == old(ocupaciones)
      ensures recintoId in old(ocupaciones.entries) && recintoId !in old(recintos.entries) ==>
                r == Err(RecintoNoEncontrado(recintoId)) && ocupaciones == old(ocupaciones)
      ensures recintoId in old(ocupaciones.entries) && recintoId in old(recintos.entries) ==>
                && r.Ok?
                && r.value.ocupacionActual == old(ocupaciones.entries[recintoId].ocupacionActual) + cantidad
                && r.value == OcupacionActual(recintoId, r.value.ocupacionActual,
                                              Porcentaje(r.value.ocupacionActual, old(recintos.entries[recintoId]).capacidadMaxima),
                                              ahora, false)
                && ocupaciones == Set(old(ocupaciones), recintoId, r.value)
      ensures recintos == old(recintos) && alertas == old(alertas)
    {
      if recintoId !in ocupaciones.entries {
        return Err(OcupacionNoEncontrada(recintoId));
      }
      var nuevaOcupacion := ocupaciones.entries[recintoId].ocupacionActual + cantidad;
      r := ActualizarOcupacion(recintoId, nuevaOcupacion, ahora);
    }

    /** `decrementarOcupacion`: subtracts `cantidad`, clamped at 0, and stores it through `actualizarOcupacion`. */
    method DecrementarOcupacion(recintoId: string, cantidad: nat, ahora: int) returns (r: Result<OcupacionActual, AforoError>)
      requires Valid()
      modifies this
      ensures Valid()
      ensures recintoId !in old(ocupaciones.entries) ==>
                r == Err(OcupacionNoEncontrada(recintoId)) && ocupaciones == old(ocupaciones)
      ensures recintoId in old(ocupaciones.entries) && recintoId !in old(recintos.entries) ==>
                r == Err(RecintoNoEncontrado(recintoId)) && ocupaciones == old(ocupaciones)
      ensures recintoId in old(ocupaciones.entries) && recintoId in old(recintos.entries) ==>
                var antes := old(ocupaciones.entries[recintoId].ocupacionActual);
                && r.Ok?
                && r.value.ocupacionActual == (if antes >= cantidad then antes - cantidad else 0)
                && r.value.ocupacionActual <= antes
                && r.value == OcupacionActual(recintoId, r.value.ocupacionActual,
                                              Porcentaje(r.value.ocupacionActual, old(recintos.entries[recintoId]).capacidadMaxima),
                                              ahora, false)
                && ocupaciones == Set(old(ocupaciones), recintoId, r.value)
      ensures recintos == old(recintos) && alertas == old(alertas)
    {
      if recintoId !in ocupaciones.entries {
        return Err(OcupacionNoEncontrada(recintoId));
      }
      var antes := ocupaciones.entries[recintoId].ocupacionActual;
      var nuevaOcupacion := if antes - cantidad < 0 then 0 else antes - cantidad;
      r := ActualizarOcupacion(recintoId, nuevaOcupacion, ahora);
    }

    /** `crearAlerta`: stores the alert under its id. */
    method CrearAlerta(alerta: AforoAlert) returns (r: AforoAlert)
      requires Valid()
      modifies this
      ensures Valid()
      ensures r == alerta
      ensures alertas == Set(old(alertas), alerta.id, alerta)
      ensures recintos == old(recintos) && ocupaciones == old(ocupaciones)
    {
      alertas := Set(alertas, alerta.id, alerta);
      r := alerta;
    }

    /** `obtenerAlertasActivas`: exactly the stored alerts of that venue that are not processed. */
    method ObtenerAlertasActivas(recintoId: string) returns (rs: seq<AforoAlert>)
      requires Valid()
      ensures forall a :: a in rs <==> (exists k :: k in alertas.entries && alertas.entries[k] == a)
                                       && a.recintoId == recintoId && !a.procesada
      ensures rs == Activas(Values(alertas), recintoId)
    {
      rs := Activas(Values(alertas), recintoId);
      forall a {
        InValues(alertas, a);
      }
    }

    /** `marcarAlertaProcesada`: sets that alert's flag; an unknown id changes nothing. */
    method MarcarAlertaProcesada(alertaId: string)
      requires Valid()
      modifies this
      ensures Valid()
      ensures alertas == MarcarProcesada(old(alertas), alertaId)
      ensures alertaId in old(alertas.entries) ==> alertas.entries[alertaId].procesada
      ensures alertaId !in old(alertas.entries) ==> alertas == old(alertas)
      ensures forall v, a :: a in Activas(Values(alertas), v) <==>
                             a in Activas(Values(old(alertas)), v) && a.id != alertaId
      ensures recintos == old(recintos) && ocupaciones == old(ocupaciones)
    {
      ghost var antes := alertas;
      alertas := MarcarProcesada(alertas, alertaId);
      forall v {
        MarcarProcesadaQuitaDeActivas(antes, alertaId, v);
      }
    }
  }
}
