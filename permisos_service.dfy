/** The permit service `PermisosService` (CarnavalLogistics/src/modules/permisos/services/PermisosService.ts):
    vendor registration and blocking, the fee table, the permit number, the request life cycle (approve and
    reject only a pending request, cancel any), the statistics and the location availability search.
    Ids, timestamps, the calendar date of the approval and the random permit suffix are parameters. */
module PermisosServices {
  import opened Common
  import opened OrderedMaps
  import opened PermisosModels
  import opened PermisosValidators
  import opened PermisosRepositories

  // ---------------------------------------------------------------------------------------------
  // Fees

  /** The rate per m² of each category in `tarifasBase`. */
  function TarifaPorMetro(tipoProducto: TipoProducto): (r: real)
    ensures r in {25.0, 30.0, 40.0, 50.0, 60.0}
    ensures r == 25.0 <==> tipoProducto == Otro
  {
    match tipoProducto
    case Alimentos => 50.0
    case Bebidas => 40.0
    case Artesanias => 30.0
    case Entretenimiento => 60.0
    case Otro => 25.0
  }

  /** The names a plain object literal such as `tarifasBase` inherits from `Object.prototype`. Looking one
      of them up yields a function or an object, which `|| 25` keeps and the multiplication turns into NaN. */
  const PropiedadesHeredadas: set<string> :=
    {"constructor", "__proto__", "hasOwnProperty", "isPrototypeOf", "propertyIsEnumerable", "toString",
     "toLocaleString", "valueOf", "__defineGetter__", "__defineSetter__", "__lookupGetter__", "__lookupSetter__"}

  /** `tarifasBase[nombre] || 25` on an arbitrary name: the listed rate, 25 for a name the table lacks, and
      no rate (a NaN fee) for an inherited property name. */
  function TarifaDeNombre(nombre: string): (r: Option<real>)
    ensures r.None? <==> nombre in PropiedadesHeredadas
  {
    if nombre in PropiedadesHeredadas then None
    else if nombre == "alimentos" then Some(50.0)
    else if nombre == "bebidas" then Some(40.0)
    else if nombre == "artesanias" then Some(30.0)
    else if nombre == "entretenimiento" then Some(60.0)
    else Some(25.0)
  }

  /** Looked up by its own name, every category gets its rate. */
  lemma TarifaDeCategoria(tipoProducto: TipoProducto)
    ensures TarifaDeNombre(tipoProducto.Nombre()) == Some(TarifaPorMetro(tipoProducto))
  {
  }

  /** A name outside the table that is not inherited either is charged like "otro". */
  lemma TarifaDesconocida(nombre: string)
    requires TipoProductoDe(nombre).None? && nombre !in PropiedadesHeredadas
    ensures TarifaDeNombre(nombre) == Some(TarifaPorMetro(Otro)) == Some(25.0)
  {
  }

  /** `calcularTarifa`: rate times area, with 10 % off above 100 m². */
  function CalcularTarifa(tipoProducto: TipoProducto, areaMetrosCuadrados: real): (t: real)
    ensures 0.0 < areaMetrosCuadrados ==> 0.0 < t
  {
    var tarifa := TarifaPorMetro(tipoProducto) * areaMetrosCuadrados;
    if areaMetrosCuadrados > 100.0 then tarifa * 0.9 else tarifa
  }

  /** Worked fees: 50 m² of food is 2500 and 150 m² of food 6750 after the discount, 15 m² of drinks 600
      and 25 m² 1000, 200 m² of entertainment 10800 after the discount; an unlisted name is charged 25 per
      m², and an inherited one has no rate. */
  lemma TarifaEjemplos()
    ensures CalcularTarifa(Alimentos, 50.0) == 2500.0
    ensures CalcularTarifa(Alimentos, 150.0) == 6750.0
    ensures CalcularTarifa(Bebidas, 15.0) == 600.0
    ensures CalcularTarifa(Bebidas, 25.0) == 1000.0
    ensures CalcularTarifa(Entretenimiento, 200.0) == 10800.0
    ensures TarifaDeNombre("mariscos") == Some(25.0)
    ensures TarifaDeNombre("constructor") == None
  {
  }

  /** Within the schema's area bounds the fee lies between 22.5 and 60 per m² and never exceeds 27000. */
  lemma TarifaAcotada(tipoProducto: TipoProducto, areaMetrosCuadrados: real)
    requires 0.0 < areaMetrosCuadrados <= 500.0
    ensures 22.5 * areaMetrosCuadrados <= CalcularTarifa(tipoProducto, areaMetrosCuadrados) <= 60.0 * areaMetrosCuadrados
    ensures CalcularTarifa(tipoProducto, areaMetrosCuadrados) <= 27000.0
  {
    var r := TarifaPorMetro(tipoProducto);
    assert r == 25.0 || r == 30.0 || r == 40.0 || r == 50.0 || r == 60.0;
  }

  /** Within each side of the discount the fee grows with the area ... */
  lemma TarifaMonotonaPorTramo(tipoProducto: TipoProducto, a: real, b: real)
    requires 0.0 <= a <= b
    requires b <= 100.0 || a > 100.0
    ensures CalcularTarifa(tipoProducto, a) <= CalcularTarifa(tipoProducto, b)
  {
    var r := TarifaPorMetro(tipoProducto);
    assert r == 25.0 || r == 30.0 || r == 40.0 || r == 50.0 || r == 60.0;
  }

  /** ... but crossing 100 m² makes a larger stand cheaper: 101 m² costs less than 100 m². */
  lemma SaltoDelDescuento(tipoProducto: TipoProducto)
    ensures CalcularTarifa(tipoProducto, 101.0) < CalcularTarifa(tipoProducto, 100.0)
  {
    var r := TarifaPorMetro(tipoProducto);
    assert r == 25.0 || r == 30.0 || r == 40.0 || r == 50.0 || r == 60.0;
  }

  // ---------------------------------------------------------------------------------------------
  // Permit number

  /** The UTC calendar date of the approval instant. */
  datatype FechaCivil = FechaCivil(anio: nat, mes: nat, dia: nat)

  function Digito(d: nat): (c: char)
    requires d < 10
    ensures '0' <= c <= '9' && c as int - '0' as int == d
  {
    "0123456789"[d]
  }

  function Potencia10(n: nat): (p: nat)
    ensures p > 0
  {
    if n == 0 then 1 else 10 * Potencia10(n - 1)
  }

  /** `n` in decimal on exactly `ancho` digits, zero-padded on the left (the last `ancho` digits when `n` is
      wider). */
  function Digitos(n: nat, ancho: nat): (r: string)
    ensures |r| == ancho
    ensures forall i | 0 <= i < |r| :: '0' <= r[i] <= '9'
  {
    if ancho == 0 then [] else Digitos(n / 10, ancho - 1) + [Digito(n % 10)]
  }

  /** The number a string of decimal digits denotes. */
  function ValorDecimal(s: string): nat
    requires forall i | 0 <= i < |s| :: '0' <= s[i] <= '9'
  {
    if s == [] then 0 else 10 * ValorDecimal(s[..|s| - 1]) + (s[|s| - 1] as int - '0' as int)
  }

  /** Reading the padded digits back gives `n` whenever `n` fits in `ancho` digits. */
  lemma {:induction false} DigitosSeLeen(n: nat, ancho: nat)
    requires n < Potencia10(ancho)
    ensures ValorDecimal(Digitos(n, ancho)) == n
  {
    if ancho > 0 {
      var d := Digitos(n, ancho);
      assert n == 10 * (n / 10) + n % 10;
      assert d[..|d| - 1] == Digitos(n / 10, ancho - 1);
      DigitosSeLeen(n / 10, ancho - 1);
    }
  }

  /** `s.replace(/-/g, '')`: `s` with every hyphen removed. */
  function SinGuiones(s: string): (r: string)
    ensures |r| <= |s|
    ensures forall i | 0 <= i < |r| :: r[i] != '-'
  {
    if s == [] then []
    else
      var rest := SinGuiones(s[1..]);
      if s[0] == '-' then rest else [s[0]] + rest
  }

  lemma {:induction false} SinGuionesConcatena(a: string, b: string)
    ensures SinGuiones(a + b) == SinGuiones(a) + SinGuiones(b)
  {
    if a == [] {
      assert a + b == b;
    } else {
      assert (a + b)[1..] == a[1..] + b;
      SinGuionesConcatena(a[1..], b);
    }
  }

  lemma {:induction false} SinGuionesSinGuion(s: string)
    requires forall i | 0 <= i < |s| :: s[i] != '-'
    ensures SinGuiones(s) == s
  {
    if s != [] {
      SinGuionesSinGuion(s[1..]);
    }
  }

  /** The first ten characters of `toISOString()`: YYYY-MM-DD. */
  function FechaIso(f: FechaCivil): (r: string)
    ensures |r| == 10
  {
    Digitos(f.anio, 4) + "-" + Digitos(f.mes, 2) + "-" + Digitos(f.dia, 2)
  }

  /** Taking the hyphens out of the ISO date leaves the eight digits YYYYMMDD. */
  lemma FechaSinGuiones(f: FechaCivil)
    ensures SinGuiones(FechaIso(f)[..10]) == Digitos(f.anio, 4) + Digitos(f.mes, 2) + Digitos(f.dia, 2)
  {
    var a, m, d := Digitos(f.anio, 4), Digitos(f.mes, 2), Digitos(f.dia, 2);
    var iso := FechaIso(f);
    assert iso[..10] == iso;
    SinGuionesSinGuion(a);
    SinGuionesSinGuion(m);
    SinGuionesSinGuion(d);
    assert SinGuiones("-") == [];
    calc {
      SinGuiones(iso);
      { SinGuionesConcatena(a + "-" + m + "-", d); }
      SinGuiones(a + "-" + m + "-") + d;
      { SinGuionesConcatena(a + "-" + m, "-"); }
      SinGuiones(a + "-" + m) + d;
      { SinGuionesConcatena(a + "-", m); }
      SinGuiones(a + "-") + m + d;
      { SinGuionesConcatena(a, "-"); }
      a + m + d;
    }
  }

  /** `generarNumeroPermiso`: "PERM-", the approval date as eight digits YYYYMMDD, "-", and the random
      suffix. */
  function NumeroPermiso(hoy: FechaCivil, sufijo: string): (n: string)
    ensures |n| == 14 + |sufijo|
    ensures n[..5] == "PERM-" && n[13] == '-' && n[14..] == sufijo
    ensures n[5..9] == Digitos(hoy.anio, 4) && n[9..11] == Digitos(hoy.mes, 2) && n[11..13] == Digitos(hoy.dia, 2)
    ensures forall i | 5 <= i < 13 :: '0' <= n[i] <= '9'
  {
    FechaSinGuiones(hoy);
    var a, m, d := Digitos(hoy.anio, 4), Digitos(hoy.mes, 2), Digitos(hoy.dia, 2);
    var n := "PERM-" + SinGuiones(FechaIso(hoy)[..10]) + "-" + sufijo;
    assert n == "PERM-" + a + m + d + "-" + sufijo;
    assert n[5..9] == a && n[9..11] == m && n[11..13] == d;
    n
  }

  /** For a year below 10000 the date part of the permit number reads back as the approval date. */
  lemma NumeroPermisoLlevaLaFecha(hoy: FechaCivil, sufijo: string)
    requires hoy.anio < 10000 && hoy.mes < 100 && hoy.dia < 100
    ensures var n := NumeroPermiso(hoy, sufijo);
            && ValorDecimal(n[5..9]) == hoy.anio
            && ValorDecimal(n[9..11]) == hoy.mes
            && ValorDecimal(n[11..13]) == hoy.dia
  {
    assert Potencia10(4) == 10000 && Potencia10(2) == 100;
    DigitosSeLeen(hoy.anio, 4);
    DigitosSeLeen(hoy.mes, 2);
    DigitosSeLeen(hoy.dia, 2);
  }

  // ---------------------------------------------------------------------------------------------
  // Statistics and availability

  /** `reduce((sum, s) => sum + s.monto, 0)`. */
  function SumaMontos(solicitudes: seq<SolicitudPermiso>): real {
    if solicitudes == [] then 0.0 else solicitudes[0].monto + SumaMontos(solicitudes[1..])
  }

  /** With positive amounts, the income of a non-empty list is positive. */
  lemma {:induction false} IngresoPositivo(solicitudes: seq<SolicitudPermiso>)
    requires forall i | 0 <= i < |solicitudes| :: solicitudes[i].monto > 0.0
    ensures solicitudes != [] <==> SumaMontos(solicitudes) > 0.0
  {
    if solicitudes != [] {
      IngresoPositivo(solicitudes[1..]);
    }
  }

  /** Request `s` is approved and holds location `ubicacion` during a period that overlaps `[inicio, fin]`. */
  predicate Ocupa(s: SolicitudPermiso, ubicacion: string, inicio: int, fin: int) {
    s.estado == Aprobado && s.ubicacionSolicitada == ubicacion && Solapan(inicio, fin, s.fechaInicio, s.fechaFin)
  }

  /** No request of the list holds `ubicacion` during a period overlapping `[inicio, fin]`. */
  predicate Disponible(aprobadas: seq<SolicitudPermiso>, ubicacion: string, inicio: int, fin: int) {
    forall i | 0 <= i < |aprobadas| ::
      !(aprobadas[i].ubicacionSolicitada == ubicacion && Solapan(inicio, fin, aprobadas[i].fechaInicio, aprobadas[i].fechaFin))
  }

  /** Searching the approved list is searching the whole table for an approved request in the way. */
  lemma DisponibleSegunTabla(m: OrderedMap<SolicitudPermiso>, ubicacion: string, inicio: int, fin: int)
    requires m.Valid()
    ensures Disponible(ConEstado(Values(m), Aprobado.Nombre()), ubicacion, inicio, fin)
            <==> forall k | k in m.entries :: !Ocupa(m.entries[k], ubicacion, inicio, fin)
  {
    var aprobadas := ConEstado(Values(m), Aprobado.Nombre());
    ConEstadoMiembros(Values(m), Aprobado.Nombre());
    if Disponible(aprobadas, ubicacion, inicio, fin) {
      forall k | k in m.entries
        ensures !Ocupa(m.entries[k], ubicacion, inicio, fin)
      {
        InValues(m, m.entries[k]);
      }
    } else {
      var i :| 0 <= i < |aprobadas| && aprobadas[i].ubicacionSolicitada == ubicacion
                && Solapan(inicio, fin, aprobadas[i].fechaInicio, aprobadas[i].fechaFin);
      var s := aprobadas[i];
      assert s in aprobadas;
      InValues(m, s);
      NombreEstadoInyectivo(s.estado, Aprobado);
      var k :| k in m.entries && m.entries[k] == s;
      assert Ocupa(m.entries[k], ubicacion, inicio, fin);
    }
  }

  /** The periods of the listed requests at `ubicacion`, in list order. */
  function PeriodosEn(solicitudes: seq<SolicitudPermiso>, ubicacion: string): (r: seq<Intervalo>)
    ensures |r| <= |solicitudes|
  {
    if solicitudes == [] then []
    else
      var rest := PeriodosEn(solicitudes[1..], ubicacion);
      if solicitudes[0].ubicacionSolicitada == ubicacion
      then [Intervalo(solicitudes[0].fechaInicio, solicitudes[0].fechaFin)] + rest
      else rest
  }

  /** No period of the list overlaps `[inicio, fin]`: what `validateFechasNoSolapadas` answers. */
  predicate SinSolape(inicio: int, fin: int, periodos: seq<Intervalo>) {
    forall i | 0 <= i < |periodos| :: !Solapan(inicio, fin, periodos[i].inicio, periodos[i].fin)
  }

  lemma SinSolapeCons(inicio: int, fin: int, p: Intervalo, periodos: seq<Intervalo>)
    ensures SinSolape(inicio, fin, [p] + periodos) <==> !Solapan(inicio, fin, p.inicio, p.fin) && SinSolape(inicio, fin, periodos)
  {
    var todos := [p] + periodos;
    if SinSolape(inicio, fin, todos) {
      assert todos[0] == p;
      forall i | 0 <= i < |periodos|
        ensures !Solapan(inicio, fin, periodos[i].inicio, periodos[i].fin)
      {
        assert periodos[i] == todos[i + 1];
      }
    }
    if !Solapan(inicio, fin, p.inicio, p.fin) && SinSolape(inicio, fin, periodos) {
      forall i | 0 <= i < |todos|
        ensures !Solapan(inicio, fin, todos[i].inicio, todos[i].fin)
      {
        if i > 0 {
          assert todos[i] == periodos[i - 1];
        }
      }
    }
  }

  /** The availability test is the validator's overlap search run on the periods already granted at that
      location: availability holds exactly when `validateFechasNoSolapadas` would answer true on them. */
  lemma {:induction false} DisponibleComoValidador(aprobadas: seq<SolicitudPermiso>, ubicacion: string, inicio: int, fin: int)
    ensures Disponible(aprobadas, ubicacion, inicio, fin) <==> SinSolape(inicio, fin, PeriodosEn(aprobadas, ubicacion))
  {
    if aprobadas != [] {
      var rest := aprobadas[1..];
      DisponibleComoValidador(rest, ubicacion, inicio, fin);
      var cabeza := aprobadas[0];
      var periodos, periodosRest := PeriodosEn(aprobadas, ubicacion), PeriodosEn(rest, ubicacion);
      assert Disponible(aprobadas, ubicacion, inicio, fin)
             <==> !(cabeza.ubicacionSolicitada == ubicacion && Solapan(inicio, fin, cabeza.fechaInicio, cabeza.fechaFin))
                  && Disponible(rest, ubicacion, inicio, fin)
      by {
        assert aprobadas == [cabeza] + rest;
      }
      if cabeza.ubicacionSolicitada == ubicacion {
        var p := Intervalo(cabeza.fechaInicio, cabeza.fechaFin);
        assert periodos == [p] + periodosRest;
        SinSolapeCons(inicio, fin, p, periodosRest);
      }
    }
  }

  // ---------------------------------------------------------------------------------------------
  // The service

  /** The service invariant over the three tables: every request is stored under its own id, belongs to a
      registered vendor and carries the fee of its category and area; an approved request has its approval
      and approval date, a rejected one its reason; a pending or rejected request has no approval; and
      every approval is stored under the id of an existing request of the same vendor. */
  ghost predicate SolicitudesConsistentes(comerciantes: OrderedMap<Comerciante>, solicitudes: OrderedMap<SolicitudPermiso>,
                                          aprobaciones: OrderedMap<AprobacionPermiso>)
  {
    && (forall k | k in solicitudes.entries ::
          && solicitudes.entries[k].id == k
          && solicitudes.entries[k].comercianteId in comerciantes.entries
          && solicitudes.entries[k].monto
             == CalcularTarifa(solicitudes.entries[k].tipoProducto, solicitudes.entries[k].areaMetrosCuadrados)
          && (solicitudes.entries[k].estado == Aprobado ==> k in aprobaciones.entries && solicitudes.entries[k].fechaAprobacion.Some?)
          && (solicitudes.entries[k].estado == Rechazado ==> solicitudes.entries[k].razonRechazo.Some?)
          && (solicitudes.entries[k].estado in {Pendiente, Rechazado} ==> k !in aprobaciones.entries))
    && (forall k | k in aprobaciones.entries ::
          && k in solicitudes.entries
          && aprobaciones.entries[k].permisoId == k
          && aprobaciones.entries[k].comercianteId == solicitudes.entries[k].comercianteId)
  }

  /** The request `crearSolicitud` stores: pending, dated `ahora`, with the computed fee and the given
      documents (none when absent). */
  function NuevaSolicitud(id: string, comercianteId: string, tipoProducto: TipoProducto, descripcion: string,
                          fechaInicio: int, fechaFin: int, ubicacionSolicitada: string, areaMetrosCuadrados: real,
                          documentosAdjuntos: Option<seq<string>>, ahora: int): SolicitudPermiso
  {
    SolicitudPermiso(id, comercianteId, tipoProducto, descripcion, ahora, fechaInicio, fechaFin, ubicacionSolicitada,
                     areaMetrosCuadrados, CalcularTarifa(tipoProducto, areaMetrosCuadrados), Pendiente,
                     None, None, documentosAdjuntos.GetOr([]))
  }

  class PermisosService {
    const repository: PermisosRepositoryMock

    ghost predicate Valid()
      reads this, repository
    {
      && repository.Valid()
      && SolicitudesConsistentes(repository.comerciantes, repository.solicitudes, repository.aprobaciones)
    }

    /** A service over a repository whose tables keep the invariant (a new one is empty). */
    constructor (repository: PermisosRepositoryMock)
      requires repository.Valid()
      requires SolicitudesConsistentes(repository.comerciantes, repository.solicitudes, repository.aprobaciones)
      ensures Valid() && this.repository == repository
    {
      this.repository := repository;
    }

    /** `registrarComerciante`: stores an active vendor registered at `ahora`. */
    method RegistrarComerciante(id: string, nombre: string, apellido: string, email: string, telefono: string,
                                cedula: string, razonSocial: string, ahora: int) returns (c: Comerciante)
      requires Valid()
      modifies repository
      ensures Valid()
      ensures c == Comerciante(id, nombre, apellido, email, telefono, cedula, razonSocial, Activo, ahora)
      ensures repository.comerciantes == Set(old(repository.comerciantes), id, c)
      ensures repository.solicitudes == old(repository.solicitudes) && repository.aprobaciones == old(repository.aprobaciones)
    {
      var comerciante := Comerciante(id, nombre, apellido, email, telefono, cedula, razonSocial, Activo, ahora);
      c := repository.CrearComerciante(comerciante);
    }

    /** `obtenerComerciante`: the vendor, or an error for an unknown id. */
    method ObtenerComerciante(id: string) returns (r: Result<Comerciante, PermisosError>)
      ensures id !in repository.comerciantes.entries <==> r == Err(ComercianteNoEncontrado(id))
      ensures id in repository.comerciantes.entries ==> r == Ok(repository.comerciantes.entries[id])
    {
      var comerciante := repository.ObtenerComerciante(id);
      if comerciante.None? {
        return Err(ComercianteNoEncontrado(id));
      }
      r := Ok(comerciante.value);
    }

    /** `crearSolicitud`: fails for an unknown vendor and for a blocked one; otherwise stores a pending
        request whose amount is the computed fee. */
    method CrearSolicitud(id: string, comercianteId: string, tipoProducto: TipoProducto, descripcion: string,
                          fechaInicio: int, fechaFin: int, ubicacionSolicitada: string, areaMetrosCuadrados: real,
                          documentosAdjuntos: Option<seq<string>>, ahora: int)
      returns (r: Result<SolicitudPermiso, PermisosError>)
      requires Valid()
      requires id !in repository.solicitudes.entries
      modifies repository
      ensures Valid()
      ensures comercianteId !in old(repository.comerciantes.entries) ==>
                r == Err(ComercianteNoEncontrado(comercianteId)) && unchanged(repository)
      ensures comercianteId in old(repository.comerciantes.entries) ==>
                var comerciante := old(repository.comerciantes.entries[comercianteId]);
                && (comerciante.estado == Bloqueado ==> r == Err(ComercianteBloqueado(comercianteId)) && unchanged(repository))
                && (comerciante.estado != Bloqueado ==>
                      && r == Ok(NuevaSolicitud(id, comercianteId, tipoProducto, descripcion, fechaInicio, fechaFin,
                                                ubicacionSolicitada, areaMetrosCuadrados, documentosAdjuntos, ahora))
                      && r.value.estado == Pendiente
                      && r.value.monto == CalcularTarifa(tipoProducto, areaMetrosCuadrados)
                      && repository.solicitudes == Set(old(repository.solicitudes), id, r.value))
      ensures repository.comerciantes == old(repository.comerciantes) && repository.aprobaciones == old(repository.aprobaciones)
    {
      var comerciante := repository.ObtenerComerciante(comercianteId);
      if comerciante.None? {
        return Err(ComercianteNoEncontrado(comercianteId));
      }
      if comerciante.value.estado == Bloqueado {
        return Err(ComercianteBloqueado(comercianteId));
      }
      var tarifaBase := CalcularTarifa(tipoProducto, areaMetrosCuadrados);
      var solicitud := SolicitudPermiso(id, comercianteId, tipoProducto, descripcion, ahora, fechaInicio, fechaFin,
                                        ubicacionSolicitada, areaMetrosCuadrados, tarifaBase, Pendiente, None, None,
                                        documentosAdjuntos.GetOr([]));
      var creada := repository.CrearSolicitud(solicitud);
      r := Ok(creada);
    }

    /** `obtenerSolicitudesComerciante`. */
    method ObtenerSolicitudesComerciante(comercianteId: string) returns (rs: seq<SolicitudPermiso>)
      requires repository.Valid()
      ensures rs == DelComerciante(Values(repository.solicitudes), comercianteId)
      ensures forall s :: s in rs <==> (exists k :: k in repository.solicitudes.entries && repository.solicitudes.entries[k] == s)
                                       && s.comercianteId == comercianteId
    {
      rs := repository.ObtenerSolicitudesComerciante(comercianteId);
    }

    /** `obtenerSolicitudesPendientes`. */
    method ObtenerSolicitudesPendientes() returns (rs: seq<SolicitudPermiso>)
      requires repository.Valid()
      ensures rs == ConEstado(Values(repository.solicitudes), Pendiente.Nombre())
      ensures forall s :: s in rs <==> (exists k :: k in repository.solicitudes.entries && repository.solicitudes.entries[k] == s)
                                       && s.estado == Pendiente
    {
      rs := repository.ObtenerSolicitudesPendientes();
      ConEstadoEnTabla(repository.solicitudes, Pendiente.Nombre());
      forall s | s in rs {
        NombreEstadoInyectivo(s.estado, Pendiente);
      }
    }

    /** `aprobarSolicitud`: fails for an unknown request and for one that is not pending; otherwise marks it
        approved at `ahora` and records one approval under its id, with the permit number of `hoy`. */
    method AprobarSolicitud(solicitudId: string, aprobadoPor: string, condiciones: Option<seq<string>>, ahora: int,
                            hoy: FechaCivil, sufijo: string)
      returns (r: Result<AprobacionPermiso, PermisosError>)
      requires Valid()
      modifies repository
      ensures Valid()
      ensures solicitudId !in old(repository.solicitudes.entries) ==>
                r == Err(SolicitudNoEncontrada(solicitudId)) && unchanged(repository)
      ensures solicitudId in old(repository.solicitudes.entries) ==>
                var s := old(repository.solicitudes.entries[solicitudId]);
                && (s.estado != Pendiente ==> r == Err(EstadoInvalido(s.estado)) && unchanged(repository))
                && (s.estado == Pendiente ==>
                      && r == Ok(AprobacionPermiso(solicitudId, s.comercianteId, aprobadoPor, ahora, condiciones,
                                                   NumeroPermiso(hoy, sufijo)))
                      && repository.solicitudes
                         == Set(old(repository.solicitudes), solicitudId, s.(estado := Aprobado, fechaAprobacion := Some(ahora)))
                      && repository.aprobaciones == Set(old(repository.aprobaciones), solicitudId, r.value))
      ensures solicitudId in old(repository.solicitudes.entries) ==>
                var antes := old(repository.solicitudes.entries[solicitudId]).estado;
                r.Ok? == Transicion(antes, Aprobar).Some?
                && repository.solicitudes.entries[solicitudId].estado == Merge(Transicion(antes, Aprobar), antes)
      ensures repository.comerciantes == old(repository.comerciantes)
    {
      var solicitud := repository.ObtenerSolicitud(solicitudId);
      if solicitud.None? {
        return Err(SolicitudNoEncontrada(solicitudId));
      }
      if solicitud.value.estado != Pendiente {
        return Err(EstadoInvalido(solicitud.value.estado));
      }
      var numeroPermiso := NumeroPermiso(hoy, sufijo);
      var aprobacion := AprobacionPermiso(solicitudId, solicitud.value.comercianteId, aprobadoPor, ahora, condiciones, numeroPermiso);
      var _ := repository.ActualizarSolicitud(solicitudId,
                 SinCambiosSolicitud.(estado := Some(Aprobado), fechaAprobacion := Some(Some(ahora))));
      var registrada := repository.RegistrarAprobacion(aprobacion);
      r := Ok(registrada);
    }

    /** `rechazarSolicitud`: fails for an unknown request and for one that is not pending; otherwise marks
        it rejected with the reason. */
    method RechazarSolicitud(solicitudId: string, razonRechazo: string) returns (r: Result<SolicitudPermiso, PermisosError>)
      requires Valid()
      modifies repository
      ensures Valid()
      ensures solicitudId !in old(repository.solicitudes.entries) ==>
                r == Err(SolicitudNoEncontrada(solicitudId)) && unchanged(repository)
      ensures solicitudId in old(repository.solicitudes.entries) ==>
                var s := old(repository.solicitudes.entries[solicitudId]);
                && (s.estado != Pendiente ==> r == Err(EstadoInvalido(s.estado)) && unchanged(repository))
                && (s.estado == Pendiente ==>
                      && r == Ok(s.(estado := Rechazado, razonRechazo := Some(razonRechazo)))
                      && repository.solicitudes == Set(old(repository.solicitudes), solicitudId, r.value))
      ensures solicitudId in old(repository.solicitudes.entries) ==>
                var antes := old(repository.solicitudes.entries[solicitudId]).estado;
                r.Ok? == Transicion(antes, Rechazar).Some?
                && repository.solicitudes.entries[solicitudId].estado == Merge(Transicion(antes, Rechazar), antes)
      ensures repository.comerciantes == old(repository.comerciantes) && repository.aprobaciones == old(repository.aprobaciones)
    {
      var solicitud := repository.ObtenerSolicitud(solicitudId);
      if solicitud.None? {
        return Err(SolicitudNoEncontrada(solicitudId));
      }
      if solicitud.value.estado != Pendiente {
        return Err(EstadoInvalido(solicitud.value.estado));
      }
      r := repository.ActualizarSolicitud(solicitudId,
             SinCambiosSolicitud.(estado := Some(Rechazado), razonRechazo := Some(Some(razonRechazo))));
    }

    /** `cancelarSolicitud`: fails only for an unknown request; any status becomes cancelled. */
    method CancelarSolicitud(solicitudId: string) returns (r: Result<SolicitudPermiso, PermisosError>)
      requires Valid()
      modifies repository
      ensures Valid()
      ensures solicitudId !in old(repository.solicitudes.entries) ==>
                r == Err(SolicitudNoEncontrada(solicitudId)) && unchanged(repository)
      ensures solicitudId in old(repository.solicitudes.entries) ==>
                var s := old(repository.solicitudes.entries[solicitudId]);
                && r == Ok(s.(estado := Cancelado))
                && repository.solicitudes == Set(old(repository.solicitudes), solicitudId, r.value)
                && Transicion(s.estado, Cancelar) == Some(r.value.estado)
      ensures repository.comerciantes == old(repository.comerciantes) && repository.aprobaciones == old(repository.aprobaciones)
    {
      var solicitud := repository.ObtenerSolicitud(solicitudId);
      if solicitud.None? {
        return Err(SolicitudNoEncontrada(solicitudId));
      }
      r := repository.ActualizarSolicitud(solicitudId, SinCambiosSolicitud.(estado := Some(Cancelado)));
    }

    /** `obtenerEstadisticas`: the count of each status, a total that is their sum and the number of stored
        requests, and the income summed over approved requests only. */
    method ObtenerEstadisticas() returns (e: EstadisticasPermisos)
      requires repository.Valid()
      ensures var todas := Values(repository.solicitudes);
              && e.pendientes == |ConEstado(todas, Pendiente.Nombre())|
              && e.aprobadas == |ConEstado(todas, Aprobado.Nombre())|
              && e.rechazadas == |ConEstado(todas, Rechazado.Nombre())|
              && e.canceladas == |ConEstado(todas, Cancelado.Nombre())|
              && e.ingresoTotal == SumaMontos(ConEstado(todas, Aprobado.Nombre()))
      ensures e.totalSolicitudes == e.pendientes + e.aprobadas + e.rechazadas + e.canceladas
      ensures e.totalSolicitudes == |repository.solicitudes.entries|
    {
      var aprobadas := repository.ObtenerSolicitudesPorEstado("aprobado");
      var rechazadas := repository.ObtenerSolicitudesPorEstado("rechazado");
      var pendientes := repository.ObtenerSolicitudesPendientes();
      var canceladas := repository.ObtenerSolicitudesPorEstado("cancelado");
      var solicitudes := repository.ObtenerSolicitudesPendientes();
      solicitudes := solicitudes + aprobadas + rechazadas + canceladas;
      var ingresoTotal := SumaMontos(aprobadas);
      ParticionPorEstado(Values(repository.solicitudes));
      ValuesCount(repository.solicitudes);
      e := EstadisticasPermisos(|solicitudes|, |aprobadas|, |rechazadas|, |pendientes|, |canceladas|, ingresoTotal);
    }

    /** `bloquearComerciante`: fails for an unknown vendor; otherwise sets its status to blocked and changes
        nothing else. */
    method BloquearComerciante(comercianteId: string) returns (r: Outcome<PermisosError>)
      requires Valid()
      modifies repository
      ensures Valid()
      ensures comercianteId !in old(repository.comerciantes.entries) ==>
                r == Fail(ComercianteNoEncontrado(comercianteId)) && repository.comerciantes == old(repository.comerciantes)
      ensures comercianteId in old(repository.comerciantes.entries) ==>
                && r == Pass
                && repository.comerciantes == Set(old(repository.comerciantes), comercianteId,
                                                  old(repository.comerciantes.entries[comercianteId]).(estado := Bloqueado))
                && repository.comerciantes.entries[comercianteId].estado == Bloqueado
      ensures repository.solicitudes == old(repository.solicitudes) && repository.aprobaciones == old(repository.aprobaciones)
    {
      var actualizado := repository.ActualizarComerciante(comercianteId, SinCambiosComerciante.(estado := Some(Bloqueado)));
      if actualizado.Err? {
        return Fail(actualizado.error);
      }
      r := Pass;
    }

    /** `validarUbicacionDisponible`: false exactly when some approved request holds the location for a
        period that overlaps `[fechaInicio, fechaFin]`, endpoints included; the search stops at the first. */
    method ValidarUbicacionDisponible(ubicacion: string, fechaInicio: int, fechaFin: int) returns (disponible: bool)
      requires repository.Valid()
      ensures disponible == Disponible(ConEstado(Values(repository.solicitudes), Aprobado.Nombre()), ubicacion, fechaInicio, fechaFin)
      ensures disponible <==> forall k | k in repository.solicitudes.entries ::
                                !Ocupa(repository.solicitudes.entries[k], ubicacion, fechaInicio, fechaFin)
    {
      var solicitudesAprobadas := repository.ObtenerSolicitudesPorEstado("aprobado");
      for i := 0 to |solicitudesAprobadas|
        invariant forall j | 0 <= j < i ::
                    !(solicitudesAprobadas[j].ubicacionSolicitada == ubicacion
                      && Solapan(fechaInicio, fechaFin, solicitudesAprobadas[j].fechaInicio, solicitudesAprobadas[j].fechaFin))
      {
        var solicitud := solicitudesAprobadas[i];
        if solicitud.ubicacionSolicitada == ubicacion
           && !(fechaFin < solicitud.fechaInicio || fechaInicio > solicitud.fechaFin)
        {
          DisponibleSegunTabla(repository.solicitudes, ubicacion, fechaInicio, fechaFin);
          return false;
        }
      }
      DisponibleSegunTabla(repository.solicitudes, ubicacion, fechaInicio, fechaFin);
      return true;
    }

    /** The request flow in front of `crearSolicitud`: the request schema's bounds, then the location check,
        then creation. The amount the caller declares is only validated; the stored amount is the fee. */
    method SolicitarPermiso(id: string, comercianteId: string, tipoProducto: string, descripcion: string,
                            fechaInicio: int, fechaFin: int, ubicacionSolicitada: string, areaMetrosCuadrados: real,
                            montoDeclarado: real, documentosAdjuntos: Option<seq<string>>, ahora: int)
      returns (r: Result<SolicitudPermiso, PermisosError>)
      requires Valid()
      requires id !in repository.solicitudes.entries
      modifies repository
      ensures Valid()
      ensures !SolicitudPermisoValida(tipoProducto, descripcion, fechaInicio, fechaFin, ubicacionSolicitada,
                                      areaMetrosCuadrados, montoDeclarado, ahora) ==>
                r == Err(ValidacionFallida) && unchanged(repository)
      ensures r.Err? && r.error == UbicacionNoDisponible ==>
                unchanged(repository)
                && exists k | k in repository.solicitudes.entries ::
                     Ocupa(repository.solicitudes.entries[k], ubicacionSolicitada, fechaInicio, fechaFin)
      ensures SolicitudPermisoValida(tipoProducto, descripcion, fechaInicio, fechaFin, ubicacionSolicitada,
                                     areaMetrosCuadrados, montoDeclarado, ahora) ==>
                (r == Err(UbicacionNoDisponible) <==>
                   exists k | k in old(repository.solicitudes.entries) ::
                     Ocupa(old(repository.solicitudes.entries[k]), ubicacionSolicitada, fechaInicio, fechaFin))
      ensures SolicitudPermisoValida(tipoProducto, descripcion, fechaInicio, fechaFin, ubicacionSolicitada,
                                     areaMetrosCuadrados, montoDeclarado, ahora)
              && (forall k | k in old(repository.solicitudes.entries) ::
                    !Ocupa(old(repository.solicitudes.entries[k]), ubicacionSolicitada, fechaInicio, fechaFin)) ==>
                && (comercianteId !in old(repository.comerciantes.entries) ==>
                      r == Err(ComercianteNoEncontrado(comercianteId)) && unchanged(repository))
                && (comercianteId in old(repository.comerciantes.entries)
                    && old(repository.comerciantes.entries[comercianteId]).estado == Bloqueado ==>
                      r == Err(ComercianteBloqueado(comercianteId)) && unchanged(repository))
                && (comercianteId in old(repository.comerciantes.entries)
                    && old(repository.comerciantes.entries[comercianteId]).estado != Bloqueado ==>
                      r.Ok?)
      ensures r.Ok? ==>
                && SolicitudPermisoValida(tipoProducto, descripcion, fechaInicio, fechaFin, ubicacionSolicitada,
                                          areaMetrosCuadrados, montoDeclarado, ahora)
                && (forall k | k in old(repository.solicitudes.entries) ::
                      !Ocupa(old(repository.solicitudes.entries[k]), ubicacionSolicitada, fechaInicio, fechaFin))
                && r.value == NuevaSolicitud(id, comercianteId, TipoProductoDe(tipoProducto).value, descripcion, fechaInicio,
                                             fechaFin, ubicacionSolicitada, areaMetrosCuadrados, documentosAdjuntos, ahora)
                && r.value.estado == Pendiente
                && r.value.tipoProducto.Nombre() == tipoProducto
                && r.value.monto == CalcularTarifa(r.value.tipoProducto, areaMetrosCuadrados)
                && 0.0 < r.value.monto <= 27000.0
                && repository.solicitudes == Set(old(repository.solicitudes), id, r.value)
    {
      if !SolicitudPermisoValida(tipoProducto, descripcion, fechaInicio, fechaFin, ubicacionSolicitada,
                                 areaMetrosCuadrados, montoDeclarado, ahora) {
        return Err(ValidacionFallida);
      }
      var disponible := ValidarUbicacionDisponible(ubicacionSolicitada, fechaInicio, fechaFin);
      if !disponible {
        return Err(UbicacionNoDisponible);
      }
      var tipo := TipoProductoDe(tipoProducto).value;
      TarifaAcotada(tipo, areaMetrosCuadrados);
      r := CrearSolicitud(id, comercianteId, tipo, descripcion, fechaInicio, fechaFin, ubicacionSolicitada,
                          areaMetrosCuadrados, documentosAdjuntos, ahora);
    }
  }
}
