/**
 * The rider client of app.js: the module-level globals become the fields of
 * `AppCliente`, and each event handler becomes a method whose network
 * results arrive as parameters. Presentation (Leaflet layers, DOM nodes) is
 * reduced to what the handlers decide: which markers and layers exist, which
 * card and panel are shown, and the state of the request button.
 */
module Rides {
  import opened Options
  import opened Numeric
  import Pricing

  /** A row key of the data store (a ride id, a client id, a driver id). */
  type Id = string

  /** `modoSeleccion`: `null`, `'origen'` or `'destino'`. */
  datatype Modo = Ninguno | Origen | Destino

  /** The label of a picked point: the coordinate placeholder written at pick
      time, or the first segment of a reverse-geocoded name. */
  datatype Direccion = Coordenadas(lat: real, lng: real) | Nombre(texto: string)

  /** `origenCoords` / `destinoCoords`: `{ lat, lng, dir }`. */
  datatype Punto = Punto(lat: real, lng: real, dir: Direccion)

  /** A driver position read by the tracking poll. */
  datatype Posicion = Posicion(lat: real, lng: real)

  /** A row of the `carreras` table, with the joined driver name. */
  datatype Carrera = Carrera(id: Id, clienteId: Id, estado: string, conductorId: Option<Id>, conductorNombre: Option<string>)

  /** The card `renderStatus` writes into the status panel. */
  datatype Tarjeta = Tarjeta(titulo: string, cancelar: Option<Id>, conductor: Option<string>)

  /** What the routing request of `calcularRuta` ends with: an exception, a reply
      without routes, or the first route's distance (metres) and duration (seconds). */
  datatype RespuestaRuta = FalloRuta | SinRutas | Ruta(metros: real, segundos: real)

  /** Distance and duration of a route in the units the client uses. */
  datatype Trayecto = Trayecto(distanciaKm: real, minutos: int)

  /** The summary shown after a route: distance and price (`resDist`, `resPrice`). */
  datatype Cotizacion = Cotizacion(distanciaKm: real, precio: int)

  /** The text of the request button `btnSolicitar`: as loaded, "Calculando...",
      "Pedir Mototaxi", or the retry text after an error. Whether the button is
      disabled is kept apart, in `AppCliente.botonHabilitado`. */
  datatype Boton = Inicial | Calculando | PedirMototaxi | ErrorRuta

  /** The writes the client sends to the `carreras` table. */
  datatype Escritura =
    | Insertar(clienteId: Id, tipo: string, resumen: Option<Cotizacion>, origen: Punto, destino: Punto, estado: string)
    | CancelarCarrera(id: Id)
    | Calificar(id: Id, calificacion: int, comentario: string)

  /** The states the reload filters on. */
  const EstadosActivos: set<string> := {"buscando", "asignada", "aceptada", "en_camino", "en_curso"}

  /** The route conversion of `calcularRuta`: kilometres, and minutes rounded up. */
  function ConvertirRuta(metros: real, segundos: real): (t: Trayecto)
    ensures t.distanciaKm * 1000.0 == metros
    ensures (t.minutos - 1) as real * 60.0 < segundos <= t.minutos as real * 60.0
  {
    Trayecto(metros / 1000.0, Ceil(segundos / 60.0))
  }

  /** `renderStatus`: a searching card with a cancel action, or a driver card. */
  function RenderStatus(c: Carrera): (t: Tarjeta)
    ensures t.cancelar.Some? <==> c.estado == "buscando"
    ensures t.cancelar.Some? ==> t.cancelar.value == c.id
    ensures t.conductor.Some? <==> t.cancelar.None?
    ensures t.conductor.Some? ==> (t.titulo == "En viaje" <==> c.estado == "en_curso")
    ensures t.conductor.Some? && c.estado != "en_curso" ==> t.titulo == "Conductor en camino"
    ensures t.conductor.Some? ==> (Presente(c.conductorNombre) ==> t.conductor.value == c.conductorNombre.value)
    ensures t.conductor.Some? ==> (!Presente(c.conductorNombre) ==> t.conductor.value == "Conductor")
  {
    if c.estado == "buscando" then
      Tarjeta("Buscando conductor...", Some(c.id), None)
    else
      var nombre := if Presente(c.conductorNombre) then c.conductorNombre.value else "Conductor";
      Tarjeta(if c.estado == "en_curso" then "En viaje" else "Conductor en camino", None, Some(nombre))
  }

  /** The rows the reload query selects: this client's rides in an active state. */
  predicate Coincide(c: Carrera, cliente: Id)
  {
    c.clienteId == cliente && c.estado in EstadosActivos
  }

  /** `.eq('cliente_id', …).in('estado', […])` over the table. */
  function Filtrar(tabla: seq<Carrera>, cliente: Id): (r: seq<Carrera>)
    ensures forall c :: c in r <==> c in tabla && Coincide(c, cliente)
    ensures |r| <= |tabla|
  {
    if tabla == [] then []
    else (if Coincide(tabla[0], cliente) then [tabla[0]] else []) + Filtrar(tabla[1..], cliente)
  }

  /** `.maybeSingle()`: the row when exactly one matches; no data on none and
      on several (the latter is an error reply, whose data is null). */
  function MaybeSingle(filas: seq<Carrera>): (r: Option<Carrera>)
    ensures r.Some? <==> |filas| == 1
    ensures r.Some? ==> r.value == filas[0]
  {
    if |filas| == 1 then Some(filas[0]) else None
  }

  /** The `data` of the reload: `respuesta` is the table as the query sees it,
      or None when the request fails. */
  function Recarga(respuesta: Option<seq<Carrera>>, cliente: Id): (r: Option<Carrera>)
    ensures r.Some? ==> respuesta.Some? && r.value in respuesta.value && Coincide(r.value, cliente)
  {
    if respuesta.None? then None
    else
      var r := MaybeSingle(Filtrar(respuesta.value, cliente));
      assert r.Some? ==> r.value in Filtrar(respuesta.value, cliente);
      r
  }

  lemma {:induction false} DosCoincidentesFiltranDos(tabla: seq<Carrera>, cliente: Id, i: nat, j: nat)
    requires i < j < |tabla|
    requires Coincide(tabla[i], cliente) && Coincide(tabla[j], cliente)
    ensures |Filtrar(tabla, cliente)| >= 2
  {
    if i == 0 {
      assert tabla[1..][j - 1] == tabla[j];
      assert tabla[j] in Filtrar(tabla[1..], cliente);
    } else {
      assert tabla[1..][i - 1] == tabla[i] && tabla[1..][j - 1] == tabla[j];
      DosCoincidentesFiltranDos(tabla[1..], cliente, i - 1, j - 1);
    }
  }

  /** Two active rows for the client give no active ride at all: the reload
      does not pick the most recent one. */
  lemma DosActivasNoDanNinguna(tabla: seq<Carrera>, cliente: Id, i: nat, j: nat)
    requires i < j < |tabla|
    requires Coincide(tabla[i], cliente) && Coincide(tabla[j], cliente)
    ensures Recarga(Some(tabla), cliente) == None
  {
    DosCoincidentesFiltranDos(tabla, cliente, i, j);
  }

  lemma {:induction false} NingunaCoincideNadaFiltrado(tabla: seq<Carrera>, cliente: Id)
    requires forall k :: 0 <= k < |tabla| ==> !Coincide(tabla[k], cliente)
    ensures Filtrar(tabla, cliente) == []
  {
    if tabla != [] {
      assert forall k :: 0 <= k < |tabla[1..]| ==> tabla[1..][k] == tabla[k + 1];
      NingunaCoincideNadaFiltrado(tabla[1..], cliente);
    }
  }

  lemma {:induction false} UnicaCoincidenteFiltrada(tabla: seq<Carrera>, cliente: Id, i: nat)
    requires i < |tabla| && Coincide(tabla[i], cliente)
    requires forall k :: 0 <= k < |tabla| && k != i ==> !Coincide(tabla[k], cliente)
    ensures Filtrar(tabla, cliente) == [tabla[i]]
  {
    if i == 0 {
      assert forall k :: 0 <= k < |tabla[1..]| ==> !Coincide(tabla[1..][k], cliente) by {
        forall k | 0 <= k < |tabla[1..]| ensures !Coincide(tabla[1..][k], cliente) {
          assert tabla[1..][k] == tabla[k + 1];
        }
      }
      NingunaCoincideNadaFiltrado(tabla[1..], cliente);
    } else {
      forall k | 0 <= k < |tabla[1..]| && k != i - 1 ensures !Coincide(tabla[1..][k], cliente) {
        assert tabla[1..][k] == tabla[k + 1];
      }
      UnicaCoincidenteFiltrada(tabla[1..], cliente, i - 1);
    }
  }

  /** Exactly one active row for the client is the ride the reload yields. */
  lemma UnicaActivaEsLaCarrera(tabla: seq<Carrera>, cliente: Id, i: nat)
    requires i < |tabla| && Coincide(tabla[i], cliente)
    requires forall k :: 0 <= k < |tabla| && k != i ==> !Coincide(tabla[k], cliente)
    ensures Recarga(Some(tabla), cliente) == Some(tabla[i])
  {
    UnicaCoincidenteFiltrada(tabla, cliente, i);
  }

  /** With no active row for the client the reload yields no ride. */
  lemma SinActivaNoHayCarrera(tabla: seq<Carrera>, cliente: Id)
    requires forall k :: 0 <= k < |tabla| ==> !Coincide(tabla[k], cliente)
    ensures Recarga(Some(tabla), cliente) == None
  {
  }

  /** The first segment of a reverse-geocoded name: `display_name.split(',')[0]`. */
  function PrimerSegmento(s: string): (r: string)
    ensures |r| <= |s| && r == s[..|r|]
    ensures ',' !in r
    ensures |r| < |s| ==> s[|r|] == ','
  {
    if s == [] || s[0] == ',' then [] else [s[0]] + PrimerSegmento(s[1..])
  }

  /** Which address field a reverse-geocoding result belongs to (`elementId`). */
  datatype Campo = CampoOrigen | CampoDestino

  /** The globals of app.js and the parts of the page its handlers change. */
  class AppCliente {
    const clienteId: Id
    var modoSeleccion: Modo
    var origenCoords: Option<Punto>
    var destinoCoords: Option<Punto>
    var origenMarker: bool
    var destinoMarker: bool
    var userMarker: bool
    var rutaLayer: bool
    var conductorMarker: Option<Posicion>
    var carreraActiva: Option<Carrera>
    /** The handle stored in `trackingInterval`, kept after it is cleared. */
    var trackingInterval: Option<nat>
    /** The live `setInterval` timers: handle to the driver id each one polls. */
    var intervalos: map<nat, Id>
    var proximoHandle: nat
    var currentRating: int
    /** The `.star` elements: whether each one is marked active. */
    var estrellas: array<bool>
    /** `window.lastTripId`. */
    var lastTripId: Option<Id>
    var ratingModal: bool
    /** `tripForm` shown (and `tripStatus` hidden) when true. */
    var formularioVisible: bool
    /** The card last written into `statusContent`. */
    var tarjeta: Option<Tarjeta>
    /** The value of `tipoCarrera`. */
    var tipoCarrera: string
    /** The text of `btnSolicitar`. */
    var boton: Boton
    /** `!btnSolicitar.disabled`. */
    var botonHabilitado: bool
    var resumen: Option<Cotizacion>
    var escrituras: seq<Escritura>

    /** At most one poll is live, and it is the one `trackingInterval` holds;
        handles are never reused. */
    ghost predicate Valid()
      reads this`intervalos, this`trackingInterval, this`proximoHandle
    {
      && (forall h :: h in intervalos ==> trackingInterval == Some(h))
      && (trackingInterval.Some? ==> trackingInterval.value < proximoHandle)
    }

    constructor (clienteId: Id, numEstrellas: nat, tipoInicial: string, botonInicialHabilitado: bool)
      ensures Valid()
      ensures this.clienteId == clienteId && tipoCarrera == tipoInicial
      ensures modoSeleccion == Ninguno && origenCoords == None && destinoCoords == None
      ensures carreraActiva == None && trackingInterval == None && intervalos == map[]
      ensures currentRating == 0 && lastTripId == None && conductorMarker == None
      ensures fresh(estrellas) && estrellas.Length == numEstrellas
      ensures !origenMarker && !destinoMarker && !userMarker && !rutaLayer
      ensures !ratingModal && formularioVisible && tarjeta == None
      ensures escrituras == [] && resumen == None && boton == Inicial && botonHabilitado == botonInicialHabilitado
    {
      this.clienteId := clienteId;
      modoSeleccion := Ninguno;
      origenCoords, destinoCoords := None, None;
      origenMarker, destinoMarker, userMarker, rutaLayer := false, false, false, false;
      conductorMarker := None;
      carreraActiva := None;
      trackingInterval, intervalos, proximoHandle := None, map[], 1;
      currentRating := 0;
      estrellas := new bool[numEstrellas];
      lastTripId := None;
      ratingModal := false;
      formularioVisible := true;
      tarjeta := None;
      tipoCarrera := tipoInicial;
      boton, botonHabilitado := Inicial, botonInicialHabilitado;
      resumen := None;
      escrituras := [];
    }

    /** Valid() allows at most one live poll timer. */
    lemma AlMasUnSondeo()
      requires Valid()
      ensures |intervalos| <= 1
    {
      if trackingInterval.Some? {
        assert intervalos.Keys <= {trackingInterval.value};
        if intervalos.Keys != {} {
          assert intervalos.Keys == {trackingInterval.value};
        }
      } else {
        assert intervalos.Keys == {};
      }
    }

    method SeleccionarOrigen()
      modifies this`modoSeleccion
      ensures modoSeleccion == Origen
    {
      modoSeleccion := Origen;
    }

    method SeleccionarDestino()
      modifies this`modoSeleccion
      ensures modoSeleccion == Destino
    {
      modoSeleccion := Destino;
    }

    /** The synchronous start of `calcularRuta`: the button is disabled until the
        routing reply arrives (see `RecibirRuta`). */
    method CalcularRuta()
      modifies this`boton, this`botonHabilitado
      ensures boton == Calculando && !botonHabilitado
    {
      boton, botonHabilitado := Calculando, false;
    }

    /**
     * `setUbicacion`: an automatic pick forces `'origen'` mode and keeps it; a
     * manual pick in a mode fills that point with a coordinate placeholder and
     * ends the mode; without a mode nothing happens. `pideRuta` says whether
     * `calcularRuta` was called.
     */
    method SetUbicacion(lat: real, lng: real, auto: bool) returns (pideRuta: bool)
      modifies this`modoSeleccion, this`origenCoords, this`destinoCoords, this`origenMarker, this`destinoMarker, this`boton, this`botonHabilitado
      ensures !auto && old(modoSeleccion) == Ninguno ==>
        && modoSeleccion == Ninguno && !pideRuta && boton == old(boton) && botonHabilitado == old(botonHabilitado)
        && origenCoords == old(origenCoords) && destinoCoords == old(destinoCoords)
        && origenMarker == old(origenMarker) && destinoMarker == old(destinoMarker)
      ensures modoSeleccion == if auto then Origen else Ninguno
      ensures auto || old(modoSeleccion) == Origen ==>
        && origenCoords == Some(Punto(lat, lng, Coordenadas(lat, lng))) && origenMarker
        && destinoCoords == old(destinoCoords) && destinoMarker == old(destinoMarker)
      ensures !auto && old(modoSeleccion) == Destino ==>
        && destinoCoords == Some(Punto(lat, lng, Coordenadas(lat, lng))) && destinoMarker
        && origenCoords == old(origenCoords) && origenMarker == old(origenMarker)
      ensures pideRuta <==> (auto || old(modoSeleccion) != Ninguno) && origenCoords.Some? && destinoCoords.Some?
      ensures boton == if pideRuta then Calculando else old(boton)
      ensures botonHabilitado == (!pideRuta && old(botonHabilitado))
    {
      if auto {
        modoSeleccion := Origen;
      }
      if modoSeleccion == Ninguno {
        return false;
      }
      var dir := Coordenadas(lat, lng);
      if modoSeleccion == Origen {
        origenCoords := Some(Punto(lat, lng, dir));
        origenMarker := true;
      } else {
        destinoCoords := Some(Punto(lat, lng, dir));
        destinoMarker := true;
      }
      if !auto {
        modoSeleccion := Ninguno;
      }
      pideRuta := origenCoords.Some? && destinoCoords.Some?;
      if pideRuta {
        CalcularRuta();
      }
    }

    /** The map click handler: a pick only while a mode is set. */
    method ClicMapa(lat: real, lng: real) returns (pideRuta: bool)
      modifies this`modoSeleccion, this`origenCoords, this`destinoCoords, this`origenMarker, this`destinoMarker, this`boton, this`botonHabilitado
      ensures modoSeleccion == Ninguno
      ensures old(modoSeleccion) == Ninguno ==>
        && !pideRuta && boton == old(boton) && botonHabilitado == old(botonHabilitado)
        && origenCoords == old(origenCoords) && destinoCoords == old(destinoCoords)
        && origenMarker == old(origenMarker) && destinoMarker == old(destinoMarker)
      ensures old(modoSeleccion) == Origen ==>
        && origenCoords == Some(Punto(lat, lng, Coordenadas(lat, lng))) && origenMarker
        && destinoCoords == old(destinoCoords) && destinoMarker == old(destinoMarker)
      ensures old(modoSeleccion) == Destino ==>
        && destinoCoords == Some(Punto(lat, lng, Coordenadas(lat, lng))) && destinoMarker
        && origenCoords == old(origenCoords) && origenMarker == old(origenMarker)
      ensures pideRuta <==> old(modoSeleccion) != Ninguno && origenCoords.Some? && destinoCoords.Some?
      ensures boton == if pideRuta then Calculando else old(boton)
      ensures botonHabilitado == (!pideRuta && old(botonHabilitado))
    {
      pideRuta := false;
      if modoSeleccion != Ninguno {
        pideRuta := SetUbicacion(lat, lng, false);
      }
    }

    /** The device-location callback: the user marker, then an automatic origin
        pick when no origin is set yet. */
    method Geolocalizado(lat: real, lng: real) returns (pideRuta: bool)
      modifies this`userMarker, this`modoSeleccion, this`origenCoords, this`destinoCoords, this`origenMarker, this`destinoMarker, this`boton, this`botonHabilitado
      ensures userMarker
      ensures old(origenCoords).None? ==>
        && origenCoords == Some(Punto(lat, lng, Coordenadas(lat, lng))) && modoSeleccion == Origen
        && origenMarker && destinoCoords == old(destinoCoords) && destinoMarker == old(destinoMarker)
        && (pideRuta <==> destinoCoords.Some?)
        && boton == (if pideRuta then Calculando else old(boton))
        && botonHabilitado == (!pideRuta && old(botonHabilitado))
      ensures old(origenCoords).Some? ==>
        && !pideRuta && modoSeleccion == old(modoSeleccion) && boton == old(boton) && botonHabilitado == old(botonHabilitado)
        && origenCoords == old(origenCoords) && destinoCoords == old(destinoCoords)
        && origenMarker == old(origenMarker) && destinoMarker == old(destinoMarker)
    {
      userMarker := true;
      pideRuta := false;
      if origenCoords.None? {
        pideRuta := SetUbicacion(lat, lng, true);
      }
    }

    /**
     * The result of `obtenerNombreDireccion`: a non-empty `display_name`
     * relabels whatever point now occupies the field, whichever pick asked
     * for it; an empty or missing name, or an empty field, changes nothing.
     */
    method ResolverDireccion(campo: Campo, displayName: Option<string>)
      modifies this`origenCoords, this`destinoCoords
      ensures var nombre := if Presente(displayName) then Some(Nombre(PrimerSegmento(displayName.value))) else None;
        && (campo == CampoOrigen && nombre.Some? && old(origenCoords).Some? ==>
              origenCoords == Some(old(origenCoords).value.(dir := nombre.value)))
        && (campo == CampoDestino && nombre.Some? && old(destinoCoords).Some? ==>
              destinoCoords == Some(old(destinoCoords).value.(dir := nombre.value)))
        && (campo == CampoDestino || nombre.None? || old(origenCoords).None? ==> origenCoords == old(origenCoords))
        && (campo == CampoOrigen || nombre.None? || old(destinoCoords).None? ==> destinoCoords == old(destinoCoords))
    {
      if Presente(displayName) {
        var val := PrimerSegmento(displayName.value);
        if campo == CampoOrigen && origenCoords.Some? {
          origenCoords := Some(origenCoords.value.(dir := Nombre(val)));
        }
        if campo == CampoDestino && destinoCoords.Some? {
          destinoCoords := Some(destinoCoords.value.(dir := Nombre(val)));
        }
      }
    }

    /** The routing reply of `calcularRuta`: the summary and route layer, and an
        enabled button, on a route; on an exception only the retry text, the
        button staying disabled or enabled as it was; nothing on a reply without
        routes. */
    method RecibirRuta(respuesta: RespuestaRuta, config: Pricing.PricingConfig)
      modifies this`boton, this`botonHabilitado, this`resumen, this`rutaLayer
      ensures respuesta.FalloRuta? ==>
        && boton == ErrorRuta && botonHabilitado == old(botonHabilitado)
        && resumen == old(resumen) && rutaLayer == old(rutaLayer)
      ensures respuesta.SinRutas? ==>
        && boton == old(boton) && botonHabilitado == old(botonHabilitado)
        && resumen == old(resumen) && rutaLayer == old(rutaLayer)
      ensures respuesta.Ruta? ==>
        var km := ConvertirRuta(respuesta.metros, respuesta.segundos).distanciaKm;
        && resumen == Some(Cotizacion(km, Pricing.CalcularPrecio(config.Vigentes(), km, tipoCarrera == "colectivo")))
        && rutaLayer && boton == PedirMototaxi && botonHabilitado
    {
      match respuesta
      case FalloRuta =>
        boton := ErrorRuta;
      case SinRutas =>
      case Ruta(metros, segundos) =>
        var trayecto := ConvertirRuta(metros, segundos);
        var precio := Pricing.CalcularPrecio(config.Vigentes(), trayecto.distanciaKm, tipoCarrera == "colectivo");
        resumen := Some(Cotizacion(trayecto.distanciaKm, precio));
        rutaLayer := true;
        boton, botonHabilitado := PedirMototaxi, true;
    }

    /** `setTipo`: records the ride type and recomputes the route when both points exist. */
    method SetTipo(t: string) returns (pideRuta: bool)
      modifies this`tipoCarrera, this`boton, this`botonHabilitado
      ensures tipoCarrera == t
      ensures pideRuta <==> origenCoords.Some? && destinoCoords.Some?
      ensures boton == if pideRuta then Calculando else old(boton)
      ensures botonHabilitado == (!pideRuta && old(botonHabilitado))
    {
      tipoCarrera := t;
      pideRuta := origenCoords.Some? && destinoCoords.Some?;
      if pideRuta {
        CalcularRuta();
      }
    }

    /** `iniciarTracking`: clears the previous poll, then starts a new one for `id`. */
    method IniciarTracking(id: Id)
      requires Valid()
      modifies this`trackingInterval, this`intervalos, this`proximoHandle
      ensures Valid()
      ensures trackingInterval.Some? && trackingInterval != old(trackingInterval)
      ensures intervalos == map[trackingInterval.value := id]
    {
      if trackingInterval.Some? {
        intervalos := intervalos - {trackingInterval.value};
      }
      assert intervalos == map[];
      var h := proximoHandle;
      proximoHandle := proximoHandle + 1;
      intervalos := intervalos[h := id];
      trackingInterval := Some(h);
    }

    /** `detenerTracking`: clears the poll and removes the driver marker; the
        stale handle stays in `trackingInterval`. */
    method DetenerTracking()
      requires Valid()
      modifies this`intervalos, this`conductorMarker
      ensures Valid()
      ensures intervalos == map[] && conductorMarker == None
    {
      if trackingInterval.Some? {
        intervalos := intervalos - {trackingInterval.value};
      }
      conductorMarker := None;
    }

    /** One tick of a live poll: a position read moves (or creates) the driver marker. */
    method TickTracking(h: nat, posicion: Option<Posicion>)
      requires h in intervalos
      modifies this`conductorMarker
      ensures conductorMarker == if posicion.Some? then posicion else old(conductorMarker)
    {
      if posicion.Some? {
        conductorMarker := posicion;
      }
    }

    /** The state `cargarCarreraActiva` leaves, given the reply `respuesta`. */
    twostate predicate RecargaHecha(respuesta: Option<seq<Carrera>>)
      reads this
    {
      var data := Recarga(respuesta, clienteId);
      && carreraActiva == data
      && (data.Some? ==>
            && !formularioVisible && tarjeta == Some(RenderStatus(data.value))
            && rutaLayer == old(rutaLayer) && conductorMarker == old(conductorMarker)
            && (Presente(data.value.conductorId) ==>
                  trackingInterval.Some? && intervalos == map[trackingInterval.value := data.value.conductorId.value])
            && (!Presente(data.value.conductorId) ==>
                  trackingInterval == old(trackingInterval) && intervalos == old(intervalos)))
      && (data.None? ==>
            && formularioVisible && tarjeta == old(tarjeta) && !rutaLayer
            && intervalos == map[] && conductorMarker == None && trackingInterval == old(trackingInterval))
    }

    /**
     * `cargarCarreraActiva`: replaces `carreraActiva` wholesale with the reply's
     * row; shows its card and tracks its driver if one is assigned, or shows the
     * form, removes the route and stops tracking when there is no row.
     */
    method CargarCarreraActiva(respuesta: Option<seq<Carrera>>)
      requires Valid()
      modifies this`carreraActiva, this`formularioVisible, this`tarjeta, this`rutaLayer
      modifies this`trackingInterval, this`intervalos, this`proximoHandle, this`conductorMarker
      ensures Valid()
      ensures RecargaHecha(respuesta)
    {
      var data := Recarga(respuesta, clienteId);
      carreraActiva := data;
      if data.Some? {
        formularioVisible := false;
        tarjeta := Some(RenderStatus(data.value));
        if Presente(data.value.conductorId) {
          IniciarTracking(data.value.conductorId.value);
        }
      } else {
        formularioVisible := true;
        rutaLayer := false;
        DetenerTracking();
      }
    }

    /**
     * The realtime callback of `suscribirseCambios` for a changed row `nueva`,
     * with the reply of the reload it starts: a completed ride opens the rating
     * modal, clears the active ride and records its id; every change reloads.
     */
    method OnCambio(nueva: Carrera, respuesta: Option<seq<Carrera>>)
      requires Valid()
      modifies this`ratingModal, this`lastTripId
      modifies this`carreraActiva, this`formularioVisible, this`tarjeta, this`rutaLayer
      modifies this`trackingInterval, this`intervalos, this`proximoHandle, this`conductorMarker
      ensures Valid()
      ensures nueva.estado == "completada" ==> ratingModal && lastTripId == Some(nueva.id)
      ensures nueva.estado != "completada" ==> ratingModal == old(ratingModal) && lastTripId == old(lastTripId)
      ensures RecargaHecha(respuesta)
    {
      if nueva.estado == "completada" {
        ratingModal := true;
        carreraActiva := None;
        lastTripId := Some(nueva.id);
      }
      CargarCarreraActiva(respuesta);
    }

    /**
     * `solicitarCarrera`: without both points the insert is never sent (reading
     * a field of `null` throws first); otherwise the insert is sent, and the
     * reload follows only when it succeeds. No local state is set beforehand.
     */
    method SolicitarCarrera(insercionOk: bool, respuesta: Option<seq<Carrera>>)
      requires Valid()
      modifies this`escrituras
      modifies this`carreraActiva, this`formularioVisible, this`tarjeta, this`rutaLayer
      modifies this`trackingInterval, this`intervalos, this`proximoHandle, this`conductorMarker
      ensures Valid()
      ensures old(origenCoords).None? || old(destinoCoords).None? ==>
        && escrituras == old(escrituras) && carreraActiva == old(carreraActiva)
        && tarjeta == old(tarjeta) && intervalos == old(intervalos)
      ensures old(origenCoords).Some? && old(destinoCoords).Some? ==>
        escrituras == old(escrituras) + [Insertar(clienteId, tipoCarrera, resumen, origenCoords.value, destinoCoords.value, "buscando")]
      ensures old(origenCoords).Some? && old(destinoCoords).Some? && insercionOk ==> RecargaHecha(respuesta)
      ensures old(origenCoords).None? || old(destinoCoords).None? || !insercionOk ==>
        && carreraActiva == old(carreraActiva) && formularioVisible == old(formularioVisible)
        && tarjeta == old(tarjeta) && rutaLayer == old(rutaLayer) && conductorMarker == old(conductorMarker)
        && trackingInterval == old(trackingInterval) && intervalos == old(intervalos)
    {
      if origenCoords.None? || destinoCoords.None? {
        return;
      }
      escrituras := escrituras + [Insertar(clienteId, tipoCarrera, resumen, origenCoords.value, destinoCoords.value, "buscando")];
      if insercionOk {
        CargarCarreraActiva(respuesta);
      }
    }

    /** `cancelar`: the cancellation write is sent once the rider confirms; the
        local ride is left for the next reload to change. */
    method Cancelar(id: Id, confirmado: bool)
      modifies this`escrituras
      ensures escrituras == if confirmado then old(escrituras) + [CancelarCarrera(id)] else old(escrituras)
    {
      if confirmado {
        escrituras := escrituras + [CancelarCarrera(id)];
      }
    }

    /** `rate`: records the score and marks star `i` active exactly when `i < n`. */
    method Rate(n: int)
      modifies this`currentRating, estrellas
      ensures currentRating == n
      ensures forall i :: 0 <= i < estrellas.Length ==> estrellas[i] == (i < n)
    {
      currentRating := n;
      for i := 0 to estrellas.Length
        invariant currentRating == n
        invariant forall k :: 0 <= k < i ==> estrellas[k] == (k < n)
      {
        estrellas[i] := i < n;
      }
    }

    /** `window.enviarCalificacion`: the rating is written only for a recorded
        completed ride, and then the modal closes. */
    method EnviarCalificacion(comentario: string)
      modifies this`escrituras, this`ratingModal
      ensures Presente(old(lastTripId)) ==>
        escrituras == old(escrituras) + [Calificar(lastTripId.value, currentRating, comentario)] && !ratingModal
      ensures !Presente(old(lastTripId)) ==> escrituras == old(escrituras) && ratingModal == old(ratingModal)
    {
      if Presente(lastTripId) {
        escrituras := escrituras + [Calificar(lastTripId.value, currentRating, comentario)];
        ratingModal := false;
      }
    }
  }
}
