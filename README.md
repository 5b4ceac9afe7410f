# Motorcycle-taxi rider client: fares, phone check and ride state

This project models, in Dafny, the two parts of the rider-side browser client
that carry real logic.

- `config.dfy`: the fare helpers of `shared/config.js`.
  - Module `Pricing` holds the `PRICING_CONFIG` constants and the fare formula
    `calcularPrecio`. It also holds `cargarDesdeDB`, which overwrites the per-km
    rate and the minimum fare in place from key/value rows.
  - Module `Utils` holds `UTILS.validarTelefono`, the Honduran 8-digit phone format.
- `app.dfy`, module `Rides`: the ride-client state machine of `app.js`.
  - The module-level globals are fields of the class `AppCliente`. These are
    `modoSeleccion`, `origenCoords`, `destinoCoords`, `carreraActiva`,
    `trackingInterval`, `conductorMarker`, `currentRating` and `window.lastTripId`.
  - Every event handler is a method. Its network result is passed in as a parameter.
  - The pure parts are functions: `renderStatus`, the route unit conversion, and
    the reload query (`eq cliente_id`, `in estado`, `maybeSingle`).
- `numeric.dfy`: `Math.round`, `Math.ceil` and `Math.max` on reals.
  `Math.round(x)` is `Floor(x + 0.5)`.
- `options.dfy`: `Option` for `null`, and JavaScript truthiness of an optional string.

Amounts and coordinates are `real`. Leaflet layers and markers become booleans, or
the position of the driver marker. The browser's live `setInterval` timers are the
map `intervalos`, from handle to the polled driver's id. Rows sent to the data
store are recorded in `escrituras`.

In these places the code does less than one might expect, and the model follows the code:
- The route duration gets no traffic buffer factor.
- A late reverse-geocoding reply relabels whatever point then fills the field.
  A stale reply is not discarded.
- A reload that sees two active rows yields no ride. It does not pick the most
  recent row, because `maybeSingle` answers with an error and no data.
- Submitting and cancelling update nothing locally. Only a later reload does.
- Every `completada` notification reopens the rating modal.
- `detenerTracking` clears the live timer but leaves the stale handle in
  `trackingInterval`.

`app.js` declares `enviarCalificacion` twice. The assignment to
`window.enviarCalificacion` at app.js:254-264 replaces the function declared at
app.js:193-198, so only the later one is modelled.

## Model

| member | source | states |
|---|---|---|
| Numeric.Round | shared/config.js:78 | `Math.round` gives the integer r with r - 0.5 <= x < r + 0.5, so halves round up |
| Numeric.Ceil | app.js:105 | `Math.ceil` gives the integer r with r - 1 < x <= r |
| Numeric.Max | shared/config.js:76 | the result is at least both arguments and equals one of them |
| Numeric.RoundMonotone | shared/config.js:78 | rounding preserves order |
| Pricing.CalcularPrecio | shared/config.js:75-79 | the fare is the unrounded fare (rate times distance, at least the minimum, times 1 - discount when pooled) rounded half up to an integer |
| Pricing.DirectoNoBajaDelMinimo | shared/config.js:75-78 | a direct fare is never below round(precioMinimo), for any rate and distance |
| Pricing.HastaDosKmCuestaElMinimo | shared/config.js:53-79 | with the defaults (15 per km, minimum 30), any direct ride of at most 2 km costs exactly 30 |
| Pricing.ColectivoNoMayorQueDirecto | shared/config.js:75-79 | with a discount in [0, 1], the pooled fare is at most the direct fare. This also needs a non-negative minimum: with a negative minimum the discount would raise the fare |
| Pricing.MonotonoEnDistancia | shared/config.js:75-79 | with a rate >= 0 (and a discount <= 1 when pooled), the fare does not decrease as distance grows |
| Pricing.DiezKmConValoresPorDefecto | shared/config.js:53-79 | with the defaults, 10 km costs 150 direct and 105 pooled |
| Pricing.RedondeoMitadHaciaArriba | shared/config.js:78 | round(k + 0.5) = k + 1 and round(k - 0.5) = k |
| Pricing.DescuentoNuncaCambia | shared/config.js:66-70 | loading rows never changes `descuentoColectivo` |
| Pricing.SinClaveNoCambia | shared/config.js:66-70 | a fare constant whose key no row carries keeps its value |
| Pricing.ClavesAjenasIgnoradas | shared/config.js:66-70 | rows whose key is neither `precio_base_km` nor `precio_minimo` change nothing |
| Pricing.GanaLaUltimaFila | shared/config.js:67-70 | when a key repeats, the constant ends with the value of the last row carrying that key |
| Pricing.PricingConfig.constructor | shared/config.js:53-56 | the object starts with rate 15, minimum 30 and pooled discount 0.3 |
| Pricing.PricingConfig.CargarDesdeDB | shared/config.js:59-73 | with no client or no data nothing changes. Otherwise the rows are applied in order, and only the rate and the minimum can change |
| Utils.ValidarTelefono | shared/config.js:98-102 | the phone check accepts exactly 8 ASCII digits, or 4 digits, a hyphen and 4 digits |
| Utils.EjecutarEsEstadoTras | shared/config.js:100 | the automaton for `^[0-9]{4}-?[0-9]{4}$` reaches, after any prefix, the state the prefix's shape predicts |
| Utils.SoloDigitosYGuionEnCuatro | shared/config.js:100-101 | every character of an accepted number is a digit, except a hyphen allowed only at index 4 of a 9-character string |
| Utils.EjemplosTelefono | shared/config.js:98-102 | "98765432" and "9876-5432" are accepted. "987-65432", "9876 5432", a 7-digit string and a trailing letter are rejected |
| Rides.ConvertirRuta | app.js:104-105 | km * 1000 = metres, and (minutes - 1) * 60 < seconds <= minutes * 60. No buffer factor is applied |
| Rides.RenderStatus | app.js:161-183 | the card has a cancel action (for that ride id) iff `estado = 'buscando'`. Otherwise it is a driver card titled 'En viaje' iff `estado = 'en_curso'`, else 'Conductor en camino', naming the driver or 'Conductor' |
| Rides.Filtrar | app.js:138-141 | the query keeps exactly the table rows of this client whose `estado` is one of the five active states |
| Rides.MaybeSingle | app.js:142 | `maybeSingle` yields a row iff exactly one row matched, and that row |
| Rides.Recarga | app.js:137-144 | a reloaded ride is a row of the table, of this client and in an active state. A failed request gives none |
| Rides.DosActivasNoDanNinguna | app.js:138-144 | two active rows for the client give no active ride |
| Rides.UnicaActivaEsLaCarrera | app.js:138-144 | exactly one active row for the client is the reloaded ride |
| Rides.SinActivaNoHayCarrera | app.js:138-144 | no active row gives no ride |
| Rides.DosCoincidentesFiltranDos | app.js:138-141 | two matching rows leave at least two rows after filtering |
| Rides.UnicaCoincidenteFiltrada | app.js:138-141 | a single matching row is the whole filtered result |
| Rides.NingunaCoincideNadaFiltrado | app.js:138-141 | with no matching row the filtered result is empty |
| Rides.PrimerSegmento | app.js:85 | `split(',')[0]` is the longest prefix without a comma. It ends at the first comma, or at the end of the string |
| Rides.AppCliente.constructor | app.js:5-8 | the globals start empty: no mode, no points, no markers, no route layer, no ride, no tracking handle, rating 0; the form is shown, the rating modal hidden and no status card written; the button shows its loaded text, enabled or not as the page loaded it |
| Rides.AppCliente.AlMasUnSondeo | app.js:233-243 | in every valid state at most one poll timer is live |
| Rides.AppCliente.SeleccionarOrigen | app.js:222 | the pick mode becomes 'origen' |
| Rides.AppCliente.SeleccionarDestino | app.js:223 | the pick mode becomes 'destino' |
| Rides.AppCliente.CalcularRuta | app.js:93-95 | starting a route computation disables the request button and sets its text to "Calculando..." |
| Rides.AppCliente.SetUbicacion | app.js:55-78 | a manual pick with no mode changes nothing. A manual pick ends with no mode, and an automatic pick forces and keeps 'origen'. The picked slot gets the coordinates and a placeholder label plus a marker, and the other slot is untouched. The route is requested iff a pick happened and both points are set, and only then is the button disabled with text "Calculando..."; otherwise its text and disabled flag are unchanged |
| Rides.AppCliente.ClicMapa | app.js:43 | a map click picks only while a mode is set, and always leaves no mode. A pick fills the slot of the mode with the coordinates, a placeholder label and a marker, leaves the other slot and marker alone, and disables the button (text "Calculando...") iff both points are set and the route is requested; otherwise the button is unchanged |
| Rides.AppCliente.Geolocalizado | app.js:45-51 | the device location shows the user marker. Only when no origin is set does it make an automatic origin pick: origin and its marker set, mode 'origen', destination untouched, and the route requested (button disabled, text "Calculando...") iff a destination exists; with an origin already set nothing but the user marker changes |
| Rides.AppCliente.ResolverDireccion | app.js:80-91 | a non-empty geocoded name relabels the point now in that field with its first segment. An empty name or an empty field changes nothing |
| Rides.AppCliente.RecibirRuta | app.js:97-119 | a route sets the summary (converted km, fare for the current ride type), draws the route layer and re-enables the button as "Pedir Mototaxi". An exception changes only the button text to the retry text; the button stays enabled or disabled as it was. A reply without routes changes nothing |
| Rides.AppCliente.SetTipo | app.js:224-232 | the ride type is recorded, and the route is requested (button disabled, text "Calculando...") iff both points are set; otherwise the button is unchanged |
| Rides.AppCliente.IniciarTracking | app.js:233-242 | the previous timer is cleared before a fresh one is started for the driver, so exactly one timer is live |
| Rides.AppCliente.DetenerTracking | app.js:243 | no timer is live and the driver marker is gone. The stale handle is kept |
| Rides.AppCliente.TickTracking | app.js:235-241 | a tick of a live timer moves or creates the driver marker when a position is read |
| Rides.AppCliente.CargarCarreraActiva | app.js:137-159 | `carreraActiva` is replaced wholesale by the query's row. A row shows its card and starts tracking if it has a driver. No row shows the form, removes the route layer and stops tracking |
| Rides.AppCliente.OnCambio | app.js:201-215 | a 'completada' payload opens the rating modal and records `lastTripId = payload.new.id`. Any payload then reloads |
| Rides.AppCliente.SolicitarCarrera | app.js:122-135 | without both points no insert is sent and nothing changes. Otherwise one insert with `estado = 'buscando'` is recorded, and the reload follows only on success; a failed insert leaves the ride, panels, route layer and tracking untouched (no optimistic update) |
| Rides.AppCliente.Cancelar | app.js:217-219 | the cancellation write is sent only when confirmed, with no local change |
| Rides.AppCliente.Rate | app.js:186-191 | `currentRating = n`, and star i is active iff i < n |
| Rides.AppCliente.EnviarCalificacion | app.js:254-264 | the rating write (current rating, comment) is sent and the modal closed only when `lastTripId` is set |

## Left out

- Session, profile and data-store client bootstrap are not modelled: `init`, `esperarSupabase`, `verificarSesion`, `cargarDatosCliente`, `cerrarSesion`, `AUTH` and the client creation in `shared/config.js`. They are authentication plumbing and foreign I/O.
- `cargarHistorial` is not modelled. It is a history listing rendered as HTML.
- The Nominatim and OSRM requests are external HTTP calls. Only their replies are modelled, as parameters of `ResolverDireccion` and `RecibirRuta`.
- Leaflet, the DOM and timers are presentation. This covers map creation, tiles, `fitBounds`, HTML strings, CSS classes, input values, alerts, `confirm` (a parameter of `Cancelar`) and `UTILS.mostrarNotificacion`.
- `UTILS.calcularDistancia` is not modelled. It is Haversine trigonometry on floating point.
- `UTILS.formatearMoneda`, `toFixed` and `parseFloat` are float/string formatting. Labels are the `Coordenadas` placeholder. The insert records the summary values without the one-decimal rounding of the displayed distance.
- `parseFloat` of configuration values is assumed to give a number. NaN and other floating-point effects are not modelled: amounts are exact reals.
- Rides.AppCliente.OnCambio: the reload completes inside the handler. So the moment when `carreraActiva` is null before the reload replies, and other events interleaved with pending requests, are not modelled.
- Rides.AppCliente.SolicitarCarrera: the reload completes inside the handler, as for `OnCambio`.
- Rides.AppCliente.TickTracking: a tick is atomic and fires only for a live timer. A position read still in flight when `detenerTracking` runs, which can recreate the marker afterwards, is not modelled.
- Rides.AppCliente.constructor: the initial page state comes from HTML that is not part of this model. The form is taken as shown, the rating modal as hidden, and the request button text as `Inicial`; whether the button starts disabled is a constructor parameter.
- The route duration in minutes is computed (`Rides.ConvertirRuta`) but never displayed or stored by the source. The summary therefore holds only distance and price.
