/** The USD/CLP rate kept in the database: the latest row, whether it is
    stale, whether it needs refreshing, and the 950 fallback. The query
    result and the clock are parameters. */
module ExchangeRates {
  import opened Common

  /** A row of `exchange_rates`; `fetchedMs` is `new Date(fetched_at).getTime()`,
      `None` when the text is not a date (then it is NaN). */
  datatype ExchangeRate = ExchangeRate(
    id: int, base_currency: string, target_currency: string,
    rate: real, fetched_at: string, fetchedMs: Option<int>)

  /** What the query for the latest USD/CLP row came back with. */
  datatype Consulta =
    | ErrorConsulta           // the client reported an error
    | SinDatos                // no error and no row
    | Fila(row: ExchangeRate) // the latest row
    | Excepcion               // the call threw

  datatype ExchangeRateResponse = ExchangeRateResponse(
    success: bool, data: Option<ExchangeRate>, error: Option<string>, isStale: Option<bool>)

  const MSG_ERROR_CONSULTA := "No se pudo obtener el tipo de cambio desde la base de datos"
  const MSG_SIN_DATOS := "No hay datos de tipo de cambio disponibles"
  const MSG_EXCEPCION := "Error interno al obtener tipo de cambio"

  const MAX_AGE_MINUTES := 60.0
  const TIPO_CAMBIO_POR_DEFECTO := 950.0

  /** The age test of `getExchangeRate`: strictly older than `maxAgeMinutes`.
      An unparseable date gives a NaN age, which is never greater. */
  predicate Antiguo(row: ExchangeRate, nowMs: int, maxAgeMinutes: real)
  {
    row.fetchedMs.Some? && (nowMs - row.fetchedMs.value) as real / 60000.0 > maxAgeMinutes
  }

  /** `getExchangeRate` */
  function GetExchangeRate(consulta: Consulta, nowMs: int, maxAgeMinutes: real := MAX_AGE_MINUTES)
    : (r: ExchangeRateResponse)
    ensures r.success <==> consulta.Fila?
    // on success the row is handed back unchanged, with its staleness
    ensures r.success ==>
      && r.data == Some(consulta.row) && r.error.None?
      && r.isStale == Some(Antiguo(consulta.row, nowMs, maxAgeMinutes))
    // on failure there is a message and no data
    ensures !r.success ==> r.data.None? && r.isStale.None? && r.error.Some?
    ensures consulta.ErrorConsulta? ==> r.error == Some(MSG_ERROR_CONSULTA)
    ensures consulta.SinDatos? ==> r.error == Some(MSG_SIN_DATOS)
    ensures consulta.Excepcion? ==> r.error == Some(MSG_EXCEPCION)
  {
    match consulta
    case ErrorConsulta => ExchangeRateResponse(false, None, Some(MSG_ERROR_CONSULTA), None)
    case SinDatos => ExchangeRateResponse(false, None, Some(MSG_SIN_DATOS), None)
    case Excepcion => ExchangeRateResponse(false, None, Some(MSG_EXCEPCION), None)
    case Fila(row) =>
      var isStale := row.fetchedMs.Some? && (nowMs - row.fetchedMs.value) as real / 60000.0 > maxAgeMinutes;
      ExchangeRateResponse(true, Some(row), None, Some(isStale))
  }

  /** A row exactly sixty minutes old is still fresh; one millisecond more
      makes it stale; a row whose date does not parse is never stale. */
  lemma FronteraDeAntiguedad(row: ExchangeRate, t: int)
    ensures row.fetchedMs == Some(t) ==> !Antiguo(row, t + 3600000, MAX_AGE_MINUTES)
    ensures row.fetchedMs == Some(t) ==> Antiguo(row, t + 3600001, MAX_AGE_MINUTES)
    ensures row.fetchedMs.None? ==> forall now, m :: !Antiguo(row, now, m)
  {
  }

  /** The age test is the same as comparing milliseconds against the age
      limit in milliseconds. */
  lemma AntiguoEnMilisegundos(row: ExchangeRate, nowMs: int, maxAgeMinutes: real)
    requires row.fetchedMs.Some?
    ensures Antiguo(row, nowMs, maxAgeMinutes) <==>
      (nowMs - row.fetchedMs.value) as real > maxAgeMinutes * 60000.0
  {
    var edad := (nowMs - row.fetchedMs.value) as real;
    assert edad / 60000.0 * 60000.0 == edad;
  }

  /** `needsUpdate` */
  function NeedsUpdate(consulta: Consulta, nowMs: int, maxAgeMinutes: real := MAX_AGE_MINUTES): (b: bool)
    ensures b <==> !consulta.Fila? || Antiguo(consulta.row, nowMs, maxAgeMinutes)
  {
    var result := GetExchangeRate(consulta, nowMs, maxAgeMinutes);
    !result.success || (result.isStale.Some? && result.isStale.value)
  }

  datatype RateWithFallback = RateWithFallback(rate: real, source: string, timestamp: string, isStale: bool)

  /** `getExchangeRateWithFallback` */
  function GetExchangeRateWithFallback(consulta: Consulta, nowMs: int, nowIso: string): (r: RateWithFallback)
    ensures consulta.Fila? ==>
      && r.rate == consulta.row.rate && r.source == "supabase"
      && r.timestamp == consulta.row.fetched_at
      && r.isStale == Antiguo(consulta.row, nowMs, MAX_AGE_MINUTES)
    ensures !consulta.Fila? ==>
      r == RateWithFallback(TIPO_CAMBIO_POR_DEFECTO, "fallback", nowIso, true)
  {
    var result := GetExchangeRate(consulta, nowMs);
    if result.success && result.data.Some? then
      RateWithFallback(result.data.value.rate, "supabase", result.data.value.fetched_at,
                       result.isStale.Some? && result.isStale.value)
    else
      RateWithFallback(TIPO_CAMBIO_POR_DEFECTO, "fallback", nowIso, true)
  }

  /** The fallback's staleness flag is exactly `needsUpdate` with the
      default age: the fallback rate always asks for a refresh. */
  lemma FallbackMarcaActualizacion(consulta: Consulta, nowMs: int, nowIso: string)
    ensures GetExchangeRateWithFallback(consulta, nowMs, nowIso).isStale == NeedsUpdate(consulta, nowMs)
    ensures GetExchangeRateWithFallback(consulta, nowMs, nowIso).source == "fallback" ==>
      NeedsUpdate(consulta, nowMs)
  {
  }
}
