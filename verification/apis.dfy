/** The provider layer for volatile data: exchange rates tried from several
    upstream sources with a hard-coded fallback, the tax rates, the market
    tariff table, and the in-memory cache that keeps each of them for a fixed
    time. Upstream responses and the clock are parameters. */
module Apis {
  import opened Common
  import Calculos

  // ---------------------------------------------------------------------
  // Records

  /** `TipoCambio`: every pair of rates the providers produce is filled in. */
  datatype TipoCambio = TipoCambio(
    clp_usd: real, usd_clp: real,
    clp_eur: real, eur_clp: real,
    clp_gbp: real, gbp_clp: real,
    clp_ars: real, ars_clp: real,
    clp_pen: real, pen_clp: real,
    clp_cop: real, cop_clp: real,
    fecha: string, fuente: string)

  datatype ImpuestosChile = ImpuestosChile(
    iva: real, retencion_boleta: real, cotizacion_salud: real,
    fecha_actualizacion: string, fuente: string, version_legislacion: string)

  datatype TarifaMercado = TarifaMercado(
    rubro: string, experiencia: string,
    min: int, promedio: int, max: int,
    fecha_actualizacion: string, fuente: string, muestra: int)

  // The `fuente` each provider reports.
  const FUENTE_EXCHANGERATE := "exchangerate-api.com"
  const FUENTE_FRANKFURTER := "frankfurter.app"
  const FUENTE_FALLBACK := "fallback"

  /** Each rate and its counterpart multiply to one. */
  predicate Reciprocos(tc: TipoCambio)
  {
    && tc.clp_usd * tc.usd_clp == 1.0
    && tc.clp_eur * tc.eur_clp == 1.0
    && tc.clp_gbp * tc.gbp_clp == 1.0
    && tc.clp_ars * tc.ars_clp == 1.0
    && tc.clp_pen * tc.pen_clp == 1.0
    && tc.clp_cop * tc.cop_clp == 1.0
  }

  lemma CocientesReciprocos(a: real, b: real)
    requires a != 0.0 && b != 0.0
    ensures (a / b) * (b / a) == 1.0
    ensures (a / b) * (1.0 / (a / b)) == 1.0
    ensures (a / b) * b == a
  {
    var q := a / b;
    assert q * b == a;
    assert (b / a) * a == b;
  }

  lemma InversoReciproco(a: real)
    requires a != 0.0
    ensures a * (1.0 / a) == 1.0
  {
  }

  // ---------------------------------------------------------------------
  // Upstream sources

  /** The rates of an upstream response; NaN stands for a missing rate. */
  datatype Tasas = Tasas(usd: JsNum, eur: JsNum, clp: JsNum, gbp: JsNum, ars: JsNum, pen: JsNum, cop: JsNum)

  /** A Frankfurter response: its rates and its `date`, `None` when that date
      does not parse (then `toISOString` throws inside the source's `try`). */
  datatype RespuestaFrankfurter = RespuestaFrankfurter(tasas: Tasas, fecha: Option<string>)

  /** `obtenerTipoCambioDesdeExchangeRate`: USD-based rates, each missing or
      zero rate replaced by its default. `None` models a failed request, a
      response without `rates` or a thrown error. */
  function DesdeExchangeRate(respuesta: Option<Tasas>, ahoraIso: string): (r: Option<TipoCambio>)
    ensures r.Some? <==> respuesta.Some?
    ensures r.Some? ==>
      var t := respuesta.value;
      && Reciprocos(r.value)
      && r.value.fuente == FUENTE_EXCHANGERATE
      && r.value.clp_usd == OrDefault(t.clp, 950.0)
      && r.value.fecha == ahoraIso
      && ValoresEnDolares(r.value, OrDefault(t.eur, 1.1), OrDefault(t.gbp, 1.3),
                          OrDefault(t.ars, 0.003), OrDefault(t.pen, 0.25), OrDefault(t.cop, 0.0002))
  {
    match respuesta
    case None => None
    case Some(t) =>
      var clp_usd := OrDefault(t.clp, 950.0);
      var eur_usd := OrDefault(t.eur, 1.1);
      var gbp_usd := OrDefault(t.gbp, 1.3);
      var ars_usd := OrDefault(t.ars, 0.003);
      var pen_usd := OrDefault(t.pen, 0.25);
      var cop_usd := OrDefault(t.cop, 0.0002);
      Some(PorDolar(clp_usd, eur_usd, gbp_usd, ars_usd, pen_usd, cop_usd, ahoraIso, FUENTE_EXCHANGERATE))
  }

  /** Each currency's peso rate times its value in dollars gives the
      dollar's peso rate. */
  predicate ValoresEnDolares(tc: TipoCambio, eur_usd: real, gbp_usd: real, ars_usd: real,
                             pen_usd: real, cop_usd: real)
  {
    && tc.clp_eur * eur_usd == tc.clp_usd
    && tc.clp_gbp * gbp_usd == tc.clp_usd
    && tc.clp_ars * ars_usd == tc.clp_usd
    && tc.clp_pen * pen_usd == tc.clp_usd
    && tc.clp_cop * cop_usd == tc.clp_usd
  }

  /** A currency worth `x_usd` dollars, in pesos when the dollar is worth
      `clp_usd` pesos (`clp_usd / x_usd`), and the inverse rate
      (`x_usd / clp_usd`). */
  function EnPesos(clp_usd: real, x_usd: real): (r: (real, real))
    requires clp_usd != 0.0 && x_usd != 0.0
    ensures r.0 * r.1 == 1.0 && r.0 * x_usd == clp_usd
  {
    CocientesReciprocos(clp_usd, x_usd);
    (clp_usd / x_usd, x_usd / clp_usd)
  }

  /** The rates from the value of each currency in dollars: one currency
      in pesos is the dollar in pesos over its value in dollars, and the
      inverse is that quotient turned upside down. */
  function PorDolar(clp_usd: real, eur_usd: real, gbp_usd: real, ars_usd: real, pen_usd: real,
                    cop_usd: real, fecha: string, fuente: string): (tc: TipoCambio)
    requires clp_usd != 0.0 && eur_usd != 0.0 && gbp_usd != 0.0
    requires ars_usd != 0.0 && pen_usd != 0.0 && cop_usd != 0.0
    ensures Reciprocos(tc)
    ensures tc.clp_usd == clp_usd
    ensures ValoresEnDolares(tc, eur_usd, gbp_usd, ars_usd, pen_usd, cop_usd)
    ensures tc.fecha == fecha && tc.fuente == fuente
  {
    var eur, gbp, ars := EnPesos(clp_usd, eur_usd), EnPesos(clp_usd, gbp_usd), EnPesos(clp_usd, ars_usd);
    var pen, cop := EnPesos(clp_usd, pen_usd), EnPesos(clp_usd, cop_usd);
    InversoReciproco(clp_usd);
    TipoCambio(
      clp_usd, 1.0 / clp_usd,
      eur.0, eur.1, gbp.0, gbp.1, ars.0, ars.1, pen.0, pen.1, cop.0, cop.1,
      fecha, fuente)
  }

  /** `obtenerTipoCambioDesdeFrankfurter`: EUR-based rates converted to a CLP
      base, each missing or zero rate replaced by its default. */
  function DesdeFrankfurter(respuesta: Option<RespuestaFrankfurter>): (r: Option<TipoCambio>)
    ensures r.Some? <==> respuesta.Some? && respuesta.value.fecha.Some?
    ensures r.Some? ==>
      var t := respuesta.value.tasas;
      && Reciprocos(r.value)
      && r.value.fuente == FUENTE_FRANKFURTER
      && r.value.fecha == respuesta.value.fecha.value
      && r.value.clp_eur == OrDefault(t.clp, 1045.0)
      && ValoresEnEuros(r.value, OrDefault(t.usd, 1.1), OrDefault(t.gbp, 0.85),
                        OrDefault(t.ars, 0.0033), OrDefault(t.pen, 0.275), OrDefault(t.cop, 0.00022))
  {
    match respuesta
    case None => None
    case Some(RespuestaFrankfurter(t, fecha)) =>
      if fecha.None? then None
      else
        var eur_usd := OrDefault(t.usd, 1.1);
        var eur_clp := OrDefault(t.clp, 1045.0);
        var eur_gbp := OrDefault(t.gbp, 0.85);
        var eur_ars := OrDefault(t.ars, 0.0033);
        var eur_pen := OrDefault(t.pen, 0.275);
        var eur_cop := OrDefault(t.cop, 0.00022);
        Some(PorEuro(eur_usd, eur_clp, eur_gbp, eur_ars, eur_pen, eur_cop, fecha.value, FUENTE_FRANKFURTER))
  }

  /** The rates from the value of the euro in each currency: the euro in
      pesos is given, every other currency in pesos is the euro in pesos
      over the euro in that currency, and each inverse is one over it. */
  function PorEuro(eur_usd: real, eur_clp: real, eur_gbp: real, eur_ars: real, eur_pen: real,
                   eur_cop: real, fecha: string, fuente: string): (tc: TipoCambio)
    requires eur_usd != 0.0 && eur_clp != 0.0 && eur_gbp != 0.0
    requires eur_ars != 0.0 && eur_pen != 0.0 && eur_cop != 0.0
    ensures Reciprocos(tc)
    ensures tc.clp_eur == eur_clp
    ensures ValoresEnEuros(tc, eur_usd, eur_gbp, eur_ars, eur_pen, eur_cop)
    ensures tc.fecha == fecha && tc.fuente == fuente
  {
    ConInversos(
      DesdeEuro(eur_clp, eur_usd), eur_clp, DesdeEuro(eur_clp, eur_gbp),
      DesdeEuro(eur_clp, eur_ars), DesdeEuro(eur_clp, eur_pen), DesdeEuro(eur_clp, eur_cop),
      fecha, fuente)
  }

  /** Each currency's peso rate times the euro's value in that currency
      gives the euro's peso rate. */
  predicate ValoresEnEuros(tc: TipoCambio, eur_usd: real, eur_gbp: real, eur_ars: real,
                           eur_pen: real, eur_cop: real)
  {
    && tc.clp_usd * eur_usd == tc.clp_eur
    && tc.clp_gbp * eur_gbp == tc.clp_eur
    && tc.clp_ars * eur_ars == tc.clp_eur
    && tc.clp_pen * eur_pen == tc.clp_eur
    && tc.clp_cop * eur_cop == tc.clp_eur
  }

  /** A currency in pesos from the euro in pesos and the euro in that
      currency: non-zero, and it multiplies back to the euro's rate. */
  function DesdeEuro(eur_clp: real, eur_x: real): (r: real)
    requires eur_clp != 0.0 && eur_x != 0.0
    ensures r != 0.0 && r * eur_x == eur_clp
  {
    eur_clp / eur_x
  }

  /** A record whose CLP rates are the given ones and whose other rates are
      their inverses, as Frankfurter's rates are built. */
  function ConInversos(
    clp_usd: real, clp_eur: real, clp_gbp: real, clp_ars: real, clp_pen: real, clp_cop: real,
    fecha: string, fuente: string): (tc: TipoCambio)
    requires clp_usd != 0.0 && clp_eur != 0.0 && clp_gbp != 0.0
    requires clp_ars != 0.0 && clp_pen != 0.0 && clp_cop != 0.0
    ensures Reciprocos(tc)
    ensures tc.clp_usd == clp_usd && tc.clp_eur == clp_eur && tc.clp_gbp == clp_gbp
    ensures tc.clp_ars == clp_ars && tc.clp_pen == clp_pen && tc.clp_cop == clp_cop
    ensures tc.fecha == fecha && tc.fuente == fuente
  {
    InversoReciproco(clp_usd);
    InversoReciproco(clp_eur);
    InversoReciproco(clp_gbp);
    InversoReciproco(clp_ars);
    InversoReciproco(clp_pen);
    InversoReciproco(clp_cop);
    TipoCambio(
      clp_usd, 1.0 / clp_usd,
      clp_eur, 1.0 / clp_eur,
      clp_gbp, 1.0 / clp_gbp,
      clp_ars, 1.0 / clp_ars,
      clp_pen, 1.0 / clp_pen,
      clp_cop, 1.0 / clp_cop,
      fecha, fuente)
  }

  /** `obtenerTipoCambioDesdeMonobank`: disabled, it never yields rates. */
  function DesdeMonobank(): Option<TipoCambio>
  {
    None
  }

  /** The sources in the order `obtenerTipoCambio` tries them. */
  function Fuentes(er: Option<Tasas>, ff: Option<RespuestaFrankfurter>, ahoraIso: string): seq<Option<TipoCambio>>
  {
    [DesdeExchangeRate(er, ahoraIso), DesdeFrankfurter(ff), DesdeMonobank()]
  }

  /** The rates used when every source fails. */
  function Fallback(ahoraIso: string): (tc: TipoCambio)
    ensures Reciprocos(tc)
    ensures tc.clp_usd == 950.0 && tc.usd_clp == 1.0 / 950.0 && tc.fuente == FUENTE_FALLBACK
    ensures tc.clp_eur == 1045.0 && tc.clp_gbp == 1235.0 && tc.clp_ars == 2.85
    ensures tc.clp_pen == 237.5 && tc.clp_cop == 0.19
    ensures tc.fecha == ahoraIso
  {
    TipoCambio(
      950.0, 1.0 / 950.0,
      950.0 * 1.1, 1.0 / (950.0 * 1.1),
      950.0 * 1.3, 1.0 / (950.0 * 1.3),
      950.0 * 0.003, 1.0 / (950.0 * 0.003),
      950.0 * 0.25, 1.0 / (950.0 * 0.25),
      950.0 * 0.0002, 1.0 / (950.0 * 0.0002),
      ahoraIso, FUENTE_FALLBACK)
  }

  /** The first source that yields rates, if any. */
  function PrimeraExitosa<T>(fuentes: seq<Option<T>>): (r: Option<T>)
    ensures r.None? <==> forall i :: 0 <= i < |fuentes| ==> fuentes[i].None?
    ensures r.Some? ==>
      exists i :: 0 <= i < |fuentes| && fuentes[i] == r && forall j :: 0 <= j < i ==> fuentes[j].None?
  {
    if fuentes == [] then None
    else if fuentes[0].Some? then fuentes[0]
    else
      var r := PrimeraExitosa(fuentes[1..]);
      assert forall i :: 0 < i < |fuentes| ==> fuentes[i] == fuentes[1..][i - 1];
      r
  }

  /** The `for` loop of `obtenerTipoCambio`: returns on the first source that
      yields rates. */
  method ElegirFuente<T>(fuentes: seq<Option<T>>) returns (r: Option<T>)
    ensures r == PrimeraExitosa(fuentes)
  {
    var i := 0;
    while i < |fuentes|
      invariant 0 <= i <= |fuentes|
      invariant PrimeraExitosa(fuentes) == PrimeraExitosa(fuentes[i..])
    {
      if fuentes[i].Some? {
        return fuentes[i];
      }
      assert fuentes[i..][1..] == fuentes[i + 1..];
      i := i + 1;
    }
    return None;
  }

  /** ExchangeRate wins whenever it answers; the fallback is used exactly
      when ExchangeRate fails and Frankfurter fails or sends no usable date. */
  lemma OrdenDeFuentes(er: Option<Tasas>, ff: Option<RespuestaFrankfurter>, ahoraIso: string)
    ensures er.Some? ==> PrimeraExitosa(Fuentes(er, ff, ahoraIso)) == DesdeExchangeRate(er, ahoraIso)
    ensures er.None? ==> PrimeraExitosa(Fuentes(er, ff, ahoraIso)) == DesdeFrankfurter(ff)
    ensures PrimeraExitosa(Fuentes(er, ff, ahoraIso)).None? <==>
      er.None? && (ff.None? || ff.value.fecha.None?)
  {
    var f := Fuentes(er, ff, ahoraIso);
    assert f[2] == None;
  }

  // ---------------------------------------------------------------------
  // Taxes and the market tariff table

  /** `obtenerImpuestos`'s default values; they are the engine's constants. */
  function ImpuestosPorDefecto(ahoraIso: string): (r: ImpuestosChile)
    ensures r.iva == Calculos.IVA
    ensures r.retencion_boleta == Calculos.RETENCION_BOLETA
    ensures r.cotizacion_salud == Calculos.COTIZACION_SALUD
    ensures r.fuente == "valores_por_defecto" && r.version_legislacion == "2025"
  {
    ImpuestosChile(0.19, 0.1375, 0.07, ahoraIso, "valores_por_defecto", "2025")
  }

  /** A row of the tariff table without its date and source. */
  datatype FilaBase = FilaBase(rubro: string, experiencia: string, min: int, promedio: int, max: int, muestra: int)

  /** The rows `obtenerTarifasMercado` builds: six trades by three levels. */
  const FILAS: seq<FilaBase> := [
    FilaBase("diseño", "junior", 8000, 12000, 18000, 150),
    FilaBase("diseño", "semi", 12000, 18000, 25000, 150),
    FilaBase("diseño", "senior", 18000, 25000, 35000, 150),
    FilaBase("desarrollo", "junior", 10000, 15000, 22000, 200),
    FilaBase("desarrollo", "semi", 15000, 22000, 32000, 200),
    FilaBase("desarrollo", "senior", 22000, 32000, 45000, 200),
    FilaBase("marketing", "junior", 7000, 11000, 16000, 100),
    FilaBase("marketing", "semi", 11000, 16000, 22000, 100),
    FilaBase("marketing", "senior", 16000, 22000, 30000, 100),
    FilaBase("redaccion", "junior", 6000, 9000, 14000, 80),
    FilaBase("redaccion", "semi", 9000, 14000, 20000, 80),
    FilaBase("redaccion", "senior", 14000, 20000, 28000, 80),
    FilaBase("consultoria", "junior", 12000, 18000, 25000, 60),
    FilaBase("consultoria", "semi", 18000, 25000, 35000, 60),
    FilaBase("consultoria", "senior", 25000, 35000, 50000, 60),
    FilaBase("otro", "junior", 8000, 12000, 18000, 50),
    FilaBase("otro", "semi", 12000, 18000, 25000, 50),
    FilaBase("otro", "senior", 18000, 25000, 35000, 50)]

  /** Every row of the table has its minimum at most its average and its
      average at most its maximum. */
  lemma FilasOrdenadas()
    ensures |FILAS| == 18
    ensures forall i :: 0 <= i < |FILAS| ==> FILAS[i].min <= FILAS[i].promedio <= FILAS[i].max
  {
  }

  function Estampar(f: FilaBase, fecha: string): TarifaMercado
  {
    TarifaMercado(f.rubro, f.experiencia, f.min, f.promedio, f.max, fecha, "valores_por_defecto", f.muestra)
  }

  /** The table stamped with the date it was built. */
  function TablaTarifas(fecha: string): (r: seq<TarifaMercado>)
    ensures |r| == |FILAS| == 18
    ensures forall i :: 0 <= i < |r| ==>
      && r[i].rubro == FILAS[i].rubro && r[i].experiencia == FILAS[i].experiencia
      && r[i].min <= r[i].promedio <= r[i].max
      && r[i].fecha_actualizacion == fecha
      && r[i].fuente == "valores_por_defecto"
    // each row carries its figures from the fixed table
    ensures forall i :: 0 <= i < |r| ==>
      && r[i].min == FILAS[i].min && r[i].promedio == FILAS[i].promedio
      && r[i].max == FILAS[i].max && r[i].muestra == FILAS[i].muestra
  {
    FilasOrdenadas();
    seq(|FILAS|, i requires 0 <= i < |FILAS| => Estampar(FILAS[i], fecha))
  }

  predicate Coincide(t: TarifaMercado, rubro: string, experiencia: string)
  {
    t.rubro == rubro && t.experiencia == experiencia
  }

  /** `tarifas.find(...) || null` */
  function Buscar(ts: seq<TarifaMercado>, rubro: string, experiencia: string): (r: Option<TarifaMercado>)
    ensures r.None? <==> forall i :: 0 <= i < |ts| ==> !Coincide(ts[i], rubro, experiencia)
    ensures r.Some? ==>
      exists i :: 0 <= i < |ts| && ts[i] == r.value
        && Coincide(ts[i], rubro, experiencia)
        && forall j :: 0 <= j < i ==> !Coincide(ts[j], rubro, experiencia)
  {
    if ts == [] then None
    else if Coincide(ts[0], rubro, experiencia) then Some(ts[0])
    else
      var r := Buscar(ts[1..], rubro, experiencia);
      assert forall i :: 0 < i < |ts| ==> ts[i] == ts[1..][i - 1];
      r
  }

  /** When row `k` is the first match, `Buscar` returns it. */
  lemma BuscarPrimera(ts: seq<TarifaMercado>, k: nat, rubro: string, experiencia: string)
    requires k < |ts| && Coincide(ts[k], rubro, experiencia)
    requires forall j :: 0 <= j < k ==> !Coincide(ts[j], rubro, experiencia)
    ensures Buscar(ts, rubro, experiencia) == Some(ts[k])
  {
  }

  /** A trade and level of the table is found with its figures. */
  lemma DesarrolloSeniorEnLaTabla(fecha: string)
    ensures Buscar(TablaTarifas(fecha), "desarrollo", "senior") == Some(Estampar(FILAS[5], fecha))
  {
    var t := TablaTarifas(fecha);
    assert forall j :: 0 <= j < 5 ==> !Coincide(t[j], "desarrollo", "senior");
    BuscarPrimera(t, 5, "desarrollo", "senior");
  }

  /** The profile page's default trade, 'Desarrollo Web', names no row of
      the table. */
  lemma DesarrolloWebNoEstaEnLaTabla(fecha: string, experiencia: string)
    ensures Buscar(TablaTarifas(fecha), "Desarrollo Web", experiencia).None?
  {
    var t := TablaTarifas(fecha);
    assert forall i :: 0 <= i < |FILAS| ==> |FILAS[i].rubro| <= 11;
    assert forall i :: 0 <= i < |t| ==> t[i].rubro != "Desarrollo Web";
  }

  // ---------------------------------------------------------------------
  // The cache

  const CLAVE_TIPO_CAMBIO := "tipo_cambio"
  const CLAVE_IMPUESTOS := "impuestos"
  const CLAVE_TARIFAS := "tarifas_mercado"

  /** Time to live of each entry, in milliseconds. */
  const DURACION_TIPO_CAMBIO := 3600000
  const DURACION_IMPUESTOS := 86400000
  const DURACION_TARIFAS := 604800000

  datatype Dato = DTipoCambio(tc: TipoCambio) | DImpuestos(imp: ImpuestosChile) | DTarifas(ts: seq<TarifaMercado>)

  datatype EntradaCache = EntradaCache(data: Dato, timestamp: int)

  /** An entry is served when it exists and is strictly younger than its
      time to live. */
  predicate Vigente(entries: map<string, EntradaCache>, clave: string, now: int, duracion: int)
  {
    clave in entries && now - entries[clave].timestamp < duracion
  }

  /** What each key may hold: reciprocal rates, the legal tax rates, or the
      tariff table stamped with one date. */
  predicate DatoValido(clave: string, d: Dato)
  {
    || (clave == CLAVE_TIPO_CAMBIO && d.DTipoCambio? && Reciprocos(d.tc))
    || (clave == CLAVE_IMPUESTOS && d.DImpuestos?
        && d.imp == ImpuestosPorDefecto(d.imp.fecha_actualizacion))
    || (clave == CLAVE_TARIFAS && d.DTarifas? && |d.ts| > 0
        && d.ts == TablaTarifas(d.ts[0].fecha_actualizacion))
  }

  /** Insertion order of a JavaScript `Map` after `set(clave, ...)`. */
  function ConClave(orden: seq<string>, clave: string): seq<string>
  {
    if clave in orden then orden else orden + [clave]
  }

  /** The module-level `Map` shared by the providers. */
  class Cache {
    var entries: map<string, EntradaCache>
    var orden: seq<string>

    ghost predicate Valid()
      reads this
    {
      && (forall k :: k in entries <==> k in orden)
      && (forall i, j :: 0 <= i < j < |orden| ==> orden[i] != orden[j])
      && (forall k :: k in entries ==> DatoValido(k, entries[k].data))
    }

    constructor ()
      ensures Valid()
      ensures entries == map[] && orden == []
    {
      entries := map[];
      orden := [];
    }

    /** `cache.set(clave, { data, timestamp })` */
    method Guardar(clave: string, data: Dato, now: int)
      requires Valid() && DatoValido(clave, data)
      modifies this
      ensures Valid()
      ensures entries == old(entries)[clave := EntradaCache(data, now)]
      ensures orden == ConClave(old(orden), clave)
    {
      entries := entries[clave := EntradaCache(data, now)];
      if clave !in orden {
        orden := orden + [clave];
      }
    }

    /** `obtenerTipoCambio` */
    method ObtenerTipoCambio(now: int, er: Option<Tasas>, ff: Option<RespuestaFrankfurter>, ahoraIso: string)
      returns (tc: TipoCambio)
      requires Valid()
      modifies this
      ensures Valid()
      ensures Reciprocos(tc)
      ensures Vigente(old(entries), CLAVE_TIPO_CAMBIO, now, DURACION_TIPO_CAMBIO) ==>
        && tc == old(entries)[CLAVE_TIPO_CAMBIO].data.tc
        && entries == old(entries) && orden == old(orden)
      ensures !Vigente(old(entries), CLAVE_TIPO_CAMBIO, now, DURACION_TIPO_CAMBIO) ==>
        && tc == (match PrimeraExitosa(Fuentes(er, ff, ahoraIso))
                  case Some(t) => t
                  case None => Fallback(ahoraIso))
        && entries == old(entries)[CLAVE_TIPO_CAMBIO := EntradaCache(DTipoCambio(tc), now)]
        && orden == ConClave(old(orden), CLAVE_TIPO_CAMBIO)
    {
      if Vigente(entries, CLAVE_TIPO_CAMBIO, now, DURACION_TIPO_CAMBIO) {
        assert DatoValido(CLAVE_TIPO_CAMBIO, entries[CLAVE_TIPO_CAMBIO].data);
        return entries[CLAVE_TIPO_CAMBIO].data.tc;
      }
      var elegida := ElegirFuente(Fuentes(er, ff, ahoraIso));
      if elegida.Some? {
        tc := elegida.value;
        ghost var fs := Fuentes(er, ff, ahoraIso);
        assert elegida == fs[0] || elegida == fs[1];
      } else {
        tc := Fallback(ahoraIso);
      }
      Guardar(CLAVE_TIPO_CAMBIO, DTipoCambio(tc), now);
    }

    /** `obtenerImpuestos` */
    method ObtenerImpuestos(now: int, ahoraIso: string) returns (imp: ImpuestosChile)
      requires Valid()
      modifies this
      ensures Valid()
      ensures imp.iva == Calculos.IVA && imp.retencion_boleta == Calculos.RETENCION_BOLETA
        && imp.cotizacion_salud == Calculos.COTIZACION_SALUD
      ensures Vigente(old(entries), CLAVE_IMPUESTOS, now, DURACION_IMPUESTOS) ==>
        imp == old(entries)[CLAVE_IMPUESTOS].data.imp && entries == old(entries) && orden == old(orden)
      ensures !Vigente(old(entries), CLAVE_IMPUESTOS, now, DURACION_IMPUESTOS) ==>
        && imp == ImpuestosPorDefecto(ahoraIso)
        && entries == old(entries)[CLAVE_IMPUESTOS := EntradaCache(DImpuestos(imp), now)]
        && orden == ConClave(old(orden), CLAVE_IMPUESTOS)
    {
      if Vigente(entries, CLAVE_IMPUESTOS, now, DURACION_IMPUESTOS) {
        assert DatoValido(CLAVE_IMPUESTOS, entries[CLAVE_IMPUESTOS].data);
        return entries[CLAVE_IMPUESTOS].data.imp;
      }
      imp := ImpuestosPorDefecto(ahoraIso);
      Guardar(CLAVE_IMPUESTOS, DImpuestos(imp), now);
    }

    /** `obtenerTarifasMercado` */
    method ObtenerTarifasMercado(now: int, ahoraIso: string) returns (ts: seq<TarifaMercado>)
      requires Valid()
      modifies this
      ensures Valid()
      ensures |ts| > 0 && ts == TablaTarifas(ts[0].fecha_actualizacion)
      ensures Vigente(old(entries), CLAVE_TARIFAS, now, DURACION_TARIFAS) ==>
        ts == old(entries)[CLAVE_TARIFAS].data.ts && entries == old(entries) && orden == old(orden)
      ensures !Vigente(old(entries), CLAVE_TARIFAS, now, DURACION_TARIFAS) ==>
        && ts == TablaTarifas(ahoraIso)
        && entries == old(entries)[CLAVE_TARIFAS := EntradaCache(DTarifas(ts), now)]
        && orden == ConClave(old(orden), CLAVE_TARIFAS)
    {
      if Vigente(entries, CLAVE_TARIFAS, now, DURACION_TARIFAS) {
        assert DatoValido(CLAVE_TARIFAS, entries[CLAVE_TARIFAS].data);
        return entries[CLAVE_TARIFAS].data.ts;
      }
      ts := TablaTarifas(ahoraIso);
      Guardar(CLAVE_TARIFAS, DTarifas(ts), now);
    }

    /** `obtenerTarifaEspecifica`: the first row of the (possibly cached)
        table with that trade and level. */
    method ObtenerTarifaEspecifica(rubro: string, experiencia: string, now: int, ahoraIso: string)
      returns (r: Option<TarifaMercado>)
      requires Valid()
      modifies this
      ensures Valid()
      ensures r.Some? ==> Coincide(r.value, rubro, experiencia) && r.value.min <= r.value.promedio <= r.value.max
      ensures r.None? <==>
        forall i :: 0 <= i < |FILAS| ==> !(FILAS[i].rubro == rubro && FILAS[i].experiencia == experiencia)
      // the first matching row of the table, with that row's figures
      ensures r.Some? ==> exists k ::
        && 0 <= k < |FILAS| && r.value == Estampar(FILAS[k], r.value.fecha_actualizacion)
        && FILAS[k].rubro == rubro && FILAS[k].experiencia == experiencia
        && forall j :: 0 <= j < k ==> !(FILAS[j].rubro == rubro && FILAS[j].experiencia == experiencia)
      ensures Vigente(old(entries), CLAVE_TARIFAS, now, DURACION_TARIFAS) ==>
        && r == Buscar(old(entries)[CLAVE_TARIFAS].data.ts, rubro, experiencia)
        && entries == old(entries) && orden == old(orden)
      ensures !Vigente(old(entries), CLAVE_TARIFAS, now, DURACION_TARIFAS) ==>
        && r == Buscar(TablaTarifas(ahoraIso), rubro, experiencia)
        && entries == old(entries)[CLAVE_TARIFAS := EntradaCache(DTarifas(TablaTarifas(ahoraIso)), now)]
        && orden == ConClave(old(orden), CLAVE_TARIFAS)
    {
      var ts := ObtenerTarifasMercado(now, ahoraIso);
      r := Buscar(ts, rubro, experiencia);
      if r.Some? {
        var k :| 0 <= k < |ts| && ts[k] == r.value && Coincide(ts[k], rubro, experiencia)
          && forall j :: 0 <= j < k ==> !Coincide(ts[j], rubro, experiencia);
        assert r.value == Estampar(FILAS[k], r.value.fecha_actualizacion);
      }
    }

    /** `limpiarCache` */
    method LimpiarCache()
      modifies this
      ensures Valid()
      ensures entries == map[] && orden == []
    {
      entries := map[];
      orden := [];
    }

    /** The keys `obtenerInfoCache` reports, in insertion order. */
    method ObtenerInfoCache() returns (keys: seq<string>)
      requires Valid()
      ensures keys == orden
      ensures forall k :: k in keys <==> k in entries
      ensures forall i, j :: 0 <= i < j < |keys| ==> keys[i] != keys[j]
    {
      keys := orden;
    }
  }

  /** After `limpiarCache` the cache reports no keys, and the next exchange
      rate request consults the sources again. */
  method LimpiarYConsultar(cache: Cache, now: int, er: Option<Tasas>, ff: Option<RespuestaFrankfurter>, ahoraIso: string)
    returns (keys: seq<string>, tc: TipoCambio)
    requires cache.Valid()
    modifies cache
    ensures keys == []
    ensures tc == (match PrimeraExitosa(Fuentes(er, ff, ahoraIso))
                   case Some(t) => t
                   case None => Fallback(ahoraIso))
    ensures cache.orden == [CLAVE_TIPO_CAMBIO]
  {
    cache.LimpiarCache();
    keys := cache.ObtenerInfoCache();
    tc := cache.ObtenerTipoCambio(now, er, ff, ahoraIso);
  }
}
