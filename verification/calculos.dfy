/** The rate-calculation engine: the two hourly-rate formulas, the quick
    formula, the CLP to USD conversion and the input validator. Money is an
    exact `real`; every `Math.round` is `Common.Round`. */
module Calculos {
  import opened Common

  // Chilean tax constants.
  const IVA: real := 0.19
  const RETENCION_BOLETA: real := 0.1375
  const COTIZACION_SALUD: real := 0.07

  /** Hours of the reference project that `tarifaProyecto` prices. */
  const HORAS_PROYECTO: real := 40.0
  /** Default CLP per USD of `convertirCLPaUSD`. */
  const TIPO_CAMBIO_DEFAULT: real := 950.0

  datatype DatosCalculo = DatosCalculo(
    ingresosDeseados: real,
    diasTrabajados: real,
    horasPorDia: real,
    gastosFijos: real)

  datatype Desglose = Desglose(
    iva: int,
    retencion: int,
    cotizacionSalud: int,
    gastosFijos: real)

  datatype ResultadoCalculo = ResultadoCalculo(
    tarifaHora: int,
    tarifaProyecto: int,
    ingresosNetos: real,
    desglose: Desglose)

  function HorasMensuales(d: DatosCalculo): real
  {
    d.diasTrabajados * d.horasPorDia
  }

  /** `calcularTarifa`: grosses up the desired income by VAT and then by the
      health contribution, adds the fixed expenses and divides by the monthly
      hours. The breakdown is taxed on the desired income alone. */
  function CalcularTarifa(d: DatosCalculo): (r: ResultadoCalculo)
    requires HorasMensuales(d) != 0.0
    // retention is shown in the breakdown but never enters the rate
    ensures r.tarifaHora == Round((d.ingresosDeseados * 1.2733 + d.gastosFijos) / HorasMensuales(d))
    // the 40-hour price is rounded from the unrounded rate, so it is within
    // 20 of 40 times the rounded rate but not always equal to it
    ensures r.tarifaProyecto == Round((d.ingresosDeseados * 1.2733 + d.gastosFijos) / HorasMensuales(d) * 40.0)
    ensures -20 <= r.tarifaProyecto - 40 * r.tarifaHora <= 20
    ensures r.ingresosNetos == d.ingresosDeseados
    ensures r.desglose.iva == Round(d.ingresosDeseados * 0.19)
    ensures r.desglose.retencion == Round(d.ingresosDeseados * 0.1375)
    ensures r.desglose.cotizacionSalud == Round(d.ingresosDeseados * 0.07)
    ensures r.desglose.gastosFijos == d.gastosFijos
  {
    var baseImponible := d.ingresosDeseados * (1.0 + IVA);
    var cotizacionPrevisional := baseImponible * COTIZACION_SALUD;
    var totalConGastos := baseImponible + cotizacionPrevisional + d.gastosFijos;
    var tarifaHora := totalConGastos / HorasMensuales(d);
    var tarifaProyecto := tarifaHora * HORAS_PROYECTO;
    ResultadoCalculo(
      Round(tarifaHora),
      Round(tarifaProyecto),
      d.ingresosDeseados,
      Desglose(
        Round(d.ingresosDeseados * IVA),
        Round(d.ingresosDeseados * RETENCION_BOLETA),
        Round(d.ingresosDeseados * COTIZACION_SALUD),
        d.gastosFijos))
  }

  /** `ingresosBrutosTotales` of `calcularTarifaHora`: income plus expenses,
      plus VAT, retention and health contribution on that sum. */
  function IngresosBrutosTotales(d: DatosCalculo): (r: real)
    ensures r == (d.ingresosDeseados + d.gastosFijos) * 1.3975
  {
    var ingresosBrutos := d.ingresosDeseados + d.gastosFijos;
    var iva := ingresosBrutos * IVA;
    var retencion := ingresosBrutos * RETENCION_BOLETA;
    var cotizacionSalud := ingresosBrutos * COTIZACION_SALUD;
    ingresosBrutos + (iva + retencion + cotizacionSalud)
  }

  /** `calcularTarifaHora`: grosses up income plus expenses by all three
      rates and divides by the monthly hours. */
  function CalcularTarifaHora(d: DatosCalculo): (r: ResultadoCalculo)
    requires HorasMensuales(d) != 0.0
    ensures r.tarifaHora == Round((d.ingresosDeseados + d.gastosFijos) * 1.3975 / HorasMensuales(d))
    ensures r.tarifaProyecto == Round((d.ingresosDeseados + d.gastosFijos) * 1.3975 / HorasMensuales(d) * 40.0)
    ensures -20 <= r.tarifaProyecto - 40 * r.tarifaHora <= 20
    ensures r.ingresosNetos == d.ingresosDeseados
    ensures r.desglose.iva == Round((d.ingresosDeseados + d.gastosFijos) * 0.19)
    ensures r.desglose.retencion == Round((d.ingresosDeseados + d.gastosFijos) * 0.1375)
    ensures r.desglose.cotizacionSalud == Round((d.ingresosDeseados + d.gastosFijos) * 0.07)
    ensures r.desglose.gastosFijos == d.gastosFijos
  {
    var ingresosBrutos := d.ingresosDeseados + d.gastosFijos;
    var tarifaHora := IngresosBrutosTotales(d) / HorasMensuales(d);
    var tarifaProyecto := tarifaHora * HORAS_PROYECTO;
    ResultadoCalculo(
      Round(tarifaHora),
      Round(tarifaProyecto),
      d.ingresosDeseados,
      Desglose(
        Round(ingresosBrutos * IVA),
        Round(ingresosBrutos * RETENCION_BOLETA),
        Round(ingresosBrutos * COTIZACION_SALUD),
        d.gastosFijos))
  }

  /** `calcularTarifaSimple`: the `calcularTarifa` rate for 8-hour days. */
  function CalcularTarifaSimple(ingresosDeseados: real, diasTrabajados: real, gastosFijos: real := 0.0): (r: int)
    requires diasTrabajados != 0.0
    ensures r == CalcularTarifa(DatosCalculo(ingresosDeseados, diasTrabajados, 8.0, gastosFijos)).tarifaHora
  {
    var baseImponible := ingresosDeseados * (1.0 + IVA);
    var cotizacionPrevisional := baseImponible * COTIZACION_SALUD;
    var total := baseImponible + cotizacionPrevisional + gastosFijos;
    var horasMensuales := diasTrabajados * 8.0;
    Round(total / horasMensuales)
  }

  /** `convertirCLPaUSD` */
  function ConvertirCLPaUSD(clp: real, tipoCambio: real := TIPO_CAMBIO_DEFAULT): (usd: real)
    requires tipoCambio != 0.0
    ensures usd * tipoCambio == clp
  {
    clp / tipoCambio
  }

  // Messages of `validarDatosCalculo`, in the order it checks.
  const MSG_INGRESOS := "Los ingresos deseados deben ser mayores a 0"
  const MSG_DIAS := "Los días trabajados deben estar entre 1 y 31"
  const MSG_HORAS := "Las horas por día deben estar entre 1 y 24"
  const MSG_GASTOS := "Los gastos fijos no pueden ser negativos"

  /** Position of a message in the order the validator checks. */
  function Orden(m: string): int
  {
    if m == MSG_INGRESOS then 0
    else if m == MSG_DIAS then 1
    else if m == MSG_HORAS then 2
    else if m == MSG_GASTOS then 3
    else 4
  }

  /** The four messages are told apart by their fifth character, so each
      has its own position. */
  lemma OrdenDeLosMensajes()
    ensures Orden(MSG_INGRESOS) == 0 && Orden(MSG_DIAS) == 1
    ensures Orden(MSG_HORAS) == 2 && Orden(MSG_GASTOS) == 3
  {
    assert MSG_INGRESOS[4] == 'i' && MSG_DIAS[4] == 'd';
    assert MSG_HORAS[4] == 'h' && MSG_GASTOS[4] == 'g';
  }

  /** `[m]` when the check fails, nothing otherwise. */
  function Si(falla: bool, m: string): seq<string>
  {
    if falla then [m] else []
  }

  /** The list the four checks build holds the message of each failed check
      and nothing else, in checking order. */
  lemma ListaDeErrores(a: bool, b: bool, c: bool, g: bool, e: seq<string>)
    requires e == Si(a, MSG_INGRESOS) + Si(b, MSG_DIAS) + Si(c, MSG_HORAS) + Si(g, MSG_GASTOS)
    ensures e == [] <==> !a && !b && !c && !g
    ensures MSG_INGRESOS in e <==> a
    ensures MSG_DIAS in e <==> b
    ensures MSG_HORAS in e <==> c
    ensures MSG_GASTOS in e <==> g
    ensures forall i :: 0 <= i < |e| ==> Orden(e[i]) < 4
    ensures forall i, j :: 0 <= i < j < |e| ==> Orden(e[i]) < Orden(e[j])
  {
    OrdenDeLosMensajes();
    EnOrden(a, b, c, g, e);
  }

  lemma EnOrden(a: bool, b: bool, c: bool, g: bool, e: seq<string>)
    requires Orden(MSG_INGRESOS) == 0 && Orden(MSG_DIAS) == 1
    requires Orden(MSG_HORAS) == 2 && Orden(MSG_GASTOS) == 3
    requires e == Si(a, MSG_INGRESOS) + Si(b, MSG_DIAS) + Si(c, MSG_HORAS) + Si(g, MSG_GASTOS)
    ensures forall i :: 0 <= i < |e| ==> Orden(e[i]) < 4
    ensures forall i, j :: 0 <= i < j < |e| ==> Orden(e[i]) < Orden(e[j])
  {
  }

  /** The inputs `validarDatosCalculo` accepts. */
  predicate DatosValidos(d: DatosCalculo)
  {
    && d.ingresosDeseados > 0.0
    && 0.0 < d.diasTrabajados <= 31.0
    && 0.0 < d.horasPorDia <= 24.0
    && d.gastosFijos >= 0.0
  }

  /** `validarDatosCalculo`: appends one message per failed check. */
  method ValidarDatosCalculo(d: DatosCalculo) returns (esValido: bool, errores: seq<string>)
    ensures esValido <==> errores == []
    ensures esValido <==> DatosValidos(d)
    ensures MSG_INGRESOS in errores <==> d.ingresosDeseados <= 0.0
    ensures MSG_DIAS in errores <==> (d.diasTrabajados <= 0.0 || d.diasTrabajados > 31.0)
    ensures MSG_HORAS in errores <==> (d.horasPorDia <= 0.0 || d.horasPorDia > 24.0)
    ensures MSG_GASTOS in errores <==> d.gastosFijos < 0.0
    // only those messages, each once, in checking order
    ensures forall i :: 0 <= i < |errores| ==> Orden(errores[i]) < 4
    ensures forall i, j :: 0 <= i < j < |errores| ==> Orden(errores[i]) < Orden(errores[j])
  {
    errores := [];
    if d.ingresosDeseados <= 0.0 {
      errores := errores + [MSG_INGRESOS];
    }
    if d.diasTrabajados <= 0.0 || d.diasTrabajados > 31.0 {
      errores := errores + [MSG_DIAS];
    }
    if d.horasPorDia <= 0.0 || d.horasPorDia > 24.0 {
      errores := errores + [MSG_HORAS];
    }
    if d.gastosFijos < 0.0 {
      errores := errores + [MSG_GASTOS];
    }
    ListaDeErrores(d.ingresosDeseados <= 0.0, d.diasTrabajados <= 0.0 || d.diasTrabajados > 31.0,
                   d.horasPorDia <= 0.0 || d.horasPorDia > 24.0, d.gastosFijos < 0.0, errores);
    esValido := |errores| == 0;
  }

  // ---------------------------------------------------------------------
  // Properties of the formulas

  /** `calcularTarifaHora`'s net income plus its rounded breakdown is within
      3/2 of the gross amount it started from; the unrounded breakdown adds
      up to it exactly. */
  lemma IdentidadContable(d: DatosCalculo)
    requires HorasMensuales(d) != 0.0
    ensures var b := d.ingresosDeseados + d.gastosFijos;
      b + b * IVA + b * RETENCION_BOLETA + b * COTIZACION_SALUD == IngresosBrutosTotales(d)
    ensures var r := CalcularTarifaHora(d);
      var suma := r.ingresosNetos + (r.desglose.iva + r.desglose.retencion + r.desglose.cotizacionSalud) as real
                  + r.desglose.gastosFijos;
      -1.5 <= suma - IngresosBrutosTotales(d) <= 1.5
  {
    var b := d.ingresosDeseados + d.gastosFijos;
    var r := CalcularTarifaHora(d);
    assert -0.5 <= r.desglose.iva as real - b * 0.19 <= 0.5;
    assert -0.5 <= r.desglose.retencion as real - b * 0.1375 <= 0.5;
    assert -0.5 <= r.desglose.cotizacionSalud as real - b * 0.07 <= 0.5;
  }

  /** The 40-hour price is rounded from the unrounded hourly rate, so it is not
      40 times the rounded rate: 1,500,000 CLP wanted, 20 days of 8 hours and
      300,000 CLP of expenses give 15722 per hour but 628875, not 628880. */
  lemma ProyectoDesdeTarifaSinRedondear()
    ensures var r := CalcularTarifaHora(DatosCalculo(1500000.0, 20.0, 8.0, 300000.0));
      && r.tarifaHora == 15722
      && r.tarifaProyecto == 628875
      && r.tarifaProyecto != 40 * r.tarifaHora
      && r.desglose == Desglose(342000, 247500, 126000, 300000.0)
  {
    var d := DatosCalculo(1500000.0, 20.0, 8.0, 300000.0);
    assert IngresosBrutosTotales(d) / HorasMensuales(d) == 15721.875;
    assert Round(15721.875) == 15722;
    assert Round(628875.0) == 628875;
  }

  /** The form's default inputs priced by `calcularTarifa`. */
  lemma ValoresPorDefecto()
    ensures var r := CalcularTarifa(DatosCalculo(1500000.0, 20.0, 8.0, 300000.0));
      r.tarifaHora == 13812 && r.tarifaProyecto == 552488
  {
    var d := DatosCalculo(1500000.0, 20.0, 8.0, 300000.0);
    assert (d.ingresosDeseados * 1.2733 + d.gastosFijos) / HorasMensuales(d) == 13812.1875;
    assert Round(13812.1875) == 13812;
    assert Round(552487.5) == 552488;
  }

  lemma CocienteMonotono(n1: real, n2: real, h1: real, h2: real)
    requires 0.0 <= n1 <= n2
    requires 0.0 < h2 <= h1
    ensures n1 / h1 <= n2 / h2
  {
    var a := n1 / h1;
    var b := n1 / h2;
    assert a * h1 == n1 && b * h2 == n1;
    assert a >= 0.0;
    assert a * h2 <= a * h1;
    assert b * h2 >= a * h2;
    assert b >= a;
    assert n1 / h2 <= n2 / h2;
  }

  lemma ProductoMonotono(a1: real, a2: real, b1: real, b2: real)
    requires 0.0 < a2 <= a1
    requires 0.0 < b2 <= b1
    ensures 0.0 < a2 * b2 <= a1 * b1
  {
    assert a2 * b2 <= a1 * b2;
    assert a1 * b2 <= a1 * b1;
  }

  /** Both formulas ask more per hour for more income or more expenses and
      less per hour for more days or more hours per day (for valid inputs). */
  lemma TarifasMonotonas(d1: DatosCalculo, d2: DatosCalculo)
    requires 0.0 <= d1.ingresosDeseados <= d2.ingresosDeseados
    requires 0.0 <= d1.gastosFijos <= d2.gastosFijos
    requires 0.0 < d2.diasTrabajados <= d1.diasTrabajados
    requires 0.0 < d2.horasPorDia <= d1.horasPorDia
    ensures HorasMensuales(d1) > 0.0 && HorasMensuales(d2) > 0.0
    ensures CalcularTarifa(d1).tarifaHora <= CalcularTarifa(d2).tarifaHora
    ensures CalcularTarifaHora(d1).tarifaHora <= CalcularTarifaHora(d2).tarifaHora
  {
    ProductoMonotono(d1.diasTrabajados, d2.diasTrabajados, d1.horasPorDia, d2.horasPorDia);
    var h1, h2 := HorasMensuales(d1), HorasMensuales(d2);
    CocienteMonotono(d1.ingresosDeseados * 1.2733 + d1.gastosFijos,
                     d2.ingresosDeseados * 1.2733 + d2.gastosFijos, h1, h2);
    RoundMonotone((d1.ingresosDeseados * 1.2733 + d1.gastosFijos) / h1,
                  (d2.ingresosDeseados * 1.2733 + d2.gastosFijos) / h2);
    CocienteMonotono((d1.ingresosDeseados + d1.gastosFijos) * 1.3975,
                     (d2.ingresosDeseados + d2.gastosFijos) * 1.3975, h1, h2);
    RoundMonotone((d1.ingresosDeseados + d1.gastosFijos) * 1.3975 / h1,
                  (d2.ingresosDeseados + d2.gastosFijos) * 1.3975 / h2);
  }

  /** For valid inputs `calcularTarifa` (used by the main form) never asks more
      per hour than `calcularTarifaHora`: it leaves retention out of the rate
      and does not tax the expenses. */
  lemma TarifaNoExcedeTarifaHora(d: DatosCalculo)
    requires d.ingresosDeseados >= 0.0 && d.gastosFijos >= 0.0
    requires HorasMensuales(d) > 0.0
    ensures CalcularTarifa(d).tarifaHora <= CalcularTarifaHora(d).tarifaHora
  {
    var h := HorasMensuales(d);
    CocienteMonotono(d.ingresosDeseados * 1.2733 + d.gastosFijos,
                     (d.ingresosDeseados + d.gastosFijos) * 1.3975, h, h);
    RoundMonotone((d.ingresosDeseados * 1.2733 + d.gastosFijos) / h,
                  (d.ingresosDeseados + d.gastosFijos) * 1.3975 / h);
  }

  /** The validator accepts fractional hours below 1, although its message
      speaks of 1 to 24 hours. */
  lemma MediaHoraEsValida()
    ensures DatosValidos(DatosCalculo(1.0, 1.0, 0.5, 0.0))
  {
  }
}
