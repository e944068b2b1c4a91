/** The income-flow summary: total deductions and the gross income shown
    above them. */
module ResumenFlujo {
  import opened Common
  import opened Calculos

  /** `totalDescuentos`: taxes plus fixed expenses. */
  function TotalDescuentos(desglose: Desglose): (r: real)
    ensures r - desglose.gastosFijos
      == (desglose.iva + desglose.retencion + desglose.cotizacionSalud) as real
  {
    desglose.iva as real + desglose.retencion as real + desglose.cotizacionSalud as real + desglose.gastosFijos
  }

  /** `ingresoBruto`: the override whenever one is given (zero included),
      otherwise net income plus deductions. */
  function IngresoBruto(ingresosNetos: real, desglose: Desglose, override: Option<real>): (r: real)
    ensures override.Some? ==> r == override.value
    ensures override.None? ==> r - TotalDescuentos(desglose) == ingresosNetos
  {
    match override
    case Some(v) => v
    case None => ingresosNetos + TotalDescuentos(desglose)
  }
}
