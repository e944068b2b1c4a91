/** The calculator form: field validation, whole-form validation, the
    project-field change handler, the submit guard and the result computed
    in hourly or project mode. */
module Formulario {
  import opened Common
  import opened Calculos
  import opened ResumenFlujo

  datatype Campo = IngresosDeseados | DiasTrabajados | HorasPorDia | GastosFijos | Titulo

  /** The form's inputs: the engine's inputs plus a title. */
  datatype DatosConTitulo = DatosConTitulo(calculo: DatosCalculo, titulo: string)

  /** The keys of the form's inputs, in the order `Object.keys` lists them. */
  const CAMPOS: seq<Campo> := [IngresosDeseados, DiasTrabajados, HorasPorDia, GastosFijos, Titulo]

  const MSG_TITULO := "El título debe tener al menos 3 caracteres"
  const MSG_INGRESOS_INVALIDOS := "Los ingresos deben ser mayores a 0"
  const MSG_INGRESOS_MAXIMO := "Los ingresos no pueden superar los 100 millones CLP"
  const MSG_DIAS_INVALIDOS := "Los días trabajados deben estar entre 1 y 31"
  const MSG_HORAS_INVALIDAS := "Las horas por día deben estar entre 1 y 24"
  const MSG_GASTOS_INVALIDOS := "Los gastos fijos no pueden ser negativos"
  const MSG_GASTOS_MAXIMO := "Los gastos fijos no pueden superar los 10 millones CLP"

  /** `validarCampo` for the current value of `campo`. */
  function ValidarCampo(campo: Campo, d: DatosConTitulo): (r: Option<string>)
    ensures campo == Titulo ==> (r.Some? <==> LargoUtf16(Trim(d.titulo)) < 3)
    ensures campo == IngresosDeseados ==>
      (r.Some? <==> d.calculo.ingresosDeseados <= 0.0 || d.calculo.ingresosDeseados > 100000000.0)
    ensures campo == DiasTrabajados ==>
      (r.Some? <==> d.calculo.diasTrabajados <= 0.0 || d.calculo.diasTrabajados > 31.0)
    ensures campo == HorasPorDia ==>
      (r.Some? <==> d.calculo.horasPorDia <= 0.0 || d.calculo.horasPorDia > 24.0)
    ensures campo == GastosFijos ==>
      (r.Some? <==> d.calculo.gastosFijos < 0.0 || d.calculo.gastosFijos > 10000000.0)
    ensures r.Some? ==> r.value != ""
  {
    match campo
    case Titulo =>
      if d.titulo == "" || LargoUtf16(Trim(d.titulo)) < 3 then Some(MSG_TITULO) else None
    case IngresosDeseados =>
      var v := d.calculo.ingresosDeseados;
      if v <= 0.0 then Some(MSG_INGRESOS_INVALIDOS)
      else if v > 100000000.0 then Some(MSG_INGRESOS_MAXIMO)
      else None
    case DiasTrabajados =>
      var v := d.calculo.diasTrabajados;
      if v <= 0.0 || v > 31.0 then Some(MSG_DIAS_INVALIDOS) else None
    case HorasPorDia =>
      var v := d.calculo.horasPorDia;
      if v <= 0.0 || v > 24.0 then Some(MSG_HORAS_INVALIDAS) else None
    case GastosFijos =>
      var v := d.calculo.gastosFijos;
      if v < 0.0 then Some(MSG_GASTOS_INVALIDOS)
      else if v > 10000000.0 then Some(MSG_GASTOS_MAXIMO)
      else None
  }

  /** The title and the project name are measured as JavaScript measures
      them, in UTF-16 code units: two emoji make a long enough title and
      name, and two letters do not. */
  lemma DosEmojisBastan(d: DatosCalculo)
    ensures ValidarCampo(Titulo, DatosConTitulo(d, "\U{1F600}\U{1F600}")).None?
    ensures ValidarCampoProyecto(Nombre, Entrada("\U{1F600}\U{1F600}", NaN)).None?
    ensures ValidarCampo(Titulo, DatosConTitulo(d, "ab")).Some?
  {
    var e := "\U{1F600}\U{1F600}";
    DosEmojisSonCuatroUnidades();
    TrimSinBordes(e);
    TrimSinBordes("ab");
  }

  /** A project field as typed: its text and what `Number(text)` makes of it. */
  datatype Entrada = Entrada(texto: string, numero: JsNum)

  const VACIA := Entrada("", Num(0.0))

  datatype CampoProyecto =
    Nombre | Descripcion | Duracion | HorasTotales | Entregables | Revisiones | TipoCliente | Presupuesto

  datatype Proyecto = Proyecto(
    nombre: Entrada, descripcion: Entrada, duracion: Entrada, horasTotales: Entrada,
    entregables: Entrada, revisiones: Entrada, tipoCliente: Entrada, presupuesto: Entrada)
  {
    function Get(c: CampoProyecto): Entrada
    {
      match c
      case Nombre => nombre
      case Descripcion => descripcion
      case Duracion => duracion
      case HorasTotales => horasTotales
      case Entregables => entregables
      case Revisiones => revisiones
      case TipoCliente => tipoCliente
      case Presupuesto => presupuesto
    }

    /** `{ ...proyecto, [campo]: valor }` */
    function Set(c: CampoProyecto, v: Entrada): (p: Proyecto)
      ensures p.Get(c) == v
      ensures forall o :: o != c ==> p.Get(o) == Get(o)
    {
      match c
      case Nombre => this.(nombre := v)
      case Descripcion => this.(descripcion := v)
      case Duracion => this.(duracion := v)
      case HorasTotales => this.(horasTotales := v)
      case Entregables => this.(entregables := v)
      case Revisiones => this.(revisiones := v)
      case TipoCliente => this.(tipoCliente := v)
      case Presupuesto => this.(presupuesto := v)
    }
  }

  const PROYECTO_VACIO := Proyecto(VACIA, VACIA, VACIA, VACIA, VACIA, VACIA, VACIA, VACIA)

  /** The project fields checked when the form is submitted in project mode. */
  const CAMPOS_REQUERIDOS: seq<CampoProyecto> := [Nombre, HorasTotales, Duracion, Entregables]

  // Comparisons of a JavaScript number with a constant: false for NaN.
  predicate NumLe(n: JsNum, x: real) { n.Num? && n.v <= x }
  predicate NumLt(n: JsNum, x: real) { n.Num? && n.v < x }
  predicate NumGt(n: JsNum, x: real) { n.Num? && n.v > x }

  /** `validarCampoProyecto` */
  function ValidarCampoProyecto(campo: CampoProyecto, valor: Entrada): (r: Option<string>)
    ensures campo == Nombre ==> (r.None? <==> LargoUtf16(Trim(valor.texto)) >= 3)
    ensures campo == HorasTotales ==>
      (r.None? <==> valor.texto != "" && (valor.numero.NaN? || 0.0 < valor.numero.v <= 1000.0))
    ensures campo == Duracion ==>
      (r.None? <==> valor.texto != "" && (valor.numero.NaN? || 0.0 < valor.numero.v <= 365.0))
    ensures campo == Entregables ==>
      (r.None? <==> valor.texto != "" && !NumLe(valor.numero, 0.0))
    // an empty budget or revision count is not checked
    ensures campo in {Revisiones, Presupuesto} && valor.texto == "" ==> r.None?
    ensures campo == Revisiones && valor.texto != "" ==> (r.None? <==> !NumLt(valor.numero, 0.0))
    ensures campo == Presupuesto && valor.texto != "" ==>
      (r.None? <==> (valor.numero.NaN? || 0.0 <= valor.numero.v <= 100000000.0))
    ensures campo in {Descripcion, TipoCliente} ==> r.None?
    ensures r.Some? ==> r.value != ""
  {
    var vacio := valor.texto == "";
    match campo
    case Nombre =>
      if vacio || LargoUtf16(Trim(valor.texto)) < 3 then Some(MSG_NOMBRE) else None
    case HorasTotales =>
      if vacio || NumLe(valor.numero, 0.0) then Some(MSG_HORAS_TOTALES)
      else if NumGt(valor.numero, 1000.0) then Some(MSG_HORAS_TOTALES_MAXIMO)
      else None
    case Duracion =>
      if vacio || NumLe(valor.numero, 0.0) then Some(MSG_DURACION)
      else if NumGt(valor.numero, 365.0) then Some(MSG_DURACION_MAXIMA)
      else None
    case Entregables =>
      if vacio || NumLe(valor.numero, 0.0) then Some(MSG_ENTREGABLES) else None
    case Revisiones =>
      if !vacio && NumLt(valor.numero, 0.0) then Some(MSG_REVISIONES) else None
    case Presupuesto =>
      if !vacio && NumLt(valor.numero, 0.0) then Some(MSG_PRESUPUESTO)
      else if !vacio && NumGt(valor.numero, 100000000.0) then Some(MSG_PRESUPUESTO_MAXIMO)
      else None
    case Descripcion => None
    case TipoCliente => None
  }

  const MSG_NOMBRE := "El nombre del proyecto debe tener al menos 3 caracteres"
  const MSG_HORAS_TOTALES := "Las horas totales deben ser mayores a 0"
  const MSG_HORAS_TOTALES_MAXIMO := "Las horas totales no pueden superar las 1000 horas"
  const MSG_DURACION := "La duración debe ser mayor a 0 días"
  const MSG_DURACION_MAXIMA := "La duración no puede superar los 365 días"
  const MSG_ENTREGABLES := "El número de entregables debe ser mayor a 0"
  const MSG_REVISIONES := "Las revisiones no pueden ser negativas"
  const MSG_PRESUPUESTO := "El presupuesto no puede ser negativo"
  const MSG_PRESUPUESTO_MAXIMO := "El presupuesto no puede superar los 100 millones CLP"

  /** The error map `validarFormulario` builds for the basic fields. */
  function ErroresDatos(d: DatosConTitulo): map<Campo, string>
  {
    map c | c in CAMPOS && ValidarCampo(c, d).Some? :: ValidarCampo(c, d).value
  }

  /** The errors `validarFormulario` adds for the required project fields. */
  function ErroresRequeridos(p: Proyecto): map<CampoProyecto, string>
  {
    map c | c in CAMPOS_REQUERIDOS && ErrorDe(p, c).Some? :: ErrorDe(p, c).value
  }

  /** The error of one field of a project. */
  function ErrorDe(p: Proyecto, c: CampoProyecto): Option<string>
  {
    ValidarCampoProyecto(c, p.Get(c))
  }

  /** `Object.values(m).some(Boolean)` */
  predicate HayErrores<K>(m: map<K, string>)
  {
    exists k :: k in m && m[k] != ""
  }

  /** `proyectoValido` */
  predicate ProyectoValido(modoProyecto: bool, p: Proyecto)
  {
    !modoProyecto ||
      (LargoUtf16(Trim(p.nombre.texto)) >= 3 && NumGt(p.horasTotales.numero, 0.0)
       && NumGt(p.duracion.numero, 0.0) && NumGt(p.entregables.numero, 0.0))
  }

  /** `formularioValido`, the guard of the submit button. */
  predicate FormularioValidoDe(d: DatosConTitulo, p: Proyecto, modoProyecto: bool,
                               errores: map<Campo, string>, erroresProyecto: map<CampoProyecto, string>)
  {
    && !HayErrores(errores)
    && !HayErrores(erroresProyecto)
    && d.calculo.ingresosDeseados > 0.0
    && d.calculo.diasTrabajados > 0.0
    && d.calculo.horasPorDia > 0.0
    && d.calculo.gastosFijos >= 0.0
    && LargoUtf16(Trim(d.titulo)) >= 3
    && ProyectoValido(modoProyecto, p)
  }

  /** When the submit guard holds over the errors of the last whole-form
      validation, the inputs pass `validarDatosCalculo` and the monthly hours
      are positive, so the engine is never asked to divide by zero. */
  lemma ValidoImplicaCalculable(d: DatosConTitulo, p: Proyecto, modoProyecto: bool,
                                erroresProyecto: map<CampoProyecto, string>)
    requires FormularioValidoDe(d, p, modoProyecto, ErroresDatos(d), erroresProyecto)
    ensures DatosValidos(d.calculo)
    ensures HorasMensuales(d.calculo) > 0.0
  {
    SinErroresDeCampo(d, DiasTrabajados);
    SinErroresDeCampo(d, HorasPorDia);
    HorasPositivas(d.calculo);
  }

  /** Valid inputs give a positive number of monthly hours. */
  lemma HorasPositivas(c: DatosCalculo)
    requires DatosValidos(c)
    ensures HorasMensuales(c) > 0.0
  {
    ProductoMonotono(c.diasTrabajados, c.diasTrabajados, c.horasPorDia, c.horasPorDia);
  }

  /** A basic field with no message in the error map passes its validator. */
  lemma SinErroresDeCampo(d: DatosConTitulo, c: Campo)
    requires !HayErrores(ErroresDatos(d)) && c in CAMPOS
    ensures ValidarCampo(c, d).None?
  {
    ErrorPresente(d, c);
  }

  /** A basic field its validator rejects shows up as a message. */
  lemma ErrorPresente(d: DatosConTitulo, c: Campo)
    requires c in CAMPOS
    ensures ValidarCampo(c, d).Some? ==> HayErrores(ErroresDatos(d))
  {
    if ValidarCampo(c, d).Some? {
      var e := ErroresDatos(d);
      assert c in e && e[c] != "";
    }
  }

  // ---------------------------------------------------------------------
  // The result of the calculation

  datatype Analisis = Analisis(
    precioRecomendado: int,
    ganancia: real,
    rentabilidad: real,
    tarifaHoraNecesaria: int,
    horasTotales: real)

  datatype ResultadoFormulario =
    | PorHora(calculo: ResultadoCalculo)
    | PorProyecto(tarifaHora: int, tarifaProyecto: real, ingresosNetos: real,
                  desglose: Desglose, analisis: Analisis)

  /** `Number(proyecto.horasTotales) || 1` */
  function HorasDelProyecto(p: Proyecto): (h: real)
    ensures h != 0.0
    ensures !Truthy(p.horasTotales.numero) ==> h == 1.0
  {
    OrDefault(p.horasTotales.numero, 1.0)
  }

  /** `Number(proyecto.presupuesto) || 0` */
  function PresupuestoDelProyecto(p: Proyecto): real
  {
    OrDefault(p.presupuesto.numero, 0.0)
  }

  /** `calcularResultado` */
  function CalcularResultado(modoProyecto: bool, d: DatosConTitulo, p: Proyecto): (r: ResultadoFormulario)
    requires HorasMensuales(d.calculo) != 0.0
    // hourly mode is exactly `calcularTarifa`, not `calcularTarifaHora`
    ensures !modoProyecto ==> r == PorHora(CalcularTarifa(d.calculo))
    // project mode starts from the hourly rate `calcularTarifa` asks for
    ensures modoProyecto ==>
      r == ArmarProyecto(CalcularTarifa(d.calculo).tarifaHora, HorasDelProyecto(p),
                         PresupuestoDelProyecto(p), d.calculo.gastosFijos)
  {
    if !modoProyecto then PorHora(CalcularTarifa(d.calculo))
    else
      ArmarProyecto(CalcularTarifa(d.calculo).tarifaHora, HorasDelProyecto(p),
                    PresupuestoDelProyecto(p), d.calculo.gastosFijos)
  }

  /** The project figures from the rate the desired income needs, the
      project's hours, its budget (zero or less for none) and the fixed
      expenses. */
  function ArmarProyecto(tarifaHoraNecesaria: int, horasTotales: real, presupuestoProyecto: real,
                         gastosFijos: real): (r: ResultadoFormulario)
    requires horasTotales != 0.0
    ensures r.PorProyecto?
    ensures
      var a := r.analisis;
      && a.horasTotales == horasTotales
      && a.tarifaHoraNecesaria == tarifaHoraNecesaria
      && a.precioRecomendado == Round(tarifaHoraNecesaria as real * horasTotales)
      && r.tarifaProyecto == (if presupuestoProyecto > 0.0 then presupuestoProyecto else a.precioRecomendado as real)
      && r.ingresosNetos + TotalDescuentos(r.desglose) == r.tarifaProyecto
      // the taxes are levied on the project amount, not on the desired income
      && r.desglose.iva == Round(r.tarifaProyecto * 0.19)
      && r.desglose.retencion == Round(r.tarifaProyecto * 0.1375)
      && r.desglose.cotizacionSalud == Round(r.tarifaProyecto * 0.07)
      && r.desglose.gastosFijos == gastosFijos
      && (presupuestoProyecto > 0.0 ==>
            && a.ganancia == presupuestoProyecto - a.precioRecomendado as real
            && a.rentabilidad * presupuestoProyecto == a.ganancia * 100.0
            && r.tarifaHora == Round(presupuestoProyecto / horasTotales))
      && (presupuestoProyecto <= 0.0 ==>
            a.ganancia == 0.0 && a.rentabilidad == 0.0 && r.tarifaHora == tarifaHoraNecesaria)
  {
    var precioRecomendado := Round(tarifaHoraNecesaria as real * horasTotales);
    var montoProyecto := if presupuestoProyecto > 0.0 then presupuestoProyecto else precioRecomendado as real;
    var iva := Round(montoProyecto * 0.19);
    var retencion := Round(montoProyecto * 0.1375);
    var cotizacionSalud := Round(montoProyecto * 0.07);
    var totalImpuestosYGastos := iva as real + retencion as real + cotizacionSalud as real + gastosFijos;
    var ingresosNetos := montoProyecto - totalImpuestosYGastos;
    var ganancia := if presupuestoProyecto > 0.0 then presupuestoProyecto - precioRecomendado as real else 0.0;
    var rentabilidad := if presupuestoProyecto > 0.0 then Porcentaje(ganancia, presupuestoProyecto) else 0.0;
    var tarifaHoraEfectiva :=
      if presupuestoProyecto > 0.0 then PrecioPorHora(presupuestoProyecto, horasTotales) else tarifaHoraNecesaria as real;
    PorProyecto(
      Round(tarifaHoraEfectiva),
      montoProyecto,
      ingresosNetos,
      Desglose(iva, retencion, cotizacionSalud, gastosFijos),
      Analisis(precioRecomendado, ganancia, rentabilidad, tarifaHoraNecesaria, horasTotales))
  }

  /** `g / p * 100`: the share of `g` in `p`, as a percentage. */
  function Porcentaje(g: real, p: real): (x: real)
    requires p != 0.0
    ensures x * p == g * 100.0
  {
    assert g / p * p == g;
    g / p * 100.0
  }

  /** `presupuestoProyecto / horasTotales`: the hourly rate a budget pays
      for the project's hours. */
  function PrecioPorHora(presupuesto: real, horas: real): (x: real)
    requires horas != 0.0
    ensures x * horas == presupuesto
    ensures presupuesto > 0.0 && horas > 0.0 ==> x > 0.0
  {
    presupuesto / horas
  }

  /** A budget equal to the recommended price gives zero profit and zero
      profitability. */
  lemma NeutralidadDelPresupuesto(d: DatosConTitulo, p: Proyecto)
    requires HorasMensuales(d.calculo) != 0.0
    requires PresupuestoDelProyecto(p) == CalcularResultado(true, d, p).analisis.precioRecomendado as real
    ensures CalcularResultado(true, d, p).analisis.ganancia == 0.0
    ensures CalcularResultado(true, d, p).analisis.rentabilidad == 0.0
  {
    var a := CalcularResultado(true, d, p).analisis;
    var presupuesto := PresupuestoDelProyecto(p);
    if presupuesto > 0.0 {
      assert a.ganancia == 0.0;
      assert a.rentabilidad * presupuesto == 0.0;
    }
  }

  /** With valid inputs and a positive hour count the recommended price is not
      negative, so profitability never exceeds 100 percent; net income, on
      the other hand, is not clamped and goes negative when the fixed expenses
      exceed what is left of the project amount. */
  lemma RentabilidadAcotada(d: DatosConTitulo, p: Proyecto)
    requires DatosValidos(d.calculo)
    requires NumGt(p.horasTotales.numero, 0.0)
    ensures HorasMensuales(d.calculo) > 0.0
    ensures CalcularResultado(true, d, p).analisis.precioRecomendado >= 0
    ensures CalcularResultado(true, d, p).analisis.rentabilidad <= 100.0
  {
    var c := d.calculo;
    assert HorasMensuales(c) > 0.0;
    var num := c.ingresosDeseados * 1.2733 + c.gastosFijos;
    assert num / HorasMensuales(c) >= 0.0;
    var r := CalcularResultado(true, d, p);
    var a := r.analisis;
    assert a.tarifaHoraNecesaria >= 0;
    assert a.tarifaHoraNecesaria as real * HorasDelProyecto(p) >= 0.0;
    var presupuesto := PresupuestoDelProyecto(p);
    if presupuesto > 0.0 {
      assert a.ganancia <= presupuesto;
      CocienteHastaUno(a.ganancia, presupuesto);
    }
  }

  lemma CocienteHastaUno(x: real, p: real)
    requires p > 0.0 && x <= p
    ensures x / p * 100.0 <= 100.0
  {
    if x >= 0.0 {
      CocienteMonotono(x, p, p, p);
    } else {
      assert x / p < 0.0;
    }
  }

  /** Net income in project mode is not clamped: a 1,000 CLP budget against
      300,000 CLP of fixed expenses leaves a negative net. */
  lemma IngresosNetosPuedenSerNegativos()
    ensures var d := DatosConTitulo(DatosCalculo(1500000.0, 20.0, 8.0, 300000.0), "Web");
      var p := PROYECTO_VACIO.(horasTotales := Entrada("10", Num(10.0)), presupuesto := Entrada("1000", Num(1000.0)));
      CalcularResultado(true, d, p).ingresosNetos < 0.0
  {
  }

  /** Fed the project result with `tarifaProyecto` as override, the income-flow
      summary still satisfies gross minus deductions equals net. */
  lemma ResumenCuadraEnModoProyecto(d: DatosConTitulo, p: Proyecto)
    requires HorasMensuales(d.calculo) != 0.0
    ensures var r := CalcularResultado(true, d, p);
      IngresoBruto(r.ingresosNetos, r.desglose, Some(r.tarifaProyecto)) - TotalDescuentos(r.desglose)
        == r.ingresosNetos
  {
  }

  /** Fed the hourly result without an override, the income-flow summary
      shows the desired income as net, and a gross that is the desired income
      grossed up by all three rates plus the expenses (up to the rounding of
      the three taxes), although the rate only charges the desired income
      grossed up by VAT and health plus the expenses. */
  lemma ResumenEnModoHora(d: DatosConTitulo, p: Proyecto)
    requires HorasMensuales(d.calculo) != 0.0
    ensures var r := CalcularResultado(false, d, p).calculo;
      var bruto := IngresoBruto(r.ingresosNetos, r.desglose, None);
      && bruto - TotalDescuentos(r.desglose) == d.calculo.ingresosDeseados
      && -1.5 <= bruto - (d.calculo.ingresosDeseados * 1.3975 + d.calculo.gastosFijos) <= 1.5
  {
    var c := d.calculo;
    var r := CalcularTarifa(c);
    assert -0.5 <= r.desglose.iva as real - c.ingresosDeseados * 0.19 <= 0.5;
    assert -0.5 <= r.desglose.retencion as real - c.ingresosDeseados * 0.1375 <= 0.5;
    assert -0.5 <= r.desglose.cotizacionSalud as real - c.ingresosDeseados * 0.07 <= 0.5;
  }

  /** The hourly mode prices with `calcularTarifa`, not `calcularTarifaHora`:
      on the form's default inputs it asks 13812 per hour where
      `calcularTarifaHora` asks 15722. */
  lemma ModoHoraNoEsTarifaHora(titulo: string, p: Proyecto)
    ensures var d := DatosConTitulo(DatosCalculo(1500000.0, 20.0, 8.0, 300000.0), titulo);
      && CalcularResultado(false, d, p).calculo.tarifaHora == 13812
      && CalcularTarifaHora(d.calculo).tarifaHora == 15722
  {
    ValoresPorDefecto();
    ProyectoDesdeTarifaSinRedondear();
  }

  /** A map holding exactly the messages of the basic fields' validator is
      the basic error map. */
  lemma SonErroresDatos(d: DatosConTitulo, m: map<Campo, string>, validar: Campo -> Option<string>)
    requires forall c :: validar(c) == ValidarCampo(c, d)
    requires forall c :: c in m <==> c in CAMPOS && validar(c).Some?
    requires forall c :: c in m ==> m[c] == validar(c).value
    ensures m == ErroresDatos(d)
  {
  }

  /** The same for the required project fields. */
  lemma SonErroresRequeridos(p: Proyecto, m: map<CampoProyecto, string>, validar: CampoProyecto -> Option<string>)
    requires forall c :: validar(c) == ErrorDe(p, c)
    requires forall c :: c in m <==> c in CAMPOS_REQUERIDOS && validar(c).Some?
    requires forall c :: c in m ==> m[c] == validar(c).value
    ensures m == ErroresRequeridos(p)
  {
  }

  /** The `forEach` of `validarFormulario`: runs `validar` over `claves` in
      order, records every message it returns under its key and clears the
      validity flag on the first one. */
  method RecolectarErrores<K>(claves: seq<K>, validar: K -> Option<string>)
    returns (errores: map<K, string>, esValido: bool)
    ensures forall c :: c in errores <==> c in claves && validar(c).Some?
    ensures forall c :: c in errores ==> errores[c] == validar(c).value
    ensures esValido <==> errores == map[]
  {
    errores := map[];
    esValido := true;
    var i := 0;
    while i < |claves|
      invariant 0 <= i <= |claves|
      invariant forall c :: c in errores <==> c in claves[..i] && validar(c).Some?
      invariant forall c :: c in errores ==> errores[c] == validar(c).value
      invariant esValido <==> errores == map[]
    {
      var campo := claves[i];
      var error := validar(campo);
      if error.Some? {
        errores := errores[campo := error.value];
        esValido := false;
      }
      assert claves[..i + 1] == claves[..i] + [campo];
      i := i + 1;
    }
    assert claves[..i] == claves;
  }

  // ---------------------------------------------------------------------
  // The form's state and its handlers

  class Formulario {
    var datos: DatosConTitulo
    var proyecto: Proyecto
    var modoProyecto: bool
    var errores: map<Campo, string>
    var erroresProyecto: map<CampoProyecto, string>

    /** The form as first shown: default inputs, empty title and project. */
    constructor ()
      ensures datos == DatosConTitulo(DatosCalculo(1500000.0, 20.0, 8.0, 300000.0), "")
      ensures proyecto == PROYECTO_VACIO && !modoProyecto
      ensures errores == map[] && erroresProyecto == map[]
    {
      datos := DatosConTitulo(DatosCalculo(1500000.0, 20.0, 8.0, 300000.0), "");
      proyecto := PROYECTO_VACIO;
      modoProyecto := false;
      errores := map[];
      erroresProyecto := map[];
    }

    /** `formularioValido` */
    predicate FormularioValido()
      reads this
    {
      FormularioValidoDe(datos, proyecto, modoProyecto, errores, erroresProyecto)
    }

    /** `validarFormulario`: replaces the basic-field errors by those of the
        current inputs; in project mode adds (never removes) the errors of the
        required project fields. */
    method ValidarFormulario() returns (esValido: bool)
      modifies this`errores, this`erroresProyecto
      ensures errores == ErroresDatos(datos)
      ensures erroresProyecto ==
        if modoProyecto then old(erroresProyecto) + ErroresRequeridos(proyecto) else old(erroresProyecto)
      ensures esValido <==> errores == map[] && (!modoProyecto || ErroresRequeridos(proyecto) == map[])
    {
      var d := datos;
      var nuevosErrores, camposValidos := RecolectarErrores(CAMPOS, c => ValidarCampo(c, d));
      SonErroresDatos(d, nuevosErrores, c => ValidarCampo(c, d));
      esValido := camposValidos;
      if modoProyecto {
        var p := proyecto;
        var agregados, requeridosValidos := RecolectarErrores(CAMPOS_REQUERIDOS, c => ErrorDe(p, c));
        SonErroresRequeridos(p, agregados, c => ErrorDe(p, c));
        erroresProyecto := erroresProyecto + agregados;
        esValido := esValido && requeridosValidos;
      }
      errores := nuevosErrores;
    }

    /** `handleProyectoChange`: stores the value, then records the field's
        error or deletes the field's key; no other key changes. */
    method HandleProyectoChange(campo: CampoProyecto, valor: Entrada)
      modifies this`proyecto, this`erroresProyecto
      ensures proyecto == old(proyecto).Set(campo, valor)
      ensures ValidarCampoProyecto(campo, valor).Some? ==>
        erroresProyecto == old(erroresProyecto)[campo := ValidarCampoProyecto(campo, valor).value]
      ensures ValidarCampoProyecto(campo, valor).None? ==> campo !in erroresProyecto
      ensures forall k :: k != campo ==>
        (k in erroresProyecto <==> k in old(erroresProyecto))
        && (k in erroresProyecto ==> erroresProyecto[k] == old(erroresProyecto)[k])
    {
      proyecto := proyecto.Set(campo, valor);
      var error := ValidarCampoProyecto(campo, valor);
      if error.Some? {
        erroresProyecto := erroresProyecto[campo := error.value];
      } else {
        var nuevosErrores := erroresProyecto;
        nuevosErrores := nuevosErrores - {campo};
        erroresProyecto := nuevosErrores;
      }
    }
  }
}
