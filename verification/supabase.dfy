/** The two pieces of `supabase.ts` that compute rather than query: the row
    `guardarCalculo` inserts and the dashboard statistics
    `obtenerEstadisticasCalculos` derives from the user's rows. The signed-in
    user and the query results are parameters. */
module Supabase {
  import opened Common
  import Calculos

  datatype Resultado<T> = Ok(value: T) | Err(error: string)

  const MSG_NO_AUTENTICADO := "Usuario no autenticado"

  /** The stored `result` of a calculation. */
  datatype DesgloseDB = DesgloseDB(iva: real, retencion: real, cotizacionSalud: real, gastosFijos: real)
  datatype ResultadoDB = ResultadoDB(tarifaHora: real, tarifaProyecto: real, ingresosNetos: real, desglose: DesgloseDB)

  /** The argument of `guardarCalculo`: a calculation without id, owner or
      creation date. The project fields are kept as the texts typed. */
  datatype NuevoCalculo = NuevoCalculo(
    modo: string, inputs: Calculos.DatosCalculo, proyecto: Option<seq<string>>,
    result: ResultadoDB, favorito: Option<bool>, titulo: Option<string>)

  /** The row inserted into `calculos`. */
  datatype FilaCalculo = FilaCalculo(
    user_id: string, modo: string, inputs: Calculos.DatosCalculo, proyecto: Option<seq<string>>,
    result: ResultadoDB, favorito: bool, titulo: Option<string>)

  /** `guardarCalculo`: refuses without a signed-in user; otherwise the row
      belongs to that user, is never a favourite, and copies the rest. */
  function GuardarCalculo(usuario: Option<string>, calculo: NuevoCalculo): (r: Resultado<FilaCalculo>)
    ensures usuario.None? <==> r == Err(MSG_NO_AUTENTICADO)
    ensures usuario.Some? ==>
      && r.Ok?
      && r.value.user_id == usuario.value
      && !r.value.favorito
      && r.value.modo == calculo.modo && r.value.inputs == calculo.inputs
      && r.value.proyecto == calculo.proyecto && r.value.result == calculo.result
      && r.value.titulo == calculo.titulo
  {
    match usuario
    case None => Err(MSG_NO_AUTENTICADO)
    case Some(id) =>
      Ok(FilaCalculo(id, calculo.modo, calculo.inputs, calculo.proyecto, calculo.result, false, calculo.titulo))
  }

  // ---------------------------------------------------------------------
  // Statistics

  function Suma(s: seq<real>): real
  {
    if s == [] then 0.0 else Suma(s[..|s| - 1]) + s[|s| - 1]
  }

  /** `Math.min(...s)` on a non-empty list. */
  function Minimo(s: seq<real>): (m: real)
    requires s != []
    ensures m in s
    ensures forall x :: x in s ==> m <= x
  {
    if |s| == 1 then s[0]
    else
      var m := Minimo(s[1..]);
      assert forall x :: x in s ==> x == s[0] || x in s[1..];
      if s[0] <= m then s[0] else m
  }

  /** `Math.max(...s)` on a non-empty list. */
  function Maximo(s: seq<real>): (m: real)
    requires s != []
    ensures m in s
    ensures forall x :: x in s ==> x <= m
  {
    if |s| == 1 then s[0]
    else
      var m := Maximo(s[1..]);
      assert forall x :: x in s ==> x == s[0] || x in s[1..];
      if s[0] >= m then s[0] else m
  }

  /** What the statistics query came back with: an error, or the hourly
      rates of the user's rows (`null` data is the empty list). */
  datatype ConsultaTarifas = ErrorConsulta(error: string) | Tarifas(tarifas: seq<real>)

  datatype Estadisticas = Estadisticas(
    totalCalculos: nat, promedioTarifa: int, tarifaMinima: real, tarifaMaxima: real, totalFavoritos: nat)

  const ESTADISTICAS_VACIAS := Estadisticas(0, 0, 0.0, 0.0, 0)

  /** `obtenerEstadisticasCalculos`; `favoritos` is the length of the
      favourites query's data, `None` when that data is null. */
  function ObtenerEstadisticasCalculos(usuario: Option<string>, consulta: ConsultaTarifas, favoritos: Option<nat>)
    : (r: Resultado<Estadisticas>)
    ensures usuario.None? ==> r == Err(MSG_NO_AUTENTICADO)
    ensures usuario.Some? && consulta.ErrorConsulta? ==> r == Err(consulta.error)
    ensures usuario.Some? && consulta.Tarifas? && consulta.tarifas == [] ==> r == Ok(ESTADISTICAS_VACIAS)
    ensures usuario.Some? && consulta.Tarifas? && consulta.tarifas != [] ==>
      var s := consulta.tarifas;
      && r.Ok?
      && r.value.totalCalculos == |s|
      && r.value.promedioTarifa == Round(Suma(s) / |s| as real)
      && r.value.tarifaMinima in s && r.value.tarifaMaxima in s
      && (forall x :: x in s ==> r.value.tarifaMinima <= x <= r.value.tarifaMaxima)
      && r.value.totalFavoritos == (if favoritos.Some? then favoritos.value else 0)
  {
    if usuario.None? then Err(MSG_NO_AUTENTICADO)
    else
      match consulta
      case ErrorConsulta(e) => Err(e)
      case Tarifas(s) =>
        if s == [] then Ok(ESTADISTICAS_VACIAS)
        else
          var promedio := Suma(s) / |s| as real;
          Ok(Estadisticas(|s|, Round(promedio), Minimo(s), Maximo(s),
                          if favoritos.Some? then favoritos.value else 0))
  }

  /** The sum of a list lies between its length times its minimum and its
      length times its maximum. */
  lemma {:induction false} SumaAcotada(s: seq<real>, lo: real, hi: real)
    requires forall x :: x in s ==> lo <= x <= hi
    ensures |s| as real * lo <= Suma(s) <= |s| as real * hi
  {
    if s != [] {
      var p := s[..|s| - 1];
      assert forall x :: x in p ==> x in s;
      SumaAcotada(p, lo, hi);
      assert s[|s| - 1] in s;
    }
  }

  lemma CocienteEntre(x: real, n: real, lo: real, hi: real)
    requires n > 0.0 && n * lo <= x <= n * hi
    ensures lo <= x / n <= hi
  {
    assert (x / n) * n == x;
  }

  predicate Enteros(s: seq<real>)
  {
    forall x :: x in s ==> x == x.Floor as real
  }

  /** With whole-number hourly rates, the rounded average lies between the
      minimum and the maximum the dashboard shows. */
  lemma PromedioEntreExtremos(usuario: string, s: seq<real>, favoritos: Option<nat>)
    requires s != [] && Enteros(s)
    ensures var r := ObtenerEstadisticasCalculos(Some(usuario), Tarifas(s), favoritos);
      r.Ok? && r.value.tarifaMinima <= r.value.promedioTarifa as real <= r.value.tarifaMaxima
  {
    var lo, hi := Minimo(s), Maximo(s);
    SumaAcotada(s, lo, hi);
    CocienteEntre(Suma(s), |s| as real, lo, hi);
    var promedio := Suma(s) / |s| as real;
    RoundMonotone(lo, promedio);
    RoundMonotone(promedio, hi);
    RoundOfInt(lo.Floor);
    RoundOfInt(hi.Floor);
  }
}
