# Freelancer Chile rate calculator — a Dafny model

This project models the computing core of the Freelancer Chile web
application, which helps Chilean freelancers price their work. The model
covers these parts:

- The two hourly-rate formulas, the simple rate, the CLP→USD conversion and
  the input validator of the calculation library (`Calculos`).
- The calculator form (`Formulario`): field validators, whole-form
  validation, the project simulator, and the per-field error update. The
  form's error maps live in a class whose methods update them.
- The income-flow summary that the form's result feeds (`ResumenFlujo`).
- The external-data layer (`Apis`), which has several parts:
  - an in-memory TTL cache, modelled as a class with a `map` field and the
    key order of a JavaScript `Map`;
  - the first-successful-source rule with its hard-coded fallback;
  - reciprocal exchange rates;
  - default Chilean taxes;
  - the 18-row market-rate table and its lookup.
- The stored USD/CLP rate (`ExchangeRates`): staleness, `needsUpdate`, and
  the 950 CLP fallback.
- The statistics pages:
  - the dashboard statistics and the row inserted by `guardarCalculo`
    (`Supabase`);
  - the profile page's aggregation, including its "last maximum wins"
    argmax and the favourites percentage (`Perfil`).
- The reminders:
  - statistics and automatic reminders (`Reminders`);
  - the widget's merge, deduplication, stable sort, truncation, completion
    and due-date labels (`RemindersWidget`).
- The templates page (`Templates`): the merged 'all' list, the two
  sections, the favourite toggle, the URL parameters built from a template,
  and `formatConfig`.
- The middleware's route protection and redirect decision (`Middleware`).
- The header's avatar initials (`Header`).

How the model represents the source:

- **Money, rates and averages** are exact `real`s.
- **`Math.round`** is `Common.Round(x) = ⌊x + 1/2⌋`, which rounds halves
  up, as JavaScript does.
- **Dates** are integer milliseconds.
- **Database rows, upstream responses, the signed-in user and the clock** are
  parameters.
- **A JavaScript value that may be NaN** is `JsNum`. A `x || d` default is
  `OrDefault`.

Two behaviours of the source are proved rather than corrected:

- **Stored modes never reach the profile's filters.** The profile page
  filters rows by the modes 'hora' and 'proyecto'. The form saves
  'tarifa_hora' and 'simular_proyecto'. So for every row the application
  writes:
  - both profile averages are 0;
  - the most-used mode is shown as 'Simular Proyecto'.
  This is `Perfil.ModosGuardadosNoCoinciden`.
- **A name made only of spaces gives blank initials.** Such a name is truthy
  but has no word, so the header shows no initials at all
  (`Header.NombreSoloEspacios`).

## Model

| member | source | states |
|---|---|---|
| Common.Round | src/lib/calculos.ts:59 | `Math.round`: the result is within half a unit of its argument (x − ½ < r ≤ x + ½) |
| Common.Trim | src/components/FormularioCalculadora.tsx:76 | `trim()`: the result is a slice of the argument with only JavaScript white space before and after it, and neither of its ends is white space |
| Common.LargoUtf16 | src/components/FormularioCalculadora.tsx:76 | `length`: UTF-16 code units, between one and two per character, and equal to the number of characters iff none lies outside the Basic Multilingual Plane |
| Common.DosEmojisSonCuatroUnidades | src/components/FormularioCalculadora.tsx:76 | Two emoji are two characters and a `length` of four |
| Common.TrimSinBordes | src/components/FormularioCalculadora.tsx:76 | `trim()` leaves a string unchanged when neither end is white space |
| Common.Upper | src/components/Header.tsx:33 | `toUpperCase` on ASCII: same length, each letter upper-cased pointwise |
| Calculos.CalcularTarifa | src/lib/calculos.ts:34-69 | The rate is round((D·1.19·1.07 + G)/(days·hours)), so retention never enters it. The 40-hour price is round of 40 × the unrounded rate, hence within 20 of 40 × the rounded rate but not always equal to it. Net income is D. The IVA, retention and health breakdown are the rounded 19 %, 13.75 % and 7 % of D alone. Expenses pass through |
| Calculos.IngresosBrutosTotales | src/lib/calculos.ts:82-93 | The gross total is (D + G) × 1.3975: the three tax rates added to 1 |
| Calculos.CalcularTarifaHora | src/lib/calculos.ts:75-112 | The rate is round((D+G)·1.3975/(days·hours)). The 40-hour price is round of 40 × the unrounded rate, within 20 of 40 × the rounded rate. The breakdown taxes are the rounded rates of D+G. Net income is D. Expenses pass through |
| Calculos.CalcularTarifaSimple | src/lib/calculos.ts:118-132 | Equals `calcularTarifa`'s hourly rate with 8-hour days |
| Calculos.ConvertirCLPaUSD | src/lib/calculos.ts:138-140 | Multiplying the dollars by the exchange rate gives back the pesos |
| Calculos.ValidarDatosCalculo | src/lib/calculos.ts:157-180 | The data are valid iff the error list is empty, iff D>0, 0<days≤31, 0<hours≤24 and G≥0. Each message is present iff its condition fails. Messages come in the order income, days, hours, expenses |
| Calculos.ListaDeErrores | src/lib/calculos.ts:157-180 | The messages the four checks collect are empty iff no check fails; each check's message is present iff that check fails; every message is one of the four and they appear at most once, in checking order |
| Calculos.IdentidadContable | src/lib/calculos.ts:82-110 | D+G plus its unrounded taxes is the gross total exactly. Net income plus the rounded breakdown is within 3/2 of it |
| Calculos.ProyectoDesdeTarifaSinRedondear | src/lib/calculos.ts:96-103 | D=1,500,000, 20 days, 8 h, G=300,000 give 15722 per hour but a 40-hour price of 628875, not 40 × 15722 |
| Calculos.ValoresPorDefecto | src/lib/calculos.ts:44-60 | The form's default inputs give 13812 per hour and 552488 for 40 hours under `calcularTarifa` |
| Calculos.TarifasMonotonas | src/lib/calculos.ts:44-96 | For positive hours, both hourly rates are non-decreasing in income and expenses, and non-increasing in days and hours per day |
| Calculos.TarifaNoExcedeTarifaHora | src/lib/calculos.ts:44-96 | For non-negative inputs, `calcularTarifa`'s rate never exceeds `calcularTarifaHora`'s |
| Calculos.MediaHoraEsValida | src/lib/calculos.ts:164-170 | Fractional values pass the validator: half an hour a day is valid |
| Formulario.ValidarCampo | src/components/FormularioCalculadora.tsx:74-98 | Title: an error iff its trimmed `length`, counted in UTF-16 code units, is below 3. Income: iff ≤0 or >100,000,000. Days: iff ≤0 or >31. Hours: iff ≤0 or >24. Expenses: iff <0 or >10,000,000. Every message is non-empty |
| Formulario.Proyecto.Set | src/components/FormularioCalculadora.tsx:295-298 | The spread update: the field gets the new value and every other field is unchanged |
| Formulario.ValidarCampoProyecto | src/components/FormularioCalculadora.tsx:101-126 | Name needs a trimmed `length` of 3 UTF-16 code units. Total hours must be in (0,1000], duration in (0,365], deliverables >0. Empty budget or revisions are accepted. Otherwise revisions must be ≥0 and the budget in [0,100,000,000]. Other fields are never errors |
| Formulario.DosEmojisBastan | src/components/FormularioCalculadora.tsx:76-104 | A title or project name of two emoji passes (length four); a two-letter title does not |
| Formulario.ValidoImplicaCalculable | src/components/FormularioCalculadora.tsx:318-338 | A form that can be submitted holds data the library validator accepts, with positive monthly hours, so the rate is defined |
| Formulario.HorasDelProyecto | src/components/FormularioCalculadora.tsx:184 | Project hours are never zero. An empty, zero or non-numeric entry gives 1 |
| Formulario.ArmarProyecto | src/components/FormularioCalculadora.tsx:186-220 | The recommended price is round(required rate × hours). The amount is the budget if positive, else the recommended price. IVA, retention and health are the rounded 19 %, 13.75 % and 7 % of that amount. Net income plus taxes plus expenses equals the amount exactly. With a budget, profit = budget − recommended, profitability × budget = profit × 100 and rate = round(budget/hours). Without one, profit and profitability are 0 and the rate is the required one |
| Formulario.NeutralidadDelPresupuesto | src/components/FormularioCalculadora.tsx:199-200 | A budget equal to the recommended price gives zero profit and zero profitability |
| Formulario.RentabilidadAcotada | src/components/FormularioCalculadora.tsx:186-200 | With valid data and positive hours, the recommended price is non-negative and profitability is at most 100 |
| Formulario.IngresosNetosPuedenSerNegativos | src/components/FormularioCalculadora.tsx:192-197 | A small budget leaves negative net income: it is not clamped |
| Formulario.ResumenCuadraEnModoProyecto | src/components/ResumenFlujoIngresos.tsx:20-22 | Fed the project result with the project amount as override, the summary still shows gross − deductions = net |
| Formulario.ResumenEnModoHora | src/components/ResumenFlujoIngresos.tsx:19-22 | Fed the hourly result without an override, the summary's gross minus deductions is the desired income D, and the gross is within 3/2 of D·1.3975 + G, more than the D·1.2733 + G the hourly rate charges for |
| Formulario.ModoHoraNoEsTarifaHora | src/components/FormularioCalculadora.tsx:178-180 | Hourly mode prices with `calcularTarifa`: on the default inputs it gives 13812 per hour, where `calcularTarifaHora` gives 15722 |
| Formulario.FormularioValidoDe | src/components/FormularioCalculadora.tsx:318-338 | The submit guard, defined here; `ValidoImplicaCalculable` states what it guarantees |
| Formulario.RecolectarErrores | src/components/FormularioCalculadora.tsx:149-155 | The loop records a message under a key iff the validator rejects that key. The flag is true iff nothing was recorded |
| Formulario.Formulario.constructor | src/components/FormularioCalculadora.tsx:45-69 | The form starts with the default inputs, an empty title, an empty project, hourly mode and no errors |
| Formulario.Formulario.ValidarFormulario | src/components/FormularioCalculadora.tsx:144-175 | The field errors become exactly the basic fields' errors. In project mode the required project fields' errors are added to the project errors. The result is true iff there are no field errors and, in project mode, no required-field errors |
| Formulario.Formulario.HandleProyectoChange | src/components/FormularioCalculadora.tsx:294-316 | Stores the value. Sets the field's key to its message when invalid, and deletes the key when valid. Every other key is unchanged |
| Apis.DesdeExchangeRate | src/lib/apis.ts:137-173 | Succeeds iff a response with rates arrived. Every currency pair is reciprocal. The CLP rate is the response's CLP, or 950 when that is missing or zero. The EUR, GBP, ARS, PEN and COP rates times the response's rate (or its default: 1.1, 1.3, 0.003, 0.25, 0.0002) give the CLP rate. Source 'exchangerate-api.com', date now |
| Apis.PorDolar | src/lib/apis.ts:154-168 | From each currency's value in dollars: every pair of rates is reciprocal (product 1), the dollar keeps its value, and each of the EUR, GBP, ARS, PEN and COP rates times that currency's dollar value gives the peso rate; date and source are kept |
| Apis.DesdeFrankfurter | src/lib/apis.ts:179-226 | Succeeds iff a response arrived and its date parses. The EUR rate is the response's CLP, or 1045. The USD, GBP, ARS, PEN and COP rates times the response's rate (or its default: 1.1, 0.85, 0.0033, 0.275, 0.00022) give the EUR rate. Every pair is reciprocal; source 'frankfurter.app', date the response's |
| Apis.DesdeEuro | src/lib/apis.ts:200-204 | A rate against the euro turned into a rate in pesos: non-zero, and times the euro rate it gives back the euro's peso rate |
| Apis.PorEuro | src/lib/apis.ts:198-220 | From the euro's value in each currency: the euro keeps its peso rate, each other currency's peso rate times the euro's value in it gives the euro's peso rate, every pair is reciprocal; date and source kept |
| Apis.DesdeMonobank | src/lib/apis.ts:231-234 | Always null; `OrdenDeFuentes` states that it never wins |
| Apis.Fallback | src/lib/apis.ts:112-127 | clp_usd 950, clp_eur 1045 (950·1.1), clp_gbp 1235 (950·1.3), clp_ars 2.85 (950·0.003), clp_pen 237.5 (950·0.25), clp_cop 0.19 (950·0.0002); every pair reciprocal; source 'fallback', date now |
| Apis.PrimeraExitosa | src/lib/apis.ts:86-106 | None iff every source failed. Otherwise the result is the first successful source, and all earlier ones failed |
| Apis.ElegirFuente | src/lib/apis.ts:86-103 | The loop over the sources returns exactly the first successful one |
| Apis.OrdenDeFuentes | src/lib/apis.ts:79-83 | ExchangeRate wins when it answers, then Frankfurter. Monobank never answers. All fail iff both fail |
| Apis.ImpuestosPorDefecto | src/lib/apis.ts:285-292 | The default taxes equal the calculation library's 0.19 / 0.1375 / 0.07, with source 'valores_por_defecto' and version '2025' |
| Apis.FilasOrdenadas | src/lib/apis.ts:311-492 | The table has 18 rows, each with min ≤ average ≤ max |
| Apis.TablaTarifas | src/lib/apis.ts:311-492 | The stamped table keeps the 18 rows in order: each row has its trade, level, minimum, average, maximum and sample size from the fixed table, the given date and the default-values source |
| Apis.Buscar | src/lib/apis.ts:503 | `find`: None iff no row matches both area and experience. Otherwise it is the first match |
| Apis.BuscarPrimera | src/lib/apis.ts:503 | Given the index of the first match, the lookup returns that row |
| Apis.DesarrolloSeniorEnLaTabla | src/lib/apis.ts:501-504 | Looking up 'desarrollo'/'senior' returns the table's sixth row |
| Apis.DesarrolloWebNoEstaEnLaTabla | src/lib/apis.ts:501-504 | The area 'Desarrollo Web', used as the profile's default, matches no row |
| Apis.Cache.constructor | src/lib/apis.ts:63 | The cache starts empty |
| Apis.Cache.Guardar | src/lib/apis.ts:96 | `cache.set` writes that key with the timestamp now. Other keys are unchanged. Key order follows first insertion |
| Apis.Cache.ObtenerTipoCambio | src/lib/apis.ts:68-131 | A fresh entry (age < 1 hour) is returned untouched. Otherwise the first successful source or the fallback is returned and cached at now. The result is always reciprocal |
| Apis.Cache.ObtenerImpuestos | src/lib/apis.ts:276-296 | A fresh entry (< 24 h) is returned. Otherwise the defaults are returned and cached. The rates are always the library's |
| Apis.Cache.ObtenerTarifasMercado | src/lib/apis.ts:302-496 | A fresh entry (< 1 week) is returned. Otherwise the table is returned and cached. It is always the 18-row table |
| Apis.Cache.ObtenerTarifaEspecifica | src/lib/apis.ts:501-504 | The result is the lookup in the cached table when that entry is under a week old, with the cache untouched; otherwise the lookup in a freshly stamped table, which is cached under 'tarifas_mercado'. It is null iff no table row matches; otherwise it is the first matching row of the table with that row's figures |
| Apis.Cache.LimpiarCache | src/lib/apis.ts:509-511 | Empties the cache |
| Apis.Cache.ObtenerInfoCache | src/lib/apis.ts:516-528 | The keys are the cached keys, in insertion order, without repeats |
| Apis.LimpiarYConsultar | src/lib/apis.ts:509-528 | After clearing, no keys are reported. The next exchange-rate request asks the sources and leaves exactly its own key cached |
| ExchangeRates.GetExchangeRate | src/lib/exchange-rates.ts:22-68 | Succeeds iff a row came back, and the row is returned unchanged with its staleness. Otherwise there is no data and the error is the message of that failure |
| ExchangeRates.Antiguo | src/lib/exchange-rates.ts:51-53 | The staleness test, defined here; `FronteraDeAntiguedad` and `AntiguoEnMilisegundos` state its boundary |
| ExchangeRates.FronteraDeAntiguedad | src/lib/exchange-rates.ts:51-53 | Exactly 60 minutes old is fresh and one millisecond more is stale. An unparsable date is never stale |
| ExchangeRates.AntiguoEnMilisegundos | src/lib/exchange-rates.ts:51-53 | Stale iff the age in milliseconds exceeds maxAge × 60,000 |
| ExchangeRates.NeedsUpdate | src/lib/exchange-rates.ts:117-120 | An update is needed iff the lookup failed or the row is stale |
| ExchangeRates.GetExchangeRateWithFallback | src/lib/exchange-rates.ts:125-149 | With a row: its rate, its fetched_at and source 'supabase'. Otherwise: rate 950, source 'fallback', stale |
| ExchangeRates.FallbackMarcaActualizacion | src/lib/exchange-rates.ts:117-149 | The fallback's staleness flag equals `needsUpdate`. A 'fallback' answer means the lookup failed |
| Supabase.GuardarCalculo | src/lib/supabase.ts:40-57 | Fails iff no user is signed in. Otherwise the row has the user's id and favorito false, and the other fields are copied from the argument |
| Supabase.Minimo | src/lib/supabase.ts:198 | `Math.min` of a non-empty list is a member and below every element |
| Supabase.Maximo | src/lib/supabase.ts:199 | `Math.max` of a non-empty list is a member and above every element |
| Supabase.ObtenerEstadisticasCalculos | src/lib/supabase.ts:168-219 | No user or a query error is an error. No rows give all-zero statistics. Otherwise the count is the row count, the average is round(mean rate), min and max are the extreme rates, and favourites default to 0 |
| Supabase.PromedioEntreExtremos | src/lib/supabase.ts:196-212 | With integer rates, min ≤ rounded average ≤ max |
| Perfil.Cuenta | src/app/dashboard/perfil/page.tsx:82-85 | An occurrence count is at most the length, and zero iff the key is absent |
| Perfil.Distintos | src/app/dashboard/perfil/page.tsx:86 | `Object.keys`: each key once, exactly the keys that occur; `DistintosEnOrden` states their order |
| Perfil.DistintosEnOrden | src/app/dashboard/perfil/page.tsx:86 | `Object.keys` order is first-occurrence order: a key listed before another occurs before every occurrence of the other |
| Perfil.ClavesDeCuentas | src/app/dashboard/perfil/page.tsx:82-85 | The counting object has exactly the keys that occur |
| Perfil.CuentasSonOcurrencias | src/app/dashboard/perfil/page.tsx:82-85 | Each count is the number of occurrences of its key |
| Perfil.CuentasSumanElTotal | src/app/dashboard/perfil/page.tsx:82-85 | The counts, summed over the keys in order, equal the number of rows |
| Perfil.ContarClaves | src/app/dashboard/perfil/page.tsx:82-85 | The accumulating loop builds exactly the counting object and its key order |
| Perfil.MasUsadoEsUltimoMaximo | src/app/dashboard/perfil/page.tsx:86 | The `reduce` gives the default without rows. Otherwise it gives a key that occurs, has the maximum count, and is the last such key in insertion order |
| Perfil.MasUsado | src/app/dashboard/perfil/page.tsx:86 | The fold over the counts, defined here; `MasUsadoEsUltimoMaximo` and `EmpateGanaElUltimo` state its result |
| Perfil.EmpateGanaElUltimo | src/app/dashboard/perfil/page.tsx:86 | On a tie the key inserted last wins: proyecto,hora gives hora; hora,proyecto gives proyecto |
| Perfil.Favoritos | src/app/dashboard/perfil/page.tsx:62 | The favourites count is at most the row count |
| Perfil.DelMes | src/app/dashboard/perfil/page.tsx:64-67 | The current-month count is at most the row count |
| Perfil.Modos | src/app/dashboard/perfil/page.tsx:83 | One mode per row. A missing mode counts as 'hora' |
| Perfil.Rubros | src/app/dashboard/perfil/page.tsx:90 | One area per row. A missing area counts as 'Desarrollo Web' |
| Perfil.PrimeraExperiencia | src/app/dashboard/perfil/page.tsx:97-98 | The first non-empty experience, or '3-5 años' when there is none |
| Perfil.EtiquetaModo | src/app/dashboard/perfil/page.tsx:106 | 'Tarifa por Hora' iff the mode is 'hora', else 'Simular Proyecto' |
| Perfil.CargarEstadisticas | src/app/dashboard/perfil/page.tsx:61-109 | A failed query sets nothing. Otherwise the total is the row count and each other statistic is its specification function of the rows |
| Perfil.ModosGuardadosNoCoinciden | src/app/dashboard/perfil/page.tsx:70-86 | For rows saved by the form ('tarifa_hora', 'simular_proyecto'), both averages are 0 and the top mode reads 'Simular Proyecto' |
| Perfil.SinResultadoNoPromedian | src/app/dashboard/perfil/page.tsx:70-79 | Rows without a result give both averages 0 |
| Perfil.PorcentajeFavoritos | src/app/dashboard/perfil/page.tsx:398 | The percentage lies in [0,100]. It is 0 with no rows and 100 when all rows are favourites |
| Reminders.CompletadosMasPendientes | src/lib/reminders.ts:154-155 | completed + pending = total |
| Reminders.VencidosSonPendientes | src/lib/reminders.ts:155-156 | overdue ≤ pending |
| Reminders.TiposSumanElTotal | src/lib/reminders.ts:162-163 | The counts of the five types add up to the number of reminders |
| Reminders.PrioridadesSumanElTotal | src/lib/reminders.ts:162-164 | The counts of the four priorities add up to the number of reminders |
| Reminders.ContarPorTipoYPrioridad | src/lib/reminders.ts:162-165 | A key is present iff some reminder has it, with the number of such reminders. Each object's values sum to the total |
| Reminders.GetReminderStats | src/lib/reminders.ts:143-172 | A failed query gives no statistics; a `null` list counts as empty. total is the count; completed, pending and overdue (incomplete and due strictly before now) are the filter counts; completed + pending = total and overdue ≤ pending; byType and byPriority hold the per-key counts and each sums to total |
| Reminders.TituloSeguimiento | src/lib/reminders.ts:186 | The title starts with 'Seguimiento proyecto: ' and continues with the project name, or 'Proyecto' when it is empty |
| Reminders.CrearRecordatoriosAutomaticos | src/lib/reminders.ts:175-205 | Two reminders in mode 'proyecto', one otherwise. The follow-up comes first: project_deadline, medium priority, due in a week, not recurring, its description naming the budget text followed by 'CLP'. The last is always 'Revisar tarifas': custom, low priority, recurring monthly, due in three months |
| RemindersWidget.Deduplicar | src/components/RemindersWidget.tsx:29-31 | Keeps every id once: each kept reminder is the first one in the input with its id, and they come in the order of those first appearances |
| RemindersWidget.CombinarRecordatorios | src/components/RemindersWidget.tsx:28-33 | At most maxItems reminders, each from pending or upcoming; `PropiedadesDeLaCombinacion` states the rest |
| RemindersWidget.Insertar | src/components/RemindersWidget.tsx:32 | Inserting into a sorted list keeps it sorted, adds one element, and adds nothing else |
| RemindersWidget.Ordenar | src/components/RemindersWidget.tsx:32 | The sort has the same length, is ascending by due time, and has the same elements |
| RemindersWidget.InsertarPermuta | src/components/RemindersWidget.tsx:32 | Inserting adds exactly one copy of the element |
| RemindersWidget.OrdenarPermuta | src/components/RemindersWidget.tsx:32 | The sort is a permutation of its input |
| RemindersWidget.OrdenarSinIdsRepetidos | src/components/RemindersWidget.tsx:32 | Sorting distinct ids keeps them distinct |
| RemindersWidget.OrdenarEsEstable | src/components/RemindersWidget.tsx:32 | The sort is stable: reminders due at the same instant keep their relative order |
| RemindersWidget.PropiedadesDeLaCombinacion | src/components/RemindersWidget.tsx:28-33 | The shown list is the min(maxItems, size of the deduplicated merge) soonest reminders: every one shown is due no later than any left out. All come from pending or upcoming, with distinct ids, sorted by due time. When all fit, every id appears |
| RemindersWidget.Completar | src/components/RemindersWidget.tsx:47 | Removes exactly the entries with that id and preserves sortedness and distinct ids |
| RemindersWidget.CompletarConcat | src/components/RemindersWidget.tsx:47 | Completing keeps order and multiplicity: it distributes over concatenation and keeps a single reminder exactly when its id is another |
| RemindersWidget.CompletarQuitaUno | src/components/RemindersWidget.tsx:47 | With distinct ids, completing a shown id shortens the list by one. Otherwise the list is unchanged |
| RemindersWidget.DiasRestantes | src/components/RemindersWidget.tsx:103-104 | `Math.ceil` of the difference in days: (d−1) days < due − now ≤ d days |
| RemindersWidget.FormatDate | src/components/RemindersWidget.tsx:100-120 | The label, defined here; `EtiquetasPorRango` and `NumeroDeDias` state which range gives which label |
| RemindersWidget.IsOverdue | src/components/RemindersWidget.tsx:122-124 | Due strictly before now, defined here; `VencidoEsAtrasado` relates it to the labels |
| RemindersWidget.EtiquetasPorRango | src/components/RemindersWidget.tsx:100-120 | The five labels are disjoint and exhaustive, each characterised by its range of due − now: 'Vencido hace …' iff ≤ −1 day; 'Vence hoy' iff in (−1 day, 0]; 'Vence mañana' iff in (0, 1 day]; 'Vence en …' iff in (1, 7 days]; a short date iff beyond 7 days |
| RemindersWidget.NumeroDeDias | src/components/RemindersWidget.tsx:107-113 | The "in d days" label is `NatToString(d)`, and the overdue label is `NatToString(−d)` |
| RemindersWidget.VencidoHoyDiceVenceHoy | src/components/RemindersWidget.tsx:104-124 | A reminder a millisecond overdue is flagged overdue yet labelled 'Vence hoy'. One due now is not overdue |
| RemindersWidget.VencidoEsAtrasado | src/components/RemindersWidget.tsx:104-124 | A negative day count implies overdue, and overdue implies a day count ≤ 0 |
| Templates.Filtrar | src/app/dashboard/templates/page.tsx:190-191 | `filter` keeps exactly the elements that satisfy the test, and keeps ids distinct |
| Templates.FiltrarConcat | src/app/dashboard/templates/page.tsx:190-191 | `filter` keeps order and multiplicity: it distributes over concatenation and keeps a single template exactly when it passes |
| Templates.TodasLasPlantillas | src/app/dashboard/templates/page.tsx:53 | The 'all' merge, defined here; `PropiedadesDeLaUnion` states its properties |
| Templates.MisPlantillas | src/app/dashboard/templates/page.tsx:190 | Holds exactly the templates that are not default and were created by the signed-in user |
| Templates.PlantillasPorDefecto | src/app/dashboard/templates/page.tsx:191 | Holds exactly the default templates |
| Templates.PropiedadesDeLaUnion | src/app/dashboard/templates/page.tsx:53 | The 'all' list is the public templates first; the rest holds exactly the user templates whose id no public template has. Every id of either list appears, and none repeats when the inputs repeat none |
| Templates.SeccionesDisjuntas | src/app/dashboard/templates/page.tsx:190-191 | No template is both the user's own and a default one. The own ones were created by the user |
| Templates.Alternar | src/app/dashboard/templates/page.tsx:86-95 | The id is in the new set iff it was not in the old one. Every other id is unchanged |
| Templates.AlternarDosVeces | src/app/dashboard/templates/page.tsx:84-96 | Toggling twice restores the set |
| Templates.PaginaPlantillas.constructor | src/app/dashboard/templates/page.tsx:23 | No favourites at first |
| Templates.PaginaPlantillas.HandleToggleFavorite | src/app/dashboard/templates/page.tsx:84-100 | When the database call fails, nothing changes. Otherwise the set is toggled at that id |
| Templates.Obtener | src/app/dashboard/templates/page.tsx:107-111 | `URLSearchParams.get` finds a value iff some parameter has that name |
| Templates.ParametrosDeUso | src/app/dashboard/templates/page.tsx:107-111 | One parameter per config entry, in order, with its text, then 'modo' last |
| Templates.ParametrosSeLeen | src/app/dashboard/templates/page.tsx:107-111 | Reading the parameters back gives each config value. 'modo' gives the template's mode unless a config key named 'modo' shadows it |
| Templates.EspaciarSoloAgregaEspacios | src/app/dashboard/templates/page.tsx:161 | The label grows by one space per ASCII capital. Deleting spaces gives back the key's own non-space text |
| Templates.Etiqueta | src/app/dashboard/templates/page.tsx:161 | The label of a config key, defined here; `EtiquetaDosPalabras` and `PrimeraLetraDeLaEtiqueta` state its form |
| Templates.PrimeraLetraDeLaEtiqueta | src/app/dashboard/templates/page.tsx:161 | A key starting with a capital gets a leading space. Otherwise its first letter is upper-cased. The length is key length + number of capitals |
| Templates.EspaciarConcat | src/app/dashboard/templates/page.tsx:161 | The space insertion works letter by letter, so it distributes over concatenation |
| Templates.EspaciarPalabra | src/app/dashboard/templates/page.tsx:161 | A capital followed by lower-case letters gets one space before it |
| Templates.EtiquetaDosPalabras | src/app/dashboard/templates/page.tsx:161 | A two-word camel-case key, such as 'tarifaHora', reads as its two words separated by a space, the first one capitalised ('Tarifa Hora') |
| Templates.LargoDeUnir | src/app/dashboard/templates/page.tsx:163 | `join(', ')` adds two characters between consecutive parts |
| Templates.FormatConfigCasosBase | src/app/dashboard/templates/page.tsx:158-164 | An empty config gives ''. A single entry gives its own 'Label: value' text with no separator |
| Templates.FormatConfig | src/app/dashboard/templates/page.tsx:158-164 | The config summary, defined here; `FormatConfigCasosBase` and `LargoDeUnir` state its form |
| Middleware.Decidir | src/middleware.ts:69-90 | Redirect to '/' with auth=required iff the path is protected, there is no user and no cookie name contains 'supabase' or 'sb-'. Redirect to '/dashboard' iff the path is a sign-in route and there is a user. Otherwise pass through |
| Middleware.ProtegidaYAuthSonDisjuntas | src/middleware.ts:45-66 | No path is both protected and a sign-in route |
| Middleware.SegmentosCompletos | src/middleware.ts:59-66 | Only whole segments match. '/dashboardx' is not protected, '/dashboard/calculo/1' is, '/auth/callback' is a sign-in route, and '/' is not protected |
| Middleware.SinBuclesDeRedireccion | src/middleware.ts:69-90 | Following a redirect with the same user and cookies leads to a pass-through: no loop |
| Middleware.CookieBastaSinUsuario | src/middleware.ts:70-81 | A Supabase cookie lets a request without a user through to a protected page |
| Header.PrimerasLetrasSonIniciosDePalabra | src/components/Header.tsx:29-32 | Splitting on spaces and taking first letters picks exactly the characters that start a word. Empty pieces contribute nothing |
| Header.GetUserInitials | src/components/Header.tsx:27-37 | At most two characters, and blank only when a name is given; `IniciasDelNombre` states each branch |
| Header.IniciasDelNombre | src/components/Header.tsx:27-37 | At most two characters. With a name: the upper-cased starts of its first two words. Without one: the upper-cased first two characters of the e-mail, or 'U' when there is no e-mail either |
| Header.DosPalabras | src/components/Header.tsx:28-35 | A two-word name such as 'juan perez' gives its two upper-cased first letters ('JP') |
| Header.UnaPalabra | src/components/Header.tsx:28-35 | A one-word name gives exactly one letter |
| Header.NombreSoloEspacios | src/components/Header.tsx:28-35 | A name of spaces only gives empty initials: no fallback to the e-mail or 'U' |

## Left out

- Floating point: the model computes with exact reals. JavaScript works in
  doubles: the constants 0.19, 0.1375 and 0.07 and every intermediate product
  are rounded, so `Math.round` next to a .5 boundary may differ. The model's
  closed forms, such as D × 1.2733 for D × (1 + 0.19) × (1 + 0.07), are exact.
  The exchange rates are exact reals too: the fallback's 950 × 1.1 is 1045
  here, where a double may differ in its last bits, and a rate times its
  inverse is exactly 1.
- Calculos.CalcularTarifa: requires days × hours ≠ 0. JavaScript would
  return Infinity or NaN there. The same holds for CalcularTarifaHora,
  CalcularTarifaSimple (days ≠ 0) and ConvertirCLPaUSD (rate ≠ 0).
- `Number(text)` parsing of the form's text fields is not modelled. Each
  project field carries its text and its parsed value (`JsNum`) as given.
- `handleInputChange`, `handleSubmit`, `handleModoChange` and the React
  state setters of the form are not part of this model. They are event
  plumbing around the modelled validators and calculation.
- Formulario.Formulario.ValidarFormulario: the project errors are added
  with one `setErroresProyecto` per field. The model adds them all at once,
  as React applies them in the same batch.
- Network, database and authentication calls are parameters:
  - `fetch`;
  - the 5-second `Promise.race` timeout;
  - the eager start of all sources, which is concurrency;
  - the Supabase queries and inserts;
  - the CRUD functions of reminders.ts, templates.ts and supabase.ts.
- Clock and calendar code is not modelled:
  - `new Date()`, `toISOString`, `setDate` and `setMonth`;
  - parsing date strings.
  The current instant, the ISO texts and the due instants are parameters.
  Several `Date.now()` reads within one call are taken as one instant.
- Locale formatting is a foreign call and is not modelled:
  - `toLocaleString` of the budget and of numeric config values, which are
    given as text;
  - `toLocaleDateString` in the widget's date branch (`FechaCorta` carries
    the instant);
  - `formatearCLP`.
- Apis.Cache.ObtenerInfoCache: the `sizes` object (lengths of
  `JSON.stringify`) is not modelled. Only the keys are.
- `obtenerTipoCambioDolarFrankfurter`, `obtenerTipoCambioHistoricoFrankfurter`
  and `getExchangeRateHistory` are not part of this model. They are fetch
  and query wrappers outside the cache and fallback logic.
- Header.GetUserInitials: `name[0]` and `slice(0, 2)` take UTF-16 code
  units, so a name or e-mail that starts with a character outside the Basic
  Multilingual Plane yields half a surrogate pair in the application. The
  model takes whole characters, which a Dafny `string` cannot split. The
  validators' lengths do count code units (`LargoUtf16`).
- Common.Upper: `toUpperCase` is modelled on ASCII letters only. Unicode
  case mapping, which can change lengths, is not modelled.
- Perfil.Distintos: JavaScript lists integer-like object keys first. The
  model uses plain insertion order. Mode and area names are not integers.
- Reminders: a due date that does not parse (NaN) is not modelled. Due dates
  are integer milliseconds.
- Reminders.CrearRecordatoriosAutomaticos: the insert and its swallowed
  error are I/O. The model returns the list handed to the insert.
- RemindersWidget.PropiedadesDeLaCombinacion: a negative `maxItems` (where
  `slice(0, n)` counts from the end) is not modelled; `maxItems` is a `nat`.
- Templates.PaginaPlantillas.HandleToggleFavorite: the functional
  `setFavorites(prev => …)` update is taken as applied to the state read
  at the start. Interleaved toggles are not modelled.
- Templates.EtiquetaDosPalabras: labels are stated for keys of one or two
  words only. Longer keys such as 'horasPorDia' follow from EspaciarConcat
  and EspaciarPalabra but are not stated one by one.
- Templates.ParametrosDeUso: the percent-encoding of `params.toString()`
  and the redirect are not modelled.
- The middleware's matcher regex, the session read and the cookie-copy
  callbacks are framework plumbing and are not modelled.
