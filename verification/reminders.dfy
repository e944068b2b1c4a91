/** The computing parts of `reminders.ts`: the statistics of
    `getReminderStats` and the list `createAutomaticReminders` hands to the
    insert. Query results, the clock and the calendar arithmetic are
    parameters. */
module Reminders {
  import opened Common

  datatype TipoRecordatorio = Payment | ProjectDeadline | ClientFollowup | TaxDeadline | Custom
  datatype Prioridad = Low | Medium | High | Urgent
  datatype Recurrencia = Daily | Weekly | Monthly | Yearly

  /** A row of `reminders`; `dueMs` is `new Date(due_date).getTime()`. */
  datatype Reminder = Reminder(
    id: string, user_id: string, tipo: TipoRecordatorio, title: string,
    description: Option<string>, due_date: string, dueMs: int,
    is_completed: bool, is_recurring: bool, recurrence_pattern: Option<Recurrencia>,
    priority: Prioridad)

  // ---------------------------------------------------------------------
  // Counts

  function Completados(rs: seq<Reminder>): nat
  {
    if rs == [] then 0
    else Completados(rs[..|rs| - 1]) + (if rs[|rs| - 1].is_completed then 1 else 0)
  }

  function Pendientes(rs: seq<Reminder>): nat
  {
    if rs == [] then 0
    else Pendientes(rs[..|rs| - 1]) + (if !rs[|rs| - 1].is_completed then 1 else 0)
  }

  /** Incomplete reminders due strictly before `nowMs`. */
  function Vencidos(rs: seq<Reminder>, nowMs: int): nat
  {
    if rs == [] then 0
    else
      var r := rs[|rs| - 1];
      Vencidos(rs[..|rs| - 1], nowMs) + (if !r.is_completed && r.dueMs < nowMs then 1 else 0)
  }

  function CuentaTipo(rs: seq<Reminder>, t: TipoRecordatorio): nat
  {
    if rs == [] then 0
    else CuentaTipo(rs[..|rs| - 1], t) + (if rs[|rs| - 1].tipo == t then 1 else 0)
  }

  function CuentaPrioridad(rs: seq<Reminder>, p: Prioridad): nat
  {
    if rs == [] then 0
    else CuentaPrioridad(rs[..|rs| - 1], p) + (if rs[|rs| - 1].priority == p then 1 else 0)
  }

  /** Every reminder is either completed or pending. */
  lemma {:induction false} CompletadosMasPendientes(rs: seq<Reminder>)
    ensures Completados(rs) + Pendientes(rs) == |rs|
  {
    if rs != [] {
      CompletadosMasPendientes(rs[..|rs| - 1]);
    }
  }

  /** Overdue reminders are a part of the pending ones. */
  lemma {:induction false} VencidosSonPendientes(rs: seq<Reminder>, nowMs: int)
    ensures Vencidos(rs, nowMs) <= Pendientes(rs)
  {
    if rs != [] {
      VencidosSonPendientes(rs[..|rs| - 1], nowMs);
    }
  }

  /** `counts[k] || 0` */
  function Valor<K>(m: map<K, nat>, k: K): nat
  {
    if k in m then m[k] else 0
  }

  function SumaTipos(m: map<TipoRecordatorio, nat>): nat
  {
    Valor(m, Payment) + Valor(m, ProjectDeadline) + Valor(m, ClientFollowup)
      + Valor(m, TaxDeadline) + Valor(m, Custom)
  }

  function SumaPrioridades(m: map<Prioridad, nat>): nat
  {
    Valor(m, Low) + Valor(m, Medium) + Valor(m, High) + Valor(m, Urgent)
  }

  /** Each reminder has exactly one of the five types. */
  lemma {:induction false} TiposSumanElTotal(rs: seq<Reminder>)
    ensures CuentaTipo(rs, Payment) + CuentaTipo(rs, ProjectDeadline) + CuentaTipo(rs, ClientFollowup)
      + CuentaTipo(rs, TaxDeadline) + CuentaTipo(rs, Custom) == |rs|
  {
    if rs != [] {
      TiposSumanElTotal(rs[..|rs| - 1]);
    }
  }

  /** Each reminder has exactly one of the four priorities. */
  lemma {:induction false} PrioridadesSumanElTotal(rs: seq<Reminder>)
    ensures CuentaPrioridad(rs, Low) + CuentaPrioridad(rs, Medium) + CuentaPrioridad(rs, High)
      + CuentaPrioridad(rs, Urgent) == |rs|
  {
    if rs != [] {
      PrioridadesSumanElTotal(rs[..|rs| - 1]);
    }
  }

  /** The `forEach` that fills `byType` and `byPriority`: a key is present
      exactly when some reminder has it, with the number of such reminders,
      so the values of each object add up to the number of reminders. */
  method ContarPorTipoYPrioridad(rs: seq<Reminder>)
    returns (byType: map<TipoRecordatorio, nat>, byPriority: map<Prioridad, nat>)
    ensures forall t :: t in byType <==> CuentaTipo(rs, t) > 0
    ensures forall t :: t in byType ==> byType[t] == CuentaTipo(rs, t)
    ensures forall p :: p in byPriority <==> CuentaPrioridad(rs, p) > 0
    ensures forall p :: p in byPriority ==> byPriority[p] == CuentaPrioridad(rs, p)
    ensures SumaTipos(byType) == |rs| && SumaPrioridades(byPriority) == |rs|
  {
    byType := map[];
    byPriority := map[];
    var i := 0;
    while i < |rs|
      invariant 0 <= i <= |rs|
      invariant forall t :: Valor(byType, t) == CuentaTipo(rs[..i], t)
      invariant forall t :: t in byType <==> CuentaTipo(rs[..i], t) > 0
      invariant forall p :: Valor(byPriority, p) == CuentaPrioridad(rs[..i], p)
      invariant forall p :: p in byPriority <==> CuentaPrioridad(rs[..i], p) > 0
    {
      var r := rs[i];
      assert rs[..i + 1][..i] == rs[..i];
      byType := byType[r.tipo := Valor(byType, r.tipo) + 1];
      byPriority := byPriority[r.priority := Valor(byPriority, r.priority) + 1];
      i := i + 1;
    }
    assert rs[..i] == rs;
    TiposSumanElTotal(rs);
    PrioridadesSumanElTotal(rs);
  }

  datatype ReminderStats = ReminderStats(
    total: nat, completed: nat, pending: nat, overdue: nat,
    byType: map<TipoRecordatorio, nat>, byPriority: map<Prioridad, nat>)

  /** What the query for all the user's reminders came back with; `null`
      data counts as no reminders. */
  datatype ConsultaRecordatorios = ErrorConsulta | Datos(reminders: Option<seq<Reminder>>)

  /** `getReminderStats`: `None` when the query fails (the function throws). */
  method GetReminderStats(consulta: ConsultaRecordatorios, nowMs: int) returns (r: Option<ReminderStats>)
    ensures r.None? <==> consulta.ErrorConsulta?
    ensures consulta.Datos? ==>
      var rs := if consulta.reminders.Some? then consulta.reminders.value else [];
      && r.Some?
      && r.value.total == |rs|
      && r.value.completed == Completados(rs)
      && r.value.pending == Pendientes(rs)
      && r.value.overdue == Vencidos(rs, nowMs)
      && r.value.completed + r.value.pending == r.value.total
      && r.value.overdue <= r.value.pending
      && (forall t :: t in r.value.byType ==> r.value.byType[t] == CuentaTipo(rs, t))
      && (forall p :: p in r.value.byPriority ==> r.value.byPriority[p] == CuentaPrioridad(rs, p))
      && SumaTipos(r.value.byType) == r.value.total
      && SumaPrioridades(r.value.byPriority) == r.value.total
  {
    if consulta.ErrorConsulta? {
      return None;
    }
    var rs := if consulta.reminders.Some? then consulta.reminders.value else [];
    CompletadosMasPendientes(rs);
    VencidosSonPendientes(rs, nowMs);
    var byType, byPriority := ContarPorTipoYPrioridad(rs);
    r := Some(ReminderStats(|rs|, Completados(rs), Pendientes(rs), Vencidos(rs, nowMs), byType, byPriority));
  }

  // ---------------------------------------------------------------------
  // Automatic reminders

  /** A reminder to insert. */
  datatype CreateReminderData = CreateReminderData(
    tipo: TipoRecordatorio, title: string, description: Option<string>, due_date: string,
    is_recurring: Option<bool>, recurrence_pattern: Option<Recurrencia>, priority: Option<Prioridad>)

  const TITULO_REVISION := "Revisar tarifas"
  const DESCRIPCION_SEGUIMIENTO := "Recordatorio para hacer seguimiento del proyecto con presupuesto "
  const DESCRIPCION_REVISION := "Es momento de revisar y actualizar tus tarifas según el mercado"

  /** The follow-up title: the project name, or 'Proyecto' when it is
      missing or empty. */
  function TituloSeguimiento(nombreProyecto: string): (s: string)
    ensures StartsWith(s, "Seguimiento proyecto: ")
    ensures nombreProyecto != "" ==> s[|"Seguimiento proyecto: "|..] == nombreProyecto
    ensures nombreProyecto == "" ==> s[|"Seguimiento proyecto: "|..] == "Proyecto"
  {
    "Seguimiento proyecto: " + (if nombreProyecto == "" then "Proyecto" else nombreProyecto)
  }

  /** `createAutomaticReminders` up to the insert: in mode 'proyecto' a
      follow-up due in a week comes first; the monthly rate review due in
      three months is always there, last. `presupuestoTexto` is the
      budget's `es-CL` rendering; `enUnaSemana` and `enTresMeses` are the
      ISO dates the calendar arithmetic gives. */
  method CrearRecordatoriosAutomaticos(
    modo: string, nombreProyecto: string, presupuestoTexto: string,
    enUnaSemana: string, enTresMeses: string)
    returns (lista: seq<CreateReminderData>)
    ensures |lista| == if modo == "proyecto" then 2 else 1
    ensures var revision := lista[|lista| - 1];
      && revision.tipo == Custom && revision.title == TITULO_REVISION
      && revision.description == Some(DESCRIPCION_REVISION)
      && revision.due_date == enTresMeses && revision.priority == Some(Low)
      && revision.is_recurring == Some(true) && revision.recurrence_pattern == Some(Monthly)
    ensures modo == "proyecto" ==>
      && lista[0].tipo == ProjectDeadline && lista[0].priority == Some(Medium)
      && lista[0].title == TituloSeguimiento(nombreProyecto)
      && lista[0].description == Some(DESCRIPCION_SEGUIMIENTO + presupuestoTexto + " CLP")
      && lista[0].due_date == enUnaSemana
      && lista[0].is_recurring.None? && lista[0].recurrence_pattern.None?
    ensures forall r :: r in lista ==> r.tipo in {ProjectDeadline, Custom}
  {
    lista := [];
    if modo == "proyecto" {
      lista := lista + [CreateReminderData(
        ProjectDeadline, TituloSeguimiento(nombreProyecto),
        Some(DESCRIPCION_SEGUIMIENTO + presupuestoTexto + " CLP"),
        enUnaSemana, None, None, Some(Medium))];
    }
    lista := lista + [CreateReminderData(
      Custom, TITULO_REVISION, Some(DESCRIPCION_REVISION), enTresMeses,
      Some(true), Some(Monthly), Some(Low))];
  }
}
