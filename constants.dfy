/** The seed data the dashboard starts from: the planning checklist, the
    budget lines, the speakers and the sponsors. */
module Constants {
  import opened JsRuntime
  import opened Types
  import opened Collections

  /** A seed task: a date, and none of the modal-only fields. */
  function Seed(id: int, category: string, title: string, status: TaskStatus,
                priority: Priority, date: string): Task
  {
    Task(id, category, title, status, priority, Some(date), None, None, None)
  }

  const INITIAL_TASKS: seq<Task> := [
    // A. Estrategia General
    Seed(1, "Estrategia", "Objetivos SMART definidos y documentados", Done, High, "2026-02-15"),
    Seed(2, "Estrategia", "KPIs establecidos con metas numéricas", Done, High, "2026-02-20"),
    Seed(3, "Estrategia", "Presupuesto maestro aprobado con contingencia", Done, Critical, "2026-02-25"),
    Seed(4, "Estrategia", "Cronograma de planificación con milestones", Done, High, "2026-02-28"),
    // B. Contenido y Ponentes
    Seed(5, "Ponentes", "Jorge Ron confirmado como ponente principal", Done, Critical, "2026-03-05"),
    Seed(6, "Ponentes", "Agenda de 2 días diseñada con tracks paralelos", Pending, High, "2026-04-05"),
    Seed(7, "Ponentes", "Contactar speakers bureaus internacionales", InProgress, High, "2026-03-15"),
    // C. Marketing
    Seed(8, "Marketing", "Identidad visual del evento creada", Done, High, "2026-03-01"),
    Seed(9, "Marketing", "Landing page activa con registro", InProgress, Critical, "2026-03-10"),
    Seed(10, "Marketing", "Plan de marketing en 3 fases", Pending, High, "2026-04-01"),
    // D. Alianzas
    Seed(11, "Alianzas", "Lista de universidades target contactadas", InProgress, High, "2026-03-20"),
    Seed(12, "Alianzas", "Convenio con el Colegio de Contadores", Pending, Critical, "2026-04-15"),
    // E. Auspicios
    Seed(13, "Auspicios", "Paquetes de auspicio diseñados por niveles", Done, High, "2026-03-10"),
    Seed(14, "Auspicios", "Brochure comercial profesional listo", InProgress, High, "2026-03-15"),
    // F. Logística
    Seed(15, "Logística", "Contrato del Centro de Convenciones firmado", Done, Critical, "2026-03-15"),
    Seed(16, "Logística", "Proveedores AV y Catering contratados", Pending, High, "2026-04-20"),
    // G. Tecnología
    Seed(17, "Tecnología", "Plataforma de ticketing seleccionada", Done, Medium, "2026-03-20"),
    // H. Legal
    Seed(18, "Legal", "Plan de contingencia elaborado", Pending, Critical, "2026-04-20"),
    Seed(19, "Legal", "Permisos municipales obtenidos", Pending, High, "2026-05-15"),
    // I. Experiencia
    Seed(20, "Experiencia", "Kit de bienvenida/swag bag diseñado", Pending, Medium, "2026-05-10"),
    // J. Post-Evento
    Seed(21, "Post-Evento", "Encuesta de satisfacción diseñada", Pending, Medium, "2026-06-05")
  ]

  const BUDGET_ITEMS: seq<BudgetItem> := [
    BudgetItem("Venue y Espacios", 30000, 5000, "Alquiler Centro de Convenciones"),
    BudgetItem("Ponentes (Honorarios/Viáticos)", 35000, 0, "Incluye internacionales y Jorge Ron"),
    BudgetItem("Producción y AV", 25000, 0, "Pantallas LED, Sonido, Streaming"),
    BudgetItem("Marketing y Publicidad", 15000, 2000, "Ads, PR, Impresos"),
    BudgetItem("Catering", 20000, 0, "Coffee breaks y almuerzos (2 días)"),
    BudgetItem("Tecnología", 5000, 0, "App, Ticketing, Wi-Fi"),
    BudgetItem("Merchandising/Swag", 8000, 0, "Kits de bienvenida"),
    BudgetItem("Personal y Seguridad", 5000, 0, "Staff, seguridad privada, limpieza"),
    BudgetItem("Permisos y Seguros", 2000, 0, "Municipales y Responsabilidad Civil"),
    BudgetItem("Contingencia (10%)", 15000, 0, "Fondo de emergencia")
  ]

  const SPEAKERS: seq<Speaker> := [
    Speaker(1, "Jorge Ron", "Keynote Principal", "Reforma Tributaria 2026", Confirmed, National,
            Some("https://picsum.photos/seed/jorge/200")),
    Speaker(2, "Experto Internacional IA", "Keynote Tech", "IA en Finanzas", Contacted, International,
            Some("https://picsum.photos/seed/ia/200")),
    Speaker(3, "Presidente Colegio Contadores", "Panelista", "Futuro de la Profesión", SpeakerPending, National,
            Some("https://picsum.photos/seed/presi/200"))
  ]

  const SPONSORS: seq<Sponsor> := [
    Sponsor(1, "Banco del Pacífico", Diamante, 15000, Negotiation),
    Sponsor(2, "Software Contable X", Oro, 8000, Prospect),
    Sponsor(3, "Universidad Ecotec", Plata, 4000, SponsorConfirmed)
  ]

  /** The seed tasks are numbered 1, 2, ... in order. */
  lemma InitialTaskIds()
    ensures |INITIAL_TASKS| == 21
    ensures forall i :: 0 <= i < |INITIAL_TASKS| ==> INITIAL_TASKS[i].id == i + 1
  {
  }

  /** Their ids are distinct and the first task added receives id 22. */
  lemma InitialTasksNextId()
    ensures UniqueKeys(INITIAL_TASKS, TaskId)
    ensures NextId(INITIAL_TASKS, TaskId) == 22
  {
    InitialTaskIds();
    var m := MaxKey(INITIAL_TASKS, TaskId);
    assert TaskId(INITIAL_TASKS[20]) == 21;
    assert m != 0;
    var i :| 0 <= i < |INITIAL_TASKS| && TaskId(INITIAL_TASKS[i]) == m;
  }

  /** Every seed task carries a date. */
  lemma InitialTasksDated()
    ensures forall i :: 0 <= i < |INITIAL_TASKS| ==> INITIAL_TASKS[i].date.Some?
  {
  }

  /** The budget plans 160000 in total, of which 7000 is already spent. */
  lemma BudgetItemTotals()
    ensures SumOf(BUDGET_ITEMS, Allocated) == 160000
    ensures SumOf(BUDGET_ITEMS, Spent) == 7000
  {
    var s := BUDGET_ITEMS;
    for k := 0 to |s|
      invariant SumOf(s[..k], Allocated) == [0, 30000, 65000, 90000, 105000, 125000, 130000, 138000, 143000, 145000, 160000][k]
      invariant SumOf(s[..k], Spent) == [0, 5000, 5000, 5000, 7000, 7000, 7000, 7000, 7000, 7000, 7000][k]
    {
      SumPrefixStep(s, k, Allocated);
      SumPrefixStep(s, k, Spent);
    }
    assert s[..|s|] == s;
  }

  /** Speaker and sponsor ids are 1, 2, 3, in order. */
  lemma SeedIds()
    ensures forall i :: 0 <= i < |SPEAKERS| ==> SPEAKERS[i].id == i + 1
    ensures forall i :: 0 <= i < |SPONSORS| ==> SPONSORS[i].id == i + 1
    ensures |SPEAKERS| == 3 && |SPONSORS| == 3
    ensures UniqueKeys(SPEAKERS, SpeakerId) && UniqueKeys(SPONSORS, SponsorId)
  {
  }
}
