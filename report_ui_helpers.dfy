/** Presentation helpers shared by the report screens. They take the wire value as stored,
    since cached or remote data may hold a value outside the enums, and each one has a
    fallback for that case. */
module ReportUi {
  import opened Wrappers
  import opened ReportModel
  import opened ReportCache
  import opened ReportData

  // ---------------------------------------------------------------- reading wire values

  function StatusOf(name: string): (s: Option<ReportStatus>)
    ensures s.Some? ==> StatusName(s.value) == name
  {
    if name == "PENDING" then Some(Pending)
    else if name == "IN_PROGRESS" then Some(InProgress)
    else if name == "RESOLVED" then Some(Resolved)
    else if name == "CLOSED" then Some(Closed)
    else None
  }

  function CategoryOf(name: string): (c: Option<ReportCategory>)
    ensures c.Some? ==> CategoryName(c.value) == name
  {
    if name == "INFRASTRUCTURE" then Some(Infrastructure)
    else if name == "SECURITY" then Some(Security)
    else if name == "ENVIRONMENT" then Some(Environment)
    else if name == "TRANSPORT" then Some(Transport)
    else if name == "OTHER" then Some(Other)
    else None
  }

  function ActionOf(name: string): (a: Option<ActionType>)
    ensures a.Some? ==> ActionName(a.value) == name
  {
    if name == "create" then Some(Create)
    else if name == "update" then Some(Update)
    else if name == "delete" then Some(Delete)
    else None
  }

  /** Reading a wire value back gives the enum member that wrote it. */
  lemma WireValuesRoundTrip(s: ReportStatus, c: ReportCategory, a: ActionType)
    ensures StatusOf(StatusName(s)) == Some(s)
    ensures CategoryOf(CategoryName(c)) == Some(c)
    ensures ActionOf(ActionName(a)) == Some(a)
  {
  }

  // ---------------------------------------------------------------- labels

  /** `getStatusBadgeClass`. */
  function StatusBadgeClass(status: string): string {
    match StatusOf(status)
    case Some(Pending) => "badge-warning"
    case Some(InProgress) => "badge-info"
    case Some(Resolved) => "badge-success"
    case _ => "badge-secondary"
  }

  /** Every status has its own badge except that a closed report shares the neutral badge
      with an unknown status. */
  lemma StatusBadgeClassSpec(x: string, y: string)
    ensures StatusBadgeClass(x) in {"badge-warning", "badge-info", "badge-success", "badge-secondary"}
    ensures StatusBadgeClass(x) == "badge-secondary" <==> StatusOf(x).None? || StatusOf(x) == Some(Closed)
    ensures StatusOf(x).Some? && StatusOf(y).Some? && StatusBadgeClass(x) == StatusBadgeClass(y) ==> x == y
  {
  }

  /** `getCategoryIcon`. */
  function CategoryIcon(category: string): string {
    match CategoryOf(category)
    case Some(Infrastructure) => "🛠️"
    case Some(Security) => "🚨"
    case Some(Environment) => "🌿"
    case Some(Transport) => "🚧"
    case _ => "📌"
  }

  /** `getCategoryLabel`. */
  function CategoryLabel(category: string): string {
    match CategoryOf(category)
    case Some(Infrastructure) => "Infraestructura vial"
    case Some(Security) => "Seguridad vial"
    case Some(Environment) => "Evento ambiental"
    case Some(Transport) => "Transporte y tránsito"
    case _ => "Otro"
  }

  /** Icons and labels tell the categories apart; an unknown category is shown as "other". */
  lemma CategoryPresentationSpec(x: string, y: string)
    ensures CategoryOf(x).Some? && CategoryOf(y).Some? && CategoryIcon(x) == CategoryIcon(y) ==> x == y
    ensures CategoryOf(x).Some? && CategoryOf(y).Some? && CategoryLabel(x) == CategoryLabel(y) ==> x == y
    ensures CategoryOf(x).None? ==> CategoryIcon(x) == CategoryIcon("OTHER") && CategoryLabel(x) == CategoryLabel("OTHER")
    ensures CategoryLabel(x) == "Otro" <==> CategoryIcon(x) == "📌"
  {
  }

  /** `getStatusLabel`: an unknown status is shown as it is. */
  function StatusLabel(status: string): (shown: string)
    ensures StatusOf(status).None? ==> shown == status
  {
    match StatusOf(status)
    case Some(Pending) => "Pendiente"
    case Some(InProgress) => "En Progreso"
    case Some(Resolved) => "Resuelto"
    case Some(Closed) => "Cerrado"
    case None => status
  }

  /** Distinct statuses get distinct labels, and no label is the wire value itself. */
  lemma StatusLabelSpec(x: string, y: string)
    ensures StatusOf(x).Some? && StatusOf(y).Some? && StatusLabel(x) == StatusLabel(y) ==> x == y
    ensures StatusOf(x).Some? ==> StatusLabel(x) != x
  {
  }

  /** `getPendingActionLabel`: nothing for a missing or empty action, a label per action, and
      a generic label for any other value. */
  function PendingActionLabel(action: Option<string>): string {
    if action.None? || action.value == "" then ""
    else
      match ActionOf(action.value)
      case Some(Create) => "Pendiente por enviar"
      case Some(Update) => "Actualización pendiente"
      case Some(Delete) => "Eliminación pendiente"
      case None => "Pendiente"
  }

  lemma PendingActionLabelSpec(action: Option<string>, a: ActionType, b: ActionType)
    ensures PendingActionLabel(action) == "" <==> action.None? || action == Some("")
    ensures PendingActionLabel(action) == "Pendiente" <==>
              action.Some? && action.value != "" && ActionOf(action.value).None?
    ensures PendingActionLabel(Some(ActionName(a))) == PendingActionLabel(Some(ActionName(b))) ==> a == b
  {
  }

  /** `isOfflineReport`: the flag is set and true. */
  function IsOfflineReport(r: Report): bool {
    r.isOfflineEntry == Some(true)
  }

  /** The flag's life cycle: a record persisted offline is shown as offline, with the label
      of its action, and a replayed record is no longer shown as offline. */
  lemma OfflineFlagLifecycle(s: Store, action: ActionType, r: Report, now: int, opId: string)
    ensures PersistOffline(s, action, r, now, opId).1.Ok? ==>
              var stored := PersistOffline(s, action, r, now, opId).1.value;
              && IsOfflineReport(stored)
              && stored.pendingAction == Some(action)
              && PendingActionLabel(Some(ActionName(stored.pendingAction.value))) != ""
    ensures !IsOfflineReport(RemoveOfflineFlags(r))
  {
    if action != Delete {
      var flagged := r.(isOfflineEntry := Some(true), pendingAction := Some(action), updatedAt := Some(now));
      var k := UpsertIndex(s.reports, flagged);
      if k >= 0 {
        UpsertMerges(s.reports, flagged, now);
      }
    }
  }
}
