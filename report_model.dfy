/** The report entity, the list filter and the queued offline operation.
    Every field of a report is optional: the same record type stands for a full report,
    for the partial payload of an update and for the `{ id }` stub of a delete. */
module ReportModel {
  import opened Wrappers

  datatype ReportStatus = Pending | InProgress | Resolved | Closed

  datatype ReportCategory = Infrastructure | Security | Environment | Transport | Other

  /** The three kinds of mutation that can wait in the offline queue. */
  datatype ActionType = Create | Update | Delete

  /** The wire value of a status, as the enum declares it. */
  function StatusName(s: ReportStatus): string {
    match s
    case Pending => "PENDING"
    case InProgress => "IN_PROGRESS"
    case Resolved => "RESOLVED"
    case Closed => "CLOSED"
  }

  /** The wire value of a category, as the enum declares it. */
  function CategoryName(c: ReportCategory): string {
    match c
    case Infrastructure => "INFRASTRUCTURE"
    case Security => "SECURITY"
    case Environment => "ENVIRONMENT"
    case Transport => "TRANSPORT"
    case Other => "OTHER"
  }

  /** The string literal of an action type. */
  function ActionName(a: ActionType): string {
    match a
    case Create => "create"
    case Update => "update"
    case Delete => "delete"
  }

  /** A report; dates are milliseconds since the epoch. */
  datatype Report = Report(
    id: Option<int>,
    title: Option<string>,
    description: Option<string>,
    category: Option<ReportCategory>,
    location: Option<string>,
    latitude: Option<real>,
    longitude: Option<real>,
    status: Option<ReportStatus>,
    createdAt: Option<int>,
    updatedAt: Option<int>,
    userId: Option<int>,
    userName: Option<string>,
    photos: Option<seq<string>>,
    isOfflineEntry: Option<bool>,
    pendingAction: Option<ActionType>)

  /** The record with no key set: `{}`. */
  const EmptyReport: Report :=
    Report(None, None, None, None, None, None, None, None, None, None, None, None, None, None, None)

  /** JavaScript truthiness of an optional numeric id: present and not zero. */
  predicate HasTruthyId(id: Option<int>) {
    id.Some? && id.value != 0
  }

  /** `a ?? b` on one key: the incoming value when present, else the base value. */
  function Pick<T>(base: Option<T>, incoming: Option<T>): Option<T> {
    if incoming.Some? then incoming else base
  }

  /** The object spread `{ ...base, ...incoming }`: every key present in `incoming`
      overrides, every other key keeps the value of `base`. */
  function Overlay(base: Report, incoming: Report): (r: Report)
  {
    Report(
      Pick(base.id, incoming.id),
      Pick(base.title, incoming.title),
      Pick(base.description, incoming.description),
      Pick(base.category, incoming.category),
      Pick(base.location, incoming.location),
      Pick(base.latitude, incoming.latitude),
      Pick(base.longitude, incoming.longitude),
      Pick(base.status, incoming.status),
      Pick(base.createdAt, incoming.createdAt),
      Pick(base.updatedAt, incoming.updatedAt),
      Pick(base.userId, incoming.userId),
      Pick(base.userName, incoming.userName),
      Pick(base.photos, incoming.photos),
      Pick(base.isOfflineEntry, incoming.isOfflineEntry),
      Pick(base.pendingAction, incoming.pendingAction))
  }

  /** One key after a spread: present in the later record, it takes that value; absent, it
      keeps the earlier one. */
  predicate LastWriteWins<T(==)>(base: Option<T>, incoming: Option<T>, merged: Option<T>) {
    (incoming.Some? ==> merged == incoming) && (incoming.None? ==> merged == base)
  }

  /** Spreading a record over itself or over `{}`, or `{}` over a record, changes nothing;
      spreading is associative. */
  lemma OverlayLaws(a: Report, b: Report, c: Report)
    ensures Overlay(a, EmptyReport) == a
    ensures Overlay(EmptyReport, b) == b
    ensures Overlay(a, a) == a
    ensures Overlay(Overlay(a, b), c) == Overlay(a, Overlay(b, c))
    ensures Overlay(Overlay(a, b), b) == Overlay(a, b)
  {
  }

  /** Key by key, the last write wins: a key present in the spread record takes its value,
      an absent one keeps the base value. */
  lemma OverlayLastWriteWins(a: Report, b: Report)
    ensures var o := Overlay(a, b);
      && LastWriteWins(a.id, b.id, o.id)
      && LastWriteWins(a.title, b.title, o.title)
      && LastWriteWins(a.description, b.description, o.description)
      && LastWriteWins(a.category, b.category, o.category)
      && LastWriteWins(a.location, b.location, o.location)
      && LastWriteWins(a.latitude, b.latitude, o.latitude)
      && LastWriteWins(a.longitude, b.longitude, o.longitude)
      && LastWriteWins(a.status, b.status, o.status)
      && LastWriteWins(a.createdAt, b.createdAt, o.createdAt)
      && LastWriteWins(a.updatedAt, b.updatedAt, o.updatedAt)
      && LastWriteWins(a.userId, b.userId, o.userId)
      && LastWriteWins(a.userName, b.userName, o.userName)
      && LastWriteWins(a.photos, b.photos, o.photos)
      && LastWriteWins(a.isOfflineEntry, b.isOfflineEntry, o.isOfflineEntry)
      && LastWriteWins(a.pendingAction, b.pendingAction, o.pendingAction)
  {
  }

  /** The list filter; every criterion is optional. */
  datatype ReportFilter = ReportFilter(
    category: Option<ReportCategory>,
    status: Option<ReportStatus>,
    startDate: Option<int>,
    endDate: Option<int>,
    location: Option<string>)

  /** A mutation waiting in the offline queue. `id` is an opaque token and
      `createdAt` the time it was queued. */
  datatype QueuedOperation = QueuedOperation(
    id: string,
    kind: ActionType,
    payload: Report,
    targetId: Option<int>,
    createdAt: int)
}
