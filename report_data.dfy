/** The synchronisation coordinator: it routes every read and mutation to the remote API
    or to the local cache and queue, and replays the queue against the remote in order.
    Connectivity, the remote's answer, the current time and the fresh operation id are
    parameters of each call. */
module ReportData {
  import opened Wrappers
  import opened Seqs
  import opened ReportModel
  import opened ReportCache

  /** What the remote API answers to one call. */
  datatype Remote<T> = Success(value: T) | Failure

  /** What a call that hands back an Observable does: throw before handing it back, or hand
      back one that emits a value, or one that errors. */
  datatype Reply<T> = Emits(value: T) | Fails(message: string) | Throws(message: string)

  /** What happens when the drain reaches one queued operation: the client is offline at that
      moment, or the remote accepts the replay (with the body it sends back), or it fails. */
  datatype ReplayStep = WentOffline | RemoteOk(body: Option<Report>) | RemoteFailed

  /** The error message for an id that neither the remote nor the cache can resolve, spelled
      as the source text spells it. */
  const NotFoundLocally := "Reporte no encontrado en cach√© local"
  const QueueOperationFailed := "Queue operation failed"
  /** The error raised when `persistOffline` reads the id of an upsert that returned nothing. */
  const IdOfUndefined := "Cannot read properties of undefined (reading 'id')"
  const DefaultUserId := 1
  const DefaultUserName := "Usuario Operativo"

  // ---------------------------------------------------------------- record transforms

  /** `normalizeReport`: keep the creation time or use now, stamp the update time, and give
      the owner fields their defaults. */
  function Normalize(r: Report, now: int): Report {
    r.(createdAt := Some(r.createdAt.GetOr(now)),
       updatedAt := Some(now),
       userId := Some(r.userId.GetOr(DefaultUserId)),
       userName := Some(r.userName.GetOr(DefaultUserName)))
  }

  /** A normalised report has both times and both owner fields; an existing creation time
      and owner are kept, and no other field changes. */
  lemma NormalizeSpec(r: Report, now: int)
    ensures var n := Normalize(r, now);
      && n.createdAt.Some? && (r.createdAt.Some? ==> n.createdAt == r.createdAt)
      && (r.createdAt.None? ==> n.createdAt == Some(now))
      && n.updatedAt == Some(now)
      && n.userId == (if r.userId.Some? then r.userId else Some(1))
      && n.userName == (if r.userName.Some? then r.userName else Some("Usuario Operativo"))
      && n.(createdAt := r.createdAt, updatedAt := r.updatedAt, userId := r.userId, userName := r.userName) == r
  {
  }

  /** `removeOfflineFlags`: delete the two synchronisation keys. */
  function RemoveOfflineFlags(r: Report): Report {
    r.(isOfflineEntry := None, pendingAction := None)
  }

  /** Because the keys are deleted rather than cleared, merging a sanitised record into a
      cached one keeps the cached flags. */
  lemma SanitisedMergeKeepsCachedFlags(cached: Report, r: Report, now: int)
    ensures Merged(cached, RemoveOfflineFlags(r), now).isOfflineEntry == cached.isOfflineEntry
    ensures Merged(cached, RemoveOfflineFlags(r), now).pendingAction == cached.pendingAction
  {
  }

  // ---------------------------------------------------------------- reads

  function AsReply<T>(r: Result<T>, thrown: bool): Reply<T> {
    match r
    case Ok(v) => Emits(v)
    case Err(m) => if thrown then Throws(m) else Fails(m)
  }

  /** `fetchReports`: online, a successful remote list replaces the whole cache and is
      returned, a failed one falls back to the cache read; offline, the cache is read directly
      (an exception there escapes before an Observable exists). */
  function FetchAll(s: Store, filter: Option<ReportFilter>, online: bool, remote: Remote<seq<Report>>)
    : (Store, Reply<seq<Report>>)
  {
    if online && remote.Success? then (s.(reports := remote.value), Emits(remote.value))
    else (s, AsReply(ReadReports(s.reports, filter), !online))
  }

  /** A successful online fetch overwrites the cache, unsynced offline entries included, and
      leaves the queue alone; a failed one changes nothing and returns the cache read; offline,
      the remote is not consulted. */
  lemma FetchAllSpec(s: Store, filter: Option<ReportFilter>, remote: Remote<seq<Report>>,
                     other: Remote<seq<Report>>)
    ensures remote.Success? ==>
              FetchAll(s, filter, true, remote) == (Store(remote.value, s.queue), Emits(remote.value))
    ensures remote.Failure? ==>
              && FetchAll(s, filter, true, remote).0 == s
              && (ReadReports(s.reports, filter).Ok? <==> FetchAll(s, filter, true, remote).1.Emits?)
              && (ReadReports(s.reports, filter).Ok? ==>
                    FetchAll(s, filter, true, remote).1.value == ReadReports(s.reports, filter).value)
    ensures remote.Failure? ==>
              (ReadReports(s.reports, filter).Err? <==> FetchAll(s, filter, true, remote).1.Fails?)
    ensures FetchAll(s, filter, false, remote) == FetchAll(s, filter, false, other)
    ensures FetchAll(s, filter, false, remote).0 == s
    ensures FetchAll(s, filter, false, remote).1 == AsReply(ReadReports(s.reports, filter), true)
    ensures ReadReports(s.reports, filter).Ok? <==> FetchAll(s, filter, false, remote).1.Emits?
    ensures ReadReports(s.reports, filter).Err? <==> FetchAll(s, filter, false, remote).1.Throws?
  {
  }

  /** `resolveReportFromCache`. */
  function ResolveFromCache(s: Store, id: int): Reply<Report> {
    match FindById(s.reports, id)
    case Some(r) => Emits(r)
    case None => Fails(NotFoundLocally)
  }

  /** `fetchReport`: online, a remote hit is upserted into the cache and returned; otherwise
      the cache resolves the id. */
  function FetchOne(s: Store, id: int, online: bool, remote: Remote<Report>, now: int): (Store, Reply<Report>) {
    if online && remote.Success? then
      (s.(reports := UpsertList(s.reports, remote.value, now).reports), Emits(remote.value))
    else (s, ResolveFromCache(s, id))
  }

  /** The fetch fails with "not found" exactly when the remote is skipped or fails and the cache
      has no entry for the id; a cache answer is the first entry with that id. */
  lemma FetchOneSpec(s: Store, id: int, online: bool, remote: Remote<Report>, now: int)
    ensures FetchOne(s, id, online, remote, now).1 == Fails(NotFoundLocally) <==>
              (!online || remote.Failure?) && forall i :: 0 <= i < |s.reports| ==> s.reports[i].id != Some(id)
    ensures FetchOne(s, id, online, remote, now).1.Throws? == false
    ensures online && remote.Success? ==>
              FetchOne(s, id, online, remote, now)
                == (s.(reports := UpsertList(s.reports, remote.value, now).reports), Emits(remote.value))
    ensures (!online || remote.Failure?) ==>
              && FetchOne(s, id, online, remote, now).0 == s
              && (FetchOne(s, id, online, remote, now).1.Emits? ==>
                    && 0 <= IndexOfId(s.reports, id)
                    && FetchOne(s, id, online, remote, now).1.value == s.reports[IndexOfId(s.reports, id)]
                    && FetchOne(s, id, online, remote, now).1.value.id == Some(id))
  {
  }

  // ---------------------------------------------------------------- offline persistence

  /** `persistOffline`. A delete removes a truthy id from the cache at once and queues a delete
      of that id. A create or update is flagged, upserted, and queued with the stored record as
      payload; when the upsert returns nothing (a truthy id that is not cached) reading its id
      throws, after the cache was already written and before anything is queued. */
  function PersistOffline(s: Store, action: ActionType, r: Report, now: int, opId: string): (Store, Result<Report>) {
    if action == Delete then
      var op := QueuedOperation(opId, Delete, EmptyReport.(id := r.id), r.id, now);
      var reports := if HasTruthyId(r.id) then RemoveId(s.reports, r.id) else s.reports;
      (Store(reports, EnqueueList(s.queue, op)), Ok(r.(pendingAction := Some(Delete), isOfflineEntry := Some(true))))
    else
      var flagged := r.(isOfflineEntry := Some(true), pendingAction := Some(action), updatedAt := Some(now));
      var u := UpsertList(s.reports, flagged, now);
      match u.stored
      case None => (s.(reports := u.reports), Err(IdOfUndefined))
      case Some(stored) =>
        (Store(u.reports, EnqueueList(s.queue, QueuedOperation(opId, action, stored, stored.id, now))), Ok(stored))
  }

  /** An offline delete with a fresh operation id: the id leaves the cache only when truthy,
      exactly one delete operation targeting the id is appended, and the record comes back
      flagged. */
  lemma PersistDeleteSpec(s: Store, r: Report, now: int, opId: string)
    requires forall i :: 0 <= i < |s.queue| ==> s.queue[i].id != opId
    ensures var (t, res) := PersistOffline(s, Delete, r, now, opId);
      && t.reports == (if HasTruthyId(r.id) then RemoveId(s.reports, r.id) else s.reports)
      && t.queue == s.queue + [QueuedOperation(opId, Delete, EmptyReport.(id := r.id), r.id, now)]
      && res == Ok(r.(pendingAction := Some(Delete), isOfflineEntry := Some(true)))
  {
  }

  /** An offline create or update that stores a record: the record is flagged with the action,
      and exactly one operation of that type is appended, carrying the stored record and its id. */
  lemma PersistWriteSpec(s: Store, action: ActionType, r: Report, now: int, opId: string)
    requires action != Delete
    requires forall i :: 0 <= i < |s.queue| ==> s.queue[i].id != opId
    ensures var (t, res) := PersistOffline(s, action, r, now, opId);
      res.Ok? ==>
        && res.value.isOfflineEntry == Some(true)
        && res.value.pendingAction == Some(action)
        && t.queue == s.queue + [QueuedOperation(opId, action, res.value, res.value.id, now)]
        && res.value in t.reports
  {
    var flagged := r.(isOfflineEntry := Some(true), pendingAction := Some(action), updatedAt := Some(now));
    var u := UpsertList(s.reports, flagged, now);
    var k := UpsertIndex(s.reports, flagged);
    if k >= 0 {
      assert u.reports[k] == u.stored.value;
    } else {
      assert u.reports[|s.reports|] == Appended(s.reports, flagged, now);
    }
  }

  /** The offline create and update throw exactly when the record carries a truthy id that is
      not cached; the record is then appended to the cache anyway and nothing is queued. */
  lemma PersistWriteThrows(s: Store, action: ActionType, r: Report, now: int, opId: string)
    requires action != Delete
    ensures PersistOffline(s, action, r, now, opId).1.Err? <==>
              HasTruthyId(r.id) && forall i :: 0 <= i < |s.reports| ==> s.reports[i].id != r.id
    ensures PersistOffline(s, action, r, now, opId).1.Err? ==>
              && PersistOffline(s, action, r, now, opId).0.queue == s.queue
              && |PersistOffline(s, action, r, now, opId).0.reports| == |s.reports| + 1
  {
  }

  // ---------------------------------------------------------------- mutations

  /** `createReport`: normalise, then on a remote success upsert and return the created record;
      on a remote failure, or offline, persist offline. An exception of the offline path escapes
      directly when offline and as an error of the Observable after a remote failure. */
  function CreateOne(s: Store, r: Report, online: bool, remote: Remote<Report>, now: int, opId: string)
    : (Store, Reply<Report>)
  {
    var normalized := Normalize(r, now);
    if online && remote.Success? then
      (s.(reports := UpsertList(s.reports, remote.value, now).reports), Emits(remote.value))
    else
      var (t, res) := PersistOffline(s, Create, normalized, now, opId);
      (t, AsReply(res, !online))
  }

  /** `updateReport`: the update carries the id; on a remote success the remote record is
      upserted and returned, otherwise the update is persisted offline. */
  function UpdateOne(s: Store, id: int, updates: Report, online: bool, remote: Remote<Report>, now: int, opId: string)
    : (Store, Reply<Report>)
  {
    if online && remote.Success? then
      (s.(reports := UpsertList(s.reports, remote.value, now).reports), Emits(remote.value))
    else
      var (t, res) := PersistOffline(s, Update, updates.(id := Some(id)), now, opId);
      (t, AsReply(res, !online))
  }

  /** `deleteReport`: on a remote success the id leaves the cache, otherwise the delete is
      persisted offline. It always completes. */
  function DeleteOne(s: Store, id: int, online: bool, remote: Remote<()>, now: int, opId: string): Store {
    if online && remote.Success? then s.(reports := RemoveId(s.reports, Some(id)))
    else PersistOffline(s, Delete, EmptyReport.(id := Some(id)), now, opId).0
  }

  /** Offline, a create consults no remote, returns a record flagged as an offline create and
      queues one create operation for it. */
  lemma OfflineCreateSpec(s: Store, r: Report, remote: Remote<Report>, other: Remote<Report>, now: int, opId: string)
    requires forall i :: 0 <= i < |s.queue| ==> s.queue[i].id != opId
    requires !HasTruthyId(r.id)
    ensures CreateOne(s, r, false, remote, now, opId) == CreateOne(s, r, false, other, now, opId)
    ensures var (t, reply) := CreateOne(s, r, false, remote, now, opId);
      && reply.Emits?
      && reply.value.isOfflineEntry == Some(true) && reply.value.pendingAction == Some(Create)
      && reply.value in t.reports
      && t.queue == s.queue + [QueuedOperation(opId, Create, reply.value, reply.value.id, now)]
  {
    var normalized := Normalize(r, now);
    PersistWriteSpec(s, Create, normalized, now, opId);
  }

  /** An empty cache, offline, and a report with only a title: the report gets the local id 1,
      is flagged as an offline create, and the queue holds one create operation for id 1. */
  lemma OfflineCreateIntoEmptyCache(title: string, now: int, opId: string)
    ensures var (t, reply) := CreateOne(Store([], []), EmptyReport.(title := Some(title)), false, Failure, now, opId);
      && reply.Emits?
      && reply.value.id == Some(1) && reply.value.title == Some(title)
      && reply.value.isOfflineEntry == Some(true) && reply.value.pendingAction == Some(Create)
      && t.reports == [reply.value]
      && |t.queue| == 1 && t.queue[0].kind == Create && t.queue[0].targetId == Some(1)
  {
  }

  // ---------------------------------------------------------------- queue replay

  /** The id a replayed update or delete targets: `targetId`, else the payload's id. */
  function TargetOf(op: QueuedOperation): Option<int> {
    if op.targetId.Some? then op.targetId else op.payload.id
  }

  /** `executeQueuedOperation` on one operation: nothing happens while offline (the operation
      stays queued); a remote failure is `None` and changes nothing; on success the cache is
      updated and the operation, and only it, is dequeued by its id. */
  function Replay(s: Store, op: QueuedOperation, step: ReplayStep, now: int): Option<Store> {
    match step
    case WentOffline => Some(s)
    case RemoteFailed => None
    case RemoteOk(body) =>
      var reports :=
        match op.kind
        case Delete => RemoveId(s.reports, TargetOf(op))
        case Create =>
          UpsertList(s.reports, RemoveOfflineFlags(body.GetOr(op.payload)), now).reports
        case Update =>
          UpsertList(s.reports, RemoveOfflineFlags(body.GetOr(op.payload.(id := op.targetId))), now).reports;
      Some(Store(reports, WithoutOp(s.queue, op.id)))
  }

  /** A replayed create whose remote record carries a new truthy id appends a second entry and
      leaves the local offline copy where it was. */
  lemma ReplayCreateWithNewRemoteId(s: Store, op: QueuedOperation, body: Report, now: int)
    requires op.kind == Create && HasTruthyId(body.id)
    requires forall i :: 0 <= i < |s.reports| ==> s.reports[i].id != body.id
    ensures Replay(s, op, RemoteOk(Some(body)), now) ==
              Some(Store(s.reports + [Appended(s.reports, RemoveOfflineFlags(body), now)], WithoutOp(s.queue, op.id)))
  {
  }

  /** A replayed create or update whose remote record has an id already cached merges into that
      entry, which keeps its offline flags. */
  lemma ReplayMergeKeepsFlags(s: Store, op: QueuedOperation, body: Report, now: int)
    requires op.kind != Delete && HasTruthyId(body.id)
    requires exists i :: 0 <= i < |s.reports| && s.reports[i].id == body.id
    ensures var k := IndexOfId(s.reports, body.id.value);
      && Replay(s, op, RemoteOk(Some(body)), now).Some?
      && |Replay(s, op, RemoteOk(Some(body)), now).value.reports| == |s.reports|
      && Replay(s, op, RemoteOk(Some(body)), now).value.reports[k].isOfflineEntry == s.reports[k].isOfflineEntry
      && Replay(s, op, RemoteOk(Some(body)), now).value.reports[k].pendingAction == s.reports[k].pendingAction
  {
  }

  /** `flushQueue`'s drain: the operations one at a time, in order, stopping at the first
      failure. The flag says whether every reached operation was either skipped or accepted. */
  function Drain(s: Store, ops: seq<QueuedOperation>, steps: seq<ReplayStep>, now: int): (Store, bool)
    requires |steps| == |ops|
    decreases |ops|
  {
    if ops == [] then (s, true)
    else
      match Replay(s, ops[0], steps[0], now)
      case None => (s, false)
      case Some(next) => Drain(next, ops[1..], steps[1..], now)
  }

  /** `flushQueue`: nothing to do on an empty queue; otherwise drain a snapshot of the queue,
      and report the first failure as an error. */
  function Flush(s: Store, steps: seq<ReplayStep>, now: int): (Store, Reply<()>)
    requires |steps| == |s.queue|
  {
    if |s.queue| == 0 then (s, Emits(()))
    else
      var (t, ok) := Drain(s, s.queue, steps, now);
      (t, if ok then Emits(()) else Fails(QueueOperationFailed))
  }

  /** The drain is sequential: draining a prefix and then, if it went through, the rest is the
      same as draining everything. */
  lemma {:induction false} DrainSplit(s: Store, ops: seq<QueuedOperation>, steps: seq<ReplayStep>, now: int, k: nat)
    requires |steps| == |ops| && k <= |ops|
    ensures var (mid, ok) := Drain(s, ops[..k], steps[..k], now);
      Drain(s, ops, steps, now) == if ok then Drain(mid, ops[k..], steps[k..], now) else (mid, false)
    decreases k
  {
    if k > 0 {
      assert ops[..k][1..] == ops[1..][..k - 1];
      assert steps[..k][1..] == steps[1..][..k - 1];
      assert ops[1..][k - 1..] == ops[k..];
      assert steps[1..][k - 1..] == steps[k..];
      match Replay(s, ops[0], steps[0], now)
      case None =>
      case Some(next) =>
        DrainSplit(next, ops[1..], steps[1..], now, k - 1);
    }
  }

  /** The drain reports success exactly when no reached operation failed, that is, when no
      step is a remote failure. */
  lemma {:induction false} DrainOkIff(s: Store, ops: seq<QueuedOperation>, steps: seq<ReplayStep>, now: int)
    requires |steps| == |ops|
    ensures Drain(s, ops, steps, now).1 <==> forall j :: 0 <= j < |steps| ==> !steps[j].RemoteFailed?
    decreases |ops|
  {
    if ops != [] {
      match Replay(s, ops[0], steps[0], now)
      case None =>
      case Some(next) =>
        DrainOkIff(next, ops[1..], steps[1..], now);
        assert forall j :: 1 <= j < |steps| ==> steps[j] == steps[1..][j - 1];
    }
  }

  /** While offline the whole drain is a no-op that succeeds. */
  lemma {:induction false} DrainWhileOffline(s: Store, ops: seq<QueuedOperation>, steps: seq<ReplayStep>, now: int)
    requires |steps| == |ops| && forall j :: 0 <= j < |steps| ==> steps[j] == WentOffline
    ensures Drain(s, ops, steps, now) == (s, true)
    decreases |ops|
  {
    if ops != [] {
      assert forall j :: 0 <= j < |steps[1..]| ==> steps[1..][j] == steps[j + 1];
      DrainWhileOffline(s, ops[1..], steps[1..], now);
    }
  }

  /** The drain stops at the first failing operation: the result is the state reached before
      it, the drain reports failure, and the answers for later operations play no part, so
      they are not attempted. */
  lemma DrainStopsAtFirstFailure(s: Store, ops: seq<QueuedOperation>, steps: seq<ReplayStep>, now: int, k: nat)
    requires |steps| == |ops| && k < |ops| && steps[k] == RemoteFailed
    requires forall j :: 0 <= j < k ==> !steps[j].RemoteFailed?
    ensures Drain(s, ops, steps, now) == (Drain(s, ops[..k], steps[..k], now).0, false)
    ensures forall later :: |later| == |ops| && later[..k + 1] == steps[..k + 1] ==>
              Drain(s, ops, later, now) == Drain(s, ops, steps, now)
  {
    forall later | |later| == |ops| && later[..k + 1] == steps[..k + 1]
      ensures Drain(s, ops, later, now) == (Drain(s, ops[..k], steps[..k], now).0, false)
    {
      assert later[..k] == steps[..k] by {
        assert later[..k] == later[..k + 1][..k];
        assert steps[..k] == steps[..k + 1][..k];
      }
      assert later[k] == later[..k + 1][k];
      DrainOkIff(s, ops[..k], later[..k], now);
      DrainSplit(s, ops, later, now, k);
    }
  }

  /** The queue entries with an id in `ids` removed. */
  function WithoutOps(q: seq<QueuedOperation>, ids: set<string>): (r: seq<QueuedOperation>)
    ensures forall op :: op in r <==> op in q && op.id !in ids
    decreases |q|
  {
    if q == [] then []
    else
      assert q == [q[0]] + q[1..];
      (if q[0].id in ids then [] else [q[0]]) + WithoutOps(q[1..], ids)
  }

  lemma {:induction false} WithoutOpThenOps(q: seq<QueuedOperation>, id: string, ids: set<string>)
    ensures WithoutOps(WithoutOp(q, id), ids) == WithoutOps(q, {id} + ids)
    decreases |q|
  {
    if q != [] {
      WithoutOpThenOps(q[1..], id, ids);
      var rest := WithoutOp(q[1..], id);
      var all := {id} + ids;
      assert WithoutOps(q, all) == (if q[0].id in all then [] else [q[0]]) + WithoutOps(q[1..], all);
      if q[0].id == id {
        assert WithoutOp(q, id) == rest;
      } else {
        var w := [q[0]] + rest;
        assert WithoutOp(q, id) == w;
        assert w[0] == q[0] && w[1..] == rest;
        assert WithoutOps(w, ids) == (if q[0].id in ids then [] else [q[0]]) + WithoutOps(rest, ids);
      }
    }
  }

  lemma {:induction false} WithoutNoOps(q: seq<QueuedOperation>)
    ensures WithoutOps(q, {}) == q
    decreases |q|
  {
    if q != [] {
      WithoutNoOps(q[1..]);
      assert [q[0]] + q[1..] == q;
    }
  }

  /** The drain reaches operation `j`: no earlier operation failed. */
  ghost predicate Reached(steps: seq<ReplayStep>, j: int) {
    forall i :: 0 <= i < j && i < |steps| ==> !steps[i].RemoteFailed?
  }

  /** The ids the drain dequeues: those of the reached operations that the remote accepted. */
  function Dequeued(ops: seq<QueuedOperation>, steps: seq<ReplayStep>): set<string>
    requires |steps| == |ops|
    decreases |ops|
  {
    if ops == [] then {}
    else
      match steps[0]
      case RemoteFailed => {}
      case WentOffline => Dequeued(ops[1..], steps[1..])
      case RemoteOk(_) => {ops[0].id} + Dequeued(ops[1..], steps[1..])
  }

  lemma {:induction false} DequeuedSpec(ops: seq<QueuedOperation>, steps: seq<ReplayStep>, id: string)
    requires |steps| == |ops|
    ensures id in Dequeued(ops, steps) <==>
              exists j :: 0 <= j < |ops| && ops[j].id == id && steps[j].RemoteOk? && Reached(steps, j)
    decreases |ops|
  {
    if ops != [] {
      DequeuedSpec(ops[1..], steps[1..], id);
      if exists j :: 0 <= j < |ops| && ops[j].id == id && steps[j].RemoteOk? && Reached(steps, j) {
        var j :| 0 <= j < |ops| && ops[j].id == id && steps[j].RemoteOk? && Reached(steps, j);
        if j > 0 {
          assert !steps[0].RemoteFailed?;
          assert ops[1..][j - 1] == ops[j] && steps[1..][j - 1] == steps[j];
          assert Reached(steps[1..], j - 1);
        }
      }
      if !steps[0].RemoteFailed? && id in Dequeued(ops[1..], steps[1..]) {
        var j :| 0 <= j < |ops[1..]| && ops[1..][j].id == id && steps[1..][j].RemoteOk? && Reached(steps[1..], j);
        assert ops[j + 1] == ops[1..][j] && steps[j + 1] == steps[1..][j];
        assert Reached(steps, j + 1);
      }
    }
  }

  /** Replaying never adds to the queue: it drops exactly the ids of accepted operations. */
  lemma {:induction false} DrainQueue(s: Store, ops: seq<QueuedOperation>, steps: seq<ReplayStep>, now: int)
    requires |steps| == |ops|
    ensures Drain(s, ops, steps, now).0.queue == WithoutOps(s.queue, Dequeued(ops, steps))
    decreases |ops|
  {
    if ops == [] {
      WithoutNoOps(s.queue);
    } else {
      match steps[0]
      case RemoteFailed => WithoutNoOps(s.queue);
      case WentOffline => DrainQueue(s, ops[1..], steps[1..], now);
      case RemoteOk(_) =>
        var next := Replay(s, ops[0], steps[0], now).value;
        DrainQueue(next, ops[1..], steps[1..], now);
        WithoutOpThenOps(s.queue, ops[0].id, Dequeued(ops[1..], steps[1..]));
    }
  }

  /** Draining the whole queue (ids unique) leaves queued exactly the operations it did not
      get an acceptance for: those after the first failure, the failed one itself, and those
      skipped while offline. */
  lemma DrainLeavesQueued(s: Store, steps: seq<ReplayStep>, now: int, j: nat)
    requires UniqueOpIds(s.queue) && |steps| == |s.queue| && j < |s.queue|
    ensures s.queue[j] in Drain(s, s.queue, steps, now).0.queue <==> !(steps[j].RemoteOk? && Reached(steps, j))
  {
    DrainQueue(s, s.queue, steps, now);
    DequeuedSpec(s.queue, steps, s.queue[j].id);
  }

  /** When every replay is accepted the drain succeeds and empties the queue. */
  lemma DrainAllAccepted(s: Store, steps: seq<ReplayStep>, now: int)
    requires UniqueOpIds(s.queue) && |steps| == |s.queue|
    requires forall j :: 0 <= j < |steps| ==> steps[j].RemoteOk?
    ensures Drain(s, s.queue, steps, now).1
    ensures Drain(s, s.queue, steps, now).0.queue == []
  {
    DrainOkIff(s, s.queue, steps, now);
    var q := Drain(s, s.queue, steps, now).0.queue;
    DrainQueue(s, s.queue, steps, now);
    if q != [] {
      var x := q[0];
      assert x in s.queue;
      var j :| 0 <= j < |s.queue| && s.queue[j] == x;
      DrainLeavesQueued(s, steps, now, j);
    }
  }

  // ---------------------------------------------------------------- the service

  /** `ReportDataService`: the coordinator over one cache. */
  class ReportDataService {
    const cache: ReportCacheService

    /** Construction seeds the sample data into an empty cache. */
    constructor(cache: ReportCacheService)
      modifies cache
      ensures this.cache == cache
      ensures cache.reports == SeedList(old(cache.reports)) && cache.queue == old(cache.queue)
    {
      this.cache := cache;
      new;
      var _ := cache.SeedSampleData();
    }

    method FetchReports(filter: Option<ReportFilter>, online: bool, remote: Remote<seq<Report>>)
      returns (reply: Reply<seq<Report>>)
      modifies cache
      ensures (cache.State(), reply) == FetchAll(old(cache.State()), filter, online, remote)
    {
      if online && remote.Success? {
        cache.ReplaceAll(remote.value);
        return Emits(remote.value);
      }
      var read := cache.GetReports(filter);
      reply := AsReply(read, !online);
    }

    method FetchReport(id: int, online: bool, remote: Remote<Report>, now: int) returns (reply: Reply<Report>)
      modifies cache
      ensures (cache.State(), reply) == FetchOne(old(cache.State()), id, online, remote, now)
    {
      if online && remote.Success? {
        var _ := cache.Upsert(remote.value, now);
        return Emits(remote.value);
      }
      reply := ResolveReportFromCache(id);
    }

    method ResolveReportFromCache(id: int) returns (reply: Reply<Report>)
      ensures reply == ResolveFromCache(cache.State(), id)
    {
      var cached := cache.GetReport(id);
      if cached.None? {
        return Fails(NotFoundLocally);
      }
      reply := Emits(cached.value);
    }

    method CreateReport(report: Report, online: bool, remote: Remote<Report>, now: int, opId: string)
      returns (reply: Reply<Report>)
      modifies cache
      ensures (cache.State(), reply) == CreateOne(old(cache.State()), report, online, remote, now, opId)
    {
      var normalized := Normalize(report, now);
      if online && remote.Success? {
        var _ := cache.Upsert(remote.value, now);
        return Emits(remote.value);
      }
      var res := PersistOfflineWrite(Create, normalized, now, opId);
      reply := AsReply(res, !online);
    }

    method UpdateReport(id: int, updates: Report, online: bool, remote: Remote<Report>, now: int, opId: string)
      returns (reply: Reply<Report>)
      modifies cache
      ensures (cache.State(), reply) == UpdateOne(old(cache.State()), id, updates, online, remote, now, opId)
    {
      var normalized := updates.(id := Some(id));
      if online && remote.Success? {
        var _ := cache.Upsert(remote.value, now);
        return Emits(remote.value);
      }
      var res := PersistOfflineWrite(Update, normalized, now, opId);
      reply := AsReply(res, !online);
    }

    method DeleteReport(id: int, online: bool, remote: Remote<()>, now: int, opId: string)
      modifies cache
      ensures cache.State() == DeleteOne(old(cache.State()), id, online, remote, now, opId)
    {
      if online && remote.Success? {
        cache.Remove(Some(id));
        return;
      }
      var _ := PersistOfflineDelete(EmptyReport.(id := Some(id)), now, opId);
    }

    /** `persistOffline('delete', report)`. */
    method PersistOfflineDelete(report: Report, now: int, opId: string) returns (r: Report)
      modifies cache
      ensures (cache.State(), Ok(r)) == PersistOffline(old(cache.State()), Delete, report, now, opId)
    {
      var op := QueuedOperation(opId, Delete, EmptyReport.(id := report.id), report.id, now);
      if HasTruthyId(report.id) {
        cache.Remove(report.id);
      }
      cache.EnqueueOperation(op);
      r := report.(pendingAction := Some(Delete), isOfflineEntry := Some(true));
    }

    /** `persistOffline('create' | 'update', report)`. */
    method PersistOfflineWrite(action: ActionType, report: Report, now: int, opId: string) returns (r: Result<Report>)
      requires action != Delete
      modifies cache
      ensures (cache.State(), r) == PersistOffline(old(cache.State()), action, report, now, opId)
    {
      var flagged := report.(isOfflineEntry := Some(true), pendingAction := Some(action), updatedAt := Some(now));
      var stored := cache.Upsert(flagged, now);
      if stored.None? {
        return Err(IdOfUndefined);
      }
      var op := QueuedOperation(opId, action, stored.value, stored.value.id, now);
      cache.EnqueueOperation(op);
      r := Ok(stored.value);
    }

    /** `executeQueuedOperation`: `ok` is false when the remote rejected the replay. */
    method ExecuteQueuedOperation(op: QueuedOperation, step: ReplayStep, now: int) returns (ok: bool)
      modifies cache
      ensures ok == Replay(old(cache.State()), op, step, now).Some?
      ensures ok ==> cache.State() == Replay(old(cache.State()), op, step, now).value
      ensures !ok ==> cache.State() == old(cache.State())
    {
      match step
      case WentOffline =>
        return true;
      case RemoteFailed =>
        return false;
      case RemoteOk(body) =>
        match op.kind {
          case Delete =>
            cache.Remove(TargetOf(op));
          case Create =>
            var _ := cache.Upsert(RemoveOfflineFlags(body.GetOr(op.payload)), now);
          case Update =>
            var _ := cache.Upsert(RemoveOfflineFlags(body.GetOr(op.payload.(id := op.targetId))), now);
        }
        cache.DequeueOperation(op.id);
        return true;
    }

    /** `flushQueue`: replay a snapshot of the queue front to back, one operation at a time,
        and stop at the first rejected replay. */
    method FlushQueue(steps: seq<ReplayStep>, now: int) returns (reply: Reply<()>)
      requires |steps| == |cache.queue|
      modifies cache
      ensures (cache.State(), reply) == Flush(old(cache.State()), steps, now)
    {
      var queue := cache.GetQueue();
      if |queue| == 0 {
        return Emits(());
      }
      var k := 0;
      while k < |queue|
        invariant 0 <= k <= |queue|
        invariant Drain(old(cache.State()), queue, steps, now) == Drain(cache.State(), queue[k..], steps[k..], now)
      {
        var ok := ExecuteQueuedOperation(queue[k], steps[k], now);
        if !ok {
          assert queue[k..][0] == queue[k] && steps[k..][0] == steps[k];
          return Fails(QueueOperationFailed);
        }
        assert queue[k..][1..] == queue[k + 1..] && steps[k..][1..] == steps[k + 1..];
        k := k + 1;
      }
      return Emits(());
    }
  }
}
