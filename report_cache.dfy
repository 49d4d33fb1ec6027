/** The local entity cache and the offline operation queue: two ordered lists kept in
    memory (the durable browser-storage copy of them is not modelled). */
module ReportCache {
  import opened Wrappers
  import opened Text
  import opened Seqs
  import opened ReportModel

  /** The error `toLowerCase` raises when a report without a location meets a location filter. */
  const LowerCaseOfUndefined := "Cannot read properties of undefined (reading 'toLowerCase')"

  // ---------------------------------------------------------------- filtering

  /** The declarative reading of the filter: category and status match exactly, the
      location contains the filter text ignoring case, and the creation date, when there is
      one, lies in the inclusive range. Empty location text means no location criterion. */
  predicate Satisfies(r: Report, f: ReportFilter)
    requires f.location.Some? && f.location.value != "" ==> r.location.Some?
  {
    && (f.category.Some? ==> r.category == f.category)
    && (f.status.Some? ==> r.status == f.status)
    && (f.location.Some? && f.location.value != "" ==>
          Contains(Lower(r.location.value), Lower(f.location.value)))
    && (f.startDate.Some? && r.createdAt.Some? ==> f.startDate.value <= r.createdAt.value)
    && (f.endDate.Some? && r.createdAt.Some? ==> r.createdAt.value <= f.endDate.value)
  }

  /** `matchesFilter`: the checks in the order the service makes them. A location criterion
      applied to a report with no location throws, unless an earlier check already failed. */
  function MatchesFilter(r: Report, f: ReportFilter): Result<bool> {
    if f.category.Some? && r.category != f.category then Ok(false)
    else if f.status.Some? && r.status != f.status then Ok(false)
    else if f.location.Some? && f.location.value != "" && r.location.None? then Err(LowerCaseOfUndefined)
    else if f.location.Some? && f.location.value != ""
            && !Contains(Lower(r.location.value), Lower(f.location.value)) then Ok(false)
    else if f.startDate.Some? && r.createdAt.Some? && r.createdAt.value < f.startDate.value then Ok(false)
    else if f.endDate.Some? && r.createdAt.Some? && r.createdAt.value > f.endDate.value then Ok(false)
    else Ok(true)
  }

  /** The filter throws exactly on a report with no location that passed the category and
      status checks under a non-empty location criterion; otherwise it agrees with `Satisfies`. */
  lemma MatchesFilterSpec(r: Report, f: ReportFilter)
    ensures MatchesFilter(r, f).Err? <==>
              && (f.category.Some? ==> r.category == f.category)
              && (f.status.Some? ==> r.status == f.status)
              && f.location.Some? && f.location.value != "" && r.location.None?
    ensures (f.location.Some? && f.location.value != "" ==> r.location.Some?) ==>
              MatchesFilter(r, f) == Ok(Satisfies(r, f))
  {
  }

  /** `reports.filter(matchesFilter)`: stops at the first report on which the predicate throws. */
  function FilterReports(xs: seq<Report>, f: ReportFilter): Result<seq<Report>>
    decreases |xs|
  {
    if xs == [] then Ok([])
    else
      match MatchesFilter(xs[0], f)
      case Err(m) => Err(m)
      case Ok(keep) =>
        match FilterReports(xs[1..], f)
        case Err(m) => Err(m)
        case Ok(rest) => Ok(if keep then [xs[0]] + rest else rest)
  }

  /** `getReports(filter?)`: everything without a filter, the filtered list with one. */
  function ReadReports(xs: seq<Report>, filter: Option<ReportFilter>): Result<seq<Report>> {
    if filter.None? then Ok(xs) else FilterReports(xs, filter.value)
  }

  /** The filtered read fails exactly when the predicate throws on some report; when it
      succeeds it returns, in the original order and with their multiplicities, exactly the
      reports the predicate accepts. */
  lemma {:induction false} FilterReportsSpec(xs: seq<Report>, f: ReportFilter)
    ensures FilterReports(xs, f).Err? <==> exists i :: 0 <= i < |xs| && MatchesFilter(xs[i], f).Err?
    ensures FilterReports(xs, f).Ok? ==>
              var ys := FilterReports(xs, f).value;
              && Subsequence(ys, xs)
              && (forall r :: r in ys <==> r in xs && MatchesFilter(r, f) == Ok(true))
              && (forall r :: multiset(ys)[r] == if MatchesFilter(r, f) == Ok(true) then multiset(xs)[r] else 0)
    decreases |xs|
  {
    if xs != [] {
      FilterReportsSpec(xs[1..], f);
      assert xs == [xs[0]] + xs[1..];
      if FilterReports(xs, f).Ok? {
        var rest := FilterReports(xs[1..], f).value;
        if MatchesFilter(xs[0], f) == Ok(true) {
          SubsequenceCons(xs[0], rest, xs[1..]);
        } else {
          SubsequenceSkip(xs[0], rest, xs[1..]);
        }
      }
      if exists i :: 0 <= i < |xs| && MatchesFilter(xs[i], f).Err? {
        var i :| 0 <= i < |xs| && MatchesFilter(xs[i], f).Err?;
        if i > 0 {
          assert xs[1..][i - 1] == xs[i];
        }
      }
    }
  }

  /** Without a filter the read returns the whole cache. */
  lemma ReadWithoutFilter(xs: seq<Report>)
    ensures ReadReports(xs, None) == Ok(xs)
  {
  }

  // ---------------------------------------------------------------- lookup by id

  /** `findIndex(r => r.id === id)`: the first position holding `id`, or -1. */
  function IndexOfId(xs: seq<Report>, id: int): (k: int)
    ensures -1 <= k < |xs|
    ensures k == -1 <==> forall i :: 0 <= i < |xs| ==> xs[i].id != Some(id)
    ensures k >= 0 ==> xs[k].id == Some(id) && forall i :: 0 <= i < k ==> xs[i].id != Some(id)
    decreases |xs|
  {
    if xs == [] then -1
    else if xs[0].id == Some(id) then 0
    else
      var k := IndexOfId(xs[1..], id);
      if k == -1 then -1 else k + 1
  }

  /** `getReport(id)`: the first cached report with that id. */
  function FindById(xs: seq<Report>, id: int): (r: Option<Report>)
    ensures r.None? <==> forall i :: 0 <= i < |xs| ==> xs[i].id != Some(id)
    ensures r.Some? ==> r.value in xs && r.value.id == Some(id)
  {
    var k := IndexOfId(xs, id);
    if k >= 0 then Some(xs[k]) else None
  }

  // ---------------------------------------------------------------- local ids

  /** An id as `generateLocalId` counts it: a missing id counts as 0. */
  function IdOrZero(r: Report): int {
    r.id.GetOr(0)
  }

  /** `generateLocalId`: one more than the largest id, or 1 for an empty list. */
  function GenerateLocalId(xs: seq<Report>): (n: int)
    ensures xs == [] ==> n == 1
    ensures forall i :: 0 <= i < |xs| ==> IdOrZero(xs[i]) < n
    ensures xs != [] ==> exists i :: 0 <= i < |xs| && IdOrZero(xs[i]) == n - 1
    decreases |xs|
  {
    if xs == [] then 1
    else if |xs| == 1 then IdOrZero(xs[0]) + 1
    else
      var m := GenerateLocalId(xs[1..]);
      assert forall i :: 1 <= i < |xs| ==> IdOrZero(xs[i]) == IdOrZero(xs[1..][i - 1]);
      if IdOrZero(xs[0]) + 1 > m then IdOrZero(xs[0]) + 1 else m
  }

  /** A generated id is carried by no cached report, even when it is the falsy 0. */
  lemma GeneratedIdIsFresh(xs: seq<Report>)
    ensures forall i :: 0 <= i < |xs| ==> xs[i].id != Some(GenerateLocalId(xs))
  {
    var n := GenerateLocalId(xs);
    forall i | 0 <= i < |xs| ensures xs[i].id != Some(n) {
      assert IdOrZero(xs[i]) < n;
    }
  }

  // ---------------------------------------------------------------- upsert

  /** The cache after an upsert and the value the call returns. */
  datatype Upserted = Upserted(reports: seq<Report>, stored: Option<Report>)

  /** The entry written when `r` merges into the cached `cached`. */
  function Merged(cached: Report, r: Report, now: int): Report {
    Overlay(cached, r).(updatedAt := Some(r.updatedAt.GetOr(now)))
  }

  /** The entry appended for `r` when it does not merge. */
  function Appended(xs: seq<Report>, r: Report, now: int): Report {
    r.(id := Some(r.id.GetOr(GenerateLocalId(xs))), createdAt := Some(now), updatedAt := Some(now))
  }

  /** The position `upsert` merges into: the first entry with the same id, for a truthy id only. */
  function UpsertIndex(xs: seq<Report>, r: Report): (k: int)
    ensures -1 <= k < |xs|
  {
    if HasTruthyId(r.id) then IndexOfId(xs, r.id.value) else -1
  }

  /** `upsert`: merge into the entry with the same truthy id, or append with the given id
      (kept even when it is 0) or a generated one. It returns the merged entry, the appended
      entry when the input had no truthy id, and nothing for a truthy id that was not cached. */
  function UpsertList(xs: seq<Report>, r: Report, now: int): Upserted {
    var k := UpsertIndex(xs, r);
    if k >= 0 then
      Upserted(xs[k := Merged(xs[k], r, now)], Some(Merged(xs[k], r, now)))
    else
      Upserted(xs + [Appended(xs, r, now)], if HasTruthyId(r.id) then None else Some(Appended(xs, r, now)))
  }

  /** A truthy id already cached: the list keeps its length, only the first entry with that
      id changes, present incoming keys win, absent ones keep the cached value, and the update
      time is the incoming one or now. The merged entry is returned. */
  lemma UpsertMerges(xs: seq<Report>, r: Report, now: int)
    requires HasTruthyId(r.id) && exists i :: 0 <= i < |xs| && xs[i].id == r.id
    ensures var k := IndexOfId(xs, r.id.value);
      && 0 <= k
      && |UpsertList(xs, r, now).reports| == |xs|
      && (forall i :: 0 <= i < |xs| && i != k ==> UpsertList(xs, r, now).reports[i] == xs[i])
      && UpsertList(xs, r, now).reports[k] == Overlay(xs[k], r).(updatedAt := Some(r.updatedAt.GetOr(now)))
      && UpsertList(xs, r, now).reports[k].id == r.id
      && UpsertList(xs, r, now).stored == Some(UpsertList(xs, r, now).reports[k])
  {
  }

  /** No truthy id, or a truthy id not cached: exactly one entry is appended, with the given
      id or a generated one, and with creation and update time set to now. */
  lemma UpsertAppends(xs: seq<Report>, r: Report, now: int)
    requires !HasTruthyId(r.id) || forall i :: 0 <= i < |xs| ==> xs[i].id != r.id
    ensures var ys := UpsertList(xs, r, now).reports;
      && |ys| == |xs| + 1
      && ys[..|xs|] == xs
      && ys[|xs|] == r.(id := Some(if r.id.Some? then r.id.value else GenerateLocalId(xs)),
                        createdAt := Some(now), updatedAt := Some(now))
      && UpsertList(xs, r, now).stored == (if HasTruthyId(r.id) then None else Some(ys[|xs|]))
  {
    var ys := UpsertList(xs, r, now).reports;
    assert ys == xs + [Appended(xs, r, now)];
    assert ys[..|xs|] == xs;
  }

  /** An upsert without an id into any cache can be read back under the id it was given. */
  lemma {:induction false} UpsertWithoutIdReadsBack(xs: seq<Report>, r: Report, now: int)
    requires r.id.None?
    ensures var u := UpsertList(xs, r, now);
      && u.stored.Some? && u.stored.value.id.Some?
      && FindById(u.reports, u.stored.value.id.value) == u.stored
  {
    var u := UpsertList(xs, r, now);
    var n := GenerateLocalId(xs);
    GeneratedIdIsFresh(xs);
    var k := IndexOfId(u.reports, n);
    assert u.reports[|xs|].id == Some(n);
    assert forall i :: 0 <= i < |xs| ==> u.reports[i] == xs[i];
    assert k == |xs|;
  }

  /** The upsert of `{ id: 0 }`: the id 0 is not truthy, so nothing merges, and it is kept
      as the id of the appended entry, which is returned. */
  lemma UpsertZeroId(xs: seq<Report>, r: Report, now: int)
    requires r.id == Some(0)
    ensures UpsertList(xs, r, now).reports == xs + [r.(createdAt := Some(now), updatedAt := Some(now))]
    ensures UpsertList(xs, r, now).stored == Some(r.(createdAt := Some(now), updatedAt := Some(now)))
  {
  }

  // ---------------------------------------------------------------- remove, replace

  /** `reports.filter(r => r.id !== id)`; an absent id (`undefined`) removes the id-less entries. */
  function RemoveId(xs: seq<Report>, id: Option<int>): (ys: seq<Report>)
    ensures forall r :: r in ys <==> r in xs && r.id != id
    ensures forall r :: multiset(ys)[r] == if r.id != id then multiset(xs)[r] else 0
    ensures (forall i :: 0 <= i < |xs| ==> xs[i].id != id) ==> ys == xs
    decreases |xs|
  {
    if xs == [] then []
    else
      assert xs == [xs[0]] + xs[1..];
      (if xs[0].id != id then [xs[0]] else []) + RemoveId(xs[1..], id)
  }

  /** Removing keeps the remaining entries in their order. */
  lemma {:induction false} RemoveIdKeepsOrder(xs: seq<Report>, id: Option<int>)
    ensures Subsequence(RemoveId(xs, id), xs)
    decreases |xs|
  {
    if xs != [] {
      var rest := RemoveId(xs[1..], id);
      RemoveIdKeepsOrder(xs[1..], id);
      assert [xs[0]] + xs[1..] == xs;
      if xs[0].id != id {
        assert RemoveId(xs, id) == [xs[0]] + rest;
        SubsequenceCons(xs[0], rest, xs[1..]);
      } else {
        assert RemoveId(xs, id) == rest;
        SubsequenceSkip(xs[0], rest, xs[1..]);
      }
    }
  }

  // ---------------------------------------------------------------- queue

  /** `findIndex(item => item.id === opId)` over the queue. */
  function IndexOfOp(q: seq<QueuedOperation>, opId: string): (k: int)
    ensures -1 <= k < |q|
    ensures k == -1 <==> forall i :: 0 <= i < |q| ==> q[i].id != opId
    ensures k >= 0 ==> q[k].id == opId && forall i :: 0 <= i < k ==> q[i].id != opId
    decreases |q|
  {
    if q == [] then -1
    else if q[0].id == opId then 0
    else
      var k := IndexOfOp(q[1..], opId);
      if k == -1 then -1 else k + 1
  }

  /** `enqueueOperation`: replace the entry with the same operation id, else append. */
  function EnqueueList(q: seq<QueuedOperation>, op: QueuedOperation): seq<QueuedOperation> {
    var k := IndexOfOp(q, op.id);
    if k >= 0 then q[k := op] else q + [op]
  }

  /** `dequeueOperation`: drop every entry with that operation id. */
  function WithoutOp(q: seq<QueuedOperation>, opId: string): (r: seq<QueuedOperation>)
    ensures forall op :: op in r <==> op in q && op.id != opId
    ensures forall op :: multiset(r)[op] == if op.id != opId then multiset(q)[op] else 0
    decreases |q|
  {
    if q == [] then []
    else
      assert q == [q[0]] + q[1..];
      (if q[0].id != opId then [q[0]] else []) + WithoutOp(q[1..], opId)
  }

  /** Operation ids are unique in the queue. */
  ghost predicate UniqueOpIds(q: seq<QueuedOperation>) {
    forall i, j :: 0 <= i < |q| && 0 <= j < |q| && q[i].id == q[j].id ==> i == j
  }

  /** Enqueueing replaces in place (same length) when the id is queued and appends otherwise;
      afterwards the operation is queued exactly once and ids stay unique. */
  lemma EnqueueSpec(q: seq<QueuedOperation>, op: QueuedOperation)
    requires UniqueOpIds(q)
    ensures (exists i :: 0 <= i < |q| && q[i].id == op.id) ==>
              |EnqueueList(q, op)| == |q| && op in EnqueueList(q, op)
    ensures (forall i :: 0 <= i < |q| ==> q[i].id != op.id) ==> EnqueueList(q, op) == q + [op]
    ensures UniqueOpIds(EnqueueList(q, op))
    ensures forall i :: 0 <= i < |EnqueueList(q, op)| && EnqueueList(q, op)[i].id == op.id ==>
              EnqueueList(q, op)[i] == op
    ensures (exists i :: 0 <= i < |q| && q[i].id == op.id) ==>
              forall i :: 0 <= i < |q| ==> EnqueueList(q, op)[i] == (if q[i].id == op.id then op else q[i])
  {
    var k := IndexOfOp(q, op.id);
    if k >= 0 {
      assert EnqueueList(q, op)[k] == op;
    }
  }

  /** Enqueueing two operations with one id leaves the later one, queued once. */
  lemma EnqueueSameIdTwice(q: seq<QueuedOperation>, a: QueuedOperation, b: QueuedOperation)
    requires a.id == b.id
    ensures EnqueueList(EnqueueList(q, a), b) == EnqueueList(q, b)
  {
    var k := IndexOfOp(q, a.id);
    if k == -1 {
      assert (q + [a])[|q|].id == a.id;
      assert IndexOfOp(q + [a], a.id) == |q|;
    } else {
      assert q[k := a][k].id == a.id;
      assert IndexOfOp(q[k := a], a.id) == k;
    }
  }

  /** Dequeueing keeps the other entries in their order. */
  lemma {:induction false} DequeueKeepsOrder(q: seq<QueuedOperation>, opId: string)
    ensures Subsequence(WithoutOp(q, opId), q)
    decreases |q|
  {
    if q != [] {
      var rest := WithoutOp(q[1..], opId);
      DequeueKeepsOrder(q[1..], opId);
      assert [q[0]] + q[1..] == q;
      if q[0].id != opId {
        assert WithoutOp(q, opId) == [q[0]] + rest;
        SubsequenceCons(q[0], rest, q[1..]);
      } else {
        assert WithoutOp(q, opId) == rest;
        SubsequenceSkip(q[0], rest, q[1..]);
      }
    }
  }

  lemma UniqueOpIdsTail(q: seq<QueuedOperation>)
    requires q != [] && UniqueOpIds(q)
    ensures UniqueOpIds(q[1..])
    ensures forall x :: x in q[1..] ==> x.id != q[0].id
  {
    forall i, j | 0 <= i < |q[1..]| && 0 <= j < |q[1..]| && q[1..][i].id == q[1..][j].id
      ensures i == j
    {
      assert q[i + 1].id == q[j + 1].id;
    }
    forall x | x in q[1..] ensures x.id != q[0].id {
      var m :| 0 <= m < |q[1..]| && q[1..][m] == x;
      assert q[m + 1] == x;
    }
  }

  lemma UniqueOpIdsCons(x: QueuedOperation, rest: seq<QueuedOperation>)
    requires UniqueOpIds(rest)
    requires forall y :: y in rest ==> y.id != x.id
    ensures UniqueOpIds([x] + rest)
  {
    var r := [x] + rest;
    forall i, j | 0 <= i < |r| && 0 <= j < |r| && r[i].id == r[j].id ensures i == j {
      if i > 0 && j > 0 {
        assert rest[i - 1].id == rest[j - 1].id;
      }
    }
  }

  /** Dequeueing keeps operation ids unique. */
  lemma {:induction false} DequeueKeepsIdsUnique(q: seq<QueuedOperation>, opId: string)
    requires UniqueOpIds(q)
    ensures UniqueOpIds(WithoutOp(q, opId))
    decreases |q|
  {
    if q != [] {
      var rest := WithoutOp(q[1..], opId);
      UniqueOpIdsTail(q);
      DequeueKeepsIdsUnique(q[1..], opId);
      if q[0].id != opId {
        assert WithoutOp(q, opId) == [q[0]] + rest;
        UniqueOpIdsCons(q[0], rest);
      } else {
        assert WithoutOp(q, opId) == rest;
      }
    }
  }

  // ---------------------------------------------------------------- sample data

  /** The three reports `seedSampleData` writes into an empty cache. */
  const SampleReports: seq<Report> := [
    EmptyReport.(
      id := Some(1),
      title := Some("Hundimiento en carretera principal"),
      description := Some("Socavón identificado en el kilómetro 12.5 de la carretera hacia Kepashiato. Riesgo alto para tránsito pesado."),
      category := Some(Infrastructure),
      location := Some("Carretera Echarati - Kepashiato, km 12.5"),
      status := Some(Pending),
      createdAt := Some(1759400400000),
      updatedAt := Some(1759400400000),
      userId := Some(102),
      userName := Some("Brigada Vial Sector 2")),
    EmptyReport.(
      id := Some(2),
      title := Some("Deslizamiento parcial por lluvias"),
      description := Some("Bloqueo parcial con material suelto a la altura del Puente Kiteni. Tránsito restringido a un carril."),
      category := Some(Environment),
      location := Some("Margen izquierda del río Urubamba, Puente Kiteni"),
      status := Some(InProgress),
      createdAt := Some(1759299300000),
      updatedAt := Some(1759481100000),
      userId := Some(87),
      userName := Some("Centro de Control Echarati")),
    EmptyReport.(
      id := Some(3),
      title := Some("Señalización vertical caída"),
      description := Some("Poste de señalización de curva peligrosa derribado por choque. Requiere reposición urgente."),
      category := Some(Security),
      location := Some("Curva de Quepashiato, sector San Martín"),
      status := Some(Resolved),
      createdAt := Some(1758196800000),
      updatedAt := Some(1758274320000),
      userId := Some(54),
      userName := Some("Equipo de Señalización"))
  ]

  /** `seedSampleData`: a non-empty cache is kept, an empty one receives the samples. */
  function SeedList(xs: seq<Report>): seq<Report> {
    if |xs| > 0 then xs else SampleReports
  }

  /** Seeding is idempotent, never empties the cache, and seeds ids 1, 2, 3. */
  lemma SeedSpec(xs: seq<Report>)
    ensures SeedList(SeedList(xs)) == SeedList(xs)
    ensures |xs| > 0 ==> SeedList(xs) == xs
    ensures xs == [] ==>
              && |SeedList(xs)| == 3
              && forall i :: 0 <= i < 3 ==> SeedList(xs)[i].id == Some(i + 1)
  {
  }

  // ---------------------------------------------------------------- the service

  /** The two lists together. */
  datatype Store = Store(reports: seq<Report>, queue: seq<QueuedOperation>)

  /** `ReportCacheService`: the in-memory mirror of the cache and of the queue. */
  class ReportCacheService {
    var reports: seq<Report>
    var queue: seq<QueuedOperation>

    function State(): Store
      reads this
    {
      Store(reports, queue)
    }

    constructor()
      ensures reports == [] && queue == []
    {
      reports := [];
      queue := [];
    }

    method GetReports(filter: Option<ReportFilter>) returns (r: Result<seq<Report>>)
      ensures r == ReadReports(reports, filter)
    {
      if filter.None? {
        r := Ok(reports);
      } else {
        r := FilterReports(reports, filter.value);
      }
    }

    method GetReport(id: int) returns (r: Option<Report>)
      ensures r == FindById(reports, id)
    {
      r := FindById(reports, id);
    }

    method Upsert(report: Report, now: int) returns (stored: Option<Report>)
      modifies this
      ensures Upserted(reports, stored) == UpsertList(old(reports), report, now)
      ensures queue == old(queue)
    {
      var index := UpsertIndex(reports, report);
      if index >= 0 {
        reports := reports[index := Merged(reports[index], report, now)];
      } else {
        var assignedId := report.id.GetOr(GenerateLocalId(reports));
        reports := reports + [report.(id := Some(assignedId), createdAt := Some(now), updatedAt := Some(now))];
      }
      if HasTruthyId(report.id) {
        stored := if index >= 0 then Some(reports[index]) else None;
      } else {
        stored := Some(reports[|reports| - 1]);
      }
    }

    method Remove(id: Option<int>)
      modifies this
      ensures reports == RemoveId(old(reports), id) && queue == old(queue)
    {
      reports := RemoveId(reports, id);
    }

    method ReplaceAll(xs: seq<Report>)
      modifies this
      ensures reports == xs && queue == old(queue)
    {
      reports := xs;
    }

    method EnqueueOperation(op: QueuedOperation)
      modifies this
      ensures queue == EnqueueList(old(queue), op) && reports == old(reports)
    {
      var existingIndex := IndexOfOp(queue, op.id);
      if existingIndex >= 0 {
        queue := queue[existingIndex := op];
      } else {
        queue := queue + [op];
      }
    }

    method DequeueOperation(opId: string)
      modifies this
      ensures queue == WithoutOp(old(queue), opId) && reports == old(reports)
    {
      queue := WithoutOp(queue, opId);
    }

    method GetQueue() returns (q: seq<QueuedOperation>)
      ensures q == queue
    {
      q := queue;
    }

    method ClearQueue()
      modifies this
      ensures queue == [] && reports == old(reports)
    {
      queue := [];
    }

    method SeedSampleData() returns (xs: seq<Report>)
      modifies this
      ensures reports == SeedList(old(reports)) && xs == reports && queue == old(queue)
    {
      if |reports| > 0 {
        return reports;
      }
      reports := SampleReports;
      xs := SampleReports;
    }
  }
}
