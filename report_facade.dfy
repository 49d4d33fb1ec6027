/** The state holder the screens read: the current report list (newest update first), a
    loading flag, the last error message and the last filter, all fed by the coordinator. */
module ReportFacade {
  import opened Wrappers
  import opened ReportModel
  import opened ReportCache
  import opened ReportData

  /** How a call that does not hand back an Observable ends: it returns, or an exception
      escapes from it. */
  datatype Completion = Returned | Threw(message: string)

  // ---------------------------------------------------------------- ordering

  /** The sort key: the update time, or 0 when there is none. */
  function Recency(r: Report): int {
    r.updatedAt.GetOr(0)
  }

  ghost predicate NewestFirst(xs: seq<Report>) {
    forall i, j :: 0 <= i < j < |xs| ==> Recency(xs[i]) >= Recency(xs[j])
  }

  /** The entries with a given sort key, in their order. */
  function WithRecency(xs: seq<Report>, key: int): seq<Report>
    decreases |xs|
  {
    if xs == [] then []
    else (if Recency(xs[0]) == key then [xs[0]] else []) + WithRecency(xs[1..], key)
  }

  /** Insert `x` before the first entry that is not strictly newer. */
  function InsertByRecency(x: Report, ys: seq<Report>): (r: seq<Report>)
    ensures |r| == |ys| + 1
    ensures multiset(r) == multiset(ys) + multiset{x}
    decreases |ys|
  {
    if ys == [] || Recency(ys[0]) <= Recency(x) then [x] + ys
    else
      assert ys == [ys[0]] + ys[1..];
      [ys[0]] + InsertByRecency(x, ys[1..])
  }

  /** Inserting into a list ordered newest first keeps it ordered; the head is `x` or the
      old head, whichever is newer (`x` on a tie). */
  lemma {:induction false} InsertKeepsNewestFirst(x: Report, ys: seq<Report>)
    requires NewestFirst(ys)
    ensures NewestFirst(InsertByRecency(x, ys))
    ensures InsertByRecency(x, ys)[0] == if ys == [] || Recency(ys[0]) <= Recency(x) then x else ys[0]
    decreases |ys|
  {
    if ys == [] || Recency(ys[0]) <= Recency(x) {
      var r := [x] + ys;
      forall i, j | 0 <= i < j < |r| ensures Recency(r[i]) >= Recency(r[j]) {
        assert r[j] == ys[j - 1];
        if i > 0 {
          assert r[i] == ys[i - 1];
        } else if j > 1 {
          assert Recency(ys[0]) >= Recency(ys[j - 1]);
        }
      }
    } else {
      var tail := ys[1..];
      assert NewestFirst(tail) by {
        forall i, j | 0 <= i < j < |tail| ensures Recency(tail[i]) >= Recency(tail[j]) {
          assert tail[i] == ys[i + 1] && tail[j] == ys[j + 1];
        }
      }
      InsertKeepsNewestFirst(x, tail);
      var rest := InsertByRecency(x, tail);
      assert Recency(ys[0]) >= Recency(rest[0]) by {
        if tail != [] { assert tail[0] == ys[1]; }
      }
      var r := [ys[0]] + rest;
      forall i, j | 0 <= i < j < |r| ensures Recency(r[i]) >= Recency(r[j]) {
        assert r[j] == rest[j - 1];
        if i > 0 {
          assert r[i] == rest[i - 1];
        } else if j > 1 {
          assert Recency(rest[0]) >= Recency(rest[j - 1]);
        }
      }
    }
  }

  /** `sortReports`: a stable sort, newest update first. */
  function SortByRecency(xs: seq<Report>): seq<Report>
    decreases |xs|
  {
    if xs == [] then [] else InsertByRecency(xs[0], SortByRecency(xs[1..]))
  }

  lemma {:induction false} InsertKeepsKeyOrder(x: Report, ys: seq<Report>, key: int)
    ensures WithRecency(InsertByRecency(x, ys), key) ==
              (if Recency(x) == key then [x] else []) + WithRecency(ys, key)
    decreases |ys|
  {
    if ys == [] || Recency(ys[0]) <= Recency(x) {
      assert ([x] + ys)[1..] == ys;
    } else {
      InsertKeepsKeyOrder(x, ys[1..], key);
      var rest := InsertByRecency(x, ys[1..]);
      assert ([ys[0]] + rest)[1..] == rest;
    }
  }

  lemma {:induction false} SortByRecencyStable(xs: seq<Report>, key: int)
    ensures WithRecency(SortByRecency(xs), key) == WithRecency(xs, key)
    decreases |xs|
  {
    if xs != [] {
      var rest := SortByRecency(xs[1..]);
      SortByRecencyStable(xs[1..], key);
      InsertKeepsKeyOrder(xs[0], rest, key);
    }
  }

  lemma {:induction false} SortByRecencyOrdered(xs: seq<Report>)
    ensures NewestFirst(SortByRecency(xs))
    decreases |xs|
  {
    if xs != [] {
      SortByRecencyOrdered(xs[1..]);
      InsertKeepsNewestFirst(xs[0], SortByRecency(xs[1..]));
    }
  }

  lemma {:induction false} SortByRecencyPermutes(xs: seq<Report>)
    ensures multiset(SortByRecency(xs)) == multiset(xs)
    decreases |xs|
  {
    if xs != [] {
      SortByRecencyPermutes(xs[1..]);
      assert xs == [xs[0]] + xs[1..];
    }
  }

  /** Sorting orders newest first, is a permutation, and is stable: the entries sharing a
      sort key keep their relative order. Together these determine the result. */
  lemma SortByRecencySpec(xs: seq<Report>)
    ensures NewestFirst(SortByRecency(xs))
    ensures multiset(SortByRecency(xs)) == multiset(xs)
    ensures forall key :: WithRecency(SortByRecency(xs), key) == WithRecency(xs, key)
  {
    SortByRecencyOrdered(xs);
    SortByRecencyPermutes(xs);
    forall key ensures WithRecency(SortByRecency(xs), key) == WithRecency(xs, key) {
      SortByRecencyStable(xs, key);
    }
  }

  /** A list already ordered newest first is left as it is. */
  lemma {:induction false} SortByRecencyOfSorted(xs: seq<Report>)
    requires NewestFirst(xs)
    ensures SortByRecency(xs) == xs
    decreases |xs|
  {
    if xs != [] {
      SortByRecencyOfSorted(xs[1..]);
      assert xs == [xs[0]] + xs[1..];
    }
  }

  // ---------------------------------------------------------------- list edits

  /** The tap of `getReport`: a fetched report with a truthy id replaces the first entry with
      that id; otherwise it is appended. */
  function ReplaceOrAppend(xs: seq<Report>, r: Report): (ys: seq<Report>)
    ensures r in ys
    ensures HasTruthyId(r.id) && (exists i :: 0 <= i < |xs| && xs[i].id == r.id) ==>
              && |ys| == |xs|
              && ys[IndexOfId(xs, r.id.value)] == r
              && forall i :: 0 <= i < |xs| && i != IndexOfId(xs, r.id.value) ==> ys[i] == xs[i]
    ensures !(HasTruthyId(r.id) && exists i :: 0 <= i < |xs| && xs[i].id == r.id) ==> ys == xs + [r]
  {
    var k := if HasTruthyId(r.id) then IndexOfId(xs, r.id.value) else -1;
    if k >= 0 then
      assert xs[k := r][k] == r;
      xs[k := r]
    else xs + [r]
  }

  /** The tap of `updateReport`: every entry whose id equals the updated record's id (an
      absent id equals an absent id) has the record spread over it. */
  function MergeUpdated(xs: seq<Report>, u: Report): (ys: seq<Report>)
    ensures |ys| == |xs|
    ensures forall i :: 0 <= i < |xs| ==> ys[i] == if xs[i].id == u.id then Overlay(xs[i], u) else xs[i]
  {
    seq(|xs|, i requires 0 <= i < |xs| => if xs[i].id == u.id then Overlay(xs[i], u) else xs[i])
  }

  /** After a merge every matching entry carries every key the update carries, and entries
      with another id are untouched; merging the same update twice is merging it once. */
  lemma MergeUpdatedSpec(xs: seq<Report>, u: Report)
    ensures forall i :: 0 <= i < |xs| && xs[i].id == u.id ==> Overlay(MergeUpdated(xs, u)[i], u) == MergeUpdated(xs, u)[i]
    ensures MergeUpdated(MergeUpdated(xs, u), u) == MergeUpdated(xs, u)
  {
    var ys := MergeUpdated(xs, u);
    forall i | 0 <= i < |xs| && xs[i].id == u.id ensures Overlay(ys[i], u) == ys[i] {
      OverlayLaws(xs[i], u, u);
    }
    forall i | 0 <= i < |xs| ensures MergeUpdated(ys, u)[i] == ys[i] {
      if xs[i].id == u.id {
        assert ys[i].id == u.id by {
          assert ys[i] == Overlay(xs[i], u);
        }
      }
    }
  }

  // ---------------------------------------------------------------- the service

  /** `ReportFacadeService`. */
  class ReportFacadeService {
    const data: ReportDataService
    var reports: seq<Report>
    var loading: bool
    var error: string
    var filter: Option<ReportFilter>

    /** The subjects start as an empty list, not loading, no error and no filter. */
    constructor(data: ReportDataService)
      ensures this.data == data
      ensures reports == [] && !loading && error == "" && filter.None?
    {
      this.data := data;
      reports := [];
      loading := false;
      error := "";
      filter := None;
    }

    /** `loadReports`: raise the loading flag, clear the error and remember the filter; then a
        fetched list becomes the sorted list, an error notification becomes the error message,
        and either ends with the flag lowered. An exception thrown while fetching escapes with
        the flag still raised. */
    method LoadReports(f: Option<ReportFilter>, online: bool, remote: Remote<seq<Report>>)
      returns (outcome: Completion)
      modifies this, data.cache
      ensures filter == f
      ensures var (st, reply) := FetchAll(old(data.cache.State()), f, online, remote);
        && data.cache.State() == st
        && (reply.Emits? ==> reports == SortByRecency(reply.value) && !loading && error == "" && outcome == Returned)
        && (reply.Fails? ==> reports == old(reports) && !loading && error == reply.message && outcome == Returned)
        && (reply.Throws? ==> reports == old(reports) && loading && error == "" && outcome == Threw(reply.message))
    {
      loading := true;
      error := "";
      filter := f;
      var reply := data.FetchReports(f, online, remote);
      match reply {
        case Throws(m) =>
          return Threw(m);
        case Fails(m) =>
          error := m;
        case Emits(xs) =>
          reports := SortByRecency(xs);
      }
      loading := false;
      outcome := Returned;
    }

    /** `getReport`: an entry already in the list is handed back without consulting the
        coordinator; otherwise a fetched report replaces or joins the list, which is re-sorted. */
    method GetReport(id: int, online: bool, remote: Remote<Report>, now: int) returns (reply: Reply<Report>)
      modifies this, data.cache
      ensures loading == old(loading) && error == old(error) && filter == old(filter)
      ensures FindById(old(reports), id).Some? ==>
                reply == Emits(FindById(old(reports), id).value)
                && reports == old(reports) && data.cache.State() == old(data.cache.State())
      ensures FindById(old(reports), id).None? ==>
                && (data.cache.State(), reply) == FetchOne(old(data.cache.State()), id, online, remote, now)
                && reports == if reply.Emits? then SortByRecency(ReplaceOrAppend(old(reports), reply.value)) else old(reports)
    {
      var cached := FindById(reports, id);
      if cached.Some? {
        return Emits(cached.value);
      }
      reply := data.FetchReport(id, online, remote, now);
      if reply.Emits? {
        reports := SortByRecency(ReplaceOrAppend(reports, reply.value));
      }
    }

    /** `createReport`: a created record joins the list, which is re-sorted. */
    method CreateReport(report: Report, online: bool, remote: Remote<Report>, now: int, opId: string)
      returns (reply: Reply<Report>)
      modifies this, data.cache
      ensures error == old(error) && filter == old(filter)
      ensures (data.cache.State(), reply) == CreateOne(old(data.cache.State()), report, online, remote, now, opId)
      ensures reports == if reply.Emits? then SortByRecency(old(reports) + [reply.value]) else old(reports)
      ensures loading == reply.Throws?
    {
      loading := true;
      reply := data.CreateReport(report, online, remote, now, opId);
      if reply.Throws? {
        return;
      }
      if reply.Emits? {
        reports := SortByRecency(reports + [reply.value]);
      }
      loading := false;
    }

    /** `updateReport`: the returned record is spread over the entries with its id, and the
        list is re-sorted. */
    method UpdateReport(id: int, updates: Report, online: bool, remote: Remote<Report>, now: int, opId: string)
      returns (reply: Reply<Report>)
      modifies this, data.cache
      ensures error == old(error) && filter == old(filter)
      ensures (data.cache.State(), reply) == UpdateOne(old(data.cache.State()), id, updates, online, remote, now, opId)
      ensures reports == if reply.Emits? then SortByRecency(MergeUpdated(old(reports), reply.value)) else old(reports)
      ensures loading == reply.Throws?
    {
      loading := true;
      reply := data.UpdateReport(id, updates, online, remote, now, opId);
      if reply.Throws? {
        return;
      }
      if reply.Emits? {
        reports := SortByRecency(MergeUpdated(reports, reply.value));
      }
      loading := false;
    }

    /** `deleteReport`: the coordinator always completes, and the entries with the id leave
        the list. */
    method DeleteReport(id: int, online: bool, remote: Remote<()>, now: int, opId: string)
      modifies this, data.cache
      ensures error == old(error) && filter == old(filter) && !loading
      ensures data.cache.State() == DeleteOne(old(data.cache.State()), id, online, remote, now, opId)
      ensures reports == SortByRecency(RemoveId(old(reports), Some(id)))
    {
      loading := true;
      data.DeleteReport(id, online, remote, now, opId);
      reports := SortByRecency(RemoveId(reports, Some(id)));
      loading := false;
    }

    /** `flushQueue`: nothing while offline; otherwise drain the queue and, when the drain
        completes, reload with the remembered filter. The reload's own exception is reported
        by the scheduler, not to the caller, so it is not part of the outcome. */
    method FlushQueue(online: bool, steps: seq<ReplayStep>, now: int,
                      onlineAfter: bool, remote: Remote<seq<Report>>)
      requires |steps| == |data.cache.queue|
      modifies this, data.cache
      ensures filter == old(filter)
      ensures !online ==> unchanged(this, data.cache)
      ensures online && Flush(old(data.cache.State()), steps, now).1.Fails? ==>
                unchanged(this) && data.cache.State() == Flush(old(data.cache.State()), steps, now).0
      ensures online && Flush(old(data.cache.State()), steps, now).1.Emits? ==>
                var (st, reply) := FetchAll(Flush(old(data.cache.State()), steps, now).0, old(filter), onlineAfter, remote);
                && data.cache.State() == st
                && (reply.Emits? ==> reports == SortByRecency(reply.value) && !loading && error == "")
                && (reply.Fails? ==> reports == old(reports) && !loading && error == reply.message)
                && (reply.Throws? ==> reports == old(reports) && loading && error == "")
    {
      if !online {
        return;
      }
      var drained := data.FlushQueue(steps, now);
      if drained.Emits? {
        var _ := LoadReports(filter, onlineAfter, remote);
      }
    }
  }
}
