/** The report list screen: a free-text search over the facade's list, ten reports per page,
    and the handlers that reload, search, clear, page and delete. */
module ReportList {
  import opened Wrappers
  import opened Text
  import opened Seqs
  import opened ReportModel
  import opened ReportCache
  import opened ReportData
  import opened ReportFacade

  const ItemsPerPage: nat := 10

  // ---------------------------------------------------------------- search

  /** `field.toLowerCase().includes(term)`, which throws on a missing field. */
  function FieldIncludes(field: Option<string>, term: string): Result<bool> {
    match field
    case None => Err(LowerCaseOfUndefined)
    case Some(s) => Ok(Contains(Lower(s), term))
  }

  /** The search predicate: title, then description, then location, stopping at the first
      field that includes the term. */
  function MatchesTerm(r: Report, term: string): Result<bool> {
    match FieldIncludes(r.title, term)
    case Err(m) => Err(m)
    case Ok(hit) =>
      if hit then Ok(true)
      else
        match FieldIncludes(r.description, term)
        case Err(m) => Err(m)
        case Ok(hit2) => if hit2 then Ok(true) else FieldIncludes(r.location, term)
  }

  /** Some present text field includes the term, ignoring ASCII case. */
  ghost predicate Mentions(r: Report, term: string) {
    || (r.title.Some? && Contains(Lower(r.title.value), term))
    || (r.description.Some? && Contains(Lower(r.description.value), term))
    || (r.location.Some? && Contains(Lower(r.location.value), term))
  }

  /** The predicate throws exactly when it reaches a missing field before a hit; otherwise it
      answers whether the report mentions the term. */
  lemma MatchesTermSpec(r: Report, term: string)
    ensures MatchesTerm(r, term).Err? <==>
              || r.title.None?
              || (!Contains(Lower(r.title.value), term) && r.description.None?)
              || (!Contains(Lower(r.title.value), term) && !Contains(Lower(r.description.value), term)
                  && r.location.None?)
    ensures MatchesTerm(r, term).Ok? ==> (MatchesTerm(r, term).value <==> Mentions(r, term))
  {
  }

  function SearchBy(xs: seq<Report>, term: string): Result<seq<Report>>
    decreases |xs|
  {
    if xs == [] then Ok([])
    else
      match MatchesTerm(xs[0], term)
      case Err(m) => Err(m)
      case Ok(keep) =>
        match SearchBy(xs[1..], term)
        case Err(m) => Err(m)
        case Ok(rest) => Ok(if keep then [xs[0]] + rest else rest)
  }

  /** `filteredReports`: an empty search term keeps the whole list; otherwise the reports that
      mention the lower-cased term. */
  function Search(xs: seq<Report>, rawTerm: string): Result<seq<Report>> {
    var term := Lower(rawTerm);
    if term == "" then Ok(xs) else SearchBy(xs, term)
  }

  /** The search fails exactly when the predicate throws on some report; when it succeeds it
      keeps, in their order and with their multiplicities, exactly the reports that mention
      the term. */
  lemma {:induction false} SearchBySpec(xs: seq<Report>, term: string)
    ensures SearchBy(xs, term).Err? <==> exists i :: 0 <= i < |xs| && MatchesTerm(xs[i], term).Err?
    ensures SearchBy(xs, term).Ok? ==>
              var ys := SearchBy(xs, term).value;
              && Subsequence(ys, xs)
              && (forall r :: r in ys <==> r in xs && Mentions(r, term))
              && (forall r :: multiset(ys)[r] == if Mentions(r, term) then multiset(xs)[r] else 0)
    decreases |xs|
  {
    if xs != [] {
      SearchBySpec(xs[1..], term);
      MatchesTermSpec(xs[0], term);
      assert xs == [xs[0]] + xs[1..];
      if SearchBy(xs, term).Ok? {
        var rest := SearchBy(xs[1..], term).value;
        forall r | r in xs[1..] && SearchBy(xs[1..], term).Ok?
          ensures MatchesTerm(r, term).Ok? && (MatchesTerm(r, term).value <==> Mentions(r, term))
        {
          var i :| 0 <= i < |xs[1..]| && xs[1..][i] == r;
          MatchesTermSpec(r, term);
        }
        if MatchesTerm(xs[0], term) == Ok(true) {
          SubsequenceCons(xs[0], rest, xs[1..]);
        } else {
          SubsequenceSkip(xs[0], rest, xs[1..]);
        }
      }
      if exists i :: 0 <= i < |xs| && MatchesTerm(xs[i], term).Err? {
        var i :| 0 <= i < |xs| && MatchesTerm(xs[i], term).Err?;
        if i > 0 {
          assert xs[1..][i - 1] == xs[i];
        }
      }
    }
  }

  /** With an empty search term nothing is filtered and nothing throws. */
  lemma SearchWithoutTerm(xs: seq<Report>)
    ensures Search(xs, "") == Ok(xs)
  {
  }

  // ---------------------------------------------------------------- pagination

  /** `totalPages`: `Math.ceil(n / 10)`. */
  function TotalPages(n: nat): nat {
    (n + ItemsPerPage - 1) / ItemsPerPage
  }

  /** The page count is the least number of ten-report pages that holds the list. */
  lemma TotalPagesIsCeiling(n: nat)
    ensures TotalPages(n) * ItemsPerPage >= n
    ensures TotalPages(n) == 0 || (TotalPages(n) - 1) * ItemsPerPage < n
  {
  }

  /** `paginatedReports`: the slice from `(page - 1) * 10`, at most ten long, clamped to the
      list as `slice` clamps. */
  function PageSlice(xs: seq<Report>, page: int): seq<Report>
    requires page >= 1
  {
    var start := (page - 1) * ItemsPerPage;
    if start >= |xs| then []
    else xs[start..if start + ItemsPerPage < |xs| then start + ItemsPerPage else |xs|]
  }

  /** A page holds at most ten reports, is the run of the list starting at its offset, is
      full before the last page, and is empty exactly when the page lies past the last one. */
  lemma PageSliceSpec(xs: seq<Report>, page: int)
    requires page >= 1
    ensures |PageSlice(xs, page)| <= ItemsPerPage
    ensures PageSlice(xs, page) != [] <==> page <= TotalPages(|xs|)
    ensures forall k :: 0 <= k < |PageSlice(xs, page)| ==>
              PageSlice(xs, page)[k] == xs[(page - 1) * ItemsPerPage + k]
    ensures page < TotalPages(|xs|) ==> |PageSlice(xs, page)| == ItemsPerPage
  {
    TotalPagesIsCeiling(|xs|);
  }

  /** The pages from `page` on, one after the other. */
  function PagesFrom(xs: seq<Report>, page: int): seq<Report>
    requires page >= 1
    decreases |xs| - (page - 1) * ItemsPerPage
  {
    if (page - 1) * ItemsPerPage >= |xs| then []
    else PageSlice(xs, page) + PagesFrom(xs, page + 1)
  }

  lemma {:induction false} PagesFromSpec(xs: seq<Report>, page: int)
    requires page >= 1
    ensures PagesFrom(xs, page) == if (page - 1) * ItemsPerPage >= |xs| then [] else xs[(page - 1) * ItemsPerPage..]
    decreases |xs| - (page - 1) * ItemsPerPage
  {
    var start := (page - 1) * ItemsPerPage;
    if start < |xs| {
      PagesFromSpec(xs, page + 1);
      if start + ItemsPerPage < |xs| {
        assert xs[start..] == xs[start..start + ItemsPerPage] + xs[start + ItemsPerPage..];
      }
    }
  }

  /** Reading every page in order gives back the whole filtered list: paging loses and
      repeats nothing. */
  lemma PagesCoverList(xs: seq<Report>)
    ensures PagesFrom(xs, 1) == xs
  {
    PagesFromSpec(xs, 1);
  }

  // ---------------------------------------------------------------- the component

  /** The filter the screen sends: only category and status. */
  function ScreenFilter(category: Option<ReportCategory>, status: Option<ReportStatus>): ReportFilter {
    ReportFilter(category, status, None, None, None)
  }

  /** `ReportListComponent`: search term, filters and current page over one facade. */
  class ReportListComponent {
    const facade: ReportFacadeService
    var searchTerm: string
    var categoryFilter: Option<ReportCategory>
    var statusFilter: Option<ReportStatus>
    var currentPage: int

    /** Every handler keeps the page at 1 or more. */
    ghost predicate Valid()
      reads this
    {
      currentPage >= 1
    }

    function FilteredReports(): Result<seq<Report>>
      reads this, facade
    {
      Search(facade.reports, searchTerm)
    }

    function PaginatedReports(): Result<seq<Report>>
      requires Valid()
      reads this, facade
    {
      match FilteredReports()
      case Err(m) => Err(m)
      case Ok(xs) => Ok(PageSlice(xs, currentPage))
    }

    constructor(facade: ReportFacadeService)
      ensures Valid()
      ensures this.facade == facade
      ensures searchTerm == "" && categoryFilter.None? && statusFilter.None? && currentPage == 1
    {
      this.facade := facade;
      searchTerm := "";
      categoryFilter := None;
      statusFilter := None;
      currentPage := 1;
    }

    /** `loadReports`: load with the screen filter, then go back to the first page; when the
        load throws the page is left alone. */
    method LoadReports(online: bool, remote: Remote<seq<Report>>) returns (outcome: Completion)
      requires Valid()
      modifies this, facade, facade.data.cache
      ensures Valid()
      ensures searchTerm == old(searchTerm) && categoryFilter == old(categoryFilter) && statusFilter == old(statusFilter)
      ensures facade.filter == Some(ScreenFilter(categoryFilter, statusFilter))
      ensures var (st, reply) := FetchAll(old(facade.data.cache.State()), Some(ScreenFilter(categoryFilter, statusFilter)), online, remote);
        && facade.data.cache.State() == st
        && (reply.Emits? ==> facade.reports == SortByRecency(reply.value) && !facade.loading)
        && (!reply.Emits? ==> facade.reports == old(facade.reports))
        && (reply.Throws? <==> outcome.Threw?)
      ensures currentPage == if outcome == Returned then 1 else old(currentPage)
    {
      var filter := ScreenFilter(categoryFilter, statusFilter);
      outcome := facade.LoadReports(Some(filter), online, remote);
      if outcome == Returned {
        currentPage := 1;
      }
    }

    /** `onSearchChange`: set the term and go back to the first page. */
    method OnSearchChange(term: string)
      modifies this
      ensures Valid()
      ensures searchTerm == term && currentPage == 1
      ensures categoryFilter == old(categoryFilter) && statusFilter == old(statusFilter)
    {
      searchTerm := term;
      currentPage := 1;
    }

    /** `clearFilters`: drop both filters and the term, then reload. */
    method ClearFilters(online: bool, remote: Remote<seq<Report>>) returns (outcome: Completion)
      requires Valid()
      modifies this, facade, facade.data.cache
      ensures Valid()
      ensures searchTerm == "" && categoryFilter.None? && statusFilter.None?
      ensures facade.filter == Some(ReportFilter(None, None, None, None, None))
      ensures var (st, reply) := FetchAll(old(facade.data.cache.State()), Some(ReportFilter(None, None, None, None, None)), online, remote);
        && facade.data.cache.State() == st
        && (reply.Emits? ==> facade.reports == SortByRecency(reply.value))
        && (reply.Throws? <==> outcome.Threw?)
      ensures currentPage == if outcome == Returned then 1 else old(currentPage)
    {
      categoryFilter := None;
      statusFilter := None;
      searchTerm := "";
      outcome := LoadReports(online, remote);
    }

    /** `prevPage`: one page back, never below the first. */
    method PrevPage()
      requires Valid()
      modifies this
      ensures Valid()
      ensures currentPage == if old(currentPage) > 1 then old(currentPage) - 1 else old(currentPage)
      ensures searchTerm == old(searchTerm) && categoryFilter == old(categoryFilter) && statusFilter == old(statusFilter)
    {
      if currentPage > 1 {
        currentPage := currentPage - 1;
      }
    }

    /** `nextPage`: one page on, never past the last page; computing the page count throws
        when the search does. */
    method NextPage() returns (outcome: Completion)
      requires Valid()
      modifies this
      ensures Valid()
      ensures searchTerm == old(searchTerm) && categoryFilter == old(categoryFilter) && statusFilter == old(statusFilter)
      ensures outcome.Threw? <==> FilteredReports().Err?
      ensures FilteredReports().Err? ==> currentPage == old(currentPage)
      ensures FilteredReports().Ok? ==>
                currentPage == if old(currentPage) < TotalPages(|FilteredReports().value|) then old(currentPage) + 1
                               else old(currentPage)
    {
      var filtered := Search(facade.reports, searchTerm);
      if filtered.Err? {
        return Threw(filtered.message);
      }
      if currentPage < TotalPages(|filtered.value|) {
        currentPage := currentPage + 1;
      }
      outcome := Returned;
    }

    /** `deleteReport`: only after the user confirms. */
    method DeleteReport(id: int, confirmed: bool, online: bool, remote: Remote<()>, now: int, opId: string)
      requires Valid()
      modifies this, facade, facade.data.cache
      ensures Valid()
      ensures currentPage == old(currentPage) && searchTerm == old(searchTerm)
      ensures !confirmed ==> unchanged(facade, facade.data.cache)
      ensures confirmed ==>
                && facade.data.cache.State() == DeleteOne(old(facade.data.cache.State()), id, online, remote, now, opId)
                && facade.reports == SortByRecency(RemoveId(old(facade.reports), Some(id)))
    {
      if confirmed {
        facade.DeleteReport(id, online, remote, now, opId);
      }
    }
  }

  /** Paging forward moves at most one page, and only onto a page that exists and is not
      empty; a page left past the end by a shrinking list stays where it is. */
  lemma NextPageStaysOnAPage(xs: seq<Report>, page: int)
    requires page >= 1
    ensures var next := if page < TotalPages(|xs|) then page + 1 else page;
      && page <= next <= page + 1
      && (next > page ==> PageSlice(xs, next) != [])
      && (PageSlice(xs, page) == [] ==> next == page)
  {
    PageSliceSpec(xs, page);
    PageSliceSpec(xs, page + 1);
  }
}
