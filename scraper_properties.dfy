/**
 * Properties of the scraper's specification functions: what one request
 * does under the retry policy, the page arithmetic, what the paging loop
 * fetches and writes, resuming, and the isolation of projects in
 * `scrape_all`.
 */
module ScraperProperties {
  import opened Wrappers
  import opened Json
  import opened Checkpoints
  import opened Retrying
  import opened Scraper

  // ---------------------------------------------------------------------------
  // One request
  // ---------------------------------------------------------------------------

  /**
   * A 2xx answer whose body is empty, not JSON or not a dict raises an error
   * carrying that 2xx status, which is not retryable: the request is made
   * once and the page is None.
   */
  lemma UnusableBodyIsNotRetried(server: Server, size: int, project: string, startAt: int)
    requires var r := server(Request(project, startAt, size), 0);
             r.Http? && 200 <= r.status < 300 && !(r.body.JsonBody? && r.body.value.Obj?)
    ensures Retry(MakeRequestPolicy, Attempts(server, Request(project, startAt, size))).calls == 1
    ensures FetchPage(server, size, project, startAt).None?
  {
    var call := Attempts(server, Request(project, startAt, size));
    assert call(0) == MakeRequest(server(Request(project, startAt, size), 0));
    FatalShortCircuit(MakeRequestPolicy, call, 0);
  }

  /**
   * A server that keeps answering a retryable 5xx status, whatever the body, makes
   * `fetch_issues_page` try four times, sleeping 2, 4 and 8 seconds, and
   * give None.
   */
  lemma PersistentServerErrorGivesNoPage(server: Server, size: int, project: string, startAt: int, status: int)
    requires status in {500, 502, 503, 504}
    requires forall n: nat :: server(Request(project, startAt, size), n).Http?
                             && server(Request(project, startAt, size), n).status == status
    ensures Retry(MakeRequestPolicy, Attempts(server, Request(project, startAt, size)))
            == Run(Reraised(Failure(Some(status))), [2.0, 4.0, 8.0], 4)
    ensures FetchPage(server, size, project, startAt).None?
  {
    var call := Attempts(server, Request(project, startAt, size));
    forall n: nat ensures call(n) == Failed(Failure(Some(status))) {
      assert call(n) == MakeRequest(server(Request(project, startAt, size), n));
    }
    AlwaysFailingExhausts(MakeRequestPolicy, call, Failure(Some(status)));
    DefaultScheduleOnServerError(call, status);
  }

  /** A page `fetch_issues_page` returns is a dict holding an `issues` list, or one with a zero `total` and no `issues`. */
  lemma FetchedPageIsValidEnvelope(server: Server, size: int, project: string, startAt: int)
    requires FetchPage(server, size, project, startAt).Some?
    ensures var data := FetchPage(server, size, project, startAt).value;
            && data.Obj?
            && (("issues" in data.fields && data.fields["issues"].Arr?)
                || ("issues" !in data.fields && "total" in data.fields && EqualsZero(data.fields["total"])))
  {
  }

  // ---------------------------------------------------------------------------
  // Page arithmetic
  // ---------------------------------------------------------------------------

  /** For a positive page size and a non-negative total, the page count is the ceiling of total / size. */
  lemma TotalPagesIsCeiling(total: int, size: int)
    requires size > 0 && total >= 0
    ensures TotalPages(total, size) >= 0
    ensures (TotalPages(total, size) - 1) * size < total <= TotalPages(total, size) * size
  {
    var q := TotalPages(total, size);
    assert q == (total + size - 1) / size;
    assert q * size <= total + size - 1 < q * size + size;
  }

  /** 237 issues in pages of 50 need 5 pages; a cap of 100 on 10000 issues needs 2; no issues need none. */
  lemma TotalPagesExamples()
    ensures TotalPages(EffectiveTotal(237, None), 50) == 5
    ensures TotalPages(EffectiveTotal(10000, Some(100)), 50) == 2
    ensures TotalPages(EffectiveTotal(10000, Some(0)), 50) == 200
    ensures TotalPages(EffectiveTotal(0, None), 50) == 0
  {
  }

  // ---------------------------------------------------------------------------
  // The paging loop
  // ---------------------------------------------------------------------------

  lemma RangeStep(lo: int, hi: int)
    requires lo < hi
    ensures [lo] + Range(lo + 1, hi) == Range(lo, hi)
  {
    assert forall k :: 0 <= k < hi - lo ==> ([lo] + Range(lo + 1, hi))[k] == Range(lo, hi)[k];
  }

  /** One step of the loop over a usable page. */
  lemma PagingStep(pages: Pages, project: string, page: int, totalPages: int,
                   disk: Disk, scraped: int, fetched: seq<int>)
    requires page < totalPages && Usable(pages(project, page))
    ensures Paging(pages, project, page, totalPages, disk, scraped, fetched)
            == Paging(pages, project, page + 1, totalPages,
                      SavePage(disk, project, page, pages(project, page).value), scraped + 1, fetched + [page])
    ensures Streak(pages, project, page, totalPages) == 1 + Streak(pages, project, page + 1, totalPages)
  {
  }

  /** The streak's pages are all usable, and the page after it, if before `totalPages`, is not. */
  lemma {:induction false} StreakBounds(pages: Pages, project: string, page: int, totalPages: int)
    ensures var n := Streak(pages, project, page, totalPages);
            && (forall i :: page <= i < page + n ==> Usable(pages(project, i)))
            && (page + n < totalPages ==> !Usable(pages(project, page + n)))
    decreases totalPages - page
  {
    if page < totalPages && Usable(pages(project, page)) {
      StreakBounds(pages, project, page + 1, totalPages);
    }
  }

  /** The indices the loop tries from `page`: the streak, and the failing page after it if one remained. */
  function Tried(pages: Pages, project: string, page: int, totalPages: int): int {
    var n := Streak(pages, project, page, totalPages);
    if page + n < totalPages then n + 1 else n
  }

  /**
   * From index `page`, the loop saves exactly the streak of usable pages and
   * requests consecutive indices: the streak and the page that ended it.
   */
  lemma {:induction false} PagingProgress(pages: Pages, project: string, page: int, totalPages: int,
                                          disk: Disk, scraped: int, fetched: seq<int>)
    ensures var run := Paging(pages, project, page, totalPages, disk, scraped, fetched);
            && run.result == Ok(scraped + Streak(pages, project, page, totalPages))
            && run.fetched == fetched + Range(page, page + Tried(pages, project, page, totalPages))
    decreases totalPages - page
  {
    if page < totalPages {
      var data := pages(project, page);
      if Usable(data) {
        PagingStep(pages, project, page, totalPages, disk, scraped, fetched);
        PagingProgress(pages, project, page + 1, totalPages,
                       SavePage(disk, project, page, data.value), scraped + 1, fetched + [page]);
        RangeStep(page, page + Tried(pages, project, page, totalPages));
      } else {
        assert Range(page, page + 1) == [page];
      }
    } else {
      assert Range(page, page) == [];
    }
  }

  /**
   * The raw pages the loop writes are the streak's, each holding the data
   * fetched for it; every other raw page is as it was. Stated for one key.
   */
  lemma {:induction false} PagingRaw(pages: Pages, project: string, page: int, totalPages: int,
                                     disk: Disk, scraped: int, fetched: seq<int>, k: PageKey)
    ensures var raw := Paging(pages, project, page, totalPages, disk, scraped, fetched).disk.raw;
            var written := k.0 == project && page <= k.1 < page + Streak(pages, project, page, totalPages);
            && (k in raw <==> k in disk.raw || written)
            && (written ==> k in raw && pages(project, k.1) == Some(raw[k]))
            && (!written && k in disk.raw ==> raw[k] == disk.raw[k])
    decreases totalPages - page
  {
    if page < totalPages {
      var data := pages(project, page);
      if Usable(data) {
        PagingStep(pages, project, page, totalPages, disk, scraped, fetched);
        PagingRaw(pages, project, page + 1, totalPages,
                  SavePage(disk, project, page, data.value), scraped + 1, fetched + [page], k);
      }
    }
  }

  /** After the loop the checkpoint records the last page of the streak, or is untouched when the streak is empty. */
  lemma {:induction false} PagingCheckpoint(pages: Pages, project: string, page: int, totalPages: int,
                                            disk: Disk, scraped: int, fetched: seq<int>)
    ensures var n := Streak(pages, project, page, totalPages);
            Paging(pages, project, page, totalPages, disk, scraped, fetched).disk.checkpoint
            == (if n == 0 then disk.checkpoint else Parsed(Saved(disk.checkpoint, project, page + n - 1)))
    decreases totalPages - page
  {
    if page < totalPages {
      var data := pages(project, page);
      if Usable(data) {
        PagingStep(pages, project, page, totalPages, disk, scraped, fetched);
        var disk' := SavePage(disk, project, page, data.value);
        PagingCheckpoint(pages, project, page + 1, totalPages, disk', scraped + 1, fetched + [page]);
        var n' := Streak(pages, project, page + 1, totalPages);
        if n' > 0 {
          SaveLastWins(disk.checkpoint, project, page, page + n');
        }
      }
    }
  }

  // ---------------------------------------------------------------------------
  // scrape_project
  // ---------------------------------------------------------------------------

  /** When the first page cannot be fetched, `scrape_project` returns 0 having written nothing. */
  lemma FirstPageFailureWritesNothing(pages: Pages, size: int, cap: Option<int>, disk: Disk, project: string, resume: bool)
    requires !Usable(pages(project, StartPage(disk.checkpoint, project, resume)))
    ensures var run := ScrapeProjectSpec(pages, size, cap, disk, project, resume);
            run.result == Ok(0) && run.disk == disk && run.fetched == [StartPage(disk.checkpoint, project, resume)]
  {
  }

  /**
   * `scrape_project` raises exactly when its first page is usable but gives
   * no page count (a total that is not a number, or a page size of 0), and
   * then it has written nothing.
   */
  lemma RaisedWritesNothing(pages: Pages, size: int, cap: Option<int>, disk: Disk, project: string, resume: bool)
    ensures var run := ScrapeProjectSpec(pages, size, cap, disk, project, resume);
            var first := pages(project, StartPage(disk.checkpoint, project, resume));
            run.result.Raised? <==> (Usable(first) && PageCount(first.value, size, cap).Raised?)
    ensures var run := ScrapeProjectSpec(pages, size, cap, disk, project, resume);
            run.result.Raised? ==> run.disk == disk
  {
  }

  /** After a usable first page with a page count, `scrape_project` saves it and runs the loop from the next index. */
  lemma ScrapeProjectUnfold(pages: Pages, size: int, cap: Option<int>, disk: Disk, project: string, resume: bool,
                            start: int, totalPages: int)
    requires start == StartPage(disk.checkpoint, project, resume)
    requires Usable(pages(project, start)) && PageCount(pages(project, start).value, size, cap) == Ok(totalPages)
    ensures ScrapeProjectSpec(pages, size, cap, disk, project, resume)
            == Paging(pages, project, start + 1, totalPages,
                      SavePage(disk, project, start, pages(project, start).value), 1, [start])
  {
  }

  /**
   * After a usable first page at index `start` giving `totalPages`,
   * `scrape_project` returns 1 + n, where n is the streak of usable pages
   * after `start`, so at most `max(1, totalPages - start)`; it requests the
   * indices from `start` on without gaps, up to the page that failed.
   */
  lemma ScrapeProjectCount(pages: Pages, size: int, cap: Option<int>, disk: Disk, project: string, resume: bool,
                           start: int, totalPages: int)
    requires start == StartPage(disk.checkpoint, project, resume)
    requires Usable(pages(project, start)) && PageCount(pages(project, start).value, size, cap) == Ok(totalPages)
    ensures var n := Streak(pages, project, start + 1, totalPages);
            var run := ScrapeProjectSpec(pages, size, cap, disk, project, resume);
            && run.result == Ok(1 + n)
            && 1 + n <= MaxInt(1, totalPages - start)
            && run.fetched == Range(start, start + 1 + Tried(pages, project, start + 1, totalPages))
  {
    var disk1 := SavePage(disk, project, start, pages(project, start).value);
    ScrapeProjectUnfold(pages, size, cap, disk, project, resume, start, totalPages);
    PagingProgress(pages, project, start + 1, totalPages, disk1, 1, [start]);
    RangeStep(start, start + 1 + Tried(pages, project, start + 1, totalPages));
  }

  /**
   * After a usable first page at index `start`, `scrape_project` has saved
   * each page from `start` to `start + n` with the data fetched for it.
   */
  lemma ScrapeProjectSaves(pages: Pages, size: int, cap: Option<int>, disk: Disk, project: string, resume: bool,
                           start: int, totalPages: int, i: int)
    requires start == StartPage(disk.checkpoint, project, resume)
    requires Usable(pages(project, start)) && PageCount(pages(project, start).value, size, cap) == Ok(totalPages)
    requires start <= i <= start + Streak(pages, project, start + 1, totalPages)
    ensures var raw := ScrapeProjectSpec(pages, size, cap, disk, project, resume).disk.raw;
            (project, i) in raw && pages(project, i) == Some(raw[(project, i)])
  {
    var disk1 := SavePage(disk, project, start, pages(project, start).value);
    ScrapeProjectUnfold(pages, size, cap, disk, project, resume, start, totalPages);
    PagingRaw(pages, project, start + 1, totalPages, disk1, 1, [start], (project, i));
  }

  /** After a usable first page at index `start`, the checkpoint holds `start + n`, the last page saved. */
  lemma ScrapeProjectCheckpoint(pages: Pages, size: int, cap: Option<int>, disk: Disk, project: string, resume: bool,
                                start: int, totalPages: int)
    requires start == StartPage(disk.checkpoint, project, resume)
    requires Usable(pages(project, start)) && PageCount(pages(project, start).value, size, cap) == Ok(totalPages)
    ensures LoadCheckpoint(ScrapeProjectSpec(pages, size, cap, disk, project, resume).disk.checkpoint, project)
            == start + Streak(pages, project, start + 1, totalPages)
  {
    var disk1 := SavePage(disk, project, start, pages(project, start).value);
    var n := Streak(pages, project, start + 1, totalPages);
    ScrapeProjectUnfold(pages, size, cap, disk, project, resume, start, totalPages);
    PagingCheckpoint(pages, project, start + 1, totalPages, disk1, 1, [start]);
  }

  /** When every page is usable, the streak runs to the last page. */
  lemma {:induction false} StreakOfUsablePages(pages: Pages, project: string, page: int, totalPages: int)
    requires forall i :: Usable(pages(project, i))
    ensures Streak(pages, project, page, totalPages) == MaxInt(0, totalPages - page)
    decreases totalPages - page
  {
    if page < totalPages {
      StreakOfUsablePages(pages, project, page + 1, totalPages);
    }
  }

  /**
   * If every page can be fetched, `scrape_project` saves every page from
   * `start` to the last one and the checkpoint ends on the last page.
   */
  lemma CompleteScrape(pages: Pages, size: int, cap: Option<int>, disk: Disk, project: string, resume: bool,
                       start: int, totalPages: int)
    requires forall i :: Usable(pages(project, i))
    requires start == StartPage(disk.checkpoint, project, resume)
    requires Usable(pages(project, start)) && PageCount(pages(project, start).value, size, cap) == Ok(totalPages)
    ensures var run := ScrapeProjectSpec(pages, size, cap, disk, project, resume);
            && run.result == Ok(MaxInt(1, totalPages - start))
            && LoadCheckpoint(run.disk.checkpoint, project) == MaxInt(start, totalPages - 1)
  {
    ScrapeProjectCount(pages, size, cap, disk, project, resume, start, totalPages);
    ScrapeProjectCheckpoint(pages, size, cap, disk, project, resume, start, totalPages);
    StreakOfUsablePages(pages, project, start + 1, totalPages);
  }

  /** Resuming starts by fetching again the page the checkpoint records. */
  lemma ResumeRefetchesCheckpoint(pages: Pages, size: int, cap: Option<int>, disk: Disk, project: string)
    ensures var run := ScrapeProjectSpec(pages, size, cap, disk, project, true);
            |run.fetched| >= 1 && run.fetched[0] == LoadCheckpoint(disk.checkpoint, project)
  {
    var start := LoadCheckpoint(disk.checkpoint, project);
    var first := pages(project, start);
    if Usable(first) && PageCount(first.value, size, cap).Ok? {
      ScrapeProjectCount(pages, size, cap, disk, project, true, start, PageCount(first.value, size, cap).value);
    }
  }

  /** `scrape_project` leaves what every other project's checkpoint loads as it was. */
  lemma ScrapeProjectKeepsOtherCheckpoints(pages: Pages, size: int, cap: Option<int>, disk: Disk, project: string,
                                           resume: bool, other: string)
    requires other != project
    ensures LoadCheckpoint(ScrapeProjectSpec(pages, size, cap, disk, project, resume).disk.checkpoint, other)
            == LoadCheckpoint(disk.checkpoint, other)
  {
    var start := StartPage(disk.checkpoint, project, resume);
    var first := pages(project, start);
    if Usable(first) && PageCount(first.value, size, cap).Ok? {
      var totalPages := PageCount(first.value, size, cap).value;
      var disk1 := SavePage(disk, project, start, first.value);
      ScrapeProjectUnfold(pages, size, cap, disk, project, resume, start, totalPages);
      PagingCheckpoint(pages, project, start + 1, totalPages, disk1, 1, [start]);
      SaveKeepsOthers(disk.checkpoint, project, start, other);
      SaveKeepsOthers(disk1.checkpoint, project, start + Streak(pages, project, start + 1, totalPages), other);
    }
  }

  /** `scrape_project` leaves every raw page of another project as it was, and adds none. */
  lemma ScrapeProjectKeepsOtherPages(pages: Pages, size: int, cap: Option<int>, disk: Disk, project: string,
                                     resume: bool, k: PageKey)
    requires k.0 != project
    ensures var raw := ScrapeProjectSpec(pages, size, cap, disk, project, resume).disk.raw;
            && (k in raw <==> k in disk.raw)
            && (k in disk.raw ==> raw[k] == disk.raw[k])
  {
    var start := StartPage(disk.checkpoint, project, resume);
    var first := pages(project, start);
    if Usable(first) && PageCount(first.value, size, cap).Ok? {
      var totalPages := PageCount(first.value, size, cap).value;
      ScrapeProjectUnfold(pages, size, cap, disk, project, resume, start, totalPages);
      PagingRaw(pages, project, start + 1, totalPages, SavePage(disk, project, start, first.value), 1, [start], k);
    }
  }

  /** What `scrape_project` returns and requests depends on the disk only through this project's checkpoint. */
  lemma OutcomeDependsOnOwnCheckpoint(pages: Pages, size: int, cap: Option<int>, disk1: Disk, disk2: Disk,
                                      project: string, resume: bool)
    requires LoadCheckpoint(disk1.checkpoint, project) == LoadCheckpoint(disk2.checkpoint, project)
    ensures var run1 := ScrapeProjectSpec(pages, size, cap, disk1, project, resume);
            var run2 := ScrapeProjectSpec(pages, size, cap, disk2, project, resume);
            run1.result == run2.result && run1.fetched == run2.fetched
  {
    var start := StartPage(disk1.checkpoint, project, resume);
    assert start == StartPage(disk2.checkpoint, project, resume);
    var first := pages(project, start);
    if Usable(first) && PageCount(first.value, size, cap).Ok? {
      var totalPages := PageCount(first.value, size, cap).value;
      ScrapeProjectCount(pages, size, cap, disk1, project, resume, start, totalPages);
      ScrapeProjectCount(pages, size, cap, disk2, project, resume, start, totalPages);
    }
  }

  // ---------------------------------------------------------------------------
  // scrape_all
  // ---------------------------------------------------------------------------

  lemma {:induction false} ScrapeFromKeys(pages: Pages, size: int, cap: Option<int>, projects: seq<string>, resume: bool,
                                          stop: nat, i: nat, disk: Disk, results: map<string, int>)
    requires i <= stop <= |projects|
    ensures ScrapeFrom(pages, size, cap, projects, resume, stop, i, disk, results).results.Keys
            == results.Keys + set j | i <= j < stop :: projects[j]
    decreases stop - i
  {
    if i < stop {
      var run := ScrapeProjectSpec(pages, size, cap, disk, projects[i], resume);
      ScrapeFromKeys(pages, size, cap, projects, resume, stop, i + 1, run.disk, results[projects[i] := ResultCount(run.result)]);
      assert (set j | i <= j < stop :: projects[j]) == {projects[i]} + set j | i + 1 <= j < stop :: projects[j];
    }
  }

  /** `scrape_all` has a result for exactly the projects it reached before an interrupt. */
  lemma ScrapeAllKeys(pages: Pages, size: int, cap: Option<int>, disk: Disk, projects: seq<string>,
                      resume: bool, interruptAt: Option<nat>)
    ensures ScrapeAllSpec(pages, size, cap, disk, projects, resume, interruptAt).results.Keys
            == set j | 0 <= j < StopIndex(|projects|, interruptAt) :: projects[j]
  {
    ScrapeFromKeys(pages, size, cap, projects, resume, StopIndex(|projects|, interruptAt), 0, disk, map[]);
  }

  predicate Distinct(projects: seq<string>) {
    forall a, b :: 0 <= a < b < |projects| ==> projects[a] != projects[b]
  }

  /** What project j would give if it were scraped alone from the starting disk. */
  function Alone(pages: Pages, size: int, cap: Option<int>, disk0: Disk, projects: seq<string>, resume: bool, j: nat): int
    requires j < |projects|
  {
    ResultCount(ScrapeProjectSpec(pages, size, cap, disk0, projects[j], resume).result)
  }

  lemma {:induction false} ScrapeFromIsolation(pages: Pages, size: int, cap: Option<int>, projects: seq<string>, resume: bool,
                                               stop: nat, i: nat, disk0: Disk, disk: Disk, results: map<string, int>)
    requires i <= stop <= |projects| && Distinct(projects)
    requires forall j :: i <= j < stop ==>
               LoadCheckpoint(disk.checkpoint, projects[j]) == LoadCheckpoint(disk0.checkpoint, projects[j])
    requires forall j :: 0 <= j < i ==>
               projects[j] in results && results[projects[j]] == Alone(pages, size, cap, disk0, projects, resume, j)
    ensures var all := ScrapeFrom(pages, size, cap, projects, resume, stop, i, disk, results);
            forall j :: 0 <= j < stop ==>
              projects[j] in all.results && all.results[projects[j]] == Alone(pages, size, cap, disk0, projects, resume, j)
    decreases stop - i
  {
    if i < stop {
      var run := ScrapeProjectSpec(pages, size, cap, disk, projects[i], resume);
      OutcomeDependsOnOwnCheckpoint(pages, size, cap, disk, disk0, projects[i], resume);
      forall j | i + 1 <= j < stop
        ensures LoadCheckpoint(run.disk.checkpoint, projects[j]) == LoadCheckpoint(disk0.checkpoint, projects[j])
      {
        ScrapeProjectKeepsOtherCheckpoints(pages, size, cap, disk, projects[i], resume, projects[j]);
      }
      var results' := results[projects[i] := ResultCount(run.result)];
      ScrapeFromIsolation(pages, size, cap, projects, resume, stop, i + 1, disk0, run.disk, results');
    }
  }

  /**
   * With distinct project keys, each project's entry in `scrape_all`'s
   * results is what scraping that project alone from the starting disk
   * gives: a failing or raising project does not affect the others.
   */
  lemma ScrapeAllIsolation(pages: Pages, size: int, cap: Option<int>, disk: Disk, projects: seq<string>,
                           resume: bool, interruptAt: Option<nat>)
    requires Distinct(projects)
    ensures var all := ScrapeAllSpec(pages, size, cap, disk, projects, resume, interruptAt);
            forall j :: 0 <= j < StopIndex(|projects|, interruptAt) ==>
              projects[j] in all.results && all.results[projects[j]] == Alone(pages, size, cap, disk, projects, resume, j)
  {
    ScrapeFromIsolation(pages, size, cap, projects, resume, StopIndex(|projects|, interruptAt), 0, disk, disk, map[]);
  }
}
