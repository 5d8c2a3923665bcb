/**
 * `JiraScraper` of src/scraper.py. The search endpoint is an oracle (`Server`)
 * that answers the n-th attempt of a request; the raw-page directory and the
 * checkpoint file are the scraper's state. Each operation that changes state
 * is a method proved equal to a specification function on values; the
 * properties of those functions are proved in module ScraperProperties.
 */
module Scraper {
  import opened Wrappers
  import opened Json
  import opened Checkpoints
  import opened Retrying

  /** The API's largest page size. */
  const ApiPageLimit: int := 100

  /** `min(max_results, 100)` in the constructor. */
  function PageSize(maxResults: int): (size: int)
    ensures size <= ApiPageLimit
    ensures size == maxResults || size == ApiPageLimit
    ensures maxResults <= ApiPageLimit ==> size == maxResults
  {
    if maxResults <= ApiPageLimit then maxResults else ApiPageLimit
  }

  // ---------------------------------------------------------------------------
  // One request: `_make_request` and `fetch_issues_page`
  // ---------------------------------------------------------------------------

  /** The parameters of one search request that vary: the project, `startAt` and `maxResults`. */
  datatype Request = Request(project: string, startAt: int, maxResults: int)

  /** A response body: empty, not JSON, or a parsed JSON value. */
  datatype Body = EmptyBody | NotJson | JsonBody(value: Value)

  /** What one HTTP call gives: a network failure (timeout, connection, other request error) or a response. */
  datatype Response = ConnectionFailed | Http(status: int, body: Body)

  /** The search endpoint: the response to attempt number n of a request. */
  type Server = (Request, nat) -> Response

  /**
   * `_make_request` without its retry decorator: a parsed dict is returned;
   * every other outcome raises an error whose status code is 0 for a network
   * failure and the response's own status otherwise.
   */
  function MakeRequest(response: Response): (outcome: Outcome<Value>)
    ensures outcome.Returned? <==>
              response.Http? && response.status < 400 && response.body.JsonBody? && response.body.value.Obj?
    ensures outcome.Returned? ==> outcome.value == response.body.value
    ensures response.ConnectionFailed? ==> outcome == Failed(Failure(Some(0)))
    ensures response.Http? && outcome.Failed? ==> outcome == Failed(Failure(Some(response.status)))
  {
    match response
    case ConnectionFailed => Failed(Failure(Some(0)))
    case Http(status, body) =>
      if status >= 400 then Failed(Failure(Some(status)))
      else
        match body
        case EmptyBody => Failed(Failure(Some(status)))
        case NotJson => Failed(Failure(Some(status)))
        case JsonBody(data) => if data.Obj? then Returned(data) else Failed(Failure(Some(status)))
  }

  /** `@retry_with_backoff(max_retries=3, initial_delay=2.0)` on `_make_request`. */
  const MakeRequestPolicy: Policy := DefaultPolicy.(maxRetries := 3, initialDelay := 2.0)

  /** The successive calls of `_make_request` for one request. */
  function Attempts(server: Server, request: Request): nat -> Outcome<Value> {
    (n: nat) => MakeRequest(server(request, n))
  }

  /** The envelope `fetch_issues_page` accepts: an `issues` list, or no `issues` and a zero `total`. */
  predicate ValidEnvelope(data: Value) {
    && data.Obj?
    && (if "issues" in data.fields then data.fields["issues"].Arr?
        else "total" in data.fields && EqualsZero(data.fields["total"]))
  }

  /**
   * The checks `fetch_issues_page` makes on what the retrying `_make_request`
   * did: a raised error, a missing or non-list `issues` (unless `total` is 0)
   * all give None; a page it accepts is a non-empty dict.
   */
  function CheckEnvelope(final: Final<Value>): (page: Option<Value>)
    ensures page.Some? <==> final.Success? && ValidEnvelope(final.value)
    ensures page.Some? ==> page.value == final.value && page.value.Obj? && Truthy(page.value)
  {
    match final
    case Success(data) =>
      if !data.Obj? then None
      else if "issues" !in data.fields then
        if "total" in data.fields && EqualsZero(Get(data.fields, "total")) then Some(data) else None
      else if GetOr(data.fields, "issues", Arr([])).Arr? then Some(data)
      else None
    case Reraised(_) => None
    case NoAttempt => None
  }

  /** `fetch_issues_page(project, start_at)` with the given page size. */
  function FetchPage(server: Server, size: int, project: string, startAt: int): (page: Option<Value>)
    ensures page.Some? ==> page.value.Obj? && Truthy(page.value)
  {
    CheckEnvelope(Retry(MakeRequestPolicy, Attempts(server, Request(project, startAt, size))).final)
  }

  /** The fetch of page index `page`, whose offset is `page * size`. */
  function PageAt(server: Server, size: int, project: string, page: int): (data: Option<Value>)
    ensures data.Some? ==> data.value.Obj? && Truthy(data.value)
  {
    FetchPage(server, size, project, page * size)
  }

  /**
   * What `fetch_issues_page` gives for each project and page index. The
   * paging specification is stated over any such oracle; `Fetcher` is the
   * one the retrying request defines.
   */
  type Pages = (string, int) -> Option<Value>

  function Fetcher(server: Server, size: int): Pages {
    (project: string, page: int) => PageAt(server, size, project, page)
  }

  /** `if page_data:`: a page was fetched and is truthy. */
  predicate Usable(page: Option<Value>) {
    page.Some? && Truthy(page.value)
  }

  // ---------------------------------------------------------------------------
  // Page arithmetic
  // ---------------------------------------------------------------------------

  /** Python's `a // b`, which rounds toward negative infinity. */
  function FloorDiv(a: int, b: int): int
    requires b != 0
  {
    if b > 0 then a / b else (-a) / (-b)
  }

  /** `(total_issues + max_results - 1) // max_results`. */
  function TotalPages(total: int, size: int): int
    requires size != 0
  {
    FloorDiv(total + size - 1, size)
  }

  /** `if self.max_issues_per_project` holds: a cap is given and is not 0. */
  predicate Capped(cap: Option<int>) {
    cap.Some? && cap.value != 0
  }

  /** The total used for paging: the reported total, lowered to the cap when one is set and exceeded. */
  function EffectiveTotal(total: int, cap: Option<int>): (t: int)
    ensures t <= total
    ensures t == total || (Capped(cap) && t == cap.value)
    ensures Capped(cap) ==> t <= cap.value
    ensures !Capped(cap) ==> t == total
  {
    if Capped(cap) && total > cap.value then cap.value else total
  }

  /** `first_page_data.get('total', 0)` as a Python integer; None when it is not one (a TypeError follows). */
  function TotalOf(fields: map<string, Value>): Option<int> {
    match GetOr(fields, "total", Num(0))
    case Num(n) => Some(n)
    case Bool(b) => Some(if b then 1 else 0)
    case _ => None
  }

  /**
   * The page count computed from the first page, or Raised for a non-numeric
   * total or a zero page size (and for a first page that is not a dict, which
   * `fetch_issues_page` never returns).
   */
  function PageCount(envelope: Value, size: int, cap: Option<int>): Result<int> {
    if !envelope.Obj? then Raised
    else
    match TotalOf(envelope.fields)
    case None => Raised
    case Some(total) => if size == 0 then Raised else Ok(TotalPages(EffectiveTotal(total, cap), size))
  }

  function MaxInt(a: int, b: int): int {
    if a >= b then a else b
  }

  /** The page indices lo, lo + 1, ..., hi - 1. */
  function Range(lo: int, hi: int): (r: seq<int>)
    requires lo <= hi
    ensures |r| == hi - lo
  {
    seq(hi - lo, i requires 0 <= i < hi - lo => lo + i)
  }

  // ---------------------------------------------------------------------------
  // scrape_project and scrape_all as functions of the disk
  // ---------------------------------------------------------------------------

  /** A raw page file is keyed by project and page index (`{project}_page_{page}.json`). */
  type PageKey = (string, int)

  /** What the scraper keeps on disk: the checkpoint document and the raw pages. */
  datatype Disk = Disk(checkpoint: CheckpointDoc, raw: map<PageKey, Value>)

  /** `save_raw_response` followed by `save_checkpoint` for one page. */
  function SavePage(disk: Disk, project: string, page: int, data: Value): Disk {
    Disk(Parsed(Saved(disk.checkpoint, project, page)), disk.raw[(project, page) := data])
  }

  /** The end of one project's scrape: its return value (or exception), the disk, and the page indices fetched. */
  datatype ProjectRun = ProjectRun(result: Result<int>, disk: Disk, fetched: seq<int>)

  /** `start_page`: the checkpoint when resuming, 0 otherwise. */
  function StartPage(doc: CheckpointDoc, project: string, resume: bool): int {
    if resume then LoadCheckpoint(doc, project) else 0
  }

  /**
   * The paging loop from index `page` on, with `scraped` pages saved so far
   * and the page indices fetched so far. It saves at most one page per index
   * left before `totalPages`.
   */
  function Paging(pages: Pages, project: string, page: int, totalPages: int,
                  disk: Disk, scraped: int, fetched: seq<int>): (run: ProjectRun)
    ensures run.result.Ok?
    ensures scraped <= run.result.value <= scraped + MaxInt(0, totalPages - page)
    decreases totalPages - page
  {
    if page >= totalPages then ProjectRun(Ok(scraped), disk, fetched)
    else
      var data := pages(project, page);
      if !Usable(data) then ProjectRun(Ok(scraped), disk, fetched + [page])
      else Paging(pages, project, page + 1, totalPages,
                  SavePage(disk, project, page, data.value), scraped + 1, fetched + [page])
  }

  /** One turn of the paging loop, as the method takes it. */
  lemma PagingUnfold(pages: Pages, project: string, page: int, totalPages: int,
                     disk: Disk, scraped: int, fetched: seq<int>)
    requires page < totalPages
    ensures !Usable(pages(project, page)) ==>
              Paging(pages, project, page, totalPages, disk, scraped, fetched) == ProjectRun(Ok(scraped), disk, fetched + [page])
    ensures Usable(pages(project, page)) ==>
              Paging(pages, project, page, totalPages, disk, scraped, fetched)
              == Paging(pages, project, page + 1, totalPages,
                        SavePage(disk, project, page, pages(project, page).value), scraped + 1, fetched + [page])
  {
  }

  /**
   * The number of consecutive usable pages from index `page` that lie before
   * `totalPages`: how many pages the paging loop saves from there.
   */
  function Streak(pages: Pages, project: string, page: int, totalPages: int): (n: int)
    ensures 0 <= n <= MaxInt(0, totalPages - page)
    decreases totalPages - page
  {
    if page >= totalPages || !Usable(pages(project, page)) then 0
    else 1 + Streak(pages, project, page + 1, totalPages)
  }

  /** `scrape_project(project, resume)` with page size `size` and per-project cap `cap`. */
  function ScrapeProjectSpec(pages: Pages, size: int, cap: Option<int>, disk: Disk,
                             project: string, resume: bool): ProjectRun
  {
    var start := StartPage(disk.checkpoint, project, resume);
    var first := pages(project, start);
    if !Usable(first) then ProjectRun(Ok(0), disk, [start])
    else
      match PageCount(first.value, size, cap)
      case Raised => ProjectRun(Raised, disk, [start])
      case Ok(totalPages) =>
        Paging(pages, project, start + 1, totalPages,
               SavePage(disk, project, start, first.value), 1, [start])
  }

  /** `results[project]`: the pages scraped, or 0 when the scrape raised. */
  function ResultCount(result: Result<int>): int {
    match result
    case Ok(pages) => pages
    case Raised => 0
  }

  /** The number of projects `scrape_all` gets through before an interrupt at index `interruptAt`, if any. */
  function StopIndex(count: nat, interruptAt: Option<nat>): (stop: nat)
    ensures stop <= count
    ensures interruptAt.Some? && interruptAt.value < count ==> stop == interruptAt.value
    ensures !(interruptAt.Some? && interruptAt.value < count) ==> stop == count
  {
    if interruptAt.Some? && interruptAt.value < count then interruptAt.value else count
  }

  /** The end of `scrape_all`: the results dict and the disk. */
  datatype AllRun = AllRun(results: map<string, int>, disk: Disk)

  /** `scrape_all` from project index `i` on, with `results` gathered so far. */
  function ScrapeFrom(pages: Pages, size: int, cap: Option<int>, projects: seq<string>, resume: bool,
                      stop: nat, i: nat, disk: Disk, results: map<string, int>): AllRun
    requires i <= stop <= |projects|
    decreases stop - i
  {
    if i == stop then AllRun(results, disk)
    else
      var run := ScrapeProjectSpec(pages, size, cap, disk, projects[i], resume);
      ScrapeFrom(pages, size, cap, projects, resume, stop, i + 1, run.disk,
                 results[projects[i] := ResultCount(run.result)])
  }

  /** `scrape_all(resume)`, interrupted before project `interruptAt` if that is given. */
  function ScrapeAllSpec(pages: Pages, size: int, cap: Option<int>, disk: Disk, projects: seq<string>,
                         resume: bool, interruptAt: Option<nat>): AllRun
  {
    ScrapeFrom(pages, size, cap, projects, resume, StopIndex(|projects|, interruptAt), 0, disk, map[])
  }

  // ---------------------------------------------------------------------------
  // The scraper object
  // ---------------------------------------------------------------------------

  class JiraScraper {
    const projects: seq<string>
    /** The page size actually requested, never above the API limit. */
    const maxResults: int
    const maxIssuesPerProject: Option<int>
    /** The checkpoint file. */
    const checkpoints: CheckpointFile
    /** The raw-page directory. */
    var raw: map<PageKey, Value>

    constructor (projects: seq<string>, maxResults: int, maxIssuesPerProject: Option<int>,
                 checkpoints: CheckpointFile, raw: map<PageKey, Value>)
      ensures this.projects == projects && this.maxResults == PageSize(maxResults)
      ensures this.maxResults <= ApiPageLimit
      ensures this.maxIssuesPerProject == maxIssuesPerProject
      ensures this.checkpoints == checkpoints && this.raw == raw
    {
      this.projects := projects;
      this.maxResults := if maxResults <= ApiPageLimit then maxResults else ApiPageLimit;
      this.maxIssuesPerProject := maxIssuesPerProject;
      this.checkpoints := checkpoints;
      this.raw := raw;
    }

    /** The disk as the specification functions see it. */
    function DiskState(): Disk
      reads this, checkpoints
    {
      Disk(checkpoints.doc, raw)
    }

    /** `fetch_issues_page`: the retrying request, then the envelope checks. */
    method FetchIssuesPage(server: Server, project: string, startAt: int) returns (page: Option<Value>)
      ensures page == FetchPage(server, maxResults, project, startAt)
    {
      var final, waits, calls := RetryWithBackoff(MakeRequestPolicy, Attempts(server, Request(project, startAt, maxResults)));
      page := CheckEnvelope(final);
    }

    /** `save_raw_response`: write (or overwrite) one page file. */
    method SaveRawResponse(project: string, page: int, data: Value)
      modifies this
      ensures raw == old(raw)[(project, page) := data]
    {
      raw := raw[(project, page) := data];
    }

    /** Fetch page `page` and, when it is usable, save it and advance the checkpoint. */
    method FetchAndSave(server: Server, project: string, page: int) returns (data: Option<Value>)
      modifies this, checkpoints
      ensures data == Fetcher(server, maxResults)(project, page)
      ensures DiskState() == (if Usable(data) then SavePage(old(DiskState()), project, page, data.value) else old(DiskState()))
    {
      data := FetchIssuesPage(server, project, page * maxResults);
      if Usable(data) {
        SaveRawResponse(project, page, data.value);
        checkpoints.Save(project, page);
      }
    }

    /** The `while page < total_pages` loop of `scrape_project`. */
    method PageLoop(server: Server, project: string, first: int, totalPages: int, ghost fetched0: seq<int>)
      returns (scraped: int, ghost fetched: seq<int>)
      modifies this, checkpoints
      ensures ProjectRun(Ok(scraped), DiskState(), fetched)
              == Paging(Fetcher(server, maxResults), project, first, totalPages, old(DiskState()), 1, fetched0)
    {
      ghost var pages := Fetcher(server, maxResults);
      ghost var goal := Paging(pages, project, first, totalPages, DiskState(), 1, fetched0);
      scraped := 1;
      fetched := fetched0;
      var page := first;
      while page < totalPages
        invariant Paging(pages, project, page, totalPages, DiskState(), scraped, fetched) == goal
        decreases totalPages - page
      {
        PagingUnfold(pages, project, page, totalPages, DiskState(), scraped, fetched);
        var data := FetchAndSave(server, project, page);
        fetched := fetched + [page];
        if !Usable(data) {
          break;
        }
        scraped := scraped + 1;
        page := page + 1;
      }
    }

    /**
     * `scrape_project`: the number of pages saved, or Raised for the
     * exceptions it lets through; `fetched` records the page indices
     * requested, in order.
     */
    method ScrapeProject(server: Server, project: string, resume: bool) returns (pages: Result<int>, ghost fetched: seq<int>)
      modifies this, checkpoints
      ensures ProjectRun(pages, DiskState(), fetched)
              == ScrapeProjectSpec(Fetcher(server, maxResults), maxResults, maxIssuesPerProject, old(DiskState()), project, resume)
    {
      var start := 0;
      if resume {
        start := LoadCheckpoint(checkpoints.doc, project);
      }
      var first := FetchIssuesPage(server, project, start * maxResults);
      fetched := [start];
      if !Usable(first) {
        return Ok(0), fetched;
      }
      var total := TotalOf(first.value.fields);
      if total.None? {
        return Raised, fetched;
      }
      var totalIssues := total.value;
      if Capped(maxIssuesPerProject) && totalIssues > maxIssuesPerProject.value {
        totalIssues := maxIssuesPerProject.value;
      }
      if maxResults == 0 {
        return Raised, fetched;
      }
      var totalPages := FloorDiv(totalIssues + maxResults - 1, maxResults);
      assert PageCount(first.value, maxResults, maxIssuesPerProject) == Ok(totalPages);

      SaveRawResponse(project, start, first.value);
      checkpoints.Save(project, start);
      var scraped;
      scraped, fetched := PageLoop(server, project, start + 1, totalPages, fetched);
      pages := Ok(scraped);
    }

    /**
     * `scrape_all`: every project in order, a raised scrape recorded as 0;
     * an interrupt before project `interruptAt` ends the loop.
     */
    method ScrapeAll(server: Server, resume: bool, interruptAt: Option<nat>) returns (results: map<string, int>)
      modifies this, checkpoints
      ensures AllRun(results, DiskState())
              == ScrapeAllSpec(Fetcher(server, maxResults), maxResults, maxIssuesPerProject, old(DiskState()), projects, resume, interruptAt)
    {
      results := map[];
      ghost var stop := StopIndex(|projects|, interruptAt);
      ghost var goal := ScrapeAllSpec(Fetcher(server, maxResults), maxResults, maxIssuesPerProject, old(DiskState()), projects, resume, interruptAt);
      var i := 0;
      while i < |projects|
        invariant i <= stop
        invariant ScrapeFrom(Fetcher(server, maxResults), maxResults, maxIssuesPerProject, projects, resume, stop, i, DiskState(), results) == goal
      {
        if interruptAt == Some(i) {
          break;
        }
        ghost var fetched;
        var pages;
        pages, fetched := ScrapeProject(server, projects[i], resume);
        match pages {
          case Ok(n) => results := results[projects[i] := n];
          case Raised => results := results[projects[i] := 0];
        }
        i := i + 1;
      }
    }
  }
}
