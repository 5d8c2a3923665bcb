# Apache Jira scraper and dataset builder — a Dafny model

The Python pipeline pages through the Apache Jira search API project by
project. It retries failed requests with exponential back-off, saves each raw
page and a per-project checkpoint so a later run can resume, and turns raw
issues into cleaned records. From each record it derives training tasks: a
summary, a keyword classification and question/answer pairs. This project
models the core of that pipeline in Dafny and proves what it guarantees.

Modules, one per concern of the source:

- `Wrappers`: `Option` and `Result`. `Result.Raised` stands for a Python exception that propagates.
- `Json`: JSON values with Python truthiness, `dict.get`, `a or b`, `== 0` and `str()`.
- `Text`: the string operations used: `in`, ASCII `lower()`, `strip()`, slicing and `split(c)[0]`.
- `Lists`: the "walk a list, keep what converts, stop on an exception" loop, and list filtering.
- `Checkpoints`: `load_json`, `load_checkpoint` and `save_checkpoint`. The checkpoint file is a class whose document `save_checkpoint` rewrites.
- `Retrying`: `retry_with_backoff` as a specification (`Retry`) and as the loop that implements it (`RetryWithBackoff`). The wrapped call is an oracle that says what its n-th invocation does. The waits are returned, not slept.
- `Scraper`: `_make_request`, `fetch_issues_page`, the page arithmetic and the class `JiraScraper`.
  - Its fields are the raw-page directory (a map from project and page index to the saved JSON) and the checkpoint file.
  - `ScrapeProject` and `ScrapeAll` are methods proved equal to `ScrapeProjectSpec` and `ScrapeAllSpec`, which are functions of the disk.
  - The search endpoint is an oracle `Server` from a request and an attempt number to a response.
- `ScraperProperties`: what the scraper does, stated over any page oracle. This covers:
  - what one request does under the retry policy;
  - which pages are fetched, saved and checkpointed;
  - what resuming does;
  - that projects do not interfere in `scrape_all`.
- `Transformer`: field extraction, comments, labels, `transform_issue` and `transform_page`. `clean_html` and `str()` of non-strings are function parameters.
- `DerivedTasks`: `classify_issue`, `generate_summary`, `generate_qna` and `add_derived_tasks`. The last updates the issue dict (class `IssueRecord`) in place.

Where the code and its comments or documentation differ, the model follows the code:

- `_make_request` raises with the response's own status code for an empty, non-JSON or non-dict body (src/scraper.py:95-115). For a 2xx answer that code is not in the retryable list, so such a body is not retried. `UnusableBodyIsNotRetried` proves this.
- `classify_issue` is documented to return 'Other' as well, but no branch does. Its contract says the label is never "Other".
- `extract_field_value` turns every dict into its `name`, `displayName` or `key`, so the `name` branch after it (src/transformer.py:55-56) cannot be reached. Because of this, the `comment` field of a real Jira issue (a dict without those keys) yields `None`, and `extract_comments` returns `[]` for it. `JiraCommentFieldGivesNoComments` proves this.
- `fetch_issues_page` accepts a body without `issues` whose `total` compares equal to 0. In Python `False == 0`, so `{"total": false}` is accepted too.
- A `max_issues_per_project` of 0 counts as "no cap", like `None`.
- A `max_results` of 0, or a non-numeric `total`, raises before anything is saved. `scrape_all` then records 0 for the project.
- A non-dict issue makes `transform_issue` raise out of its own exception handler, because the handler calls `issue.get` again. That exception ends `transform_page`.
- src/transformer.py and src/derived_tasks.py import `logger` from src/utils.py, which does not define it. The model treats logging as if it worked; logging is not modelled.

## Model

| member | source | states |
|---|---|---|
| Checkpoints.LoadJson | src/utils.py:42-51 | None exactly for a missing or malformed file, else the parsed content |
| Checkpoints.LoadCheckpoint | src/utils.py:69-76 | the recorded `last_fetched_page` of the project; 0 when the file cannot be loaded, the project is absent or its entry has no page |
| Checkpoints.Saved | src/utils.py:54-65 | loading the project from the saved document gives the page just saved |
| Checkpoints.SavedKeys | src/utils.py:58-62 | an unloadable document is replaced by one holding only this project; otherwise all projects are kept and this one is added |
| Checkpoints.SaveKeepsOthers | src/utils.py:58-65 | saving one project leaves what every other project loads unchanged |
| Checkpoints.SaveLastWins | src/utils.py:58-65 | two saves for a project equal the second save alone |
| Checkpoints.CheckpointFile.Save | src/utils.py:54-65 | the file's new document is the loaded document (or `{}`) with the project's page set |
| Retrying.WaitTime | src/utils.py:115-139 | the full maximum delay after a 429, the capped exponential delay otherwise; never above the maximum |
| Retrying.RetryWithBackoff | src/utils.py:96-147 | the loop's outcome, sleeps and call count equal the specification `Retry` |
| Retrying.Schedule | src/utils.py:115-142 | one wait per retried failure, each the wait for that attempt's failure |
| Retrying.RetriedPrefix | src/utils.py:101-145 | a run of retried failures contributes its waits and calls before the rest of the run |
| Retrying.RunShape | src/utils.py:101-145 | a run makes one more call than it sleeps and at most max_retries + 1 calls; every slept-after attempt failed retryably |
| Retrying.CallsBounded | src/utils.py:101-147 | at most max_retries + 1 calls (none when negative); each wait follows a retryable failure and is at most the maximum delay |
| Retrying.FatalShortCircuit | src/utils.py:108-113 | a non-retryable status is re-raised at once, after the waits for the earlier failures |
| Retrying.SuccessAfterRetries | src/utils.py:101-103 | the first successful call's value is returned after k retried failures, with k waits and k + 1 calls |
| Retrying.AlwaysFailingExhausts | src/utils.py:141-145 | a call that always fails retryably is made max_retries + 1 times and its failure re-raised; the waits are all the maximum after 429s, otherwise the exponential schedule |
| Retrying.DefaultScheduleOnServerError | src/utils.py:79-145 | with the defaults, a persistent status 0/500/502/503/504 gives 4 calls, waits 2, 4, 8 and a re-raise |
| Scraper.PageSize | src/scraper.py:42 | the page size is `max_results` capped at 100 |
| Scraper.JiraScraper.constructor | src/scraper.py:41-45 | the scraper keeps its projects, cap and files, and its page size never exceeds 100 |
| Scraper.MakeRequest | src/scraper.py:70-117 | a dict body under status 400 is returned; otherwise it raises with code 0 for a network failure, else the response status |
| Scraper.CheckEnvelope | src/scraper.py:145-171 | a page is returned exactly when the request succeeded with a valid envelope; it is a non-empty dict |
| Scraper.FetchPage | src/scraper.py:143-171 | a fetched page is always a non-empty dict |
| Scraper.JiraScraper.FetchIssuesPage | src/scraper.py:119-171 | the retrying request followed by the envelope checks, as `FetchPage` |
| Scraper.EffectiveTotal | src/scraper.py:205-207 | the total is lowered to a non-zero cap when it exceeds it, and is otherwise unchanged |
| Scraper.Paging | src/scraper.py:220-233 | the paging loop always ends normally; its count grows by at most the number of remaining indices |
| Scraper.Streak | src/scraper.py:220-233 | the number of pages the loop saves lies between 0 and the number of remaining indices |
| Scraper.StopIndex | src/scraper.py:250-259 | an interrupt inside the list stops `scrape_all` at exactly the project where it occurs; otherwise every project is visited |
| Scraper.JiraScraper.SaveRawResponse | src/scraper.py:173-177 | writes or overwrites exactly one page file |
| Scraper.JiraScraper.FetchAndSave | src/scraper.py:223-226 | fetches one page; when it is truthy, saves it and advances the checkpoint, otherwise leaves the disk as it was |
| Scraper.JiraScraper.PageLoop | src/scraper.py:217-236 | the loop's count, disk and requested pages equal `Paging` |
| Scraper.JiraScraper.ScrapeProject | src/scraper.py:179-236 | the result, disk and requested pages equal `ScrapeProjectSpec` |
| Scraper.JiraScraper.ScrapeAll | src/scraper.py:238-264 | the results dict and disk equal `ScrapeAllSpec` |
| ScraperProperties.UnusableBodyIsNotRetried | src/scraper.py:95-115 | a 2xx answer with an empty, non-JSON or non-dict body is requested once and gives no page |
| ScraperProperties.PersistentServerErrorGivesNoPage | src/scraper.py:55 | a persistent retryable 5xx, whatever its body, is tried 4 times with waits 2, 4, 8 and gives no page |
| ScraperProperties.FetchedPageIsValidEnvelope | src/scraper.py:148-168 | a fetched page has an `issues` list, or no `issues` and a `total` equal to 0 |
| ScraperProperties.TotalPagesIsCeiling | src/scraper.py:210 | the page count is the ceiling of total / page size |
| ScraperProperties.TotalPagesExamples | src/scraper.py:203-210 | 237 issues in pages of 50 make 5 pages; a cap of 100 makes 2; a cap of 0 is no cap (200 pages); 0 issues make 0 pages |
| ScraperProperties.RangeStep | src/scraper.py:220 | the indices the loop walks, one step at a time |
| ScraperProperties.PagingStep | src/scraper.py:223-227 | a truthy page is saved, checkpointed and counted, and the loop goes on |
| ScraperProperties.StreakBounds | src/scraper.py:224-233 | the saved pages are all truthy, and the page after them, if in range, is not |
| ScraperProperties.PagingProgress | src/scraper.py:217-236 | the count is the pages saved so far plus the streak; the requested indices are consecutive, ending at the failing page |
| ScraperProperties.PagingRaw | src/scraper.py:225 | exactly the streak's pages are written, each with the data fetched for it; other files are untouched |
| ScraperProperties.PagingCheckpoint | src/scraper.py:226 | the checkpoint ends at the last saved page, or is untouched when none is saved |
| ScraperProperties.FirstPageFailureWritesNothing | src/scraper.py:198-201 | a failed first page returns 0, writes nothing and requests only the start page |
| ScraperProperties.RaisedWritesNothing | src/scraper.py:203-215 | the scrape raises exactly when the first page is fetched but its page count cannot be computed; it then writes nothing |
| ScraperProperties.ScrapeProjectUnfold | src/scraper.py:193-220 | after the first page is saved, the rest is the paging loop from the next index |
| ScraperProperties.ScrapeProjectCount | src/scraper.py:193-236 | the result is 1 plus the streak after the start page, at most the pages left; the requested indices run consecutively from the start page |
| ScraperProperties.ScrapeProjectSaves | src/scraper.py:214-226 | every page from the start page through the streak is saved with the data fetched for it |
| ScraperProperties.ScrapeProjectCheckpoint | src/scraper.py:215-226 | the checkpoint afterwards is the last page saved |
| ScraperProperties.StreakOfUsablePages | src/scraper.py:220-227 | when every page is truthy, the loop saves every remaining page |
| ScraperProperties.CompleteScrape | src/scraper.py:193-236 | when every page is truthy, all pages from the start are saved and the checkpoint ends at the last page |
| ScraperProperties.ResumeRefetchesCheckpoint | src/scraper.py:193-198 | resuming requests the checkpointed page again first |
| ScraperProperties.ScrapeProjectKeepsOtherCheckpoints | src/scraper.py:215-226 | scraping one project leaves every other project's checkpoint as it was |
| ScraperProperties.ScrapeProjectKeepsOtherPages | src/scraper.py:214-225 | scraping one project leaves every other project's page files as they were |
| ScraperProperties.OutcomeDependsOnOwnCheckpoint | src/scraper.py:193-236 | the result and requested pages depend on the disk only through the project's own checkpoint |
| ScraperProperties.ScrapeFromKeys | src/scraper.py:250-262 | each project visited gets a result entry, whether it succeeded or raised |
| ScraperProperties.ScrapeAllKeys | src/scraper.py:248-264 | the results hold exactly the projects before the interrupt |
| ScraperProperties.ScrapeFromIsolation | src/scraper.py:250-262 | with distinct projects, each result is what that project would give if scraped alone |
| ScraperProperties.ScrapeAllIsolation | src/scraper.py:248-264 | with distinct projects, each result equals the project scraped alone from the starting disk |
| Transformer.PyInChar | src/transformer.py:142 | `'-' in key` on a string key asks whether the character occurs in it |
| Transformer.ExtractFieldValue | src/transformer.py:32-60 | the default when the field is absent; a dict field collapsed to its name, display name or key; when `fields` is not a dict, it raises unless `in` answers False, and then gives the default |
| Transformer.ExtractedDictIsNested | src/transformer.py:51-56 | an extracted dict is the default or a dict nested under `name`, `displayName` or `key`, never the field's own dict |
| Transformer.DictItems | src/transformer.py:76-82 | a list is walked as is; a non-list that does not raise walks nothing |
| Transformer.ConvertComment | src/transformer.py:83-94 | raises exactly for a non-dict comment or author, or a body that fails to clean; otherwise keeps the comment exactly when its cleaned body is non-empty, with that body and the author's name, else display name, else "Unknown" |
| Transformer.ExtractComments | src/transformer.py:62-96 | the loop's comments equal `CommentsOf` |
| Transformer.CommentsKept | src/transformer.py:82-94 | comments are kept in input order, at most one per input, each with a body and an author |
| Transformer.BodiedCommentsKept | src/transformer.py:82-94 | when the loop does not raise, every comment whose cleaned body is non-empty is kept |
| Transformer.JiraCommentFieldGivesNoComments | src/transformer.py:51-52 | a `comment` dict without name, displayName or key yields no comments |
| Transformer.ExtractLabels | src/transformer.py:98-103 | the items of the labels field when it is a list, else []; raises exactly when the extraction does |
| Transformer.ProjectOf | src/transformer.py:142 | the project never contains '-' |
| Transformer.ProjectOfKey | src/transformer.py:142 | the project is the key's text before its first '-', or "Unknown" without one |
| Transformer.NameOrText | src/transformer.py:131-134 | a dict status or priority gives its `name` (None when absent); any other truthy value its text; a falsy one "Unknown" |
| Transformer.BuildIssue | src/transformer.py:121-164 | a built record holds the key, its project, the cleaned summary and description, the status and priority names, the dates, the labels and the comments of the issue |
| Transformer.TransformIssue | src/transformer.py:105-168 | raises exactly for a non-dict issue; None for a falsy key; for a truthy key, a record exactly when building it does not raise; a record keeps the key and has a truthy reporter and assignee |
| Transformer.RecordContents | src/transformer.py:116-162 | a record's project, title, description, status, priority, dates, labels and comments are those extracted from the issue |
| Transformer.WellFormedIssueGivesRecord | src/transformer.py:115-164 | a dict issue with dict `fields` and a non-empty string key always gives a record when cleaning succeeds and its comments convert |
| Transformer.TransformPage | src/transformer.py:170-189 | the loop's records equal `TransformPageSpec` |
| Transformer.TransformedInOrder | src/transformer.py:183-186 | records keep the page's order, at most one per issue, each with a key |
| Transformer.PageRaisesOnNonDict | src/transformer.py:183-186 | a page raises exactly when one of its issues is not a dict |
| Transformer.PeopleDefaults | src/transformer.py:136-157 | a missing or falsy reporter is "Unknown" and assignee "Unassigned" |
| DerivedTasks.AnyInExists | src/derived_tasks.py:51-55 | the short-circuit `any` holds exactly when some keyword occurs |
| DerivedTasks.ClassifyIssue | src/derived_tasks.py:32-58 | the label is Bug, Feature, Improvement or Task, never Other |
| DerivedTasks.ClassificationPriority | src/derived_tasks.py:42-58 | each label is chosen exactly when its keywords occur and no higher-priority list's do; Task when none occurs |
| DerivedTasks.ClassifyBugExample | src/derived_tasks.py:42-52 | "NPE in parser" is a Bug: matching ignores case |
| DerivedTasks.GenerateSummary | src/derived_tasks.py:60-86 | raises exactly for a truthy non-string status; the summary has no surrounding white space |
| DerivedTasks.SummaryStartsWithTitle | src/derived_tasks.py:75-78 | a title without surrounding white space starts the summary |
| DerivedTasks.SummaryEndsWithResolvedStatus | src/derived_tasks.py:83-84 | a status mentioning "resolve" ends the summary as "[Status: ...]" |
| DerivedTasks.SummaryLength | src/derived_tasks.py:75-84 | the summary is at most the title plus 152 characters (200 without a title), plus the status note |
| DerivedTasks.SummaryOfTitleAndShortDescription | src/derived_tasks.py:75-78 | a title with a description of 1 to 199 characters gives the title, ". " and the description's first 150 characters, then the status note, stripped |
| DerivedTasks.SummaryOfTitleOnly | src/derived_tasks.py:75-77 | a title with an empty description, or one of 200 or more characters, gives the title and the status note, stripped |
| DerivedTasks.SummaryOfDescriptionOnly | src/derived_tasks.py:79-80 | without a title, the description's first 200 characters and the status note, stripped |
| DerivedTasks.SummaryOfEmptyIssue | src/derived_tasks.py:79-86 | without title or description, "No description available" and the status note, stripped |
| DerivedTasks.SummaryOfEmptyUnresolvedIssue | src/derived_tasks.py:79-86 | without title or description and with no resolved status, exactly "No description available" |
| DerivedTasks.GenerateQna | src/derived_tasks.py:88-135 | the pairs appended equal `Qna` |
| DerivedTasks.QnaCount | src/derived_tasks.py:106-133 | one pair each for a title, a description, a truthy status and a resolution comment; at most four |
| DerivedTasks.ResolutionAnswer | src/derived_tasks.py:125-133 | the resolution answer is the first 300 characters of the last comment mentioning fixed, resolved, merged or closed |
| DerivedTasks.DerivedTasksOf | src/derived_tasks.py:147-151 | raises exactly when the summary does; the label is a valid one and there are at most four pairs |
| DerivedTasks.IssueRecord.AddDerivedTasks | src/derived_tasks.py:137-154 | stores the tasks under `derived_tasks`, changes no other key and keeps every cleaned field |

## Left out

- Retrying.RetryWithBackoff: `time.sleep` raising ValueError on a negative wait is not modelled. With a negative `max_delay` or initial delay the source raises after the first retried failure, where the model goes on retrying; `Retrying.AlwaysFailingExhausts` is therefore faithful only for non-negative delays, which every call site uses.
- Scraper.JiraScraper.ScrapeAll: the search endpoint answers as a function of the request and the attempt number, which restarts at 0 on every request. So a project listed twice gets the same answers both times, where the real server may change between requests. `ScrapeAllIsolation` assumes distinct projects and is not affected.
- Network, HTTP session and headers: the search endpoint is an oracle that answers each attempt; URLs, query parameters and the 30-second timeouts are not modelled. Timeouts, connection errors and other request errors are one case, since all three raise with code 0.
- Sleeping: the retry waits are returned as a list. The polite pauses (0.5 s per page, 1 s per project) do not affect results and are not modelled.
- Clocks: the checkpoint's `last_updated` timestamp is not modelled.
- Logging: not modelled, including the undefined `logger` import.
- Files: files are values (missing, malformed or parsed). Directory creation, file names, encodings and a crash between writing a page and its checkpoint are not modelled.
- Checkpoints.LoadCheckpoint: a checkpoint document is modelled as a JSON object whose entries hold an integer page or none. A document that is a list or a scalar, and non-integer page values, are not modelled.
- Scraper.JiraScraper.ScrapeAll: `KeyboardInterrupt` is modelled as an interrupt at the start of a project's turn (`interruptAt`), not in the middle of a scrape.
- Exceptions: exception types and messages are not distinguished. The model records only whether one propagates and, for the retry wrapper, its status code.
- Numbers: floating-point JSON numbers are not modelled; JSON numbers are integers. In the source a float `total` is not rejected up front: without a cap, the first page and its checkpoint are saved before `range` raises on the float page count; with a smaller cap, the integer cap is used and nothing raises. The model does not capture either behaviour.
- Cleaning and text: `clean_html` (BeautifulSoup) and Python's `str()` of non-strings are parameters of the model, not definitions.
- Strings: `lower()` is modelled for ASCII letters only; `isspace()` is modelled for the Unicode white-space characters.
- Dict order: the order of a dict's keys when it is iterated (a dict used as a comment or issue list) is not modelled; such a dict raises or yields nothing either way.
- DerivedTasks: the task generators take the typed cleaned record that `transform_issue` produces, not an arbitrary dict loaded from disk. Cleaned records with missing or non-string titles are therefore not modelled.
- DerivedTasks.ClassifyIssue: beyond the priority lemma and one positive example, no concrete "no keyword occurs" example is proved.
- Not part of this model: the driver programs and the file-level loops around the core operations. That covers run_pipeline.py, `main`, `process_project`, `process_all`, `save_jsonl`, `generate_all`, `format_timestamp` and `clean_html`'s own implementation.
