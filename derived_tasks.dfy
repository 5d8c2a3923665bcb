/**
 * `DerivedTaskGenerator`: the keyword classifier, the summary, the
 * question-and-answer pairs and `add_derived_tasks`, which stores all three
 * under `derived_tasks` in the cleaned issue's dict.
 */
module DerivedTasks {
  import opened Wrappers
  import opened Json
  import opened Text
  import opened Transformer
  import opened Lists

  // ---------------------------------------------------------------------------
  // classify_issue
  // ---------------------------------------------------------------------------

  const BugKeywords: seq<string> :=
    ["bug", "error", "exception", "crash", "failure", "broken", "fix", "npe", "nullpointer"]
  const ImprovementKeywords: seq<string> :=
    ["improve", "optimize", "enhance", "refactor", "cleanup", "performance"]
  const FeatureKeywords: seq<string> :=
    ["feature", "add", "new", "implement", "support"]

  /** The labels `classify_issue` can return; its docstring also names 'Other', which no branch returns. */
  const Labels: set<string> := {"Bug", "Feature", "Improvement", "Task"}

  /** `any(keyword in text for keyword in keywords)`, one keyword at a time. */
  predicate AnyIn(keywords: seq<string>, text: string)
    decreases |keywords|
  {
    |keywords| > 0 && (Contains(text, keywords[0]) || AnyIn(keywords[1..], text))
  }

  lemma {:induction false} AnyInExists(keywords: seq<string>, text: string)
    ensures AnyIn(keywords, text) <==> exists i :: 0 <= i < |keywords| && Contains(text, keywords[i])
    decreases |keywords|
  {
    if |keywords| > 0 {
      AnyInExists(keywords[1..], text);
      if exists i :: 0 <= i < |keywords[1..]| && Contains(text, keywords[1..][i]) {
        var i :| 0 <= i < |keywords[1..]| && Contains(text, keywords[1..][i]);
        assert Contains(text, keywords[i + 1]);
      }
      if exists i :: 0 <= i < |keywords| && Contains(text, keywords[i]) {
        var i :| 0 <= i < |keywords| && Contains(text, keywords[i]);
        if i > 0 {
          assert Contains(text, keywords[1..][i - 1]);
        }
      }
    }
  }

  /** The text the classifier searches: the lower-cased title and description joined by a blank. */
  function Combined(issue: CleanIssue): string {
    Lower(issue.title) + " " + Lower(issue.description)
  }

  /** `classify_issue`: bug keywords win over feature keywords, which win over improvement keywords. */
  function ClassifyIssue(issue: CleanIssue): (kind: string)
    ensures kind in Labels && kind != "Other"
  {
    var text := Combined(issue);
    if AnyIn(BugKeywords, text) then "Bug"
    else if AnyIn(FeatureKeywords, text) then "Feature"
    else if AnyIn(ImprovementKeywords, text) then "Improvement"
    else "Task"
  }

  /** A keyword of `keywords` occurs in `text`. */
  ghost predicate Mentions(keywords: seq<string>, text: string) {
    exists i :: 0 <= i < |keywords| && Contains(text, keywords[i])
  }

  /**
   * The label in terms of which keyword lists occur in the combined text:
   * each label is chosen exactly when its list occurs and no list of higher
   * priority does, and "Task" exactly when none occurs.
   */
  lemma ClassificationPriority(issue: CleanIssue)
    ensures var kind, text := ClassifyIssue(issue), Combined(issue);
            && (kind == "Bug" <==> Mentions(BugKeywords, text))
            && (kind == "Feature" <==> !Mentions(BugKeywords, text) && Mentions(FeatureKeywords, text))
            && (kind == "Improvement" <==>
                  !Mentions(BugKeywords, text) && !Mentions(FeatureKeywords, text) && Mentions(ImprovementKeywords, text))
            && (kind == "Task" <==>
                  !Mentions(BugKeywords, text) && !Mentions(FeatureKeywords, text) && !Mentions(ImprovementKeywords, text))
  {
    var text := Combined(issue);
    AnyInExists(BugKeywords, text);
    AnyInExists(FeatureKeywords, text);
    AnyInExists(ImprovementKeywords, text);
  }

  /** Keyword matching ignores case: "NPE" is a bug keyword. */
  lemma ClassifyBugExample(issue: CleanIssue)
    requires issue.title == "NPE in parser" && issue.description == ""
    ensures ClassifyIssue(issue) == "Bug"
  {
    assert Lower(issue.title) == "npe in parser";
    assert Combined(issue) == "npe in parser ";
    assert Contains(Combined(issue), "npe");
  }

  // ---------------------------------------------------------------------------
  // generate_summary
  // ---------------------------------------------------------------------------

  /** What follows the title: a description shorter than 200 characters, cut to 150. */
  function Elaboration(description: string): string {
    if 0 < |description| < 200 then ". " + Prefix(description, 150) else ""
  }

  /** The summary before the status note: the title and its elaboration, else the description cut to 200. */
  function SummaryBase(issue: CleanIssue): string {
    if |issue.title| > 0 then issue.title + Elaboration(issue.description)
    else if |issue.description| > 0 then Prefix(issue.description, 200)
    else "No description available"
  }

  /** The status is named at the end when its lower-cased text contains "resolve". */
  predicate Resolved(status: Value) {
    status.Str? && Contains(Lower(status.s), "resolve")
  }

  /** The note about a resolved status. */
  function StatusNote(status: Value): string {
    if Resolved(status) then " [Status: " + status.s + "]" else ""
  }

  /**
   * `generate_summary`: a truthy status that is not a string has no
   * `lower()` and raises; the result is stripped of surrounding white space.
   */
  function GenerateSummary(issue: CleanIssue): (r: Result<string>)
    ensures r.Raised? <==> Truthy(issue.status) && !issue.status.Str?
    ensures r.Ok? && r.value != [] ==> !IsSpace(r.value[0]) && !IsSpace(r.value[|r.value| - 1])
  {
    if Truthy(issue.status) && !issue.status.Str? then Raised
    else Ok(Strip(SummaryBase(issue) + StatusNote(issue.status)))
  }

  /** The suffix of `s` of length `n`. */
  function Tail(s: string, n: nat): string
    requires n <= |s|
  {
    s[|s| - n..]
  }

  /** A title without surrounding white space starts the summary. */
  lemma SummaryStartsWithTitle(issue: CleanIssue)
    requires issue.status.Str? || !Truthy(issue.status)
    requires issue.title != [] && !IsSpace(issue.title[0]) && !IsSpace(issue.title[|issue.title| - 1])
    ensures issue.title <= GenerateSummary(issue).value
  {
    var title, more, note := issue.title, Elaboration(issue.description), StatusNote(issue.status);
    assert SummaryBase(issue) == title + more;
    assert GenerateSummary(issue).value == Strip((title + more) + note);
    AppendAssoc(title, more, note);
    StripKeepsHead(title, more + note);
  }

  /** A status mentioning "resolve" ends the summary as "[Status: <status>]". */
  lemma SummaryEndsWithResolvedStatus(issue: CleanIssue)
    requires Resolved(issue.status)
    ensures var note, r := "[Status: " + issue.status.s + "]", GenerateSummary(issue);
            r.Ok? && |note| <= |r.value| && Tail(r.value, |note|) == note
  {
    var note := "[Status: " + issue.status.s + "]";
    var full := SummaryBase(issue) + StatusNote(issue.status);
    assert StatusNote(issue.status) == " " + note;
    AppendAssoc(SummaryBase(issue), " ", note);
    assert full == (SummaryBase(issue) + " ") + note;
    StripKeepsTail(SummaryBase(issue) + " ", note);
    assert GenerateSummary(issue) == Ok(Strip(full));
  }

  /** The summary is at most the title plus 152 characters, or 200 without a title, plus the status note. */
  lemma SummaryLength(issue: CleanIssue)
    requires issue.status.Str? || !Truthy(issue.status)
    ensures |GenerateSummary(issue).value| <=
              (if |issue.title| > 0 then |issue.title| + 152 else 200)
              + (if Resolved(issue.status) then |issue.status.s| + 11 else 0)
  {
    assert |SummaryBase(issue)| <= (if |issue.title| > 0 then |issue.title| + 152 else 200);
  }

  /**
   * A title with a description of 1 to 199 characters: the title, ". " and
   * the description's first 150 characters, then the status note.
   */
  lemma SummaryOfTitleAndShortDescription(issue: CleanIssue)
    requires issue.status.Str? || !Truthy(issue.status)
    requires issue.title != [] && 0 < |issue.description| < 200
    ensures GenerateSummary(issue)
            == Ok(Strip(issue.title + ". " + Prefix(issue.description, 150) + StatusNote(issue.status)))
  {
    AppendAssoc(issue.title, ". ", Prefix(issue.description, 150));
  }

  /** A title with no description, or one of 200 characters or more: the title alone, then the status note. */
  lemma SummaryOfTitleOnly(issue: CleanIssue)
    requires issue.status.Str? || !Truthy(issue.status)
    requires issue.title != [] && (issue.description == [] || |issue.description| >= 200)
    ensures GenerateSummary(issue) == Ok(Strip(issue.title + StatusNote(issue.status)))
  {
    assert Elaboration(issue.description) == "";
    assert issue.title + "" == issue.title;
    assert SummaryBase(issue) == issue.title;
  }

  /** No title: the description's first 200 characters, then the status note. */
  lemma SummaryOfDescriptionOnly(issue: CleanIssue)
    requires issue.status.Str? || !Truthy(issue.status)
    requires issue.title == [] && issue.description != []
    ensures GenerateSummary(issue) == Ok(Strip(Prefix(issue.description, 200) + StatusNote(issue.status)))
  {
  }

  /** Neither title nor description: a fixed text, then the status note. */
  lemma SummaryOfEmptyIssue(issue: CleanIssue)
    requires issue.status.Str? || !Truthy(issue.status)
    requires issue.title == [] && issue.description == []
    ensures GenerateSummary(issue) == Ok(Strip("No description available" + StatusNote(issue.status)))
  {
    assert SummaryBase(issue) == "No description available";
  }

  /** The fixed text has no surrounding white space. */
  lemma NoDescriptionStripped()
    ensures Strip("No description available") == "No description available"
  {
    var text := "No description available";
    assert !IsSpace(text[0]) && !IsSpace(text[|text| - 1]);
  }

  /** Neither title nor description, and no resolved status: exactly the fixed text. */
  lemma SummaryOfEmptyUnresolvedIssue(issue: CleanIssue)
    requires issue.status.Str? || !Truthy(issue.status)
    requires issue.title == [] && issue.description == [] && !Resolved(issue.status)
    ensures GenerateSummary(issue) == Ok("No description available")
  {
    var text := "No description available";
    SummaryOfEmptyIssue(issue);
    assert text + StatusNote(issue.status) == text;
    NoDescriptionStripped();
  }

  // ---------------------------------------------------------------------------
  // generate_qna
  // ---------------------------------------------------------------------------

  /** One `{'question': ..., 'answer': ...}` pair; the status answer keeps its JSON value. */
  datatype QnA = QnA(question: string, answer: Value)

  const ResolutionWords: seq<string> := ["fixed", "resolved", "merged", "closed"]

  /** A comment whose lower-cased body mentions fixing, resolving, merging or closing. */
  predicate IsResolution(c: Comment) {
    AnyIn(ResolutionWords, Lower(c.body))
  }

  function ResolutionTest(): Comment -> bool {
    (c: Comment) => IsResolution(c)
  }

  /** The list comprehension that keeps the resolution comments, in order. */
  function Resolutions(comments: seq<Comment>): seq<Comment> {
    Filter(ResolutionTest(), comments)
  }

  /** The pairs about the title, the description (cut to 500 characters) and a truthy status. */
  function BasicPairs(key: string, issue: CleanIssue): seq<QnA> {
    (if |issue.title| > 0 then [QnA("What is the issue in " + key + "?", Str(issue.title))] else [])
    + (if |issue.description| > 0
       then [QnA("What is the description of " + key + "?", Str(Prefix(issue.description, 500)))] else [])
    + (if Truthy(issue.status) then [QnA("What is the status of " + key + "?", issue.status)] else [])
  }

  /** The pair about the latest resolution comment (cut to 300 characters), if there is one. */
  function ResolutionPair(key: string, resolutions: seq<Comment>): seq<QnA> {
    if |resolutions| > 0
    then [QnA("How was " + key + " resolved?", Str(Prefix(resolutions[|resolutions| - 1].body, 300)))]
    else []
  }

  /** The pairs `generate_qna` appends, in the order it appends them. */
  function Qna(repr: Repr, issue: CleanIssue): seq<QnA> {
    var key := Display(repr, issue.issueKey);
    BasicPairs(key, issue) + ResolutionPair(key, Resolutions(issue.comments))
  }

  /** `generate_qna`: appends the pairs one by one and filters the comments in a loop. */
  method GenerateQna(repr: Repr, issue: CleanIssue) returns (qna: seq<QnA>)
    ensures qna == Qna(repr, issue)
  {
    var key := Display(repr, issue.issueKey);
    qna := [];
    if |issue.title| > 0 {
      qna := qna + [QnA("What is the issue in " + key + "?", Str(issue.title))];
    }
    if |issue.description| > 0 {
      qna := qna + [QnA("What is the description of " + key + "?", Str(Prefix(issue.description, 500)))];
    }
    if Truthy(issue.status) {
      qna := qna + [QnA("What is the status of " + key + "?", issue.status)];
    }
    assert qna == BasicPairs(key, issue);
    var keep := ResolutionTest();
    var resolutions: seq<Comment> := [];
    var i := 0;
    while i < |issue.comments|
      invariant 0 <= i <= |issue.comments|
      invariant resolutions == Filter(keep, issue.comments[..i])
    {
      FilterStep(keep, issue.comments, i);
      if keep(issue.comments[i]) {
        resolutions := resolutions + [issue.comments[i]];
      }
      i := i + 1;
    }
    assert issue.comments[..i] == issue.comments;
    if |resolutions| > 0 {
      var latest := resolutions[|resolutions| - 1];
      qna := qna + [QnA("How was " + key + " resolved?", Str(Prefix(latest.body, 300)))];
    }
  }

  /** At most four pairs: one each for a title, a description, a truthy status and a resolution comment. */
  lemma QnaCount(repr: Repr, issue: CleanIssue)
    ensures |Qna(repr, issue)| ==
              (if |issue.title| > 0 then 1 else 0) + (if |issue.description| > 0 then 1 else 0)
              + (if Truthy(issue.status) then 1 else 0)
              + (if exists i :: 0 <= i < |issue.comments| && IsResolution(issue.comments[i]) then 1 else 0)
    ensures |Qna(repr, issue)| <= 4
  {
    FilterLast(ResolutionTest(), issue.comments);
  }

  /** The resolution pair answers with the first 300 characters of the last resolution comment. */
  lemma ResolutionAnswer(repr: Repr, issue: CleanIssue, i: nat)
    requires i < |issue.comments| && IsResolution(issue.comments[i])
    requires forall j :: i < j < |issue.comments| ==> !IsResolution(issue.comments[j])
    ensures var qna := Qna(repr, issue);
            qna != [] && qna[|qna| - 1] ==
              QnA("How was " + Display(repr, issue.issueKey) + " resolved?", Str(Prefix(issue.comments[i].body, 300)))
  {
    FilterLast(ResolutionTest(), issue.comments);
  }

  // ---------------------------------------------------------------------------
  // add_derived_tasks
  // ---------------------------------------------------------------------------

  datatype Tasks = Tasks(summarization: string, classification: string, qna: seq<QnA>)

  /** The three tasks, computed in the source's order; a summary that raises stops the rest. */
  function DerivedTasksOf(repr: Repr, issue: CleanIssue): (r: Result<Tasks>)
    ensures r.Raised? <==> GenerateSummary(issue).Raised?
    ensures r.Ok? ==> r.value.classification in Labels && |r.value.qna| <= 4
  {
    QnaCount(repr, issue);
    var summary :- GenerateSummary(issue);
    Ok(Tasks(summary, ClassifyIssue(issue), Qna(repr, issue)))
  }

  function QnaJson(p: QnA): Value {
    Obj(map["question" := Str(p.question), "answer" := p.answer])
  }

  /** The `derived_tasks` dict. */
  function TasksJson(t: Tasks): Value {
    Obj(map["summarization" := Str(t.summarization), "classification" := Str(t.classification),
            "qna" := Arr(seq(|t.qna|, i requires 0 <= i < |t.qna| => QnaJson(t.qna[i])))])
  }

  /** `fields` holds every key of `json` with the same value. */
  ghost predicate Keeps(fields: map<string, Value>, json: map<string, Value>) {
    forall k :: k in json ==> k in fields && fields[k] == json[k]
  }

  /** Setting a key that `json` does not have keeps `json`'s keys. */
  lemma KeepsUpdate(fields: map<string, Value>, json: map<string, Value>, k: string, v: Value)
    requires Keeps(fields, json) && k !in json
    ensures Keeps(fields[k := v], json)
  {
  }

  /** A cleaned issue's dict has no `derived_tasks` key of its own. */
  lemma DerivedKeyIsNew(c: CleanIssue)
    ensures "derived_tasks" !in IssueJson(c)
  {
  }

  /** A cleaned issue's dict, which `add_derived_tasks` updates in place. */
  class IssueRecord {
    /** The cleaned issue the dict was written from. */
    const issue: CleanIssue
    var fields: map<string, Value>

    /** Every field of the cleaned issue is still present with its value. */
    ghost predicate Valid()
      reads this
    {
      Keeps(fields, IssueJson(issue))
    }

    constructor(issue: CleanIssue)
      ensures this.issue == issue && fields == IssueJson(issue) && Valid()
    {
      this.issue := issue;
      fields := IssueJson(issue);
    }

    /**
     * `add_derived_tasks`: stores the tasks under `derived_tasks` and
     * changes no other key; when the summary raises the dict is untouched.
     */
    method AddDerivedTasks(repr: Repr) returns (r: Result<Tasks>)
      requires Valid()
      modifies this
      ensures Valid()
      ensures r == DerivedTasksOf(repr, issue)
      ensures r.Ok? ==> fields == old(fields)["derived_tasks" := TasksJson(r.value)]
      ensures r.Raised? ==> fields == old(fields)
    {
      var summary := GenerateSummary(issue);
      if summary.Raised? {
        return Raised;
      }
      var classification := ClassifyIssue(issue);
      var qna := GenerateQna(repr, issue);
      var tasks := Tasks(summary.value, classification, qna);
      DerivedKeyIsNew(issue);
      KeepsUpdate(fields, IssueJson(issue), "derived_tasks", TasksJson(tasks));
      fields := fields["derived_tasks" := TasksJson(tasks)];
      return Ok(tasks);
    }
  }
}
