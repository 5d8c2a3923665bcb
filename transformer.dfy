/**
 * `JiraTransformer` of src/transformer.py: raw Jira issues (JSON values) to
 * cleaned issue records. HTML cleaning and Python's `str()` are parameters.
 * A raised exception is `Raised`; `transform_issue` turns the exceptions of
 * a dict issue into None.
 */
module Transformer {
  import opened Wrappers
  import opened Json
  import opened Text
  import opened Lists

  /** `clean_html` on a truthy value: the text it extracts, or Raised for a value the parser rejects. */
  type Html = Value -> Result<string>

  /** `clean_html(v) if v else ''`. */
  function CleanIfTruthy(html: Html, v: Value): (text: Result<string>)
    ensures !Truthy(v) ==> text == Ok("")
    ensures Truthy(v) ==> text == html(v)
  {
    if Truthy(v) then html(v) else Ok("")
  }

  /** `key in container` for a string key: dict keys, list elements or substrings; Raised for other values. */
  function PyIn(key: string, container: Value): (r: Result<bool>)
    ensures r.Raised? <==> !(container.Obj? || container.Arr? || container.Str?)
    ensures container.Obj? ==> r == Ok(key in container.fields)
    ensures container.Arr? ==> r == Ok(Str(key) in container.items)
    ensures container.Str? ==> r == Ok(Contains(container.s, key))
  {
    match container
    case Obj(fields) => Ok(key in fields)
    case Arr(items) => Ok(Str(key) in items)
    case Str(s) => Ok(Contains(s, key))
    case _ => Raised
  }

  /** `c in s` for a one-character key asks whether the character occurs in the string. */
  lemma PyInChar(c: char, s: string)
    ensures PyIn([c], Str(s)) == Ok(c in s)
  {
    ContainsChar(s, c);
  }

  /** `issue.get('fields', {})`. */
  function FieldsOf(issue: map<string, Value>): Value {
    GetOr(issue, "fields", Obj(map[]))
  }

  /** `value.get('name') or value.get('displayName') or value.get('key')` on a dict. */
  function Collapse(value: map<string, Value>): Value {
    Or(Or(Get(value, "name"), Get(value, "displayName")), Get(value, "key"))
  }

  /**
   * `extract_field_value(issue, key, default)`: the default when `fields`
   * lacks the key; a dict value collapsed to its name, display name or key;
   * any other value as it is. `fields` that is not a dict raises unless `in`
   * finds no such key in it.
   */
  function ExtractFieldValue(issue: map<string, Value>, fieldKey: string, default: Value): (r: Result<Value>)
    ensures FieldsOf(issue).Obj? && fieldKey !in FieldsOf(issue).fields ==> r == Ok(default)
    ensures FieldsOf(issue).Obj? && fieldKey in FieldsOf(issue).fields ==>
              var value := FieldsOf(issue).fields[fieldKey];
              r == Ok(if value.Obj? then Collapse(value.fields) else value)
    ensures !FieldsOf(issue).Obj? ==> (r.Raised? <==> PyIn(fieldKey, FieldsOf(issue)) != Ok(false))
    ensures !FieldsOf(issue).Obj? && r.Ok? ==> r == Ok(default)
  {
    var fields := FieldsOf(issue);
    var present :- PyIn(fieldKey, fields);
    if !present then Ok(default)
    else if !fields.Obj? then Raised
    else
      var value := fields.fields[fieldKey];
      if value.Obj? then Ok(Collapse(value.fields))
      else Ok(value)
  }

  /**
   * The branch for a status-like dict after the collapse never runs on a
   * field value: a dict comes back only as the default or as a dict nested
   * under the field's `name`, `displayName` or `key`.
   */
  lemma ExtractedDictIsNested(issue: map<string, Value>, fieldKey: string, default: Value)
    requires var r := ExtractFieldValue(issue, fieldKey, default); r.Ok? && r.value.Obj?
    ensures var r := ExtractFieldValue(issue, fieldKey, default);
            || r.value == default
            || (var fields := FieldsOf(issue);
                && fields.Obj? && fieldKey in fields.fields && fields.fields[fieldKey].Obj?
                && var value := fields.fields[fieldKey].fields;
                && r.value in [Get(value, "name"), Get(value, "displayName"), Get(value, "key")])
  {
  }

  /** The elements `for x in v` yields where each is used as a dict; a non-empty dict or string yields strings, on which `.get` raises. */
  function DictItems(v: Value): (r: Result<seq<Value>>)
    ensures v.Arr? ==> r == Ok(v.items)
    ensures r.Ok? && !v.Arr? ==> r.value == []
  {
    match v
    case Arr(items) => Ok(items)
    case Obj(fields) => if |fields| == 0 then Ok([]) else Raised
    case Str(s) => if |s| == 0 then Ok([]) else Raised
    case _ => Raised
  }

  // ---------------------------------------------------------------------------
  // Comments
  // ---------------------------------------------------------------------------

  /** A kept comment: its author and its cleaned, non-empty body. */
  datatype Comment = Comment(author: Value, body: string)

  /**
   * One turn of the comment loop: Raised when the comment or its `author`
   * is not a dict; None when the body is falsy or cleans to ""; otherwise the
   * author (name, else display name, else "Unknown") and the cleaned body.
   */
  function ConvertComment(html: Html, comment: Value): (r: Result<Option<Comment>>)
    ensures r.Ok? && r.value.Some? ==> |r.value.value.body| > 0 && Truthy(r.value.value.author)
    ensures r.Raised? <==>
              || !comment.Obj?
              || !GetOr(comment.fields, "author", Obj(map[])).Obj?
              || CleanIfTruthy(html, GetOr(comment.fields, "body", Str(""))).Raised?
    ensures r.Ok? ==> (r.value.Some? <==> CleanIfTruthy(html, GetOr(comment.fields, "body", Str(""))).value != [])
    ensures r.Ok? && r.value.Some? ==>
              var author := GetOr(comment.fields, "author", Obj(map[])).fields;
              && r.value.value.body == CleanIfTruthy(html, GetOr(comment.fields, "body", Str(""))).value
              && r.value.value.author == (if Truthy(Get(author, "name")) then Get(author, "name")
                                          else if Truthy(Get(author, "displayName")) then Get(author, "displayName")
                                          else Str("Unknown"))
  {
    if !comment.Obj? then Raised
    else
      var authorInfo := GetOr(comment.fields, "author", Obj(map[]));
      if !authorInfo.Obj? then Raised
      else
        var author := Or(Or(Get(authorInfo.fields, "name"), Get(authorInfo.fields, "displayName")), Str("Unknown"));
        var body :- CleanIfTruthy(html, GetOr(comment.fields, "body", Str("")));
        Ok(if |body| > 0 then Some(Comment(author, body)) else None)
  }

  function Converter(html: Html): Value -> Result<Option<Comment>> {
    (comment: Value) => ConvertComment(html, comment)
  }

  /** The list the comment loop walks, or Ok([]) when `extract_comments` returns early. */
  function CommentList(issue: map<string, Value>): Result<seq<Value>> {
    var field :- ExtractFieldValue(issue, "comment", Null);
    if Truthy(field) && field.Obj? then DictItems(GetOr(field.fields, "comments", Arr([])))
    else if field.Arr? then Ok(field.items)
    else Ok([])
  }

  /** `extract_comments(issue)`. */
  function CommentsOf(html: Html, issue: map<string, Value>): Result<seq<Comment>> {
    var items :- CommentList(issue);
    FilterMap(Converter(html), items)
  }

  /** `extract_comments`: walk the comment list and keep the comments with a non-empty cleaned body. */
  method ExtractComments(html: Html, issue: map<string, Value>) returns (r: Result<seq<Comment>>)
    ensures r == CommentsOf(html, issue)
  {
    var items := CommentList(issue);
    if items.Raised? {
      return Raised;
    }
    var commentList := items.value;
    var comments: seq<Comment> := [];
    var i := 0;
    while i < |commentList|
      invariant 0 <= i <= |commentList|
      invariant FilterMap(Converter(html), commentList[..i]) == Ok(comments)
    {
      var c := Converter(html)(commentList[i]);
      FilterMapStep(Converter(html), commentList, i, comments);
      if c.Raised? {
        FilterMapRaises(Converter(html), commentList, i);
        return Raised;
      }
      if c.value.Some? {
        comments := comments + [c.value.value];
      }
      i := i + 1;
    }
    assert commentList[..i] == commentList;
    r := Ok(comments);
  }

  /**
   * The comments kept are in input order: the outcome on a list is the
   * outcome on its first part followed by the outcome on the rest. Each
   * kept comment has a non-empty body and a truthy author, and there are
   * no more of them than comments in the list.
   */
  lemma CommentsKept(html: Html, first: seq<Value>, rest: seq<Value>)
    ensures FilterMap(Converter(html), first + rest)
            == Join(FilterMap(Converter(html), first), FilterMap(Converter(html), rest))
    ensures var kept := FilterMap(Converter(html), first + rest);
            kept.Ok? ==> |kept.value| <= |first + rest|
                         && forall c :: c in kept.value ==> |c.body| > 0 && Truthy(c.author)
  {
    FilterMapAppend(Converter(html), first, rest);
    FilterMapBounds(Converter(html), first + rest);
    var kept := FilterMap(Converter(html), first + rest);
    if kept.Ok? {
      forall c | c in kept.value
        ensures |c.body| > 0 && Truthy(c.author)
      {
        var i :| 0 <= i < |first + rest| && Converter(html)((first + rest)[i]) == Ok(Some(c));
        assert ConvertComment(html, (first + rest)[i]) == Ok(Some(c));
      }
    }
  }

  /**
   * No comment with a body is lost: when the loop does not raise, every
   * comment whose body cleans to a non-empty text is converted and kept.
   */
  lemma BodiedCommentsKept(html: Html, items: seq<Value>)
    requires FilterMap(Converter(html), items).Ok?
    ensures forall i :: 0 <= i < |items| && items[i].Obj?
                        && CleanIfTruthy(html, GetOr(items[i].fields, "body", Str(""))) != Ok("") ==>
              var c := ConvertComment(html, items[i]);
              c.Ok? && c.value.Some? && c.value.value in FilterMap(Converter(html), items).value
  {
    FilterMapBounds(Converter(html), items);
    forall i | 0 <= i < |items| && items[i].Obj? && CleanIfTruthy(html, GetOr(items[i].fields, "body", Str(""))) != Ok("")
      ensures var c := ConvertComment(html, items[i]);
              c.Ok? && c.value.Some? && c.value.value in FilterMap(Converter(html), items).value
    {
      assert Converter(html)(items[i]) == ConvertComment(html, items[i]);
      FilterMapKeeps(Converter(html), items, i);
    }
  }

  /**
   * A Jira comment field is a dict with `comments`, `maxResults` and
   * `total` but no `name`, `displayName` or `key`; the collapse turns it into
   * None and `extract_comments` returns no comments.
   */
  lemma JiraCommentFieldGivesNoComments(html: Html, issue: map<string, Value>)
    requires FieldsOf(issue).Obj? && "comment" in FieldsOf(issue).fields
    requires var field := FieldsOf(issue).fields["comment"];
             field.Obj? && "name" !in field.fields && "displayName" !in field.fields && "key" !in field.fields
    ensures CommentsOf(html, issue) == Ok([])
  {
  }

  // ---------------------------------------------------------------------------
  // Labels, project, issue
  // ---------------------------------------------------------------------------

  /** `extract_labels`: the labels list, or [] for any value that is not a list. */
  function ExtractLabels(issue: map<string, Value>): (r: Result<seq<Value>>)
    ensures r.Raised? <==> ExtractFieldValue(issue, "labels", Arr([])).Raised?
    ensures r.Ok? && ExtractFieldValue(issue, "labels", Arr([])).value.Arr? ==>
              r.value == ExtractFieldValue(issue, "labels", Arr([])).value.items
    ensures r.Ok? && !ExtractFieldValue(issue, "labels", Arr([])).value.Arr? ==> r.value == []
  {
    var labels :- ExtractFieldValue(issue, "labels", Arr([]));
    if labels.Arr? then Ok(labels.items) else Ok([])
  }

  /**
   * `key.split('-')[0] if '-' in key else 'Unknown'`: never contains '-';
   * Raised when the key is not a string and `in` finds '-' in it or rejects it.
   */
  function ProjectOf(key: Value): (r: Result<string>)
    ensures r.Ok? ==> '-' !in r.value
    ensures key.Str? ==> r.Ok?
  {
    var hasDash :- PyIn("-", key);
    if !hasDash then Ok("Unknown")
    else if key.Str? then Ok(BeforeFirst(key.s, '-'))
    else Raised
  }

  /** For a string key the project is the part before the first '-', or "Unknown" when there is no '-'. */
  lemma ProjectOfKey(key: string)
    ensures '-' in key ==> ProjectOf(Str(key)).value + "-" <= key
    ensures '-' !in key ==> ProjectOf(Str(key)) == Ok("Unknown")
  {
    ContainsChar(key, '-');
  }

  /** `x.get('name') if isinstance(x, dict) else str(x) if x else 'Unknown'` for status and priority. */
  function NameOrText(repr: Repr, v: Value): (r: Value)
    ensures !v.Obj? ==> r.Str?
    ensures v.Obj? ==> r == Get(v.fields, "name")
    ensures !v.Obj? && Truthy(v) ==> r == Str(Display(repr, v))
    ensures !v.Obj? && !Truthy(v) ==> r == Str("Unknown")
  {
    if v.Obj? then Get(v.fields, "name")
    else if Truthy(v) then Str(Display(repr, v))
    else Str("Unknown")
  }

  /** The cleaned issue `transform_issue` builds. */
  datatype CleanIssue = CleanIssue(
    issueKey: Value,
    project: string,
    title: string,
    description: string,
    status: Value,
    priority: Value,
    reporter: Value,
    assignee: Value,
    created: Value,
    updated: Value,
    labels: seq<Value>,
    comments: seq<Comment>)

  /** A comment as the dict `{'author': ..., 'body': ...}` written out. */
  function CommentJson(c: Comment): Value {
    Obj(map["author" := c.author, "body" := Str(c.body)])
  }

  /** The dict `transform_issue` returns, as it is written to the processed files. */
  function IssueJson(c: CleanIssue): map<string, Value> {
    map["issue_key" := c.issueKey, "project" := Str(c.project), "title" := Str(c.title),
        "description" := Str(c.description), "status" := c.status, "priority" := c.priority,
        "reporter" := c.reporter, "assignee" := c.assignee, "created" := c.created,
        "updated" := c.updated, "labels" := Arr(c.labels),
        "comments" := Arr(seq(|c.comments|, i requires 0 <= i < |c.comments| => CommentJson(c.comments[i])))]
  }

  /**
   * The body of `transform_issue`'s `try` for a dict issue with a truthy
   * key: Raised when any of the extractions raises, since which exception
   * it is does not matter here.
   */
  function BuildIssue(html: Html, repr: Repr, issue: map<string, Value>, key: Value): (r: Result<CleanIssue>)
    ensures r.Ok? ==>
              && r.value.issueKey == key
              && ProjectOf(key) == Ok(r.value.project)
              && ExtractFieldValue(issue, "summary", Str("")).Ok?
              && CleanIfTruthy(html, ExtractFieldValue(issue, "summary", Str("")).value) == Ok(r.value.title)
              && ExtractFieldValue(issue, "description", Str("")).Ok?
              && CleanIfTruthy(html, ExtractFieldValue(issue, "description", Str("")).value) == Ok(r.value.description)
    ensures r.Ok? ==>
              && ExtractFieldValue(issue, "status", Null).Ok?
              && r.value.status == NameOrText(repr, ExtractFieldValue(issue, "status", Null).value)
              && ExtractFieldValue(issue, "priority", Null).Ok?
              && r.value.priority == NameOrText(repr, ExtractFieldValue(issue, "priority", Null).value)
    ensures r.Ok? ==>
              && ExtractFieldValue(issue, "created", Str("")) == Ok(r.value.created)
              && ExtractFieldValue(issue, "updated", Str("")) == Ok(r.value.updated)
              && ExtractLabels(issue) == Ok(r.value.labels)
              && CommentsOf(html, issue) == Ok(r.value.comments)
  {
    var summary := ExtractFieldValue(issue, "summary", Str(""));
    var description := ExtractFieldValue(issue, "description", Str(""));
    var status := ExtractFieldValue(issue, "status", Null);
    var priority := ExtractFieldValue(issue, "priority", Null);
    var reporter := ExtractFieldValue(issue, "reporter", Str("Unknown"));
    var assignee := ExtractFieldValue(issue, "assignee", Str("Unassigned"));
    var created := ExtractFieldValue(issue, "created", Str(""));
    var updated := ExtractFieldValue(issue, "updated", Str(""));
    if summary.Raised? || description.Raised? || status.Raised? || priority.Raised?
       || reporter.Raised? || assignee.Raised? || created.Raised? || updated.Raised? then Raised
    else
      var title := CleanIfTruthy(html, summary.value);
      var text := CleanIfTruthy(html, description.value);
      var project := ProjectOf(key);
      var comments := CommentsOf(html, issue);
      var labels := ExtractLabels(issue);
      if title.Raised? || text.Raised? || project.Raised? || comments.Raised? || labels.Raised? then Raised
      else
        Ok(CleanIssue(key, project.value, title.value, text.value,
                      NameOrText(repr, status.value), NameOrText(repr, priority.value),
                      Or(reporter.value, Str("Unknown")), Or(assignee.value, Str("Unassigned")),
                      created.value, updated.value, labels.value, comments.value))
  }

  /** `issue.get('key', '')`. */
  function KeyOf(issue: map<string, Value>): Value {
    GetOr(issue, "key", Str(""))
  }

  /**
   * `transform_issue`: None for a falsy key or when building the record
   * raises. An issue that is not a dict raises out of the exception handler
   * itself, which calls `issue.get` again.
   */
  function TransformIssue(html: Html, repr: Repr, issue: Value): (r: Result<Option<CleanIssue>>)
    ensures r.Raised? <==> !issue.Obj?
    ensures issue.Obj? && !Truthy(KeyOf(issue.fields)) ==> r == Ok(None)
    ensures r.Ok? && r.value.Some? ==>
              var c := r.value.value;
              && c.issueKey == KeyOf(issue.fields) && Truthy(c.issueKey)
              && Truthy(c.reporter) && Truthy(c.assignee)
    ensures issue.Obj? && Truthy(KeyOf(issue.fields)) ==>
              (r.Ok? && r.value.Some? <==> BuildIssue(html, repr, issue.fields, KeyOf(issue.fields)).Ok?)
  {
    if !issue.Obj? then Raised
    else
      var key := KeyOf(issue.fields);
      if !Truthy(key) then Ok(None)
      else
        match BuildIssue(html, repr, issue.fields, key)
        case Raised => Ok(None)
        case Ok(c) => Ok(Some(c))
  }

  /**
   * What a record holds: the key, its project, the cleaned summary and
   * description, the status and priority names, the dates, the labels and
   * the comments extracted from the issue.
   */
  lemma RecordContents(html: Html, repr: Repr, issue: map<string, Value>)
    requires var r := TransformIssue(html, repr, Obj(issue)); r.Ok? && r.value.Some?
    ensures var c := TransformIssue(html, repr, Obj(issue)).value.value;
            && c.issueKey == KeyOf(issue)
            && c.project == ProjectOf(c.issueKey).value
            && c.title == CleanIfTruthy(html, ExtractFieldValue(issue, "summary", Str("")).value).value
            && c.description == CleanIfTruthy(html, ExtractFieldValue(issue, "description", Str("")).value).value
            && c.status == NameOrText(repr, ExtractFieldValue(issue, "status", Null).value)
            && c.priority == NameOrText(repr, ExtractFieldValue(issue, "priority", Null).value)
            && c.created == ExtractFieldValue(issue, "created", Str("")).value
            && c.updated == ExtractFieldValue(issue, "updated", Str("")).value
            && c.labels == ExtractLabels(issue).value
            && c.comments == CommentsOf(html, issue).value
  {
    var b := BuildIssue(html, repr, issue, KeyOf(issue));
    assert b.Ok? && TransformIssue(html, repr, Obj(issue)).value.value == b.value;
  }

  /**
   * A dict issue whose `fields` is a dict and whose key is a non-empty
   * string always gives a record, when cleaning never fails and its comments
   * convert.
   */
  lemma WellFormedIssueGivesRecord(html: Html, repr: Repr, issue: map<string, Value>)
    requires FieldsOf(issue).Obj? && KeyOf(issue).Str? && KeyOf(issue).s != ""
    requires forall v :: html(v).Ok?
    requires CommentsOf(html, issue).Ok?
    ensures var r := TransformIssue(html, repr, Obj(issue)); r.Ok? && r.value.Some?
  {
    var key := KeyOf(issue);
    assert ProjectOf(key).Ok?;
    assert BuildIssue(html, repr, issue, key).Ok?;
  }

  function Transformer(html: Html, repr: Repr): Value -> Result<Option<CleanIssue>> {
    (issue: Value) => TransformIssue(html, repr, issue)
  }

  /** The list `transform_page` walks: `raw_data.get('issues', [])`. */
  function IssueList(rawData: Value): Result<seq<Value>> {
    if !rawData.Obj? then Raised
    else DictItems(GetOr(rawData.fields, "issues", Arr([])))
  }

  /** `transform_page(raw_data)`. */
  function TransformPageSpec(html: Html, repr: Repr, rawData: Value): Result<seq<CleanIssue>> {
    var issues :- IssueList(rawData);
    FilterMap(Transformer(html, repr), issues)
  }

  /** `transform_page`: transform every issue of the page and keep those that give a record. */
  method TransformPage(html: Html, repr: Repr, rawData: Value) returns (r: Result<seq<CleanIssue>>)
    ensures r == TransformPageSpec(html, repr, rawData)
  {
    var list := IssueList(rawData);
    if list.Raised? {
      return Raised;
    }
    var issues := list.value;
    var cleaned: seq<CleanIssue> := [];
    var i := 0;
    while i < |issues|
      invariant 0 <= i <= |issues|
      invariant FilterMap(Transformer(html, repr), issues[..i]) == Ok(cleaned)
    {
      var c := Transformer(html, repr)(issues[i]);
      FilterMapStep(Transformer(html, repr), issues, i, cleaned);
      if c.Raised? {
        FilterMapRaises(Transformer(html, repr), issues, i);
        return Raised;
      }
      if c.value.Some? {
        cleaned := cleaned + [c.value.value];
      }
      i := i + 1;
    }
    assert issues[..i] == issues;
    r := Ok(cleaned);
  }

  /**
   * The page's records are in issue order: the outcome on a list of issues
   * is the outcome on its first part followed by the outcome on the rest;
   * there are no more records than issues, and each has a truthy key.
   */
  lemma TransformedInOrder(html: Html, repr: Repr, first: seq<Value>, rest: seq<Value>)
    ensures FilterMap(Transformer(html, repr), first + rest)
            == Join(FilterMap(Transformer(html, repr), first), FilterMap(Transformer(html, repr), rest))
    ensures var kept := FilterMap(Transformer(html, repr), first + rest);
            kept.Ok? ==> |kept.value| <= |first + rest| && forall c :: c in kept.value ==> Truthy(c.issueKey)
  {
    FilterMapAppend(Transformer(html, repr), first, rest);
    FilterMapBounds(Transformer(html, repr), first + rest);
    var kept := FilterMap(Transformer(html, repr), first + rest);
    if kept.Ok? {
      forall c | c in kept.value
        ensures Truthy(c.issueKey)
      {
        var i :| 0 <= i < |first + rest| && Transformer(html, repr)((first + rest)[i]) == Ok(Some(c));
        assert TransformIssue(html, repr, (first + rest)[i]) == Ok(Some(c));
      }
    }
  }

  /** A page raises exactly when it is not a dict or one of its issues is not a dict. */
  lemma PageRaisesOnNonDict(html: Html, repr: Repr, issues: seq<Value>)
    ensures FilterMap(Transformer(html, repr), issues).Raised? <==> exists i :: 0 <= i < |issues| && !issues[i].Obj?
  {
    FilterMapBounds(Transformer(html, repr), issues);
    if exists i :: 0 <= i < |issues| && !issues[i].Obj? {
      var i :| 0 <= i < |issues| && !issues[i].Obj?;
      assert Transformer(html, repr)(issues[i]).Raised?;
    }
    if exists i :: 0 <= i < |issues| && Transformer(html, repr)(issues[i]).Raised? {
      var i :| 0 <= i < |issues| && Transformer(html, repr)(issues[i]).Raised?;
      assert !issues[i].Obj?;
    }
  }

  /**
   * A record's reporter is the extracted reporter when that is truthy and
   * "Unknown" otherwise, in particular when the field is absent; the
   * assignee likewise falls back to "Unassigned".
   */
  lemma PeopleDefaults(html: Html, repr: Repr, issue: map<string, Value>)
    requires var r := TransformIssue(html, repr, Obj(issue)); r.Ok? && r.value.Some?
    ensures var c := TransformIssue(html, repr, Obj(issue)).value.value;
            var reporter := ExtractFieldValue(issue, "reporter", Str("Unknown")).value;
            var assignee := ExtractFieldValue(issue, "assignee", Str("Unassigned")).value;
            && c.reporter == (if Truthy(reporter) then reporter else Str("Unknown"))
            && c.assignee == (if Truthy(assignee) then assignee else Str("Unassigned"))
            && (FieldsOf(issue).Obj? && "reporter" !in FieldsOf(issue).fields ==> c.reporter == Str("Unknown"))
            && (FieldsOf(issue).Obj? && "assignee" !in FieldsOf(issue).fields ==> c.assignee == Str("Unassigned"))
  {
  }
}
