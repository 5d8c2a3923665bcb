/**
 * The checkpoint store of src/utils.py: `load_json` on an abstract file,
 * `load_checkpoint` and the read-modify-write `save_checkpoint`.
 * The checkpoint document maps a project to its entry; an entry records
 * `last_fetched_page` when it has that key.
 */
module Checkpoints {
  import opened Wrappers

  /** A JSON file as `load_json` finds it on disk. */
  datatype File<T> = Missing | Malformed | Parsed(content: T)

  /** `load_json`: None for a missing file or one that is not valid JSON. */
  function LoadJson<T>(file: File<T>): (r: Option<T>)
    ensures r.None? <==> !file.Parsed?
    ensures file.Parsed? ==> r == Some(file.content)
  {
    match file
    case Parsed(content) => Some(content)
    case _ => None
  }

  /** One project's entry of the checkpoint document. */
  datatype Entry = Entry(lastFetchedPage: Option<int>)

  /** The checkpoint document: project -> entry. */
  type State = map<string, Entry>

  type CheckpointDoc = File<State>

  /**
   * `load_checkpoint`: the recorded page, or 0 when there is none to be had.
   * The source's test that the document is non-empty is implied by the
   * project being one of its keys.
   */
  function LoadCheckpoint(doc: CheckpointDoc, project: string): (page: int)
    ensures !doc.Parsed? ==> page == 0
    ensures doc.Parsed? && project !in doc.content ==> page == 0
    ensures doc.Parsed? && project in doc.content && doc.content[project].lastFetchedPage.Some?
            ==> page == doc.content[project].lastFetchedPage.value
    ensures doc.Parsed? && project in doc.content && doc.content[project].lastFetchedPage.None? ==> page == 0
  {
    match LoadJson(doc)
    case Some(state) =>
      if project in state then
        match state[project].lastFetchedPage
        case Some(last) => last
        case None => 0
      else 0
    case None => 0
  }

  /**
   * The document `save_checkpoint(project, lastPage)` writes back: the loaded
   * document (or `{}` when it cannot be loaded) with this project's page set.
   * Loading the project afterwards gives `lastPage`; every other project loads
   * as before.
   */
  function Saved(doc: CheckpointDoc, project: string, lastPage: int): (state: State)
    ensures LoadCheckpoint(Parsed(state), project) == lastPage
  {
    var state := match LoadJson(doc) case Some(s) => s case None => map[];
    state[project := Entry(Some(lastPage))]
  }

  /**
   * A checkpoint document that cannot be loaded is replaced by one holding
   * only this project; otherwise every project it held is kept.
   */
  lemma SavedKeys(doc: CheckpointDoc, project: string, lastPage: int)
    ensures !doc.Parsed? ==> Saved(doc, project, lastPage) == map[project := Entry(Some(lastPage))]
    ensures doc.Parsed? ==> Saved(doc, project, lastPage).Keys == doc.content.Keys + {project}
  {
  }

  /** Saving one project's page leaves what every other project loads unchanged. */
  lemma SaveKeepsOthers(doc: CheckpointDoc, project: string, lastPage: int, other: string)
    requires other != project
    ensures LoadCheckpoint(Parsed(Saved(doc, project, lastPage)), other) == LoadCheckpoint(doc, other)
  {
  }

  /** Saving twice for one project leaves the same document as the second save alone. */
  lemma SaveLastWins(doc: CheckpointDoc, project: string, first: int, second: int)
    ensures Saved(Parsed(Saved(doc, project, first)), project, second) == Saved(doc, project, second)
  {
  }

  /** The checkpoint file, which `save_checkpoint` rewrites in place. */
  class CheckpointFile {
    var doc: CheckpointDoc

    constructor (doc: CheckpointDoc)
      ensures this.doc == doc
    {
      this.doc := doc;
    }

    /** `save_checkpoint`: load (or start from `{}`), update this project's entry, write back. */
    method Save(project: string, lastPage: int)
      modifies this
      ensures doc == Parsed(Saved(old(doc), project, lastPage))
    {
      var state: State := match LoadJson(doc) case Some(s) => s case None => map[];
      ghost var loaded := state;
      if project !in state {
        state := state[project := Entry(None)];
      }
      state := state[project := state[project].(lastFetchedPage := Some(lastPage))];
      assert state == loaded[project := Entry(Some(lastPage))];
      doc := Parsed(state);
    }
  }
}
