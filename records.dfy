/**
 * The rows the board mirrors from the remote store, and the values its forms build.
 * Field names follow the store's columns (`assigned_to` is `assignedTo`, and so on).
 */
module Records {
  import opened Wrappers
  import opened Text

  /** A signed-in identity. */
  datatype User = User(id: string, email: string)

  /** A `profiles` row; `nickname` may be missing until the setup step has run. */
  datatype Profile = Profile(id: string, nickname: Option<string>, statusMessage: Option<string>)

  /** The row written by the profile setup and edit forms. */
  datatype ProfileRow = ProfileRow(id: string, nickname: string, statusMessage: string)

  /** A `projects` row. */
  datatype Project = Project(id: string, name: string, sortOrder: int)

  /** A `project_members` row with the member's joined profile fields. */
  datatype Member = Member(userId: string, role: string, nickname: Option<string>)

  /** An entry of a task's embedded `subtasks` list; it has no identity but its position. */
  datatype Subtask = Subtask(
    text: string,
    completed: bool,
    assignedTo: string,
    dueDate: Option<string>,
    linkUrl: Option<string>)

  /**
   * A `todos` row. The store may name the title column `text` or `title`, so both are kept.
   * A missing `subtasks` column is the empty list.
   */
  datatype Task = Task(
    id: string,
    projectId: string,
    text: Option<string>,
    title: Option<string>,
    assignedTo: string,
    dueDate: Option<string>,
    linkUrl: Option<string>,
    sortOrder: int,
    completed: bool,
    subtasks: seq<Subtask>)

  /** The object passed to `updateTask`: each present field overwrites the task's. */
  datatype Patch = Patch(
    text: Option<string>,
    title: Option<string>,
    assignedTo: Option<string>,
    dueDate: Option<string>,
    linkUrl: Option<string>,
    completed: Option<bool>,
    subtasks: Option<seq<Subtask>>)

  /** The patch sent by a task's check mark. */
  const CompletionPatch := Patch(None, None, None, None, None, Some(true), None)

  /** The patch sent while the title field is edited: both title columns at once. */
  function TitlePatch(v: string): Patch {
    Patch(Some(v), Some(v), None, None, None, None, None)
  }

  /** The patch that rewrites a task's whole subtask list. */
  function SubtasksPatch(subs: seq<Subtask>): Patch {
    Patch(None, None, None, None, None, None, Some(subs))
  }

  /** `{ ...t, ...p }`: the object spread of a patch over a task. */
  function ApplyPatch(t: Task, p: Patch): Task {
    Task(
      t.id,
      t.projectId,
      if p.text.Some? then p.text else t.text,
      if p.title.Some? then p.title else t.title,
      p.assignedTo.GetOr(t.assignedTo),
      if p.dueDate.Some? then p.dueDate else t.dueDate,
      if p.linkUrl.Some? then p.linkUrl else t.linkUrl,
      t.sortOrder,
      p.completed.GetOr(t.completed),
      p.subtasks.GetOr(t.subtasks))
  }

  /** Spreading the same patch twice is spreading it once, and a patch never touches the id. */
  lemma ApplyPatchIdempotent(t: Task, p: Patch)
    ensures ApplyPatch(ApplyPatch(t, p), p) == ApplyPatch(t, p)
    ensures ApplyPatch(t, p).id == t.id
  {
  }

  /**
   * A pending subtask draft, one per task. `text` is missing when the draft was
   * created by the assignee picker, which starts from an empty object.
   */
  datatype Draft = Draft(text: Option<string>, assignee: string, due: string, url: string)

  /** The draft used when a task has none, and the one a successful add leaves behind. */
  const EmptyDraft := Draft(Some(""), "", "", "")

  /** The subtask built from a draft with text; the assignee defaults to the current user. */
  function NewSubtask(d: Draft, currentUser: string): (s: Subtask)
    requires d.text.Some?
    ensures s.text == d.text.value && !s.completed
    ensures s.assignedTo == (if d.assignee == "" then currentUser else d.assignee)
    ensures s.dueDate == OrNull(d.due) && s.linkUrl == OrNull(d.url)
  {
    Subtask(d.text.value, false, OrElse(d.assignee, currentUser), OrNull(d.due), OrNull(d.url))
  }

  /** Which title column an insert writes. */
  datatype TitleColumn = TextColumn | TitleColumn

  /** The row `addTask` inserts. */
  datatype TaskInsert = TaskInsert(
    projectId: string,
    assignedTo: string,
    dueDate: Option<string>,
    linkUrl: Option<string>,
    sortOrder: nat,
    completed: bool,
    subtasks: seq<Subtask>,
    column: TitleColumn,
    title: string)
}
