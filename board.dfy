/**
 * The task board component: its state hooks as the fields of a class and its
 * event handlers as methods. Every answer of the remote store (a session, a
 * fetched row or list, an error) is a parameter of the handler that awaits it,
 * and each handler runs as one step.
 */
module Board {
  import opened Wrappers
  import opened Text
  import opened Records
  import opened TaskList
  import opened Ranking

  /** Which screen the component renders. */
  datatype AppState = Loading | Auth | NicknameSetup | Main

  /** The tab of the sign-in screen. */
  datatype AuthMode = Login | SignUp

  /** The panel of the main screen. */
  datatype ViewMode = Tasks | Log | RankingView | ProfileView | MembersView | Settings

  /** The call `handleAuth` makes to the auth service. */
  datatype AuthCall = SignUpCall(email: string, password: string) | SignInCall(email: string, password: string)

  /** The blocking messages the handlers show. */
  datatype Notice =
    | CredentialsRequired
    | SignUpFailed(message: string)
    | ConfirmationSent
    | SignInFailed(message: string)
    | NicknameRequired
    | SaveFailed(message: string)
    | ProfileSaved

  /** The three lists a project's detail view loads; a missing list is empty. */
  datatype ProjectView = ProjectView(open: Option<seq<Task>>, done: Option<seq<Task>>, members: Option<seq<Member>>)

  /** The remote write of `addQuickSubTask`: the task's whole new subtask list. */
  datatype SubtaskWrite = SubtaskWrite(taskId: string, subtasks: seq<Subtask>)

  /** `prof?.nickname` is truthy: a profile with a non-empty nickname. */
  predicate HasNickname(prof: Option<Profile>) {
    prof.Some? && prof.value.nickname.Some? && prof.value.nickname.value != ""
  }

  /** The draft of a task, or the empty one when it has none. */
  function DraftFor(m: map<string, Draft>, taskId: string): (d: Draft)
    ensures taskId !in m ==> d == EmptyDraft
    ensures taskId in m ==> d == m[taskId]
  {
    if taskId in m then m[taskId] else EmptyDraft
  }

  /**
   * The component. Each field is one state hook; a handler's `modifies`
   * clause names the hooks it sets, and every other hook keeps its value.
   */
  class Board {
    var user: Option<User>
    var profile: Option<Profile>
    var appState: AppState
    var authMode: AuthMode
    var isSidebarOpen: bool
    var viewMode: ViewMode
    var isMyTasksMode: bool
    var projects: seq<Project>
    var selectedProject: Option<Project>
    var todos: seq<Task>
    var completedLogs: seq<Task>
    var members: seq<Member>
    var rankings: seq<RankEntry>
    var newTaskTitle: string
    var newTaskDueDate: string
    var newTaskUrl: string
    var newTaskAssignee: string
    var quickSubInputs: map<string, Draft>
    var email: string
    var password: string
    var editNickname: string
    var editStatus: string

    /**
     * The state invariants: the two task modes exclude each other, the setup
     * and main screens have a signed-in user, and the main screen is reached
     * only with a profile that has a nickname.
     */
    ghost predicate Valid()
      reads this
    {
      && (isMyTasksMode ==> selectedProject.None?)
      && (appState == NicknameSetup || appState == Main ==> user.Some?)
      && (appState == Main ==> HasNickname(profile))
    }

    /**
     * The hooks `checkProfile` sets, as it leaves them: with a nickname, the
     * profile, the edit fields, the main screen and the fetched project list;
     * without one, only the setup screen.
     */
    twostate predicate ProfileChecked(prof: Option<Profile>, projs: Option<seq<Project>>)
      reads this
    {
      if HasNickname(prof) then
        && appState == Main
        && profile == prof
        && editNickname == prof.value.nickname.value
        && editStatus == prof.value.statusMessage.GetOr("")
        && projects == projs.GetOr([])
      else
        && appState == NicknameSetup
        && profile == old(profile)
        && editNickname == old(editNickname)
        && editStatus == old(editStatus)
        && projects == old(projects)
    }

    /** The hooks as `fetchProjectDetails` leaves them for `project`. */
    predicate InProject(project: Project, view: ProjectView)
      reads this
    {
      && !isMyTasksMode
      && viewMode == Tasks
      && selectedProject == Some(project)
      && !isSidebarOpen
      && todos == view.open.GetOr([])
      && completedLogs == view.done.GetOr([])
      && members == view.members.GetOr([])
    }

    /** The hooks as `loadMyTasks` leaves them. */
    predicate InMyTasks(mine: Option<seq<Task>>)
      reads this
    {
      && isMyTasksMode
      && viewMode == Tasks
      && selectedProject.None?
      && !isSidebarOpen
      && todos == mine.GetOr([])
      && members == []
    }

    /** The hooks' initial values. */
    constructor ()
      ensures Valid()
      ensures user.None? && profile.None? && appState == Loading && authMode == Login
      ensures !isSidebarOpen && viewMode == Tasks && !isMyTasksMode && selectedProject.None?
      ensures projects == [] && todos == [] && completedLogs == [] && members == [] && rankings == []
      ensures newTaskTitle == "" && newTaskDueDate == "" && newTaskUrl == "" && newTaskAssignee == ""
      ensures quickSubInputs == map[]
      ensures email == "" && password == "" && editNickname == "" && editStatus == ""
    {
      user, profile, appState, authMode := None, None, Loading, Login;
      isSidebarOpen, viewMode, isMyTasksMode := false, Tasks, false;
      projects, selectedProject, todos, completedLogs, members, rankings := [], None, [], [], [], [];
      newTaskTitle, newTaskDueDate, newTaskUrl, newTaskAssignee := "", "", "", "";
      quickSubInputs := map[];
      email, password, editNickname, editStatus := "", "", "", "";
    }

    /**
     * `checkProfile`: a profile with a non-empty nickname opens the main
     * screen and loads the project list; anything else shows the setup
     * screen. `projs` is the list the membership and project queries return.
     */
    method CheckProfile(prof: Option<Profile>, projs: Option<seq<Project>>)
      requires Valid() && user.Some?
      modifies this`profile, this`editNickname, this`editStatus, this`appState, this`projects
      ensures Valid()
      ensures appState == Main <==> HasNickname(prof)
      ensures appState != Main ==> appState == NicknameSetup
      ensures ProfileChecked(prof, projs)
    {
      if HasNickname(prof) {
        profile := prof;
        editNickname := prof.value.nickname.value;
        editStatus := prof.value.statusMessage.GetOr("");
        appState := Main;
        projects := projs.GetOr([]);
      } else {
        appState := NicknameSetup;
      }
    }

    /** The answer of `getSession` on mount: a session runs the profile check, none shows sign-in. */
    method InitialSession(session: Option<User>, prof: Option<Profile>, projs: Option<seq<Project>>)
      requires Valid()
      modifies this`user, this`profile, this`editNickname, this`editStatus, this`appState, this`projects
      ensures Valid()
      ensures session.Some? ==> user == session && ProfileChecked(prof, projs)
      ensures session.Some? ==> (appState == Main <==> HasNickname(prof))
      ensures session.None? ==> appState == Auth
      ensures session.None? ==> unchanged(this`user, this`profile, this`editNickname, this`editStatus, this`projects)
    {
      if session.Some? {
        user := session;
        CheckProfile(prof, projs);
      } else {
        appState := Auth;
      }
    }

    /** A session-change notification: as on mount, except that a lost session also clears the user. */
    method AuthStateChanged(session: Option<User>, prof: Option<Profile>, projs: Option<seq<Project>>)
      requires Valid()
      modifies this`user, this`profile, this`editNickname, this`editStatus, this`appState, this`projects
      ensures Valid()
      ensures session.Some? ==> user == session && ProfileChecked(prof, projs)
      ensures session.Some? ==> (appState == Main <==> HasNickname(prof))
      ensures session.None? ==> appState == Auth && user.None?
      ensures session.None? ==> unchanged(this`profile, this`editNickname, this`editStatus, this`projects)
    {
      if session.Some? {
        user := session;
        CheckProfile(prof, projs);
      } else {
        appState := Auth;
        user := None;
      }
    }

    /**
     * `handleAuth`: without both an email and a password no call is made;
     * otherwise the sign-up or sign-in call of the current tab, whose `error`
     * decides the message. It sets no hook: a successful sign-in reaches the
     * board through the session-change notification.
     */
    method HandleAuth(error: Option<string>) returns (call: Option<AuthCall>, notice: Option<Notice>)
      ensures call.None? <==> (email == "" || password == "")
      ensures call.None? ==> notice == Some(CredentialsRequired)
      ensures call.Some? && authMode == SignUp ==>
        call == Some(SignUpCall(email, password))
        && notice == Some(if error.Some? then SignUpFailed(error.value) else ConfirmationSent)
      ensures call.Some? && authMode == Login ==>
        call == Some(SignInCall(email, password))
        && notice == (if error.Some? then Some(SignInFailed(error.value)) else None)
    {
      if email == "" || password == "" {
        return None, Some(CredentialsRequired);
      }
      if authMode == SignUp {
        call := Some(SignUpCall(email, password));
        notice := if error.Some? then Some(SignUpFailed(error.value)) else Some(ConfirmationSent);
      } else {
        call := Some(SignInCall(email, password));
        notice := if error.Some? then Some(SignInFailed(error.value)) else None;
      }
    }

    /**
     * The setup screen's save button: an empty nickname is refused before any
     * write; otherwise the profile row is upserted and, if that succeeds, the
     * profile is checked again.
     */
    method SaveSetup(upsertError: Option<string>, prof: Option<Profile>, projs: Option<seq<Project>>)
      returns (upsert: Option<ProfileRow>, notice: Option<Notice>)
      requires Valid() && appState == NicknameSetup
      modifies this`profile, this`editNickname, this`editStatus, this`appState, this`projects
      ensures Valid()
      ensures old(editNickname) == "" ==> upsert.None? && notice == Some(NicknameRequired)
      ensures old(editNickname) != "" ==>
        upsert == Some(ProfileRow(user.value.id, old(editNickname), old(editStatus)))
      ensures old(editNickname) != "" && upsertError.Some? ==> notice == Some(SaveFailed(upsertError.value))
      ensures old(editNickname) == "" || upsertError.Some? ==>
        unchanged(this`profile, this`editNickname, this`editStatus, this`appState, this`projects)
      ensures old(editNickname) != "" && upsertError.None? ==> notice.None? && ProfileChecked(prof, projs)
    {
      if editNickname == "" {
        return None, Some(NicknameRequired);
      }
      upsert := Some(ProfileRow(user.value.id, editNickname, editStatus));
      if upsertError.None? {
        notice := None;
        CheckProfile(prof, projs);
      } else {
        notice := Some(SaveFailed(upsertError.value));
      }
    }

    /**
     * The profile panel's save button: the row is upserted without a nickname
     * check, and whatever the outcome the profile is checked again, so an
     * emptied nickname sends the user back to the setup screen.
     */
    method SaveProfileEdit(prof: Option<Profile>, projs: Option<seq<Project>>)
      returns (upsert: ProfileRow, notice: Notice)
      requires Valid() && appState == Main
      modifies this`profile, this`editNickname, this`editStatus, this`appState, this`projects
      ensures Valid()
      ensures upsert == ProfileRow(user.value.id, old(editNickname), old(editStatus))
      ensures notice == ProfileSaved
      ensures ProfileChecked(prof, projs)
      ensures appState == Main <==> HasNickname(prof)
    {
      upsert := ProfileRow(user.value.id, editNickname, editStatus);
      notice := ProfileSaved;
      CheckProfile(prof, projs);
    }

    /** `fetchProjectDetails`: no project, no change; otherwise project mode with the fetched lists. */
    method FetchProjectDetails(project: Option<Project>, view: ProjectView)
      requires Valid()
      modifies this`isMyTasksMode, this`viewMode, this`selectedProject, this`isSidebarOpen
      modifies this`todos, this`completedLogs, this`members
      ensures Valid()
      ensures project.None? ==> unchanged(this)
      ensures project.Some? ==> InProject(project.value, view)
    {
      if project.None? {
        return;
      }
      isMyTasksMode, viewMode, selectedProject, isSidebarOpen := false, Tasks, project, false;
      todos, completedLogs, members := view.open.GetOr([]), view.done.GetOr([]), view.members.GetOr([]);
    }

    /** `loadMyTasks`: my-tasks mode with the fetched tasks, no project and no members. */
    method LoadMyTasks(mine: Option<seq<Task>>)
      requires Valid() && user.Some?
      modifies this`isMyTasksMode, this`viewMode, this`selectedProject, this`isSidebarOpen
      modifies this`todos, this`members
      ensures Valid()
      ensures InMyTasks(mine)
    {
      isMyTasksMode, viewMode, selectedProject, isSidebarOpen := true, Tasks, None, false;
      todos, members := mine.GetOr([]), [];
    }

    /**
     * `fetchRankings`: `counts[i]` is the completed-task count fetched for the
     * i-th profile; the ranking is shown in its own panel.
     */
    method FetchRankings(profs: Option<seq<Profile>>, counts: seq<Option<nat>>)
      requires Valid() && |counts| == |profs.GetOr([])|
      modifies this`rankings, this`viewMode, this`isSidebarOpen
      ensures Valid()
      ensures rankings == Rank(profs.GetOr([]), counts)
      ensures viewMode == RankingView && !isSidebarOpen
    {
      rankings, viewMode, isSidebarOpen := Rank(profs.GetOr([]), counts), RankingView, false;
    }

    /**
     * `addTask`: nothing happens for a blank title or without a project. The
     * row is inserted with the title in the `text` column and, if that fails,
     * once more with it in the `title` column. A returned row is appended and
     * the title, link and due-date fields are cleared; the assignee stays.
     */
    method AddTask(first: Option<Task>, retry: Option<Task>) returns (inserts: seq<TaskInsert>)
      requires Valid() && appState == Main
      modifies this`todos, this`newTaskTitle, this`newTaskUrl, this`newTaskDueDate
      ensures Valid()
      ensures old(IsBlank(newTaskTitle) || selectedProject.None?) ==> inserts == [] && unchanged(this)
      ensures !old(IsBlank(newTaskTitle) || selectedProject.None?) ==>
        && |inserts| == (if first.Some? then 1 else 2)
        && inserts[0] == TaskInsert(
             selectedProject.value.id,
             if newTaskAssignee == "" then user.value.id else newTaskAssignee,
             OrNull(old(newTaskDueDate)),
             OrNull(old(newTaskUrl)),
             |old(todos)|,
             false,
             [],
             TextColumn,
             old(newTaskTitle))
        && (first.None? ==> inserts[1] == inserts[0].(column := TitleColumn))
      ensures !old(IsBlank(newTaskTitle) || selectedProject.None?) ==>
        var row := if first.Some? then first else retry;
        if row.None? then unchanged(this)
        else todos == old(todos) + [row.value] && newTaskTitle == "" && newTaskUrl == "" && newTaskDueDate == ""
    {
      TrimEmptyIffBlank(newTaskTitle);
      if Trim(newTaskTitle) == "" || selectedProject.None? {
        return [];
      }
      var base := TaskInsert(
        selectedProject.value.id,
        OrElse(newTaskAssignee, user.value.id),
        OrNull(newTaskDueDate),
        OrNull(newTaskUrl),
        |todos|,
        false,
        [],
        TextColumn,
        newTaskTitle);
      inserts := [base];
      var data := first;
      if first.None? {
        inserts := inserts + [base.(column := TitleColumn)];
        data := retry;
      }
      if data.Some? {
        todos := todos + [data.value];
        newTaskTitle, newTaskUrl, newTaskDueDate := "", "", "";
      }
    }

    /**
     * `updateTask`: `ok` is whether the remote update succeeded; `view` and
     * `mine` are what a reload of the project or of my tasks would fetch.
     * A failure changes nothing; a completion reloads the current view
     * instead of merging; any other patch is merged into the entries with the
     * id and nothing else changes.
     */
    method UpdateTask(taskId: string, p: Patch, ok: bool, view: ProjectView, mine: Option<seq<Task>>)
      requires Valid() && appState == Main
      modifies this`isMyTasksMode, this`viewMode, this`selectedProject, this`isSidebarOpen
      modifies this`todos, this`completedLogs, this`members
      ensures Valid()
      ensures !ok ==> unchanged(this)
      ensures ok && p.completed == Some(true) && old(selectedProject).Some? ==>
        InProject(old(selectedProject).value, view)
      ensures ok && p.completed == Some(true) && old(selectedProject).None? ==>
        InMyTasks(mine) && unchanged(this`completedLogs)
      ensures ok && p.completed != Some(true) ==>
        && todos == MergeById(old(todos), taskId, p)
        && unchanged(this`isMyTasksMode, this`viewMode, this`selectedProject, this`isSidebarOpen)
        && unchanged(this`completedLogs, this`members)
    {
      if ok {
        if p.completed == Some(true) {
          if selectedProject.Some? {
            FetchProjectDetails(selectedProject, view);
          } else {
            LoadMyTasks(mine);
          }
        } else {
          todos := MergeById(todos, taskId, p);
        }
      }
    }

    /** A task's check mark: a completion never merges locally, the current view is reloaded instead. */
    method CompleteTask(task: Task, ok: bool, view: ProjectView, mine: Option<seq<Task>>)
      requires Valid() && appState == Main
      modifies this`isMyTasksMode, this`viewMode, this`selectedProject, this`isSidebarOpen
      modifies this`todos, this`completedLogs, this`members
      ensures Valid()
      ensures !ok ==> unchanged(this)
      ensures ok && old(selectedProject).Some? ==> InProject(old(selectedProject).value, view)
      ensures ok && old(selectedProject).None? ==> InMyTasks(mine) && unchanged(this`completedLogs)
    {
      UpdateTask(task.id, CompletionPatch, ok, view, mine);
    }

    /**
     * Typing in a task's title field: both title columns are patched with the
     * new text; on success every entry with the task's id carries it in both
     * and keeps its other fields, and every other entry is untouched.
     */
    method EditTaskTitle(task: Task, v: string, ok: bool, view: ProjectView, mine: Option<seq<Task>>)
      requires Valid() && appState == Main
      modifies this`isMyTasksMode, this`viewMode, this`selectedProject, this`isSidebarOpen
      modifies this`todos, this`completedLogs, this`members
      ensures Valid()
      ensures !ok ==> unchanged(this)
      ensures |todos| == |old(todos)|
      ensures ok ==> forall j :: 0 <= j < |todos| ==>
        todos[j] == if old(todos)[j].id == task.id then old(todos)[j].(text := Some(v), title := Some(v)) else old(todos)[j]
      ensures unchanged(this`isMyTasksMode, this`viewMode, this`selectedProject, this`isSidebarOpen)
      ensures unchanged(this`completedLogs, this`members)
    {
      ghost var before := todos;
      UpdateTask(task.id, TitlePatch(v), ok, view, mine);
      if ok {
        forall j | 0 <= j < |todos|
          ensures todos[j] == if before[j].id == task.id then before[j].(text := Some(v), title := Some(v)) else before[j]
        {
          MergeByIdAt(before, task.id, TitlePatch(v), j);
        }
      }
    }

    /**
     * `deleteTask`: declined, nothing happens; confirmed, the remote delete is
     * issued and the id leaves the local list whatever the store answers.
     */
    method DeleteTask(taskId: string, confirmed: bool) returns (deleted: Option<string>)
      requires Valid()
      modifies this`todos
      ensures Valid()
      ensures deleted == if confirmed then Some(taskId) else None
      ensures todos == if confirmed then RemoveById(old(todos), taskId) else old(todos)
    {
      if !confirmed {
        return None;
      }
      deleted := Some(taskId);
      todos := RemoveById(todos, taskId);
    }

    /**
     * `addQuickSubTask`: a blank (or, from the assignee picker, missing) draft
     * text writes nothing and changes nothing. Otherwise the task's list with
     * the new subtask appended is written, set on the entries with the task's
     * id, and only that task's draft is reset.
     */
    method AddQuickSubTask(task: Task) returns (write: Option<SubtaskWrite>)
      requires Valid() && appState == Main
      modifies this`todos, this`quickSubInputs
      ensures Valid()
      ensures var d := DraftFor(old(quickSubInputs), task.id);
        if d.text.None? || IsBlank(d.text.value) then
          write.None? && unchanged(this)
        else
          var sub := NewSubtask(d, user.value.id);
          && write == Some(SubtaskWrite(task.id, task.subtasks + [sub]))
          && todos == AppendSubtask(old(todos), task, sub)
          && quickSubInputs == old(quickSubInputs)[task.id := EmptyDraft]
    {
      var input := DraftFor(quickSubInputs, task.id);
      if input.text.None? {
        return None;
      }
      TrimEmptyIffBlank(input.text.value);
      if Trim(input.text.value) == "" {
        return None;
      }
      var newSub := NewSubtask(input, user.value.id);
      var newSubs := task.subtasks + [newSub];
      write := Some(SubtaskWrite(task.id, newSubs));
      todos := MergeById(todos, task.id, SubtasksPatch(newSubs));
      quickSubInputs := quickSubInputs[task.id := EmptyDraft];
    }

    /**
     * A subtask's checkbox: subtask `i` of `task` flipped and sent through the
     * non-completion update path, so the local list changes only if the update
     * succeeds.
     */
    method ToggleSubtask(task: Task, i: int, ok: bool, view: ProjectView, mine: Option<seq<Task>>)
      requires Valid() && appState == Main && 0 <= i < |task.subtasks|
      modifies this`isMyTasksMode, this`viewMode, this`selectedProject, this`isSidebarOpen
      modifies this`todos, this`completedLogs, this`members
      ensures Valid()
      ensures todos == ToggleLocal(old(todos), task, i, ok)
      ensures unchanged(this`isMyTasksMode, this`viewMode, this`selectedProject, this`isSidebarOpen)
      ensures unchanged(this`completedLogs, this`members)
    {
      var n := ToggleAt(task.subtasks, i);
      UpdateTask(task.id, SubtasksPatch(n), ok, view, mine);
    }

    /** Typing in a task's subtask field: a new draft starts with the other fields empty. */
    method EditDraftText(taskId: string, v: string)
      requires Valid()
      modifies this`quickSubInputs
      ensures Valid()
      ensures quickSubInputs == old(quickSubInputs)[taskId :=
        if taskId in old(quickSubInputs) then old(quickSubInputs)[taskId].(text := Some(v))
        else Draft(Some(v), "", "", "")]
    {
      var d := if taskId in quickSubInputs then quickSubInputs[taskId] else Draft(None, "", "", "");
      quickSubInputs := quickSubInputs[taskId := d.(text := Some(v))];
    }

    /** Typing in a task's subtask link field. */
    method EditDraftUrl(taskId: string, v: string)
      requires Valid()
      modifies this`quickSubInputs
      ensures Valid()
      ensures quickSubInputs == old(quickSubInputs)[taskId := DraftFor(old(quickSubInputs), taskId).(url := v)]
    {
      var d := DraftFor(quickSubInputs, taskId);
      quickSubInputs := quickSubInputs[taskId := d.(url := v)];
    }

    /** Picking a task's subtask due date. */
    method EditDraftDue(taskId: string, v: string)
      requires Valid()
      modifies this`quickSubInputs
      ensures Valid()
      ensures quickSubInputs == old(quickSubInputs)[taskId := DraftFor(old(quickSubInputs), taskId).(due := v)]
    {
      var d := DraftFor(quickSubInputs, taskId);
      quickSubInputs := quickSubInputs[taskId := d.(due := v)];
    }

    /**
     * Picking a task's subtask assignee: a new draft starts from an empty
     * object, so it has no text until the text field is typed in.
     */
    method EditDraftAssignee(taskId: string, v: string)
      requires Valid()
      modifies this`quickSubInputs
      ensures Valid()
      ensures quickSubInputs == old(quickSubInputs)[taskId :=
        if taskId in old(quickSubInputs) then old(quickSubInputs)[taskId].(assignee := v)
        else Draft(None, v, "", "")]
    {
      var d := if taskId in quickSubInputs then quickSubInputs[taskId] else Draft(None, "", "", "");
      quickSubInputs := quickSubInputs[taskId := d.(assignee := v)];
    }
  }
}
