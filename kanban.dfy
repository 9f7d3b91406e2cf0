/**
 * The task board (src/app/dashboard/tasks/page.tsx): dragging a card between
 * the four status columns, the task editor's save and comment handlers, who
 * gets notified by each, the assignee filter and the split into columns.
 *
 * The hosted store is not modelled; every handler returns the writes it
 * issues, in order, as `Write` values.
 */
module Kanban {

  import opened Wrappers
  import opened Types
  import opened Seqs
  import opened Text

  /** The board's columns, left to right. */
  const STATUS_COLUMNS: seq<TaskStatus> := [Todo, InProgress, Review, Done]

  function ColumnTitle(s: TaskStatus): string {
    match s
    case Todo => "Cần làm"
    case InProgress => "Đang làm"
    case Review => "Review"
    case Done => "Hoàn thành"
  }

  function TaskLink(taskId: string): string {
    "/dashboard/tasks?taskId=" + taskId
  }

  // -------------------------------------------------------------- writes

  datatype NoticeRow = NoticeRow(userId: string, title: string, message: string, link: string)

  /** The columns the editor writes on update and on create. */
  datatype TaskFields = TaskFields(
    title: string,
    description: string,
    status: TaskStatus,
    priority: TaskPriority,
    assignees: seq<string>,
    dueDate: Option<int>,
    updatedAt: int)

  datatype Write =
    | UpdateTask(taskId: string, fields: TaskFields)
    | InsertTask(fields: TaskFields, createdBy: string, createdAt: int)
    | UpdateStatus(taskId: string, status: TaskStatus)
    | InsertHistory(taskId: string, userId: string, action: string, details: string)
    | InsertNotifications(rows: seq<NoticeRow>)
    | InsertComment(taskId: string, userId: string, content: string)

  /** One notification row per recipient, all with the same title, message and link. */
  function NoticesTo(recipients: seq<string>, title: string, message: string, link: string): (rows: seq<NoticeRow>)
    ensures |rows| == |recipients|
    ensures forall i :: 0 <= i < |rows| ==> rows[i] == NoticeRow(recipients[i], title, message, link)
  {
    seq(|recipients|, i requires 0 <= i < |recipients| => NoticeRow(recipients[i], title, message, link))
  }

  function UserIds(rows: seq<NoticeRow>): (ids: seq<string>)
    ensures |ids| == |rows|
    ensures forall i :: 0 <= i < |rows| ==> ids[i] == rows[i].userId
  {
    seq(|rows|, i requires 0 <= i < |rows| => rows[i].userId)
  }

  /** The addressees of all notification rows in `ws`, in the order they are written. */
  function NotifiedUsers(ws: seq<Write>): seq<string>
    decreases |ws|
  {
    if ws == [] then []
    else (if ws[0].InsertNotifications? then UserIds(ws[0].rows) else []) + NotifiedUsers(ws[1..])
  }

  lemma {:induction false} NotifiedUsersAppend(a: seq<Write>, b: seq<Write>)
    ensures NotifiedUsers(a + b) == NotifiedUsers(a) + NotifiedUsers(b)
    decreases |a|
  {
    if a == [] {
      assert a + b == b;
    } else {
      assert (a + b)[1..] == a[1..] + b;
      NotifiedUsersAppend(a[1..], b);
    }
  }

  /** Two writes, neither of them a notification, followed by at most one notification insert. */
  lemma NotifiedUsersOfHandler(w0: Write, w1: Write, rest: seq<Write>)
    requires !w0.InsertNotifications? && !w1.InsertNotifications?
    requires rest == [] || (|rest| == 1 && rest[0].InsertNotifications?)
    ensures NotifiedUsers([w0, w1] + rest) == if rest == [] then [] else UserIds(rest[0].rows)
  {
    NotifiedUsersAppend([w0, w1], rest);
    assert NotifiedUsers([w0, w1]) == [] by {
      assert [w0, w1][1..] == [w1];
      assert [w1][1..] == [];
    }
    if rest != [] {
      assert rest[1..] == [];
    }
  }

  // ---------------------------------------------------------- recipients

  /**
   * `assignees.filter(u => u !== actor)`: the recipients of a create
   * notification and of a comment notification.
   */
  function AssigneesExcept(assignees: seq<string>, actor: string): (r: seq<string>)
    ensures forall u :: u in r <==> u in assignees && u != actor
    ensures forall u :: multiset(r)[u] == if u != actor then multiset(assignees)[u] else 0
    ensures IsSubsequence(r, assignees)
  {
    FilterIsSubsequence(assignees, u => u != actor);
    FilterCount(assignees, u => u != actor);
    Filter(assignees, u => u != actor)
  }

  /** On update, only the assignees that were not assigned before, minus the actor, are told. */
  function NewAssignees(assignees: seq<string>, previous: seq<string>, actor: string): (r: seq<string>)
    ensures forall u :: u in r <==> u in assignees && u !in previous && u != actor
    ensures forall u :: multiset(r)[u] == if u !in previous && u != actor then multiset(assignees)[u] else 0
    ensures IsSubsequence(r, assignees)
  {
    FilterIsSubsequence(assignees, a => a !in previous && a != actor);
    FilterCount(assignees, a => a !in previous && a != actor);
    Filter(assignees, a => a !in previous && a != actor)
  }

  lemma NewAssigneesWithoutPrevious(assignees: seq<string>, actor: string)
    ensures NewAssignees(assignees, [], actor) == AssigneesExcept(assignees, actor)
  {
    FilterExt(assignees, a => a !in [] && a != actor, u => u != actor);
  }

  /** A write that inserts no notification adds no addressee. */
  lemma NotifiedUsersSkip(w: Write, rest: seq<Write>)
    requires !w.InsertNotifications?
    ensures ([w] + rest)[1..] == rest
    ensures NotifiedUsers([w] + rest) == NotifiedUsers(rest)
  {
    assert ([w] + rest)[1..] == rest;
  }

  lemma UserIdsOfNotices(recipients: seq<string>, title: string, message: string, link: string)
    ensures UserIds(NoticesTo(recipients, title, message, link)) == recipients
  {
  }

  /** The notification insert for `recipients` when `send` holds, and no write otherwise. */
  function Notify(send: bool, recipients: seq<string>, title: string, message: string, link: string): (ws: seq<Write>)
    ensures |ws| <= 1 && (ws != [] <==> send)
    ensures forall k :: 0 <= k < |ws| ==> ws[k].InsertNotifications?
  {
    if send then [InsertNotifications(NoticesTo(recipients, title, message, link))] else []
  }

  lemma NotifiedUsersOfNotify(send: bool, recipients: seq<string>, title: string, message: string, link: string)
    ensures NotifiedUsers(Notify(send, recipients, title, message, link)) == if send then recipients else []
  {
    if send {
      var w := InsertNotifications(NoticesTo(recipients, title, message, link));
      assert [w][1..] == [];
      UserIdsOfNotices(recipients, title, message, link);
    }
  }

  /**
   * What an accepted save writes after the task itself: the history row,
   * then the "Giao việc mới" notice. An update tells the assignees who are
   * new to the task; a create tells every assignee, and sends the insert
   * whenever the task has assignees at all. The actor is never told.
   */
  function AfterSave(task: Option<Task>, me: Session, title: string, assignees: seq<string>, newId: string)
    : (ws: seq<Write>)
    ensures 1 <= |ws| <= 2 && ws[0].InsertHistory? && ws[0].userId == me.username
    ensures forall k :: 1 <= k < |ws| ==> ws[k].InsertNotifications?
    ensures ws[0].taskId == (if task.Some? then task.value.id else newId)
    ensures |ws| == 2 <==>
      if task.Some? then NewAssignees(assignees, task.value.assignees, me.username) != [] else assignees != []
    ensures task.Some? ==> NotifiedUsers(ws) == NewAssignees(assignees, task.value.assignees, me.username)
    ensures task.None? ==> NotifiedUsers(ws) == if assignees == [] then [] else AssigneesExcept(assignees, me.username)
  {
    var message := me.displayName + " đã giao việc \"" + title + "\" cho bạn";
    if task.Some? then
      var t := task.value;
      var recipients := NewAssignees(assignees, t.assignees, me.username);
      var notify := Notify(|recipients| > 0, recipients, "Giao việc mới", message, TaskLink(t.id));
      var history := InsertHistory(t.id, me.username, "updated", "Cập nhật nội dung công việc");
      NotifiedUsersSkip(history, notify);
      NotifiedUsersOfNotify(|recipients| > 0, recipients, "Giao việc mới", message, TaskLink(t.id));
      [history] + notify
    else
      var recipients := AssigneesExcept(assignees, me.username);
      var notify := Notify(|assignees| > 0, recipients, "Giao việc mới", message, TaskLink(newId));
      var history := InsertHistory(newId, me.username, "created", "Tạo mới công việc");
      NotifiedUsersSkip(history, notify);
      NotifiedUsersOfNotify(|assignees| > 0, recipients, "Giao việc mới", message, TaskLink(newId));
      [history] + notify
  }

  /**
   * What an accepted comment writes after the comment itself: the
   * "Bình luận mới" notice to every assignee but the author, when there is one.
   */
  function AfterComment(t: Task, me: Session): (ws: seq<Write>)
    ensures |ws| <= 1 && (ws != [] <==> AssigneesExcept(t.assignees, me.username) != [])
    ensures forall k :: 0 <= k < |ws| ==> ws[k].InsertNotifications?
    ensures NotifiedUsers(ws) == AssigneesExcept(t.assignees, me.username)
  {
    var recipients := AssigneesExcept(t.assignees, me.username);
    var message := me.displayName + " bình luận công việc \"" + t.title + "\"";
    NotifiedUsersOfNotify(|recipients| > 0, recipients, "Bình luận mới", message, TaskLink(t.id));
    Notify(|recipients| > 0, recipients, "Bình luận mới", message, TaskLink(t.id))
  }

  /** Everything an accepted comment writes: the comment row, then AfterComment. */
  function CommentWrites(t: Task, me: Session, content: string): (ws: seq<Write>)
    ensures |ws| >= 1 && ws[0] == InsertComment(t.id, me.username, content)
    ensures ws[1..] == AfterComment(t, me)
    ensures NotifiedUsers(ws) == AssigneesExcept(t.assignees, me.username)
  {
    var insert, notify := InsertComment(t.id, me.username, content), AfterComment(t, me);
    NotifiedUsersSkip(insert, notify);
    [insert] + notify
  }

  // -------------------------------------------------------- drag and drop

  datatype DropPoint = DropPoint(droppableId: TaskStatus, index: int)

  datatype DropResult = DropResult(source: DropPoint, destination: Option<DropPoint>, draggableId: string)

  /** A drop outside any column, or back onto the place it came from. */
  predicate IsNoOpDrop(r: DropResult) {
    r.destination.None?
    || (r.destination.value.droppableId == r.source.droppableId && r.destination.value.index == r.source.index)
  }

  /** `tasks.find(t => t.id === id)`. */
  function FindTask(tasks: seq<Task>, id: string): (r: Option<Task>)
    ensures r.None? <==> forall i :: 0 <= i < |tasks| ==> tasks[i].id != id
    ensures r.Some? ==> exists i :: 0 <= i < |tasks| && tasks[i] == r.value && r.value.id == id
                                    && forall j :: 0 <= j < i ==> tasks[j].id != id
    decreases |tasks|
  {
    if tasks == [] then None
    else if tasks[0].id == id then Some(tasks[0])
    else
      var r := FindTask(tasks[1..], id);
      assert r.Some? ==> exists i :: 0 <= i < |tasks[1..]| && tasks[1..][i] == r.value && r.value.id == id
                                      && forall j :: 0 <= j < i ==> tasks[1..][j].id != id;
      if r.Some? then
        var i :| 0 <= i < |tasks[1..]| && tasks[1..][i] == r.value && r.value.id == id
                 && forall j :: 0 <= j < i ==> tasks[1..][j].id != id;
        assert tasks[i + 1] == r.value && forall j :: 0 <= j < i + 1 ==> tasks[j].id != id;
        r
      else r
  }

  /** The optimistic update: the dragged task takes the column's status; nothing else changes. */
  function WithStatus(tasks: seq<Task>, id: string, status: TaskStatus): (r: seq<Task>)
    ensures |r| == |tasks|
    ensures forall i :: 0 <= i < |tasks| && tasks[i].id == id ==> r[i] == tasks[i].(status := status)
    ensures forall i :: 0 <= i < |tasks| && tasks[i].id != id ==> r[i] == tasks[i]
  {
    MapWhere(tasks, (t: Task) => t.id == id, (t: Task) => t.(status := status))
  }

  /** The writes of a move that is not a no-op, made by `mover`. */
  function MoveWrites(r: DropResult, tasks: seq<Task>, mover: Session): (ws: seq<Write>)
    requires r.destination.Some?
    ensures 2 <= |ws| <= 3 && ws[0] == UpdateStatus(r.draggableId, r.destination.value.droppableId)
    ensures forall k :: 2 <= k < |ws| ==> ws[k].InsertNotifications?
    ensures ws[1].InsertHistory? && ws[1].taskId == r.draggableId && ws[1].userId == mover.username
    ensures |ws| == 3 <==>
      var task := FindTask(tasks, r.draggableId);
      r.destination.value.droppableId == Done && task.Some? && task.value.createdBy != mover.username
    ensures NotifiedUsers(ws) ==
      var task := FindTask(tasks, r.draggableId);
      if r.destination.value.droppableId == Done && task.Some? && task.value.createdBy != mover.username
      then [task.value.createdBy] else []
  {
    var start := r.source.droppableId;
    var finish := r.destination.value.droppableId;
    var task := FindTask(tasks, r.draggableId);
    var notify :=
      if finish == Done && task.Some? && task.value.createdBy != mover.username then
        [InsertNotifications([NoticeRow(task.value.createdBy, "Công việc hoàn thành",
                                        mover.displayName + " đã hoàn thành \"" + task.value.title + "\"",
                                        TaskLink(task.value.id))])]
      else [];
    var ws := [UpdateStatus(r.draggableId, finish),
               InsertHistory(r.draggableId, mover.username, "moved",
                             "Đã chuyển từ " + ColumnTitle(start) + " sang " + ColumnTitle(finish))]
              + notify;
    NotifiedUsersOfHandler(ws[0], ws[1], notify);
    ws
  }

  // ------------------------------------------------------ filter, columns

  /** `filterUser` empty shows every task; otherwise the tasks assigned to that user. */
  function ByAssignee(tasks: seq<Task>, filterUser: string): (r: seq<Task>)
    ensures filterUser == "" ==> r == tasks
    ensures filterUser != "" ==> forall t :: t in r <==> t in tasks && filterUser in t.assignees
    ensures filterUser != "" ==>
              forall t :: multiset(r)[t] == if filterUser in t.assignees then multiset(tasks)[t] else 0
    ensures IsSubsequence(r, tasks)
  {
    if filterUser == "" then
      FilterAll(tasks, (t: Task) => true);
      FilterIsSubsequence(tasks, (t: Task) => true);
      tasks
    else
      FilterIsSubsequence(tasks, (t: Task) => filterUser in t.assignees);
      FilterCount(tasks, (t: Task) => filterUser in t.assignees);
      Filter(tasks, (t: Task) => filterUser in t.assignees)
  }

  /** The cards whose status is one of `statuses`. */
  function AmongStatuses(statuses: set<TaskStatus>): Task -> bool {
    (t: Task) => t.status in statuses
  }

  /** `filteredTasks.filter(t => t.status === column.id)`. */
  function InColumn(tasks: seq<Task>, status: TaskStatus): (r: seq<Task>)
    ensures forall t :: t in r <==> t in tasks && t.status == status
    ensures forall t :: multiset(r)[t] == if t.status == status then multiset(tasks)[t] else 0
    ensures IsSubsequence(r, tasks)
  {
    FilterIsSubsequence(tasks, AmongStatuses({status}));
    FilterCount(tasks, AmongStatuses({status}));
    Filter(tasks, AmongStatuses({status}))
  }

  /** The four columns together hold every shown task exactly once. */
  lemma ColumnsPartition(tasks: seq<Task>)
    ensures multiset(InColumn(tasks, Todo)) + multiset(InColumn(tasks, InProgress))
            + multiset(InColumn(tasks, Review)) + multiset(InColumn(tasks, Done)) == multiset(tasks)
  {
    FilterUnion(tasks, AmongStatuses({Todo}), AmongStatuses({InProgress}), AmongStatuses({Todo, InProgress}));
    FilterUnion(tasks, AmongStatuses({Todo, InProgress}), AmongStatuses({Review}), AmongStatuses({Todo, InProgress, Review}));
    FilterUnion(tasks, AmongStatuses({Todo, InProgress, Review}), AmongStatuses({Done}), AmongStatuses({Todo, InProgress, Review, Done}));
    forall i | 0 <= i < |tasks| ensures AmongStatuses({Todo, InProgress, Review, Done})(tasks[i]) {
      var st := tasks[i].status;
      assert st.Todo? || st.InProgress? || st.Review? || st.Done?;
    }
    FilterAll(tasks, AmongStatuses({Todo, InProgress, Review, Done}));
  }

  /**
   * After a move, the dragged card is shown in the destination column (when
   * the filter shows it at all) and in no other column.
   */
  lemma MovedCardColumn(tasks: seq<Task>, id: string, status: TaskStatus, filterUser: string, other: TaskStatus)
    requires other != status
    ensures forall t :: t in InColumn(ByAssignee(WithStatus(tasks, id, status), filterUser), other) ==> t.id != id
    ensures forall i :: 0 <= i < |tasks| && tasks[i].id == id && (filterUser == "" || filterUser in tasks[i].assignees)
              ==> tasks[i].(status := status) in InColumn(ByAssignee(WithStatus(tasks, id, status), filterUser), status)
  {
    var moved := WithStatus(tasks, id, status);
    forall i | 0 <= i < |tasks| && tasks[i].id == id && (filterUser == "" || filterUser in tasks[i].assignees)
      ensures tasks[i].(status := status) in ByAssignee(moved, filterUser)
    {
      assert moved[i] == tasks[i].(status := status);
    }
  }

  // ---------------------------------------------------------------- board

  /** The board page: its task list, the assignee filter and the signed-in user. */
  class Board {
    var tasks: seq<Task>
    var filterUser: string
    var currentUser: Option<Session>

    constructor (tasks: seq<Task>, currentUser: Option<Session>)
      ensures this.tasks == tasks && this.currentUser == currentUser && filterUser == ""
    {
      this.tasks := tasks;
      this.currentUser := currentUser;
      filterUser := "";
    }

    /** `handleDragEnd`: a status rewrite of the dragged task, then its writes. */
    method DragEnd(r: DropResult) returns (writes: seq<Write>)
      modifies this
      ensures filterUser == old(filterUser) && currentUser == old(currentUser)
      ensures IsNoOpDrop(r) ==> tasks == old(tasks) && writes == []
      ensures !IsNoOpDrop(r) ==> tasks == WithStatus(old(tasks), r.draggableId, r.destination.value.droppableId)
      ensures !IsNoOpDrop(r) && currentUser.None? ==> writes == []
      ensures !IsNoOpDrop(r) && currentUser.Some? ==> writes == MoveWrites(r, old(tasks), currentUser.value)
    {
      writes := [];
      if r.destination.None? {
        return;
      }
      if r.destination.value.droppableId == r.source.droppableId && r.destination.value.index == r.source.index {
        return;
      }
      var before := tasks;
      tasks := WithStatus(tasks, r.draggableId, r.destination.value.droppableId);
      if currentUser.Some? {
        writes := MoveWrites(r, before, currentUser.value);
      }
    }

    method SetFilter(user: string)
      modifies this`filterUser
      ensures filterUser == user
    {
      filterUser := user;
    }
  }

  // ---------------------------------------------------------- task editor

  /** The task modal: the edited task (none for a new one), the form and the comment thread. */
  class TaskEditor {
    const task: Option<Task>
    var title: string
    var description: string
    var status: TaskStatus
    var priority: TaskPriority
    var assignees: seq<string>
    var dueDate: Option<int>
    var comments: seq<TaskComment>
    var newComment: string

    /** Opening the modal: the task's fields, or the defaults of a new task. */
    constructor (task: Option<Task>, comments: seq<TaskComment>)
      ensures this.task == task && newComment == ""
      ensures task.Some? ==> title == task.value.title && description == task.value.description
                             && status == task.value.status && priority == task.value.priority
                             && assignees == task.value.assignees && dueDate == task.value.dueDate
                             && this.comments == comments
      ensures task.None? ==> title == "" && description == "" && status == Todo && priority == Medium
                             && assignees == [] && dueDate == None && this.comments == []
    {
      this.task := task;
      newComment := "";
      if task.Some? {
        title, description := task.value.title, task.value.description;
        status, priority := task.value.status, task.value.priority;
        assignees, dueDate := task.value.assignees, task.value.dueDate;
        this.comments := comments;
      } else {
        title, description, status, priority := "", "", Todo, Medium;
        assignees, dueDate, this.comments := [], None, [];
      }
    }

    /** The `taskData` payload of a save, stamped with the time `now`. */
    function Fields(now: int): (f: TaskFields)
      reads this
      ensures f.title == title && f.description == description && f.status == status && f.priority == priority
      ensures f.assignees == assignees && f.dueDate == dueDate && f.updatedAt == now
    {
      TaskFields(title, description, status, priority, assignees, dueDate, now)
    }

    /**
     * `handleSave`. `rejected` is the store's answer to the task write itself;
     * `newId` is the id the store gives a created task.
     */
    method Save(currentUser: Option<Session>, now: int, newId: string, rejected: bool)
      returns (writes: seq<Write>, saved: bool)
      ensures currentUser.None? || IsBlank(title) ==> writes == [] && !saved
      ensures saved <==> currentUser.Some? && !IsBlank(title) && !rejected
      ensures currentUser.Some? && !IsBlank(title) ==>
                |writes| >= 1
                && writes[0] == (if task.Some? then UpdateTask(task.value.id, Fields(now))
                                 else InsertTask(Fields(now), currentUser.value.username, now))
      ensures !saved && writes != [] ==> |writes| == 1
      ensures saved ==> |writes| >= 2 && writes[1].InsertHistory?
                        && writes[1].taskId == (if task.Some? then task.value.id else newId)
                        && writes[1].userId == currentUser.value.username
      ensures saved ==> writes[1..] == AfterSave(task, currentUser.value, title, assignees, newId)
      ensures saved && task.Some? ==>
                NotifiedUsers(writes) == NewAssignees(assignees, task.value.assignees, currentUser.value.username)
      ensures saved && task.None? ==>
                NotifiedUsers(writes) == if assignees == [] then [] else AssigneesExcept(assignees, currentUser.value.username)
    {
      writes, saved := [], false;
      if currentUser.None? {
        return;
      }
      TrimEmptyIffBlank(title);
      if Trim(title) == "" {
        return;
      }
      var me := currentUser.value;
      var first := if task.Some? then UpdateTask(task.value.id, Fields(now)) else InsertTask(Fields(now), me.username, now);
      writes := [first];
      if rejected {
        return;
      }
      var rest := AfterSave(task, me, title, assignees, newId);
      NotifiedUsersSkip(first, rest);
      writes := [first] + rest;
      saved := true;
    }

    /**
     * `postComment`. `rejected` is the store's answer to the comment insert;
     * `commentId` and `now` are the id and time the store gives the new comment.
     */
    method PostComment(currentUser: Option<Session>, commentId: string, now: int, rejected: bool)
      returns (writes: seq<Write>)
      modifies this`comments, this`newComment
      ensures task.None? || currentUser.None? || IsBlank(old(newComment)) ==>
                writes == [] && comments == old(comments) && newComment == old(newComment)
      ensures task.Some? && currentUser.Some? && !IsBlank(old(newComment)) ==>
                |writes| >= 1 && writes[0] == InsertComment(task.value.id, currentUser.value.username, old(newComment))
      ensures task.Some? && currentUser.Some? && !IsBlank(old(newComment)) && rejected ==>
                |writes| == 1 && comments == old(comments) && newComment == old(newComment)
      ensures task.Some? && currentUser.Some? && !IsBlank(old(newComment)) && !rejected ==>
                comments == old(comments) + [TaskComment(commentId, task.value.id, currentUser.value.username, old(newComment), now)]
                && newComment == ""
                && writes[1..] == AfterComment(task.value, currentUser.value)
                && NotifiedUsers(writes) == AssigneesExcept(task.value.assignees, currentUser.value.username)
    {
      TrimEmptyIffBlank(newComment);
      if task.None? || Trim(newComment) == "" || currentUser.None? {
        writes := [];
      } else if rejected {
        writes := [InsertComment(task.value.id, currentUser.value.username, newComment)];
      } else {
        var t, me, content := task.value, currentUser.value, newComment;
        comments := comments + [TaskComment(commentId, t.id, me.username, content, now)];
        newComment := "";
        writes := CommentWrites(t, me, content);
      }
    }
  }
}
