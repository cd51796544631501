/**
 * The task collection and its handlers. Every handler is scoped to the
 * authenticated `userId`: listing (conjunctive filter, newest first), lookup,
 * creation with defaults, partial update, deletion, and the four counts.
 */
module TaskController {
  import opened Wrappers
  import opened UserModel

  type TaskId = nat

  /** One stored task. `dueDate` holds the date text the client sent, `None` for `null`. */
  datatype Task = Task(
    id: TaskId,
    userId: UserId,
    title: string,
    description: string,
    status: string,
    priority: string,
    dueDate: Option<string>,
    createdAt: int,
    updatedAt: int)

  const TaskNotFound := "Task not found"
  const TitleRequired := "Title is required"
  const TaskDeleted := "Task deleted successfully"

  // ----- case-insensitive text search

  function LowerChar(c: char): char
  {
    if 'A' <= c <= 'Z' then (c as int + 32) as char else c
  }

  function Lower(s: string): (r: string)
    ensures |r| == |s|
    ensures forall i :: 0 <= i < |s| ==> r[i] == LowerChar(s[i])
  {
    seq(|s|, i requires 0 <= i < |s| => LowerChar(s[i]))
  }

  predicate OccursAt(text: string, pattern: string, i: nat)
  {
    i + |pattern| <= |text| && text[i..i + |pattern|] == pattern
  }

  /** `pattern` occurs in `text` as a contiguous piece. */
  predicate Contains(text: string, pattern: string)
  {
    exists i: nat | i <= |text| :: OccursAt(text, pattern, i)
  }

  /** `{ $regex: search, $options: 'i' }` for a search text read literally. */
  predicate MatchesIgnoringCase(text: string, search: string)
  {
    Contains(Lower(text), Lower(search))
  }

  // ----- the query getTasks builds, and the store's find

  /** A find query: the owner always, the other clauses only when present. */
  datatype TaskQuery = TaskQuery(
    userId: UserId,
    status: Option<string>,
    priority: Option<string>,
    search: Option<string>)

  /** `getTasks` builds its query clause by clause: a clause only for a truthy parameter. */
  function BuildQuery(userId: UserId, status: string, priority: string, search: string): (q: TaskQuery)
    ensures forall t :: Satisfies(t, q) <==>
      && t.userId == userId
      && (status != "" ==> t.status == status)
      && (priority != "" ==> t.priority == priority)
      && (search != "" ==> MatchesIgnoringCase(t.title, search) || MatchesIgnoringCase(t.description, search))
  {
    TaskQuery(
      userId,
      if status != "" then Some(status) else None,
      if priority != "" then Some(priority) else None,
      if search != "" then Some(search) else None)
  }

  /** The query `{ userId }`. */
  function OwnerQuery(userId: UserId): TaskQuery
  {
    TaskQuery(userId, None, None, None)
  }

  /** The query `{ userId, status }` that `getTaskStats` counts. */
  function StatusQuery(userId: UserId, status: string): TaskQuery
  {
    TaskQuery(userId, Some(status), None, None)
  }

  /** A task matches a query when it matches every clause the query has. */
  predicate Satisfies(t: Task, q: TaskQuery)
  {
    && t.userId == q.userId
    && (q.status.Some? ==> t.status == q.status.value)
    && (q.priority.Some? ==> t.priority == q.priority.value)
    && (q.search.Some? ==>
          MatchesIgnoringCase(t.title, q.search.value) || MatchesIgnoringCase(t.description, q.search.value))
  }

  /** `taskModel.find(query)`: the matching tasks, in store order. */
  function Select(tasks: seq<Task>, q: TaskQuery): (r: seq<Task>)
    ensures |r| <= |tasks|
  {
    if tasks == [] then []
    else (if Satisfies(tasks[0], q) then [tasks[0]] else []) + Select(tasks[1..], q)
  }

  /** What one user sees of the store: that user's tasks, in store order. */
  function OwnedBy(tasks: seq<Task>, userId: UserId): seq<Task>
  {
    Select(tasks, OwnerQuery(userId))
  }

  // ----- sort({ createdAt: -1 })

  predicate NewestFirst(s: seq<Task>)
  {
    forall i, j :: 0 <= i < j < |s| ==> s[i].createdAt >= s[j].createdAt
  }

  function InsertByDate(t: Task, s: seq<Task>): (r: seq<Task>)
    requires NewestFirst(s)
    ensures NewestFirst(r)
    ensures multiset(r) == multiset(s) + multiset{t}
    ensures r[0] == t || (s != [] && r[0] == s[0])
  {
    if s == [] || t.createdAt >= s[0].createdAt then [t] + s
    else
      var rest := InsertByDate(t, s[1..]);
      assert s == [s[0]] + s[1..];
      assert s[0].createdAt >= rest[0].createdAt;
      [s[0]] + rest
  }

  /** The sort, newest first; tasks created at the same instant come in an unspecified order. */
  function SortNewestFirst(s: seq<Task>): (r: seq<Task>)
    ensures NewestFirst(r)
    ensures multiset(r) == multiset(s)
  {
    if s == [] then []
    else
      assert s == [s[0]] + s[1..];
      InsertByDate(s[0], SortNewestFirst(s[1..]))
  }

  // ----- the read handlers

  /**
   * `getTasks`: exactly the caller's tasks that meet every given filter, newest
   * first. An empty `status`, `priority` or `search` imposes no constraint.
   */
  function GetTasks(tasks: seq<Task>, userId: UserId, status: string, priority: string, search: string)
    : (r: seq<Task>)
    ensures NewestFirst(r)
    ensures multiset(r) == multiset(Select(tasks, BuildQuery(userId, status, priority, search)))
    ensures forall t :: t in r <==>
      && t in tasks
      && t.userId == userId
      && (status != "" ==> t.status == status)
      && (priority != "" ==> t.priority == priority)
      && (search != "" ==> MatchesIgnoringCase(t.title, search) || MatchesIgnoringCase(t.description, search))
  {
    var q := BuildQuery(userId, status, priority, search);
    var selected := Select(tasks, q);
    var r := SortNewestFirst(selected);
    SelectMembers(tasks, q);
    assert forall t :: t in r <==> t in selected by {
      forall t ensures t in r <==> t in selected {
        assert t in r <==> t in multiset(r);
        assert t in selected <==> t in multiset(selected);
      }
    }
    r
  }

  /** `findOne({ _id: taskId, userId })`: the position of the task with that id and owner. */
  function FindTask(tasks: seq<Task>, taskId: TaskId, userId: UserId): (r: Option<nat>)
    ensures r.Some? ==> r.value < |tasks| && tasks[r.value].id == taskId && tasks[r.value].userId == userId
    ensures r.None? ==> forall i :: 0 <= i < |tasks| ==> !(tasks[i].id == taskId && tasks[i].userId == userId)
  {
    if tasks == [] then None
    else if tasks[0].id == taskId && tasks[0].userId == userId then Some(0)
    else match FindTask(tasks[1..], taskId, userId)
      case None => None
      case Some(i) => Some(i + 1)
  }

  /** `getTaskById`: the task only when both its id and its owner match. */
  function GetTaskById(tasks: seq<Task>, userId: UserId, taskId: TaskId): (r: Result<Task, string>)
    ensures r.Success? <==> exists t :: t in tasks && t.id == taskId && t.userId == userId
    ensures r.Success? ==> r.value in tasks && r.value.id == taskId && r.value.userId == userId
    ensures r.Failure? ==> r.error == TaskNotFound
  {
    match FindTask(tasks, taskId, userId)
    case None => Failure(TaskNotFound)
    case Some(i) => Success(tasks[i])
  }

  /** The `stats` payload. */
  datatype TaskStats = TaskStats(total: nat, pending: nat, inProgress: nat, completed: nat)

  /** `getTaskStats`: four counts over the caller's tasks. */
  function GetTaskStats(tasks: seq<Task>, userId: UserId): (s: TaskStats)
    ensures s.total == |OwnedBy(tasks, userId)|
    ensures s.pending <= s.total && s.inProgress <= s.total && s.completed <= s.total
    ensures s.pending + s.inProgress + s.completed <= s.total
    ensures s.pending == |Select(tasks, StatusQuery(userId, "pending"))|
    ensures s.inProgress == |Select(tasks, StatusQuery(userId, "in-progress"))|
    ensures s.completed == |Select(tasks, StatusQuery(userId, "completed"))|
  {
    DistinctStatusesBound(tasks, userId, "pending", "in-progress", "completed");
    TaskStats(
      |Select(tasks, OwnerQuery(userId))|,
      |Select(tasks, StatusQuery(userId, "pending"))|,
      |Select(tasks, StatusQuery(userId, "in-progress"))|,
      |Select(tasks, StatusQuery(userId, "completed"))|)
  }

  // ----- lemmas about the queries

  /** `find` keeps exactly the tasks that satisfy the query. */
  lemma {:induction false} SelectMembers(tasks: seq<Task>, q: TaskQuery)
    ensures forall t :: t in Select(tasks, q) <==> t in tasks && Satisfies(t, q)
  {
    if tasks != [] {
      SelectMembers(tasks[1..], q);
      assert tasks == [tasks[0]] + tasks[1..];
    }
  }

  lemma {:induction false} SelectConcat(a: seq<Task>, b: seq<Task>, q: TaskQuery)
    ensures Select(a + b, q) == Select(a, q) + Select(b, q)
  {
    if a != [] {
      var head := if Satisfies(a[0], q) then [a[0]] else [];
      assert (a + b)[0] == a[0];
      assert (a + b)[1..] == a[1..] + b;
      assert Select(a + b, q) == head + Select(a[1..] + b, q);
      SelectConcat(a[1..], b, q);
      assert Select(a, q) == head + Select(a[1..], q);
      assert head + (Select(a[1..], q) + Select(b, q)) == (head + Select(a[1..], q)) + Select(b, q);
    } else {
      assert a + b == b;
    }
  }

  /** Each per-status count is a count of the caller's tasks with that exact status, and any three distinct statuses together count at most `total`. */
  lemma {:induction false} DistinctStatusesBound(tasks: seq<Task>, userId: UserId, a: string, b: string, c: string)
    requires a != b && b != c && a != c
    ensures |Select(tasks, StatusQuery(userId, a))| + |Select(tasks, StatusQuery(userId, b))|
          + |Select(tasks, StatusQuery(userId, c))| <= |Select(tasks, OwnerQuery(userId))|
  {
    if tasks != [] {
      DistinctStatusesBound(tasks[1..], userId, a, b, c);
    }
  }

  /** Filtering by a query is the same as filtering that query's owner's view of the store. */
  lemma {:induction false} SelectThroughView(tasks: seq<Task>, q: TaskQuery)
    ensures Select(tasks, q) == Select(OwnedBy(tasks, q.userId), q)
  {
    if tasks != [] {
      SelectThroughView(tasks[1..], q);
      var view := OwnedBy(tasks, q.userId);
      var rest := OwnedBy(tasks[1..], q.userId);
      if tasks[0].userId == q.userId {
        assert view == [tasks[0]] + rest;
        assert view[0] == tasks[0] && view[1..] == rest;
      } else {
        assert view == rest;
        assert Select(tasks, q) == Select(tasks[1..], q);
      }
    }
  }

  /** A lookup by id and owner is decided by that owner's view of the store. */
  lemma {:induction false} GetTaskByIdThroughView(tasks: seq<Task>, userId: UserId, taskId: TaskId)
    ensures GetTaskById(tasks, userId, taskId) == GetTaskById(OwnedBy(tasks, userId), userId, taskId)
  {
    if tasks != [] {
      GetTaskByIdThroughView(tasks[1..], userId, taskId);
      var view := OwnedBy(tasks, userId);
      var rest := OwnedBy(tasks[1..], userId);
      if tasks[0].userId == userId {
        assert view == [tasks[0]] + rest;
        assert view[0] == tasks[0] && view[1..] == rest;
      } else {
        assert view == rest;
      }
    }
  }

  /** Ownership isolation: when the views of one user agree, everything that user can read agrees. */
  lemma ReadsDependOnlyOnView(before: seq<Task>, after: seq<Task>, userId: UserId)
    requires OwnedBy(before, userId) == OwnedBy(after, userId)
    ensures forall st, pr, se :: GetTasks(before, userId, st, pr, se) == GetTasks(after, userId, st, pr, se)
    ensures forall taskId :: GetTaskById(before, userId, taskId) == GetTaskById(after, userId, taskId)
    ensures GetTaskStats(before, userId) == GetTaskStats(after, userId)
  {
    forall st, pr, se ensures GetTasks(before, userId, st, pr, se) == GetTasks(after, userId, st, pr, se) {
      SelectThroughView(before, BuildQuery(userId, st, pr, se));
      SelectThroughView(after, BuildQuery(userId, st, pr, se));
    }
    forall taskId ensures GetTaskById(before, userId, taskId) == GetTaskById(after, userId, taskId) {
      GetTaskByIdThroughView(before, userId, taskId);
      GetTaskByIdThroughView(after, userId, taskId);
    }
    SelectThroughView(before, StatusQuery(userId, "pending"));
    SelectThroughView(after, StatusQuery(userId, "pending"));
    SelectThroughView(before, StatusQuery(userId, "in-progress"));
    SelectThroughView(after, StatusQuery(userId, "in-progress"));
    SelectThroughView(before, StatusQuery(userId, "completed"));
    SelectThroughView(after, StatusQuery(userId, "completed"));
  }

  /** Replacing a task of one owner by another task of that owner leaves every other user's view alone. */
  lemma UpdateKeepsOtherViews(tasks: seq<Task>, i: nat, t: Task, other: UserId)
    requires i < |tasks| && tasks[i].userId == t.userId && other != t.userId
    ensures OwnedBy(tasks[i := t], other) == OwnedBy(tasks, other)
  {
    assert tasks == tasks[..i] + [tasks[i]] + tasks[i + 1..];
    assert tasks[i := t] == tasks[..i] + [t] + tasks[i + 1..];
    SelectConcat(tasks[..i] + [tasks[i]], tasks[i + 1..], OwnerQuery(other));
    SelectConcat(tasks[..i], [tasks[i]], OwnerQuery(other));
    SelectConcat(tasks[..i] + [t], tasks[i + 1..], OwnerQuery(other));
    SelectConcat(tasks[..i], [t], OwnerQuery(other));
  }

  /** Removing a task leaves every view but its owner's alone. */
  lemma RemoveKeepsOtherViews(tasks: seq<Task>, i: nat, other: UserId)
    requires i < |tasks| && other != tasks[i].userId
    ensures OwnedBy(tasks[..i] + tasks[i + 1..], other) == OwnedBy(tasks, other)
  {
    assert tasks == tasks[..i] + [tasks[i]] + tasks[i + 1..];
    SelectConcat(tasks[..i] + [tasks[i]], tasks[i + 1..], OwnerQuery(other));
    SelectConcat(tasks[..i], [tasks[i]], OwnerQuery(other));
    SelectConcat(tasks[..i], tasks[i + 1..], OwnerQuery(other));
  }

  /** Appending a task leaves every view but its owner's alone. */
  lemma AppendKeepsOtherViews(tasks: seq<Task>, t: Task, other: UserId)
    requires other != t.userId
    ensures OwnedBy(tasks + [t], other) == OwnedBy(tasks, other)
  {
    SelectConcat(tasks, [t], OwnerQuery(other));
  }

  // ----- the write handlers

  /** The fields `updateTask` may change; `""` is an absent or falsy field, `None` an undefined description. */
  datatype TaskPatch = TaskPatch(
    title: string,
    description: Option<string>,
    status: string,
    priority: string,
    dueDate: string)

  /**
   * `after` is `before` updated by `updateTask`: `title`, `status`, `priority` and
   * `dueDate` only when truthy, `description` whenever it is defined (even `""`),
   * `updatedAt` always; identity, owner and creation time never.
   */
  predicate PatchedFrom(before: Task, p: TaskPatch, now: int, after: Task)
  {
    && after.id == before.id
    && after.userId == before.userId
    && after.createdAt == before.createdAt
    && after.title == (if p.title != "" then p.title else before.title)
    && after.description == (if p.description.Some? then p.description.value else before.description)
    && after.status == (if p.status != "" then p.status else before.status)
    && after.priority == (if p.priority != "" then p.priority else before.priority)
    && after.dueDate == (if p.dueDate != "" then Some(p.dueDate) else before.dueDate)
    && after.updatedAt == now
  }

  /** The patched task is determined by the task, the patch and the clock. */
  lemma PatchedFromUnique(before: Task, p: TaskPatch, now: int, a1: Task, a2: Task)
    requires PatchedFrom(before, p, now, a1) && PatchedFrom(before, p, now, a2)
    ensures a1 == a2
  {
  }

  /** An update that sets no field (all empty, no description) only refreshes `updatedAt`. */
  lemma EmptyPatchOnlyTouches(before: Task, now: int, after: Task)
    requires PatchedFrom(before, TaskPatch("", None, "", "", ""), now, after)
    ensures after == before.(updatedAt := now)
  {
  }

  /** A status clause counts exactly the owner's tasks with that status, as `countDocuments` does. */
  lemma StatusCountMembers(tasks: seq<Task>, userId: UserId, status: string)
    ensures forall t :: t in Select(tasks, StatusQuery(userId, status)) <==>
      t in tasks && t.userId == userId && t.status == status
  {
  }

  /** A status-only update leaves title, description, priority and due date as they were. */
  lemma StatusOnlyUpdate(before: Task, now: int, after: Task)
    requires PatchedFrom(before, TaskPatch("", None, "completed", "", ""), now, after)
    ensures after.status == "completed"
    ensures after.title == before.title && after.description == before.description
    ensures after.priority == before.priority && after.dueDate == before.dueDate
  {
  }

  /**
   * The task collection. `nextId` stands for the store's id generator;
   * `defaultStatus` is the task schema's status default, which is not part of this model.
   */
  class TaskStore {
    var tasks: seq<Task>
    var nextId: TaskId
    const defaultStatus: string

    ghost predicate Valid()
      reads this
    {
      && (forall i :: 0 <= i < |tasks| ==> tasks[i].id < nextId)
      && (forall i, j :: 0 <= i < j < |tasks| ==> tasks[i].id != tasks[j].id)
    }

    constructor (defaultStatus: string)
      ensures Valid() && tasks == [] && this.defaultStatus == defaultStatus
    {
      tasks := [];
      nextId := 0;
      this.defaultStatus := defaultStatus;
    }

    /** `createTask`: a title is required; the new task is the caller's, with the defaults filled in. */
    method CreateTask(userId: UserId, title: string, description: string, priority: string, dueDate: string, now: int)
      returns (r: Result<Task, string>)
      requires Valid()
      modifies this
      ensures Valid()
      ensures title == "" ==> r == Failure(TitleRequired) && tasks == old(tasks)
      ensures title != "" ==>
        && r.Success?
        && tasks == old(tasks) + [r.value]
        && (forall t :: t in old(tasks) ==> t.id != r.value.id)
        && r.value.userId == userId
        && r.value.title == title
        && r.value.description == description
        && r.value.status == defaultStatus
        && r.value.priority == (if priority == "" then "medium" else priority)
        && r.value.dueDate == (if dueDate == "" then None else Some(dueDate))
        && r.value.createdAt == now && r.value.updatedAt == now
      ensures forall other :: other != userId ==> OwnedBy(tasks, other) == OwnedBy(old(tasks), other)
    {
      if title == "" {
        return Failure(TitleRequired);
      }
      var task := Task(
        nextId, userId, title,
        description,  // `description || ''`: an absent description is already ""
        defaultStatus,
        if priority == "" then "medium" else priority,
        if dueDate == "" then None else Some(dueDate),
        now, now);
      tasks := tasks + [task];
      nextId := nextId + 1;
      r := Success(task);
      forall other | other != userId
        ensures OwnedBy(tasks, other) == OwnedBy(old(tasks), other)
      {
        AppendKeepsOtherViews(old(tasks), task, other);
      }
    }

    /** `updateTask`: on the caller's task with that id, apply the patch field by field; any other task, or none, is "Task not found". */
    method UpdateTask(userId: UserId, taskId: TaskId, patch: TaskPatch, now: int) returns (r: Result<Task, string>)
      requires Valid()
      modifies this`tasks
      ensures Valid()
      ensures FindTask(old(tasks), taskId, userId).None? ==> r == Failure(TaskNotFound) && tasks == old(tasks)
      ensures FindTask(old(tasks), taskId, userId).Some? ==>
        var i := FindTask(old(tasks), taskId, userId).value;
        && r.Success?
        && PatchedFrom(old(tasks)[i], patch, now, r.value)
        && tasks == old(tasks)[i := r.value]
      ensures forall other :: other != userId ==> OwnedBy(tasks, other) == OwnedBy(old(tasks), other)
    {
      var found := FindTask(tasks, taskId, userId);
      if found.None? {
        return Failure(TaskNotFound);
      }
      var i := found.value;
      var task := tasks[i];
      if patch.title != "" { task := task.(title := patch.title); }
      if patch.description.Some? { task := task.(description := patch.description.value); }
      if patch.status != "" { task := task.(status := patch.status); }
      if patch.priority != "" { task := task.(priority := patch.priority); }
      if patch.dueDate != "" { task := task.(dueDate := Some(patch.dueDate)); }
      task := task.(updatedAt := now);
      tasks := tasks[i := task];
      r := Success(task);
      forall other | other != userId
        ensures OwnedBy(tasks, other) == OwnedBy(old(tasks), other)
      {
        UpdateKeepsOtherViews(old(tasks), i, task, other);
      }
    }

    /** `deleteTask`: remove the caller's task with that id; any other task, or none, is "Task not found". */
    method DeleteTask(userId: UserId, taskId: TaskId) returns (r: Result<string, string>)
      requires Valid()
      modifies this`tasks
      ensures Valid()
      ensures FindTask(old(tasks), taskId, userId).None? ==> r == Failure(TaskNotFound) && tasks == old(tasks)
      ensures FindTask(old(tasks), taskId, userId).Some? ==>
        var i := FindTask(old(tasks), taskId, userId).value;
        r == Success(TaskDeleted) && tasks == old(tasks)[..i] + old(tasks)[i + 1..]
      ensures forall other :: other != userId ==> OwnedBy(tasks, other) == OwnedBy(old(tasks), other)
    {
      var found := FindTask(tasks, taskId, userId);
      if found.None? {
        return Failure(TaskNotFound);
      }
      var i := found.value;
      tasks := tasks[..i] + tasks[i + 1..];
      r := Success(TaskDeleted);
      forall other | other != userId
        ensures OwnedBy(tasks, other) == OwnedBy(old(tasks), other)
      {
        RemoveKeepsOtherViews(old(tasks), i, other);
      }
    }
  }
}
