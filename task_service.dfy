/** The task service: translation between rows of the `task_c` table and the
    UI's task records, and the fail-soft contract of each operation, each
    operation taking the replies of the client calls it awaits. */
module TaskService {
  import opened Records
  import opened Client

  /** What the `list_id_c` column holds: the referenced list embedded as an
      object (whose `Id` may be missing), or the raw list id. */
  datatype ListLink = Embedded(Id: Option<int>) | Raw(id: int)

  /** A row of `task_c` as the client returns it. */
  datatype TaskRow = TaskRow(
    Id: int,
    title_c: Option<string>,
    description_c: Option<string>,
    priority_c: Option<string>,
    due_date_c: Option<string>,
    completed_c: Option<bool>,
    list_id_c: Option<ListLink>,
    order_c: Option<int>,
    completed_at_c: Option<string>,
    CreatedOn: Option<string>)

  /** A task as the UI sees it. */
  datatype Task = Task(
    Id: int,
    title: string,
    description: string,
    priority: string,
    dueDate: Option<string>,
    completed: bool,
    listId: Option<ListLink>,
    order: int,
    completedAt: Option<string>,
    createdAt: Option<string>)

  /** The list reference is an embedded object with a truthy `Id`. */
  predicate CarriesId(link: Option<ListLink>) {
    link.Some? && link.value.Embedded? && link.value.Id.Some? && link.value.Id.value != 0
  }

  /** `list_id_c?.Id || list_id_c`. */
  function ListIdOf(raw: Option<ListLink>): (link: Option<ListLink>)
    ensures CarriesId(raw) ==> link == Some(Raw(raw.value.Id.value))
    ensures !CarriesId(raw) ==> link == raw
    ensures !CarriesId(link)
  {
    match raw
    case Some(Embedded(Some(id))) => if id != 0 then Some(Raw(id)) else raw
    case _ => raw
  }

  /** The one translation every read and write of the service applies to a
      row it receives: each column falls back to its UI default when absent
      or falsy, and `Id` and `CreatedOn` are copied unchanged. */
  function Translate(row: TaskRow): (t: Task)
    ensures t.Id == row.Id && t.createdAt == row.CreatedOn
    ensures Blank(row.title_c) ==> t.title == ""
    ensures !Blank(row.title_c) ==> t.title == row.title_c.value
    ensures Blank(row.description_c) ==> t.description == ""
    ensures !Blank(row.description_c) ==> t.description == row.description_c.value
    ensures Blank(row.priority_c) ==> t.priority == ""
    ensures !Blank(row.priority_c) ==> t.priority == row.priority_c.value
    ensures Blank(row.due_date_c) ==> t.dueDate.None?
    ensures !Blank(row.due_date_c) ==> t.dueDate == row.due_date_c
    ensures t.completed <==> row.completed_c == Some(true)
    ensures CarriesId(row.list_id_c) ==> t.listId == Some(Raw(row.list_id_c.value.Id.value))
    ensures !CarriesId(row.list_id_c) ==> t.listId == row.list_id_c
    ensures row.order_c.None? ==> t.order == 0
    ensures row.order_c.Some? ==> t.order == row.order_c.value
    ensures Blank(row.completed_at_c) ==> t.completedAt.None?
    ensures !Blank(row.completed_at_c) ==> t.completedAt == row.completed_at_c
    ensures Normal(t)
  {
    Task(
      Id := row.Id,
      title := TextOr(row.title_c, ""),
      description := TextOr(row.description_c, ""),
      priority := TextOr(row.priority_c, ""),
      dueDate := TextOrNull(row.due_date_c),
      completed := FlagOr(row.completed_c),
      listId := ListIdOf(row.list_id_c),
      order := NumberOr(row.order_c),
      completedAt := TextOrNull(row.completed_at_c),
      createdAt := row.CreatedOn)
  }

  /** The UI records `Translate` can produce: no empty date strings, and no
      embedded list object that still carries an id. */
  predicate Normal(t: Task) {
    t.dueDate != Some("") && t.completedAt != Some("") && !CarriesId(t.listId)
  }

  /** The row that stores a UI record's fields under their column names. */
  function Untranslate(t: Task): TaskRow {
    TaskRow(t.Id, Some(t.title), Some(t.description), Some(t.priority), t.dueDate,
            Some(t.completed), t.listId, Some(t.order), t.completedAt, t.createdAt)
  }

  /** A UI record survives being stored and read back exactly when it is in
      the normal form the translation produces. */
  lemma StoredAndReadBack(t: Task)
    ensures Translate(Untranslate(t)) == t <==> Normal(t)
  {
    var back := Translate(Untranslate(t));
    if Normal(t) {
      assert back.dueDate == t.dueDate;
      assert back.completedAt == t.completedAt;
      assert back.listId == t.listId;
    }
  }

  /** Translating is idempotent: reading back a translated record changes nothing. */
  lemma TranslateIdempotent(row: TaskRow)
    ensures Translate(Untranslate(Translate(row))) == Translate(row)
  {
    StoredAndReadBack(Translate(row));
  }

  /** `tasks` is what a fail-soft fetch returns for `reply`: every row
      translated, in order, or `[]` when the call threw or was rejected. */
  predicate ListedFrom(reply: Reply<seq<TaskRow>>, tasks: seq<Task>) {
    if reply.Accepted? then
      |tasks| == |reply.payload| && forall i :: 0 <= i < |tasks| ==> tasks[i] == Translate(reply.payload[i])
    else
      tasks == []
  }

  /** The task a create or update returns for its write reply: the
      translation of the first successful result, or null when the call threw,
      was rejected, carried no `results`, or no result succeeded. */
  function Written(write: WriteReply<TaskRow>): (t: Option<Task>)
    ensures t.Some? <==> Acknowledged(write)
    ensures t.Some? ==> t.value == Translate(write.payload.value[FirstSuccess(write.payload.value)].data)
  {
    match write
    case Accepted(Some(results)) =>
      var successful := Successes(results);
      if |successful| > 0 then Some(Translate(successful[0])) else None
    case _ => None
  }

  method GetAll(reply: Reply<seq<TaskRow>>) returns (sent: Query, tasks: seq<Task>)
    ensures sent == Query([], [])
    ensures ListedFrom(reply, tasks)
  {
    sent := Query([], []);
    match reply {
      case Accepted(rows) =>
        tasks := seq(|rows|, i requires 0 <= i < |rows| => Translate(rows[i]));
      case _ =>
        tasks := [];
    }
  }

  /** Looks up the record with id `id` (`reply` is that lookup's reply). */
  method GetById(id: int, reply: Reply<TaskRow>) returns (sent: int, task: Option<Task>)
    ensures sent == id
    ensures task.Some? <==> reply.Accepted?
    ensures reply.Accepted? ==> task == Some(Translate(reply.payload))
  {
    sent := id;
    match reply {
      case Accepted(row) =>
        task := Some(Translate(row));
      case _ =>
        task := None;
    }
  }

  /** The fields a caller supplies to create a task; `listId` is taken as
      already parsed. */
  datatype NewTask = NewTask(
    title: Option<string>,
    description: Option<string>,
    priority: Option<string>,
    dueDate: Option<string>,
    listId: int)

  /** The record submitted to create a task. */
  datatype TaskDraft = TaskDraft(
    title_c: string,
    description_c: string,
    priority_c: string,
    due_date_c: Option<string>,
    completed_c: bool,
    list_id_c: int,
    order_c: int,
    completed_at_c: Option<string>)

  /** The order `create` gives a task placed after `tasks`: one more than
      their largest order, or 1 when there are none. */
  function NewOrder(tasks: seq<Task>): (n: int)
    ensures forall i :: 0 <= i < |tasks| ==> tasks[i].order < n
    ensures |tasks| == 0 ==> n == 1
    ensures |tasks| > 0 ==> exists i :: 0 <= i < |tasks| && tasks[i].order == n - 1
  {
    var orders := seq(|tasks|, i requires 0 <= i < |tasks| => NumberOr(Some(tasks[i].order)));
    assert forall i :: 0 <= i < |tasks| ==> orders[i] == tasks[i].order;
    NextOrder(orders)
  }

  /** Creating a task first lists the current tasks (`listing` is that
      fetch's reply), then submits one record placed after all of them, and
      returns the created task or null (`write` is the create reply). */
  method Create(data: NewTask, listing: Reply<seq<TaskRow>>, write: WriteReply<TaskRow>)
    returns (sent: seq<TaskDraft>, created: Option<Task>)
    ensures |sent| == 1
    ensures sent[0].title_c == TextOr(data.title, "")
    ensures sent[0].description_c == TextOr(data.description, "")
    ensures sent[0].priority_c == TextOr(data.priority, "")
    ensures sent[0].due_date_c == TextOrNull(data.dueDate)
    ensures !sent[0].completed_c && sent[0].completed_at_c.None?
    ensures sent[0].list_id_c == data.listId
    ensures listing.Accepted? ==>
      forall i :: 0 <= i < |listing.payload| ==> Translate(listing.payload[i]).order < sent[0].order_c
    ensures listing.Accepted? && |listing.payload| > 0 ==>
      exists i :: 0 <= i < |listing.payload| && Translate(listing.payload[i]).order == sent[0].order_c - 1
    ensures !listing.Accepted? || listing.payload == [] ==> sent[0].order_c == 1
    ensures created == Written(write)
  {
    var _, current := GetAll(listing);
    var draft := TaskDraft(
      title_c := TextOr(data.title, ""),
      description_c := TextOr(data.description, ""),
      priority_c := TextOr(data.priority, ""),
      due_date_c := TextOrNull(data.dueDate),
      completed_c := false,
      list_id_c := data.listId,
      order_c := NewOrder(current),
      completed_at_c := None);
    sent := [draft];
    if listing.Accepted? && |listing.payload| > 0 {
      var i :| 0 <= i < |current| && current[i].order == draft.order_c - 1;
      assert Translate(listing.payload[i]).order == draft.order_c - 1;
    }
    created := Written(write);
  }

  /** The fields a caller may change; an outer `None` is a field left
      `undefined`, an inner `None` an explicit null. */
  datatype TaskChanges = TaskChanges(
    title: Option<Option<string>>,
    description: Option<Option<string>>,
    priority: Option<Option<string>>,
    dueDate: Option<Option<string>>,
    completed: Option<Option<bool>>,
    listId: Option<int>,
    order: Option<Option<int>>,
    completedAt: Option<Option<string>>)

  /** The columns of `task_c` an update may write. */
  datatype Column =
    | IdColumn | TitleColumn | DescriptionColumn | PriorityColumn | DueDateColumn
    | CompletedColumn | ListIdColumn | OrderColumn | CompletedAtColumn

  /** `patch` is the record an update of task `id` submits: `Id` plus
      exactly the columns of the fields given, falsy values included. */
  predicate PatchOf(id: int, changes: TaskChanges, patch: map<Column, Cell>) {
    IdColumn in patch && patch[IdColumn] == Int(id)
    && Sets(patch, TitleColumn, NullableTextCell(changes.title))
    && Sets(patch, DescriptionColumn, NullableTextCell(changes.description))
    && Sets(patch, PriorityColumn, NullableTextCell(changes.priority))
    && Sets(patch, DueDateColumn, NullableTextCell(changes.dueDate))
    && Sets(patch, CompletedColumn, NullableFlagCell(changes.completed))
    && Sets(patch, ListIdColumn, IntCell(changes.listId))
    && Sets(patch, OrderColumn, NullableIntCell(changes.order))
    && Sets(patch, CompletedAtColumn, NullableTextCell(changes.completedAt))
  }

  /** The patch is determined by the update's arguments: no column outside
      the given fields, and no other value, can appear in it. */
  lemma {:induction false} PatchUnique(id: int, changes: TaskChanges, p: map<Column, Cell>, q: map<Column, Cell>)
    requires PatchOf(id, changes, p) && PatchOf(id, changes, q)
    ensures p == q
  {
    forall k: Column
      ensures (k in p <==> k in q) && (k in p ==> p[k] == q[k])
    {
      match k
      case IdColumn =>
      case TitleColumn =>
      case DescriptionColumn =>
      case PriorityColumn =>
      case DueDateColumn =>
      case CompletedColumn =>
      case ListIdColumn =>
      case OrderColumn =>
      case CompletedAtColumn =>
    }
  }

  /** Builds the update record field by field, skipping each field left
      `undefined`. */
  method BuildPatch(id: int, changes: TaskChanges) returns (patch: map<Column, Cell>)
    ensures PatchOf(id, changes, patch)
  {
    var updateData: map<Column, Cell> := map[];
    updateData := Put(updateData, TitleColumn, NullableTextCell(changes.title));
    updateData := Put(updateData, DescriptionColumn, NullableTextCell(changes.description));
    updateData := Put(updateData, PriorityColumn, NullableTextCell(changes.priority));
    updateData := Put(updateData, DueDateColumn, NullableTextCell(changes.dueDate));
    updateData := Put(updateData, CompletedColumn, NullableFlagCell(changes.completed));
    updateData := Put(updateData, ListIdColumn, IntCell(changes.listId));
    updateData := Put(updateData, OrderColumn, NullableIntCell(changes.order));
    updateData := Put(updateData, CompletedAtColumn, NullableTextCell(changes.completedAt));
    patch := map[IdColumn := Int(id)] + updateData;
  }

  method Update(id: int, changes: TaskChanges, write: WriteReply<TaskRow>)
    returns (sent: seq<map<Column, Cell>>, updated: Option<Task>)
    ensures |sent| == 1 && PatchOf(id, changes, sent[0])
    ensures updated == Written(write)
  {
    var patch := BuildPatch(id, changes);
    sent := [patch];
    updated := Written(write);
  }


  method GetByListId(listId: int, reply: Reply<seq<TaskRow>>) returns (sent: Query, tasks: seq<Task>)
    ensures sent == Query([], [Condition("list_id_c", "EqualTo", [Int(listId)])])
    ensures ListedFrom(reply, tasks)
  {
    sent := Query([], [Condition("list_id_c", "EqualTo", [Int(listId)])]);
    match reply {
      case Accepted(rows) =>
        tasks := seq(|rows|, i requires 0 <= i < |rows| => Translate(rows[i]));
      case _ =>
        tasks := [];
    }
  }

  method GetByStatus(completed: bool, reply: Reply<seq<TaskRow>>) returns (sent: Query, tasks: seq<Task>)
    ensures sent == Query([], [Condition("completed_c", "EqualTo", [Bool(completed)])])
    ensures ListedFrom(reply, tasks)
  {
    sent := Query([], [Condition("completed_c", "EqualTo", [Bool(completed)])]);
    match reply {
      case Accepted(rows) =>
        tasks := seq(|rows|, i requires 0 <= i < |rows| => Translate(rows[i]));
      case _ =>
        tasks := [];
    }
  }

  /** Marks a task done: the update sends exactly `completed: true` and the
      completion time `now`. */
  method MarkComplete(id: int, now: string, write: WriteReply<TaskRow>)
    returns (sent: seq<map<Column, Cell>>, updated: Option<Task>)
    ensures sent == [map[IdColumn := Int(id), CompletedColumn := Bool(true), CompletedAtColumn := Text(now)]]
    ensures updated == Written(write)
  {
    var changes := TaskChanges(None, None, None, None, Some(Some(true)), None, None, Some(Some(now)));
    sent, updated := Update(id, changes, write);
    PatchUnique(id, changes, sent[0], map[IdColumn := Int(id), CompletedColumn := Bool(true), CompletedAtColumn := Text(now)]);
  }

  /** Marks a task not done: the update sends exactly `completed: false` and
      a null completion time. */
  method MarkIncomplete(id: int, write: WriteReply<TaskRow>)
    returns (sent: seq<map<Column, Cell>>, updated: Option<Task>)
    ensures sent == [map[IdColumn := Int(id), CompletedColumn := Bool(false), CompletedAtColumn := Null]]
    ensures updated == Written(write)
  {
    var changes := TaskChanges(None, None, None, None, Some(Some(false)), None, None, Some(None));
    sent, updated := Update(id, changes, write);
    PatchUnique(id, changes, sent[0], map[IdColumn := Int(id), CompletedColumn := Bool(false), CompletedAtColumn := Null]);
  }
}
