/**
 * The task router (routes.js): how a loosely typed request body becomes a
 * task record, how an update body becomes a set of field updates, and the
 * create / list / update / delete operations over the task collection. The
 * `updateMany` and `deleteMany` queries the category router runs against
 * this collection are here too.
 */
module Tasks {
  import opened Wrappers
  import opened Http
  import opened Json
  import opened Text
  import opened Tables

  const TITLE_REQUIRED := "Title is required"
  const USER_ID_REQUIRED := "userId is required"
  const TASK_NOT_FOUND := "Task not found"
  const TASK_DELETED := "Task deleted successfully"
  const DEFAULT_CATEGORY := "General"

  /** The three entries of ALLOWED_PRIORITIES. */
  datatype Priority = Low | Medium | High

  function PriorityName(p: Priority): string {
    match p
    case Low => "low"
    case Medium => "medium"
    case High => "high"
  }

  /** A valid JavaScript Date, as the milliseconds since the epoch it holds. */
  type Date = int

  /** `new Date(v)` followed by the `isNaN` test: `None` for an invalid date. How
      the engine parses dates is not modelled; every operation that reads a due
      date takes the parser as a parameter. */
  type DateParser = Value -> Option<Date>

  /** `typeof v === "string" && ALLOWED_PRIORITIES.includes(v)`, and which
      priority it names. */
  function AllowedPriority(v: Value): (p: Option<Priority>)
    ensures p.Some? <==> v.Str? && v.s in {"low", "medium", "high"}
    ensures p.Some? ==> v == Str(PriorityName(p.value))
  {
    if v == Str("low") then Some(Low)
    else if v == Str("medium") then Some(Medium)
    else if v == Str("high") then Some(High)
    else None
  }

  /** `typeof v === "string" && v.trim()`: a string with something besides
      whitespace in it. */
  predicate IsFilledString(v: Value) {
    v.Str? && Trim(v.s) != ""
  }

  lemma {:induction false} FilledMeansNotAllWhitespace(v: Value)
    ensures IsFilledString(v) <==> v.Str? && !AllWhitespace(v.s)
    ensures IsFilledString(v) ==> !AllWhitespace(Trim(v.s))
  {
    if v.Str? {
      TrimMeaning(v.s);
      if Trim(v.s) != [] {
        assert !IsWhitespace(Trim(v.s)[0]);
      }
    }
  }

  /** `body.title || body.name`: the title when it is truthy, otherwise the
      name. */
  function RawTitle(body: Body): (v: Value)
    ensures Truthy(Field(body, "title")) ==> v == Field(body, "title")
    ensures !Truthy(Field(body, "title")) ==> v == Field(body, "name")
  {
    Or(Field(body, "title"), Field(body, "name"))
  }

  /** The category a new task gets: the trimmed input when it is a string with
      something besides whitespace in it, otherwise "General". Either way it is
      not blank. */
  function CategoryOnCreate(v: Value): (c: string)
    ensures !AllWhitespace(c)
    ensures v.Str? && !AllWhitespace(v.s) ==> c == Trim(v.s)
    ensures !(v.Str? && !AllWhitespace(v.s)) ==> c == DEFAULT_CATEGORY
  {
    FilledMeansNotAllWhitespace(v);
    assert !IsWhitespace(DEFAULT_CATEGORY[0]);
    if IsFilledString(v) then Trim(v.s) else DEFAULT_CATEGORY
  }

  /** The priority a new task gets: the one the input names, and "medium" for
      anything else. */
  function PriorityOnCreate(v: Value): (p: Priority)
    ensures AllowedPriority(v).Some? ==> p == AllowedPriority(v).value
    ensures AllowedPriority(v).None? ==> p == Medium
  {
    AllowedPriority(v).GetOr(Medium)
  }

  /** The `taskData` object the create handler builds. `None` marks a field the
      handler leaves out, so that the collection's own default applies. */
  datatype TaskData = TaskData(
    title: string,
    category: string,
    priority: Priority,
    userId: string,
    isComplete: Option<bool>,
    dueDate: Option<Date>,
    image: Option<string>)

  /** Validation and normalisation of a create body. The title check comes
      first, and a truthy `title` that is not a string hides any `name`. */
  function NewTaskData(body: Body, parse: DateParser): (r: Result<TaskData>)
    ensures r == Failure(TITLE_REQUIRED) <==>
              !(RawTitle(body).Str? && !AllWhitespace(RawTitle(body).s))
    ensures r == Failure(USER_ID_REQUIRED) <==>
              RawTitle(body).Str? && !AllWhitespace(RawTitle(body).s) && !Truthy(Field(body, "userId"))
    ensures r.Failure? ==> r.error in {TITLE_REQUIRED, USER_ID_REQUIRED}
    ensures r.Success? ==>
              && r.value.title == Trim(RawTitle(body).s)
              && !AllWhitespace(r.value.title)
              && r.value.userId == ToText(Field(body, "userId"))
              && r.value.category == CategoryOnCreate(Field(body, "category"))
              && r.value.priority == PriorityOnCreate(Field(body, "priority"))
    ensures r.Success? ==>
              && (r.value.isComplete.Some? <==> Field(body, "isComplete").Bool?)
              && (r.value.isComplete.Some? ==> r.value.isComplete.value == Field(body, "isComplete").b)
    ensures r.Success? ==>
              && (r.value.dueDate.Some? <==> Truthy(Field(body, "dueDate")) && parse(Field(body, "dueDate")).Some?)
              && (r.value.dueDate.Some? ==> r.value.dueDate == parse(Field(body, "dueDate")))
    ensures r.Success? ==>
              && (r.value.image.Some? <==> Truthy(Field(body, "image")))
              && (r.value.image.Some? ==> r.value.image.value == ToText(Field(body, "image")))
  {
    var raw := RawTitle(body);
    FilledMeansNotAllWhitespace(raw);
    if !Truthy(raw) || !raw.Str? || Trim(raw.s) == "" then
      Failure(TITLE_REQUIRED)
    else if !Truthy(Field(body, "userId")) then
      Failure(USER_ID_REQUIRED)
    else
      TrimMeaning(raw.s);
      var isComplete := Field(body, "isComplete");
      var due := Field(body, "dueDate");
      var image := Field(body, "image");
      Success(TaskData(
        Trim(raw.s),
        CategoryOnCreate(Field(body, "category")),
        PriorityOnCreate(Field(body, "priority")),
        ToText(Field(body, "userId")),
        if isComplete.Bool? then Some(isComplete.b) else None,
        if Truthy(due) then parse(due) else None,
        if Truthy(image) then Some(ToText(image)) else None))
  }

  /** A truthy `title` that is not a string hides whatever `name` holds, and
      the body is refused. */
  lemma {:induction false} NonStringTitleHidesName(body: Body, parse: DateParser)
    requires Truthy(Field(body, "title")) && !Field(body, "title").Str?
    ensures NewTaskData(body, parse) == Failure(TITLE_REQUIRED)
  {
  }

  /** A task in the collection. `id` stands for the generated `_id`. */
  datatype Task = Task(
    id: nat,
    title: string,
    category: string,
    priority: Priority,
    isComplete: bool,
    userId: string,
    dueDate: Option<Date>,
    image: Option<string>)

  /** The record `Task.create(taskData)` stores, with the collection's default
      for a completion flag the handler left out. */
  function StoredTask(id: nat, d: TaskData, completeDefault: bool): (t: Task)
    ensures t.id == id
    ensures t.title == d.title && t.category == d.category && t.priority == d.priority && t.userId == d.userId
    ensures d.isComplete.Some? ==> t.isComplete == d.isComplete.value
    ensures d.isComplete.None? ==> t.isComplete == completeDefault
    ensures t.dueDate == d.dueDate && t.image == d.image
  {
    Task(id, d.title, d.category, d.priority, d.isComplete.GetOr(completeDefault),
         d.userId, d.dueDate, d.image)
  }

  /** The `updates` object the update handler builds: `None` leaves a field
      alone. For `dueDate`, `Some(None)` clears the field. */
  datatype Updates = Updates(
    title: Option<string>,
    category: Option<string>,
    priority: Option<Priority>,
    isComplete: Option<bool>,
    dueDate: Option<Option<Date>>,
    image: Option<string>)

  /** Validation of an update body. Unlike create, it reads only `title` (never
      `name`), skips an unknown priority instead of coercing it, turns a blank
      category into "General", and tells an absent `dueDate` (left alone) from a
      falsy one (cleared). */
  function TaskUpdates(body: Body, parse: DateParser): (u: Updates)
    ensures u.title.Some? <==> Field(body, "title").Str? && !AllWhitespace(Field(body, "title").s)
    ensures u.title.Some? ==> u.title.value == Trim(Field(body, "title").s)
    ensures u.category.Some? <==> Field(body, "category").Str?
    ensures u.category.Some? ==>
              u.category.value == if AllWhitespace(Field(body, "category").s) then DEFAULT_CATEGORY
                                  else Trim(Field(body, "category").s)
    ensures u.priority.Some? <==> AllowedPriority(Field(body, "priority")).Some?
    ensures u.priority.Some? ==> Field(body, "priority") == Str(PriorityName(u.priority.value))
    ensures u.isComplete.Some? <==> Field(body, "isComplete").Bool?
    ensures u.isComplete.Some? ==> u.isComplete.value == Field(body, "isComplete").b
    ensures "dueDate" !in body ==> u.dueDate == None
    ensures "dueDate" in body && !Truthy(body["dueDate"]) ==> u.dueDate == Some(None)
    ensures "dueDate" in body && Truthy(body["dueDate"]) && parse(body["dueDate"]).None? ==> u.dueDate == None
    ensures "dueDate" in body && Truthy(body["dueDate"]) && parse(body["dueDate"]).Some? ==>
              u.dueDate == Some(parse(body["dueDate"]))
    ensures u.image.Some? <==> Field(body, "image").Str?
    ensures u.image.Some? ==> u.image.value == Field(body, "image").s
  {
    var title := Field(body, "title");
    var category := Field(body, "category");
    var image := Field(body, "image");
    FilledMeansNotAllWhitespace(title);
    FilledMeansNotAllWhitespace(category);
    Updates(
      if IsFilledString(title) then Some(Trim(title.s)) else None,
      if category.Str? then Some(if Trim(category.s) == "" then DEFAULT_CATEGORY else Trim(category.s)) else None,
      AllowedPriority(Field(body, "priority")),
      if Field(body, "isComplete").Bool? then Some(Field(body, "isComplete").b) else None,
      if "dueDate" !in body then None
      else if !Truthy(body["dueDate"]) then Some(None)
      else if parse(body["dueDate"]).Some? then Some(parse(body["dueDate"]))
      else None,
      if image.Str? then Some(image.s) else None)
  }

  /** `$set` of the updates on one task: every field in `u` is replaced, the
      rest (and always the id and the owner) stay. */
  function ApplyUpdates(t: Task, u: Updates): (r: Task)
    ensures r.id == t.id && r.userId == t.userId
    ensures r.title == u.title.GetOr(t.title) && r.category == u.category.GetOr(t.category)
    ensures r.priority == u.priority.GetOr(t.priority) && r.isComplete == u.isComplete.GetOr(t.isComplete)
    ensures r.dueDate == u.dueDate.GetOr(t.dueDate) && r.image == (if u.image.Some? then u.image else t.image)
  {
    t.(title := u.title.GetOr(t.title),
       category := u.category.GetOr(t.category),
       priority := u.priority.GetOr(t.priority),
       isComplete := u.isComplete.GetOr(t.isComplete),
       dueDate := u.dueDate.GetOr(t.dueDate),
       image := if u.image.Some? then u.image else t.image)
  }

  function OwnedBy(userId: string): Task -> bool {
    (t: Task) => t.userId == userId
  }

  function HasId(id: nat): Task -> bool {
    (t: Task) => t.id == id
  }

  function OtherThan(id: nat): Task -> bool {
    (t: Task) => t.id != id
  }

  /** Not a task of `userId` filed under the category `name`. */
  function OutsideCategory(userId: string, name: string): Task -> bool {
    (t: Task) => !(t.userId == userId && t.category == name)
  }

  function TaskId(t: Task): int {
    t.id
  }

  /** GET / : the tasks of one user, newest first. */
  function ListTasks(ts: seq<Task>, userId: Option<string>): (r: Reply<seq<Task>>)
    ensures r.Error? <==> userId.None? || userId.value == ""
    ensures r.Error? ==> r == Error(BAD_REQUEST, USER_ID_REQUIRED)
    ensures r.Ok? ==> r.status == OK
    ensures r.Ok? ==> forall k :: 0 <= k < |r.value| ==> r.value[k] in ts && r.value[k].userId == userId.value
    ensures r.Ok? ==> forall k :: 0 <= k < |ts| && ts[k].userId == userId.value ==> ts[k] in r.value
    ensures r.Ok? && KeysAscending(ts, TaskId) ==> KeysDescending(r.value, TaskId)
  {
    if userId.None? || userId.value == "" then Error(BAD_REQUEST, USER_ID_REQUIRED)
    else
      var mine := Filter(ts, OwnedBy(userId.value));
      FilterKeepsKeysAscending(ts, OwnedBy(userId.value), TaskId);
      ReverseOfAscending(mine, TaskId);
      ReverseKeepsMembers(mine);
      var r := Reverse(mine);
      Ok(OK, r)
  }

  /** PUT /:id after the updates are built: `findByIdAndUpdate` with `new: true`. */
  function UpdateTask(ts: seq<Task>, id: nat, u: Updates): (o: (Reply<Task>, seq<Task>))
    ensures FindFirst(ts, HasId(id)).None? ==> o == (Error(NOT_FOUND, TASK_NOT_FOUND), ts)
    ensures FindFirst(ts, HasId(id)).Some? ==> o.0 == Ok(OK, ApplyUpdates(FindFirst(ts, HasId(id)).value, u))
    ensures |o.1| == |ts|
    ensures forall k :: 0 <= k < |ts| && ts[k].id == id ==> o.1[k] == ApplyUpdates(ts[k], u)
    ensures forall k :: 0 <= k < |ts| && ts[k].id != id ==> o.1[k] == ts[k]
  {
    match FindFirst(ts, HasId(id))
    case None => (Error(NOT_FOUND, TASK_NOT_FOUND), ts)
    case Some(t) =>
      (Ok(OK, ApplyUpdates(t, u)),
       seq(|ts|, k requires 0 <= k < |ts| => if ts[k].id == id then ApplyUpdates(ts[k], u) else ts[k]))
  }

  /** DELETE /:id : `findByIdAndDelete`. */
  function DeleteTask(ts: seq<Task>, id: nat): (o: (Reply<string>, seq<Task>))
    ensures FindFirst(ts, HasId(id)).None? ==> o == (Error(NOT_FOUND, TASK_NOT_FOUND), ts)
    ensures FindFirst(ts, HasId(id)).Some? ==> o.0 == Ok(OK, TASK_DELETED)
    ensures FindFirst(ts, HasId(id)).Some? ==>
              && (forall k :: 0 <= k < |o.1| ==> o.1[k] in ts && o.1[k].id != id)
              && (forall k :: 0 <= k < |ts| && ts[k].id != id ==> ts[k] in o.1)
  {
    if FindFirst(ts, HasId(id)).None? then (Error(NOT_FOUND, TASK_NOT_FOUND), ts)
    else (Ok(OK, TASK_DELETED), Filter(ts, OtherThan(id)))
  }

  /** Deleting a task that exists removes exactly one record and keeps the
      order of the rest. */
  lemma {:induction false} DeleteRemovesOne(ts: seq<Task>, id: nat)
    requires KeysAscending(ts, TaskId) && FindFirst(ts, HasId(id)).Some?
    ensures |DeleteTask(ts, id).1| == |ts| - 1
    ensures KeysAscending(DeleteTask(ts, id).1, TaskId)
  {
    var i :| 0 <= i < |ts| && HasId(id)(ts[i]);
    AscendingKeysUnique(ts, TaskId, i);
    RemoveAtIsFilter(ts, OtherThan(id), i);
    FilterKeepsKeysAscending(ts, OtherThan(id), TaskId);
  }

  /** `Task.updateMany({ userId, category: oldName }, { $set: { category: newName } })`. */
  function RenamedCategory(ts: seq<Task>, userId: string, oldName: string, newName: string): (r: seq<Task>)
    ensures |r| == |ts|
    ensures forall k :: 0 <= k < |ts| && ts[k].userId == userId && ts[k].category == oldName ==>
              r[k] == ts[k].(category := newName)
    ensures forall k :: 0 <= k < |ts| && !(ts[k].userId == userId && ts[k].category == oldName) ==>
              r[k] == ts[k]
  {
    seq(|ts|, k requires 0 <= k < |ts| =>
      if ts[k].userId == userId && ts[k].category == oldName then ts[k].(category := newName) else ts[k])
  }

  /** A newly created task comes first in its owner's list. */
  lemma {:induction false} CreatedTaskListedFirst(ts: seq<Task>, t: Task)
    requires t.userId != ""
    ensures ListTasks(ts + [t], Some(t.userId)).Ok?
    ensures |ListTasks(ts + [t], Some(t.userId)).value| > 0
    ensures ListTasks(ts + [t], Some(t.userId)).value[0] == t
  {
    FilterSnoc(ts, t, OwnedBy(t.userId));
  }

  /** The body a client would send back for a stored task: each field as the
      record holds it, with `dateValue` written for the due date. */
  function ResubmittedBody(d: TaskData, dateValue: Value): Body {
    var b := map["title" := Str(d.title), "category" := Str(d.category),
                 "priority" := Str(PriorityName(d.priority)), "userId" := Str(d.userId)];
    var b := if d.isComplete.Some? then b["isComplete" := Bool(d.isComplete.value)] else b;
    var b := if d.dueDate.Some? then b["dueDate" := dateValue] else b;
    if d.image.Some? then b["image" := Str(d.image.value)] else b
  }

  lemma {:induction false} ResubmittedFields(d: TaskData, dateValue: Value)
    ensures var b := ResubmittedBody(d, dateValue);
      && Field(b, "title") == Str(d.title)
      && Field(b, "category") == Str(d.category)
      && Field(b, "priority") == Str(PriorityName(d.priority))
      && Field(b, "userId") == Str(d.userId)
      && Field(b, "isComplete") == (if d.isComplete.Some? then Bool(d.isComplete.value) else Undefined)
      && Field(b, "dueDate") == (if d.dueDate.Some? then dateValue else Undefined)
      && Field(b, "image") == (if d.image.Some? then Str(d.image.value) else Undefined)
  {
  }

  lemma {:induction false} DefaultCategoryTrimmed()
    ensures Trim(DEFAULT_CATEGORY) == DEFAULT_CATEGORY
  {
    var g := DEFAULT_CATEGORY;
    assert !IsWhitespace(g[0]) && !IsWhitespace(g[|g| - 1]);
    assert g[0..0 + |g|] == g;
    TrimFindsPiece(g, 0, g);
  }

  /** A task record in the form create produces it, as far as resubmitting
      it depends on. */
  predicate Normalised(d: TaskData) {
    && !AllWhitespace(d.title) && Trim(d.title) == d.title
    && !AllWhitespace(d.category) && Trim(d.category) == d.category
    && d.userId != "" && d.image != Some("")
  }

  /** Resubmitting a normalised record gives the same record back. */
  lemma {:induction false} ResubmitNormalised(d: TaskData, parse: DateParser, dateValue: Value)
    requires Normalised(d)
    requires d.dueDate.Some? ==> Truthy(dateValue) && parse(dateValue) == d.dueDate
    ensures NewTaskData(ResubmittedBody(d, dateValue), parse) == Success(d)
  {
    var b := ResubmittedBody(d, dateValue);
    ResubmittedFields(d, dateValue);
    assert d.title != [];
    assert RawTitle(b) == Str(d.title);
    var r := NewTaskData(b, parse);
    assert r.Success?;
    assert r.value.title == d.title && r.value.category == d.category && r.value.priority == d.priority;
    assert r.value.userId == d.userId && r.value.image == d.image;
  }

  /** Normalisation is applied exactly once: resubmitting what create produced
      produces it again. This needs a non-empty owner and image, which a body
      such as `userId: []` (truthy, but `String([])` is "") can break. */
  lemma {:induction false} NewTaskDataIdempotent(body: Body, parse: DateParser, dateValue: Value)
    requires NewTaskData(body, parse).Success?
    requires NewTaskData(body, parse).value.userId != ""
    requires NewTaskData(body, parse).value.image != Some("")
    requires NewTaskData(body, parse).value.dueDate.Some? ==>
               Truthy(dateValue) && parse(dateValue) == NewTaskData(body, parse).value.dueDate
    ensures NewTaskData(ResubmittedBody(NewTaskData(body, parse).value, dateValue), parse)
            == NewTaskData(body, parse)
  {
    var d := NewTaskData(body, parse).value;
    TrimIdempotent(RawTitle(body).s);
    var c := Field(body, "category");
    if c.Str? && !AllWhitespace(c.s) {
      TrimIdempotent(c.s);
    } else {
      DefaultCategoryTrimmed();
    }
    assert Normalised(d);
    ResubmitNormalised(d, parse, dateValue);
  }

  /** One more step of a scan that filters `ts` from the front. */
  lemma {:induction false} ListStep(ts: seq<Task>, i: nat, keep: Task -> bool)
    requires i < |ts|
    ensures Filter(ts[..i + 1], keep) == Filter(ts[..i], keep) + (if keep(ts[i]) then [ts[i]] else [])
  {
    assert ts[..i + 1] == ts[..i] + [ts[i]];
    FilterSnoc(ts[..i], ts[i], keep);
  }

  /** The task collection, with the id counter standing for ObjectId generation. */
  class TaskStore {
    var tasks: seq<Task>
    var nextId: nat
    /** The schema's default for `isComplete`, which the handlers do not show. */
    const completeDefault: bool

    ghost predicate Valid()
      reads this
    {
      KeysAscending(tasks, TaskId) && KeysBelow(tasks, TaskId, nextId)
    }

    constructor (completeDefault: bool)
      ensures Valid() && tasks == [] && this.completeDefault == completeDefault
    {
      tasks := [];
      nextId := 0;
      this.completeDefault := completeDefault;
    }

    /** POST / : a rejected body leaves the collection as it is; an accepted one
        appends one record with a fresh id. */
    method Create(body: Body, parse: DateParser) returns (r: Reply<Task>)
      requires Valid()
      modifies this
      ensures Valid()
      ensures NewTaskData(body, parse).Failure? ==>
                && r == Error(BAD_REQUEST, NewTaskData(body, parse).error)
                && tasks == old(tasks) && nextId == old(nextId)
      ensures NewTaskData(body, parse).Success? ==>
                var t := StoredTask(old(nextId), NewTaskData(body, parse).value, completeDefault);
                && r == Ok(CREATED, t)
                && tasks == old(tasks) + [t] && nextId == old(nextId) + 1
    {
      var data := NewTaskData(body, parse);
      if data.Failure? {
        return Error(BAD_REQUEST, data.error);
      }
      var t := StoredTask(nextId, data.value, completeDefault);
      tasks := tasks + [t];
      nextId := nextId + 1;
      r := Ok(CREATED, t);
    }

    /** GET / : `Task.find({ userId }).sort({ _id: -1 })`. */
    method List(userId: Option<string>) returns (r: Reply<seq<Task>>)
      ensures r == ListTasks(tasks, userId)
    {
      if userId.None? || userId.value == "" {
        return Error(BAD_REQUEST, USER_ID_REQUIRED);
      }
      var owner := OwnedBy(userId.value);
      var mine: seq<Task> := [];
      var i := 0;
      while i < |tasks|
        invariant 0 <= i <= |tasks|
        invariant mine == Reverse(Filter(tasks[..i], owner))
      {
        ListStep(tasks, i, owner);
        if tasks[i].userId == userId.value {
          ReverseSnoc(Filter(tasks[..i], owner), tasks[i]);
          mine := [tasks[i]] + mine;
        }
        i := i + 1;
      }
      assert tasks[..i] == tasks;
      r := Ok(OK, mine);
    }

    /** PUT /:id : builds the updates, then changes the one task with that id. */
    method Update(id: nat, body: Body, parse: DateParser) returns (r: Reply<Task>)
      requires Valid()
      modifies this
      ensures Valid() && nextId == old(nextId)
      ensures (r, tasks) == UpdateTask(old(tasks), id, TaskUpdates(body, parse))
    {
      var u := TaskUpdates(body, parse);
      var i := IndexWhere(tasks, HasId(id));
      if i < 0 {
        return Error(NOT_FOUND, TASK_NOT_FOUND);
      }
      var updated := ApplyUpdates(tasks[i], u);
      ghost var expected := UpdateTask(tasks, id, u);
      assert expected.0 == Ok(OK, updated);
      AscendingKeysUnique(tasks, TaskId, i);
      assert tasks[i := updated] == expected.1;
      tasks := tasks[i := updated];
      r := Ok(OK, updated);
    }

    /** DELETE /:id : removes the one task with that id. */
    method Delete(id: nat) returns (r: Reply<string>)
      requires Valid()
      modifies this
      ensures Valid() && nextId == old(nextId)
      ensures (r, tasks) == DeleteTask(old(tasks), id)
    {
      var i := IndexWhere(tasks, HasId(id));
      if i < 0 {
        return Error(NOT_FOUND, TASK_NOT_FOUND);
      }
      AscendingKeysUnique(tasks, TaskId, i);
      RemoveAtIsFilter(tasks, OtherThan(id), i);
      FilterKeepsKeysAscending(tasks, OtherThan(id), TaskId);
      tasks := tasks[..i] + tasks[i + 1..];
      r := Ok(OK, TASK_DELETED);
    }

    /** `Task.updateMany`: moves every task of `userId` filed under `oldName` to
        `newName`. */
    method RenameCategory(userId: string, oldName: string, newName: string)
      requires Valid()
      modifies this
      ensures Valid() && nextId == old(nextId)
      ensures tasks == RenamedCategory(old(tasks), userId, oldName, newName)
    {
      var renamed: seq<Task> := [];
      var i := 0;
      while i < |tasks|
        invariant 0 <= i <= |tasks|
        invariant |renamed| == i
        invariant forall k :: 0 <= k < i ==> renamed[k] == RenamedCategory(tasks, userId, oldName, newName)[k]
      {
        var t := tasks[i];
        renamed := renamed + [if t.userId == userId && t.category == oldName then t.(category := newName) else t];
        i := i + 1;
      }
      tasks := renamed;
    }

    /** `Task.deleteMany`: removes every task of `userId` filed under `name`. */
    method DeleteCategory(userId: string, name: string)
      requires Valid()
      modifies this
      ensures Valid() && nextId == old(nextId)
      ensures tasks == Filter(old(tasks), OutsideCategory(userId, name))
    {
      var keep := OutsideCategory(userId, name);
      var kept: seq<Task> := [];
      var i := 0;
      while i < |tasks|
        invariant 0 <= i <= |tasks|
        invariant kept == Filter(tasks[..i], keep)
        invariant unchanged(this)
      {
        ListStep(tasks, i, keep);
        if keep(tasks[i]) {
          kept := kept + [tasks[i]];
        }
        i := i + 1;
      }
      assert tasks[..i] == tasks;
      FilterKeepsKeysAscending(tasks, keep, TaskId);
      FilterKeepsKeysBelow(tasks, keep, TaskId, nextId);
      tasks := kept;
    }
  }
}
