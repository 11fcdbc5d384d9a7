/**
 * The category router (categoryRoutes.js). Tasks refer to their category by
 * name, not by id, so renaming a category rewrites the tasks that carry its
 * old name and deleting one deletes them.
 */
module Categories {
  import opened Wrappers
  import opened Http
  import opened Json
  import opened Text
  import opened Tables
  import opened Tasks

  const NAME_AND_USER_REQUIRED := "name and userId are required"
  const NAME_REQUIRED := "name is required"
  const CATEGORY_NOT_FOUND := "Category not found"
  const CATEGORY_DELETED := "Category and tasks deleted"

  /** A category record. `id` stands for the generated `_id`; as ids grow with
      creation time, ascending ids are ascending `createdAt`. */
  datatype Category = Category(id: nat, name: string, userId: string)

  function CategoryId(c: Category): int {
    c.id
  }

  function BelongsTo(userId: string): Category -> bool {
    (c: Category) => c.userId == userId
  }

  function IsCategory(id: nat): Category -> bool {
    (c: Category) => c.id == id
  }

  function NotCategory(id: nat): Category -> bool {
    (c: Category) => c.id != id
  }

  /** GET / : the categories of one user, oldest first. */
  function ListCategories(cs: seq<Category>, userId: Option<string>): (r: Reply<seq<Category>>)
    ensures r.Error? <==> userId.None? || userId.value == ""
    ensures r.Error? ==> r == Error(BAD_REQUEST, USER_ID_REQUIRED)
    ensures r.Ok? ==> r.status == OK
    ensures r.Ok? ==> forall k :: 0 <= k < |r.value| ==> r.value[k] in cs && r.value[k].userId == userId.value
    ensures r.Ok? ==> forall k :: 0 <= k < |cs| && cs[k].userId == userId.value ==> cs[k] in r.value
    ensures r.Ok? && KeysAscending(cs, CategoryId) ==> KeysAscending(r.value, CategoryId)
  {
    if userId.None? || userId.value == "" then Error(BAD_REQUEST, USER_ID_REQUIRED)
    else
      FilterKeepsKeysAscending(cs, BelongsTo(userId.value), CategoryId);
      Ok(OK, Filter(cs, BelongsTo(userId.value)))
  }

  /** POST / : both fields must be truthy; the name is trimmed only after that
      check, and nothing is compared with the categories already stored. */
  function CreateCategory(cs: seq<Category>, nextId: nat, body: Body): (o: (Reply<Category>, seq<Category>))
    ensures !Truthy(Field(body, "name")) || !Truthy(Field(body, "userId")) ==>
              o == (Error(BAD_REQUEST, NAME_AND_USER_REQUIRED), cs)
    ensures Truthy(Field(body, "name")) && Truthy(Field(body, "userId")) ==>
              var c := Category(nextId, Trim(ToText(Field(body, "name"))), ToText(Field(body, "userId")));
              o == (Ok(CREATED, c), cs + [c])
  {
    var name := Field(body, "name");
    var userId := Field(body, "userId");
    if !Truthy(name) || !Truthy(userId) then (Error(BAD_REQUEST, NAME_AND_USER_REQUIRED), cs)
    else
      var c := Category(nextId, Trim(ToText(name)), ToText(userId));
      (Ok(CREATED, c), cs + [c])
  }

  /** A name made only of whitespace passes the check and is stored empty. */
  lemma {:induction false} BlankNameStoredEmpty(cs: seq<Category>, nextId: nat, body: Body)
    requires Field(body, "name").Str? && Field(body, "name").s != [] && AllWhitespace(Field(body, "name").s)
    requires Truthy(Field(body, "userId"))
    ensures CreateCategory(cs, nextId, body).0.Ok?
    ensures CreateCategory(cs, nextId, body).0.value.name == ""
  {
    TrimMeaning(Field(body, "name").s);
  }

  /** Creating the same category twice stores two records, with different ids. */
  lemma {:induction false} CreateTwiceKeepsBoth(cs: seq<Category>, nextId: nat, body: Body)
    requires CreateCategory(cs, nextId, body).0.Ok?
    ensures var cs1 := CreateCategory(cs, nextId, body).1;
            var r2 := CreateCategory(cs1, nextId + 1, body);
            && r2.0.Ok?
            && r2.1 == cs + [CreateCategory(cs, nextId, body).0.value, r2.0.value]
            && r2.0.value.name == CreateCategory(cs, nextId, body).0.value.name
            && r2.0.value.userId == CreateCategory(cs, nextId, body).0.value.userId
            && r2.0.value.id != CreateCategory(cs, nextId, body).0.value.id
  {
  }

  /** PUT /:id : the name is checked before the id is looked up. On success the
      record gets the new trimmed name, and the tasks the old name filed under
      it for the same user move to the new name. */
  function RenameCategory(cs: seq<Category>, ts: seq<Task>, id: nat, body: Body): (o: (Reply<Category>, seq<Category>, seq<Task>))
    ensures !Truthy(Field(body, "name")) ==> o == (Error(BAD_REQUEST, NAME_REQUIRED), cs, ts)
    ensures Truthy(Field(body, "name")) && FindFirst(cs, IsCategory(id)).None? ==>
              o == (Error(NOT_FOUND, CATEGORY_NOT_FOUND), cs, ts)
    ensures Truthy(Field(body, "name")) && FindFirst(cs, IsCategory(id)).Some? ==>
              var c := FindFirst(cs, IsCategory(id)).value;
              var newName := Trim(ToText(Field(body, "name")));
              && o.0 == Ok(OK, c.(name := newName))
              && |o.1| == |cs|
              && (forall k :: 0 <= k < |cs| && cs[k].id == id ==> o.1[k] == cs[k].(name := newName))
              && (forall k :: 0 <= k < |cs| && cs[k].id != id ==> o.1[k] == cs[k])
              && o.2 == RenamedCategory(ts, c.userId, c.name, newName)
  {
    var name := Field(body, "name");
    if !Truthy(name) then (Error(BAD_REQUEST, NAME_REQUIRED), cs, ts)
    else
      match FindFirst(cs, IsCategory(id))
      case None => (Error(NOT_FOUND, CATEGORY_NOT_FOUND), cs, ts)
      case Some(c) =>
        var newName := Trim(ToText(name));
        (Ok(OK, c.(name := newName)),
         seq(|cs|, k requires 0 <= k < |cs| => if cs[k].id == id then cs[k].(name := newName) else cs[k]),
         RenamedCategory(ts, c.userId, c.name, newName))
  }

  /** DELETE /:id : the tasks of the category's user filed under its name go,
      then the record itself. */
  function DeleteCategory(cs: seq<Category>, ts: seq<Task>, id: nat): (o: (Reply<string>, seq<Category>, seq<Task>))
    ensures FindFirst(cs, IsCategory(id)).None? ==> o == (Error(NOT_FOUND, CATEGORY_NOT_FOUND), cs, ts)
    ensures FindFirst(cs, IsCategory(id)).Some? ==>
              var c := FindFirst(cs, IsCategory(id)).value;
              && o.0 == Ok(OK, CATEGORY_DELETED)
              && (forall k :: 0 <= k < |o.1| ==> o.1[k] in cs && o.1[k].id != id)
              && (forall k :: 0 <= k < |cs| && cs[k].id != id ==> cs[k] in o.1)
              && (forall k :: 0 <= k < |o.2| ==> o.2[k] in ts && !(o.2[k].userId == c.userId && o.2[k].category == c.name))
              && (forall k :: 0 <= k < |ts| && !(ts[k].userId == c.userId && ts[k].category == c.name) ==> ts[k] in o.2)
  {
    match FindFirst(cs, IsCategory(id))
    case None => (Error(NOT_FOUND, CATEGORY_NOT_FOUND), cs, ts)
    case Some(c) =>
      (Ok(OK, CATEGORY_DELETED), Filter(cs, NotCategory(id)), Filter(ts, OutsideCategory(c.userId, c.name)))
  }

  /** Deleting a category that exists removes exactly its one record, and a
      second category of the same user with the same name survives it, with
      none of its tasks left. */
  lemma {:induction false} DeleteRemovesOneCategory(cs: seq<Category>, ts: seq<Task>, id: nat, j: nat)
    requires KeysAscending(cs, CategoryId) && FindFirst(cs, IsCategory(id)).Some?
    requires j < |cs| && cs[j].id != id
    requires cs[j].userId == FindFirst(cs, IsCategory(id)).value.userId
    requires cs[j].name == FindFirst(cs, IsCategory(id)).value.name
    ensures |DeleteCategory(cs, ts, id).1| == |cs| - 1
    ensures cs[j] in DeleteCategory(cs, ts, id).1
    ensures forall k :: 0 <= k < |DeleteCategory(cs, ts, id).2| ==>
              DeleteCategory(cs, ts, id).2[k].category != cs[j].name || DeleteCategory(cs, ts, id).2[k].userId != cs[j].userId
  {
    var i :| 0 <= i < |cs| && IsCategory(id)(cs[i]);
    AscendingKeysUnique(cs, CategoryId, i);
    RemoveAtIsFilter(cs, NotCategory(id), i);
  }

  /** A rename touches nothing but the renamed record and the tasks that carried
      its old name for its user: each other task keeps every field, the moved
      ones change only their category, and no task is added or lost. */
  lemma {:induction false} RenameTouchesOnlyItsTasks(cs: seq<Category>, ts: seq<Task>, id: nat, body: Body, k: nat)
    requires Truthy(Field(body, "name")) && FindFirst(cs, IsCategory(id)).Some?
    requires k < |ts|
    ensures var c := FindFirst(cs, IsCategory(id)).value;
            var after := RenameCategory(cs, ts, id, body).2;
            && |after| == |ts|
            && after[k].(category := ts[k].category) == ts[k]
            && (after[k] != ts[k] ==> ts[k].userId == c.userId && ts[k].category == c.name)
            && (ts[k].userId == c.userId && ts[k].category == c.name ==> after[k].category == Trim(ToText(Field(body, "name"))))
  {
  }

  /** The category collection, with the id counter standing for ObjectId and
      `createdAt` generation. */
  class CategoryStore {
    var categories: seq<Category>
    var nextId: nat

    ghost predicate Valid()
      reads this
    {
      KeysAscending(categories, CategoryId) && KeysBelow(categories, CategoryId, nextId)
    }

    constructor ()
      ensures Valid() && categories == []
    {
      categories := [];
      nextId := 0;
    }

    /** GET / : `Category.find({ userId }).sort({ createdAt: 1 })`. */
    method List(userId: Option<string>) returns (r: Reply<seq<Category>>)
      ensures r == ListCategories(categories, userId)
    {
      if userId.None? || userId.value == "" {
        return Error(BAD_REQUEST, USER_ID_REQUIRED);
      }
      var owner := BelongsTo(userId.value);
      var mine: seq<Category> := [];
      var i := 0;
      while i < |categories|
        invariant 0 <= i <= |categories|
        invariant mine == Filter(categories[..i], owner)
      {
        assert categories[..i + 1] == categories[..i] + [categories[i]];
        FilterSnoc(categories[..i], categories[i], owner);
        if owner(categories[i]) {
          mine := mine + [categories[i]];
        }
        i := i + 1;
      }
      assert categories[..i] == categories;
      r := Ok(OK, mine);
    }

    /** POST / : `Category.create`. */
    method Create(body: Body) returns (r: Reply<Category>)
      requires Valid()
      modifies this
      ensures Valid()
      ensures (r, categories) == CreateCategory(old(categories), old(nextId), body)
      ensures nextId == if r.Ok? then old(nextId) + 1 else old(nextId)
    {
      var name := Field(body, "name");
      var userId := Field(body, "userId");
      if !Truthy(name) || !Truthy(userId) {
        return Error(BAD_REQUEST, NAME_AND_USER_REQUIRED);
      }
      var c := Category(nextId, Trim(ToText(name)), ToText(userId));
      categories := categories + [c];
      nextId := nextId + 1;
      r := Ok(CREATED, c);
    }

    /** PUT /:id : renames the record, saves it, then runs the task cascade. */
    method Rename(id: nat, body: Body, store: TaskStore) returns (r: Reply<Category>)
      requires Valid() && store.Valid()
      modifies this, store
      ensures Valid() && store.Valid()
      ensures nextId == old(nextId) && store.nextId == old(store.nextId)
      ensures (r, categories, store.tasks) == RenameCategory(old(categories), old(store.tasks), id, body)
    {
      var name := Field(body, "name");
      if !Truthy(name) {
        return Error(BAD_REQUEST, NAME_REQUIRED);
      }
      var i := IndexWhere(categories, IsCategory(id));
      if i < 0 {
        return Error(NOT_FOUND, CATEGORY_NOT_FOUND);
      }
      var c := categories[i];
      var renamed := c.(name := Trim(ToText(name)));
      AscendingKeysUnique(categories, CategoryId, i);
      ghost var expected := RenameCategory(categories, store.tasks, id, body);
      assert categories[i := renamed] == expected.1;
      categories := categories[i := renamed];
      store.RenameCategory(c.userId, c.name, renamed.name);
      r := Ok(OK, renamed);
    }

    /** DELETE /:id : `Task.deleteMany` for the category's tasks, then
        `category.deleteOne()`. */
    method Delete(id: nat, store: TaskStore) returns (r: Reply<string>)
      requires Valid() && store.Valid()
      modifies this, store
      ensures Valid() && store.Valid()
      ensures nextId == old(nextId) && store.nextId == old(store.nextId)
      ensures (r, categories, store.tasks) == DeleteCategory(old(categories), old(store.tasks), id)
    {
      var i := IndexWhere(categories, IsCategory(id));
      if i < 0 {
        return Error(NOT_FOUND, CATEGORY_NOT_FOUND);
      }
      var c := categories[i];
      store.DeleteCategory(c.userId, c.name);
      AscendingKeysUnique(categories, CategoryId, i);
      RemoveAtIsFilter(categories, NotCategory(id), i);
      FilterKeepsKeysAscending(categories, NotCategory(id), CategoryId);
      FilterKeepsKeysBelow(categories, NotCategory(id), CategoryId, nextId);
      categories := categories[..i] + categories[i + 1..];
      r := Ok(OK, CATEGORY_DELETED);
    }
  }
}
