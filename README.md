# Task board API — a Dafny model

This project models the server side of a personal task-board web application.
The app is an Express REST API over three document collections: users, categories and tasks.

- **Task router** (`routes.js`): turns a loosely typed JSON body into a task record. The rules cover:
  - where the title comes from (`title`, falling back to `name`), and that it is trimmed;
  - the category default `"General"`;
  - priority coercion into low / medium / high;
  - when `isComplete`, `dueDate` and `image` are kept.

  It builds the partial update set under its own, different rules. It then creates, lists (per user, newest first), updates by id and deletes by id.
- **Category router** (`categoryRoutes.js`): per-user categories without a uniqueness check. Tasks refer to a category by its *name*. So a rename rewrites the `category` string of every task of that user that carried the old name, and a delete removes those tasks and then the category record.
- **Account router** (`authRoutes.js`): registration normalises the email (trim, then lower-case) and refuses a duplicate. Login answers an unknown email and a wrong password with the same 401.

## How the model is built

- **Request body.** A body is a map from field name to a small JavaScript value type (`Json.Value`: undefined, null, boolean, integer, string, array, object).
  - A missing key reads as `undefined`, and `hasOwnProperty` is key membership.
  - Truthiness, `a || b`, the `typeof` tests and `String(v)` are written out, including `String([]) == ""` and `String([1, 2]) == "1,2"`.
- **Replies.** Every handler answers with an `Http.Reply`: a status and a value, or a status and an error message. The handlers' exact messages are constants.
- **Trim.** `Text.Trim` removes the full set of ECMAScript WhiteSpace and LineTerminator code points, as `String.prototype.trim` does.
- **Lower-casing.** `Text.ToLower` maps only the ASCII letters.
- **Dates.** `new Date(v)` followed by the `isNaN` test is a parameter `parse: Value -> Option<Date>`. A date is its millisecond count.
- **Collections.** Each collection is a class holding a `seq` of records in insertion order: `Tasks.TaskStore`, `Categories.CategoryStore` and `Auth.UserStore`.
  - An id counter stands for ObjectId generation. So `Valid()` keeps ids ascending and below the counter.
  - "Newest first" means descending id, and "oldest `createdAt` first" means ascending id.
- **Specifications.** Every route is also a pure function of the collections before the call (`ListTasks`, `UpdateTask`, `RenameCategory`, `RegisterUser`, …). Each handler method is proved to compute exactly that function.
  - The methods keep the source's form. Lookups scan with `Tables.IndexWhere`, `find` scans build the result, and `updateMany` and `deleteMany` are loops over the task array.
  - The properties are proved about the functions, as their postconditions and as lemmas.
- **Cascades.** A cascade runs as two sequential sub-steps. Rename saves the category record, then runs `Task.updateMany`. Delete runs `Task.deleteMany`, then `category.deleteOne()`.

Three details of the handlers worth noting:
- Category rename checks the `name` before it looks up the id. So a falsy name gets 400 even for an unknown id.
- Category create checks truthiness before trimming. So a whitespace-only name is accepted and stored as `""` (`Categories.BlankNameStoredEmpty`).
- Task update stores any string `image`, the empty string included. Task create keeps an `image` only when it is truthy.

## Model

| member | source | states |
|---|---|---|
| Json.FalsyValues | routes.js:18 | a value is falsy exactly when it is `undefined`, `null`, `false`, `0` or `""` |
| Json.Or | routes.js:13 | `a \|\| b` is the left operand when that is truthy and the right one otherwise, and it is truthy exactly when either operand is |
| Json.ToText | routes.js:36 | `String(v)` of a string is the string itself, and of anything but a string or an array (a number, boolean, `null`, `undefined`, an object) is never empty |
| Json.ToTextExamples | routes.js:51 | `String([])` is `""` although `[]` is truthy; `String([1, 2])` is `"1,2"`, `String([null, "a"])` is `",a"`, `String(-12)` is `"-12"`, `String({})` is `"[object Object]"` |
| Text.TrimMeaning | routes.js:14 | the contract of `Text.Trim`, kept as a lemma: what trim keeps is empty exactly when the input is all whitespace; otherwise it starts and ends with a non-whitespace character and sits in the input between whitespace only |
| Text.TrimIdempotent | routes.js:24 | trimming a trimmed string changes nothing |
| Text.TrimIgnoresPadding | authRoutes.js:42 | whitespace added around a string does not change its trim |
| Text.ToLower | authRoutes.js:14 | lower-casing keeps the length, maps every ASCII capital to its small letter and leaves every other character |
| Text.ToLowerIdempotent | authRoutes.js:14 | lower-casing twice is lower-casing once |
| Text.CaseVariantsLowerAlike | authRoutes.js:42 | strings that differ only in ASCII letter case lower-case to the same string |
| Text.TrimOfLower | authRoutes.js:14 | trim and lower-case commute |
| Tables.Filter | routes.js:68 | a query's result holds only matching records from the collection, and every matching record |
| Tables.FilterKeepsKeysAscending | routes.js:68 | a query keeps the records in id order |
| Tables.FindFirst | routes.js:113 | a lookup finds nothing exactly when no record matches, and otherwise a matching record of the collection |
| Tables.IndexWhere | routes.js:113 | the scan returns a matching position with no match before it, holding the record the lookup returns, or -1 exactly when nothing matches |
| Tables.RemoveAtIsFilter | routes.js:132 | removing the single record the predicate refuses is filtering by the predicate |
| Tasks.AllowedPriority | routes.js:28 | a value is an allowed priority exactly when it is one of the strings "low", "medium", "high", and the priority returned is the one it names |
| Tasks.FilledMeansNotAllWhitespace | routes.js:14 | `typeof v === "string" && v.trim()` holds exactly for strings that are not all whitespace, and their trim is not blank |
| Tasks.RawTitle | routes.js:13 | the raw title is the `title` field when that is truthy, and the `name` field otherwise |
| Tasks.NonStringTitleHidesName | routes.js:13-16 | a truthy `title` that is not a string gets "Title is required", whatever `name` holds |
| Tasks.CategoryOnCreate | routes.js:22-25 | the new task's category is never blank: the trimmed input when that is a non-blank string, "General" otherwise |
| Tasks.PriorityOnCreate | routes.js:27-30 | the new task's priority is the allowed one named, and "medium" for any other input |
| Tasks.NewTaskData | routes.js:13-52 | "Title is required" exactly when the first truthy of `title`/`name` is not a non-blank string (so a truthy non-string title blocks the name); only then "userId is required" for a falsy userId; on success the trimmed title, `String(userId)`, the category and priority rules, `isComplete` only for a boolean, `dueDate` only when truthy and parsed, `image` as `String(image)` only when truthy |
| Tasks.StoredTask | routes.js:54 | the stored task has the generated id and every field of the task data, with the collection's default completion flag when the data has none |
| Tasks.NewTaskDataIdempotent | routes.js:13-52 | resubmitting the record create produced produces it again, given a non-empty owner and image |
| Tasks.ResubmitNormalised | routes.js:32-52 | a record already in normal form comes back unchanged through create's normalisation |
| Tasks.TaskUpdates | routes.js:80-111 | update reads only `title` (never `name`) and keeps it only when non-blank; trims any string category, and a blank one becomes "General"; skips an unknown priority; keeps only a boolean `isComplete`; `dueDate` absent leaves it, present and falsy clears it, present and unparseable leaves it, present and parsed sets it; any string image is set |
| Tasks.ApplyUpdates | routes.js:113-116 | `$set` replaces exactly the fields in the update set; id and owner never change |
| Tasks.ListTasks | routes.js:63-69 | no or empty `userId` gives 400 "userId is required"; otherwise 200 with exactly the tasks whose owner is the query, in descending id order |
| Tasks.CreatedTaskListedFirst | routes.js:54-68 | a newly created task is the first in its owner's list |
| Tasks.UpdateTask | routes.js:113-122 | an unknown id gives 404 "Task not found" and no change; otherwise the updated task is returned, the task with that id gets the updates and every other task is untouched, and no task is added or lost |
| Tasks.DeleteTask | routes.js:130-138 | an unknown id gives 404 and no change; otherwise "Task deleted successfully", and what remains is exactly the tasks with other ids |
| Tasks.DeleteRemovesOne | routes.js:132 | deleting a task that exists removes exactly one record and keeps the others in id order |
| Tasks.RenamedCategory | categoryRoutes.js:55-58 | `updateMany` moves exactly the tasks of the user under the old name to the new name, leaves every other task, and keeps the count |
| Tasks.TaskStore.Create | routes.js:9-55 | a rejected body leaves the collection and the counter unchanged; an accepted one appends the stored task with a fresh id and replies 201 with it |
| Tasks.TaskStore.List | routes.js:63-69 | the scan returns exactly `ListTasks` of the collection |
| Tasks.TaskStore.Update | routes.js:77-122 | the reply and the new collection are `UpdateTask` of the old collection with the update set built from the body |
| Tasks.TaskStore.Delete | routes.js:130-138 | the reply and the new collection are `DeleteTask` of the old collection |
| Tasks.TaskStore.RenameCategory | categoryRoutes.js:55-58 | the loop leaves the collection as `RenamedCategory` of the old one, ids in order |
| Tasks.TaskStore.DeleteCategory | categoryRoutes.js:73 | the loop leaves exactly the tasks outside the user's category, ids in order |
| Categories.ListCategories | categoryRoutes.js:8-14 | no or empty `userId` gives 400; otherwise exactly that user's categories, in creation order |
| Categories.CreateCategory | categoryRoutes.js:22-34 | a falsy name or userId gives 400 and no change; otherwise one record with `String(name).trim()` and `String(userId)` is appended, with no duplicate check |
| Categories.BlankNameStoredEmpty | categoryRoutes.js:24-30 | a whitespace-only name passes the check and is stored as "" |
| Categories.CreateTwiceKeepsBoth | categoryRoutes.js:29-32 | creating the same category twice stores two records with the same name and owner and different ids |
| Categories.RenameCategory | categoryRoutes.js:42-60 | a falsy name gives 400 before the lookup, an unknown id 404, both with no change; otherwise the record gets the trimmed new name, no other record changes, and the tasks move as `RenamedCategory` says |
| Categories.RenameTouchesOnlyItsTasks | categoryRoutes.js:50-58 | after a rename each task differs from before at most in its category, only the tasks of the category's user under the old name change, and those carry the new name |
| Categories.DeleteCategory | categoryRoutes.js:68-76 | an unknown id gives 404 and no change; otherwise exactly the tasks of the category's user under its name are gone, every other task survives, and exactly the records with other ids remain |
| Categories.DeleteRemovesOneCategory | categoryRoutes.js:70-74 | deleting a category removes exactly one record; a second same-named category of the same user survives, and no task of that user under that name is left |
| Categories.CategoryStore.List | categoryRoutes.js:8-14 | the scan returns exactly `ListCategories` of the collection |
| Categories.CategoryStore.Create | categoryRoutes.js:22-34 | the reply and the new collection are `CreateCategory` of the old one; the counter advances only on success |
| Categories.CategoryStore.Rename | categoryRoutes.js:42-60 | both collections end as `RenameCategory` of the old ones says, and both keep their invariants |
| Categories.CategoryStore.Delete | categoryRoutes.js:68-76 | both collections end as `DeleteCategory` of the old ones says, and both keep their invariants |
| Auth.NormalizeEmail | authRoutes.js:14 | the normalised email is no longer than the input, holds no ASCII capital, and is empty exactly when the input is all whitespace |
| Auth.NormalizeEmailIdempotent | authRoutes.js:14 | normalising an email twice gives what normalising once gives |
| Auth.EmailVariantsNormalizeAlike | authRoutes.js:42 | an email in other ASCII letter case, with whitespace around it, normalises to the same address |
| Auth.RegisterUser | authRoutes.js:7-27 | a falsy name, email or password gives 400 and no change; an existing normalised email gives 409 and no change; otherwise exactly one user with the trimmed name and normalised email is appended and 201 returns id = email = the normalised email; unique emails stay unique |
| Auth.RegisterAllKeepsEmailsUnique | authRoutes.js:16-25 | after any sequence of registrations no two users share an email |
| Auth.RegisterTwiceConflicts | authRoutes.js:16-19 | registering the same body again gives 409 and no change |
| Auth.LoginUser | authRoutes.js:35-49 | a falsy email or password gives 400; otherwise login succeeds exactly when the account found by normalised email has the password, returning its id, name and email, and every other case is the same 401 "Incorrect email or password" |
| Auth.LoginMatchesSomeAccount | authRoutes.js:43-45 | with unique emails, login succeeds exactly when some account has the normalised email and the password |
| Auth.RegisterThenLogin | authRoutes.js:42-49 | after a registration, login with the same password and any truthy email that normalises to the registered address returns what register returned |
| Auth.RegisterThenLoginWithVariant | authRoutes.js:42-49 | in particular the registered email, trimmed, in any ASCII letter case and with any whitespace around it, logs in with the same password |
| Auth.LoginWithReturnedEmail | authRoutes.js:42-49 | logging in with the email register returned, and the same password, returns the same profile |
| Auth.UserStore.Register | authRoutes.js:7-27 | the lookup then insert computes exactly `RegisterUser`, and the table keeps unique emails |
| Auth.UserStore.Login | authRoutes.js:35-49 | the lookup and comparison compute exactly `LoginUser` |

## Left out

- The `catch` branches (status 500) and `console.error` are not modelled: they cover database failures, which a sequential in-memory model does not have.
- Concurrency is not modelled:
  - the check-then-insert race in register;
  - interleavings between the two sub-steps of a category rename or delete.

  Each handler is one sequential step.
- Date parsing is a parameter. `new Date` semantics are implementation-defined.
- Numbers are integers. Fractions, `NaN` and exponent notation in `String(n)` are not modelled.
- `toLowerCase` is modelled on ASCII letters only. Non-ASCII case mapping is not modelled.
- The Mongoose schemas in `models/` are not part of this model:
  - the `isComplete` default is a parameter of `TaskStore` (`completeDefault`);
  - `required` or enum validators, and `runValidators` on update, are not modelled: an update the schema would reject is applied;
  - a malformed ObjectId in `:id` (a CastError, hence 500) is not modelled: ids are natural numbers.
- Tasks.ListTasks, Tasks.TaskStore.List, Categories.ListCategories, Categories.CategoryStore.List: the query `userId` is the string Express parsed, or absent. Array- or object-valued query strings are not modelled.
- Categories.ListCategories: `createdAt` order is modelled as id order. Two categories created in the same millisecond, which MongoDB may return in either order, are not modelled.
- Passwords are stored and compared as plain strings, as the source does. Hashing is not modelled.
- `server.js` (Express, CORS, body-parser wiring, the database connection) and `script.js` (DOM rendering and `fetch` calls) are not part of this model. They hold no logic beyond I/O.
- The JSON bodies sent back are the records themselves. Mongoose's extra fields (`_id`, `__v`, timestamps) are not modelled.
