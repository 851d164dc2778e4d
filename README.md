# Project and task handlers of a MERN project tracker, in Dafny

This project models the request handlers of a small project/task tracking
backend (an Express + Mongoose application): `routes/api/projects.js` and
`routes/api/tasks.js`. Each handler becomes an operation on an in-memory
document store, `Handlers.Store`, a class with two maps: project id to
`Project` and task id to `Task`. The record shapes follow
`models/Project.js:4-55` and `models/Task.js:4-61`. Each record carries an
ordered list of embedded comments, newest first.

The caller id is an input. The authentication middleware is assumed to
have run and attached it. The caller's user record (`User.findById`) is a
`users` map given to the handlers that read it. Fresh object ids and the
current date are inputs too. Request fields are strings. A missing field is
the empty string, which is also the only falsy string. That matches
`express-validator`'s `isEmpty` and JavaScript's `if (field)`.

Every handler returns a `Reply`: `Ok` (200), `BadRequest` (400, listing
every empty required field), `Unauthorized` (401), `NotFound` (404) or
`ServerError` (500). Each mutating handler checks before it changes
anything, and each error reply leaves the store unchanged. The owner of a
record never changes (`KeepsProjectOwners`, `KeepsTaskOwners`). Every
record stays stored under its own id and keeps the fields its schema
requires (`Store.Valid`): a project's title, from, to and comment texts
(`models/Project.js:15-29`, `models/Project.js:45-48`), and for a task also
the project title snapshot (`models/Task.js:19-37`, `models/Task.js:53-56`).
Every handler preserves this, so no `save` in a handler can fail a
`required` check.

The model follows the code as written, including where it differs from
what the code evidently means:

- **Comment delete removes by author.** The handlers first find comment
  `comment_id` and check that the caller wrote it. They then remove the
  *first comment written by the caller* (`indexOf` over the authors, then
  `splice`). That may be a different comment (`Comments.DeleteMayRemoveAnother`).
  The removal index is never -1 on this path (`Comments.FirstOwnBeforeTarget`).
  So `splice(-1, 1)`, which would drop the last comment, never runs.
- **Project update writes every field into the title.** In
  `routes/api/projects.js:156-160` each truthy field of the request is
  assigned to `projectFields.title`. The title becomes the last truthy of
  title, description, from, to and state. Description, from, to and state
  never change.
- **A missing record can be a 500, not a 404.** Task creation reads
  `project.user` from a project that may be missing
  (`routes/api/tasks.js:35`). The comment-delete handlers read `comment`
  from a task or project that may be missing (`routes/api/tasks.js:267`,
  `routes/api/projects.js:241`). Each of these throws a `TypeError`, which
  the handler answers with 500.
- Reading a project by id has no ownership check. Reading a task by id
  has one.
- Deleting a project leaves its tasks in place.
- Updates reset `user` to the caller. The ownership check has already
  passed, so the caller is the owner and the owner is unchanged.

## Model

| member | source | states |
|---|---|---|
| `Requests.CreateErrors` | routes/api/tasks.js:15-30 | The create validators (the same in routes/api/projects.js:14-29) report no error exactly when title, from and to are all non-empty. Each empty field is listed exactly once. |
| `Comments.PosOfId` | routes/api/tasks.js:267 | The position `find` stops at: the first comment with the requested id, or -1 exactly when no comment has it. |
| `Comments.PosOfUser` | routes/api/tasks.js:277-279 | `map(user).indexOf(caller)`: the first comment written by the caller, or -1 exactly when the caller wrote none. |
| `Comments.SpliceOne` | routes/api/tasks.js:281 | JavaScript `splice(start, 1)`. An index inside the list removes that element and keeps the others in order. `-1` removes the last element. An index past the end removes nothing. |
| `Comments.Unshift` | routes/api/tasks.js:243 | The new comment is first, followed by the old list unchanged. |
| `Comments.DeleteOwnComment` | routes/api/tasks.js:264-285 | 404 when no comment has the id. 401 when its author is not the caller. Otherwise the list is one shorter, with the caller's first comment removed. That comment sits at an index between 0 and the requested comment's index. No comment is added. |
| `Comments.FirstOwnBeforeTarget` | routes/api/projects.js:254-258 | When the caller wrote the requested comment, the removal index is at least 0 and at most that comment's index. So `splice(-1, 1)` cannot occur. |
| `Comments.DeleteKeepsOrder` | routes/api/projects.js:254-258 | After a delete, the comments before the removed one are unchanged. Those after it move up by one, so their relative order is kept. |
| `Comments.RemovesRequestedIff` | routes/api/projects.js:241-258 | With unique comment ids, the requested comment is gone after a delete exactly when it is the caller's first comment. |
| `Comments.DeleteMayRemoveAnother` | routes/api/projects.js:238-262 | A caller who wrote two comments and deletes the older one loses the newer one instead. |
| `Comments.FindComment` | routes/api/projects.js:241 | The `find` scan returns the first comment with the requested id, or none. |
| `Comments.IndexOfUser` | routes/api/projects.js:254-256 | The `indexOf` scan returns the position of the caller's first comment, or -1. |
| `Updates.UpdatedTask` | routes/api/tasks.js:182-194 | A task update sets the owner to the caller. Each of title, description, from, to and state takes the request's value if truthy and keeps the stored value otherwise. Id, parent project, project title snapshot, name, avatar and comments are unchanged. |
| `Updates.LastTruthy` | routes/api/projects.js:156-160 | A run of `if (x) title = x` leaves the last truthy value, or the starting value when none is truthy. |
| `Updates.UpdatedProject` | routes/api/projects.js:154-166 | A project update changes only `user` (to the caller) and `title`. Description, from, to, state, snapshots and comments are unchanged. |
| `Updates.LastTruthyNonEmpty` | routes/api/projects.js:154-166 | A non-empty title stays non-empty through a project update, so the schema's required `title` is kept. |
| `Updates.ProjectUpdateTitle` | routes/api/projects.js:156-160 | The new title is, in precedence order: state, to, from, description, title (the first truthy one), or the old title if none is truthy. |
| `Handlers.Store.CreateProject` | routes/api/projects.js:14-53 | 400 with the failing fields and no change. 500 with no change when the caller has no user record or the id is taken. Otherwise exactly one new project is inserted: owner = caller, name/avatar from the caller's record, request fields copied, no comments. It can be read back at once. |
| `Handlers.Store.GetProject` | routes/api/projects.js:77-95 | Any caller gets the stored project. A missing one is 404. Nothing changes. |
| `Handlers.Store.DeleteProject` | routes/api/projects.js:102-128 | 404 is checked before ownership. A non-owner gets 401 and nothing changes. The owner's call removes only that project; all tasks stay. |
| `Handlers.Store.UpdateProject` | routes/api/projects.js:135-179 | 404, then 401, with no change. The owner's call replaces only that project with `UpdatedProject`. No owner changes. |
| `Handlers.Store.AddProjectComment` | routes/api/projects.js:186-231 | Checked in order: 400 (empty text), 404, 401 for a non-owner, 500 without a user record; each leaves the store unchanged. Otherwise the comment, authored by the caller, is put first and the earlier comments follow in order. The new list is returned. |
| `Handlers.Store.DeleteProjectComment` | routes/api/projects.js:238-273 | 500 for a missing project. Otherwise the reply is `DeleteOwnComment` on its list, and only an `Ok` reply stores the shorter list. No owner changes. |
| `Handlers.Store.CreateTask` | routes/api/tasks.js:15-64 | Checked in order: 400 (validation), 500 (missing project), 401 (caller does not own the project), 500 (id taken); each leaves the store unchanged. Otherwise one task is added: owner = caller, the project's id, title and name/avatar snapshot, request fields copied, no comments. The caller can read it back. |
| `Handlers.Store.TasksOf` | routes/api/tasks.js:89-99 | Exactly the stored tasks whose owner is the caller. |
| `Handlers.Store.GetTask` | routes/api/tasks.js:106-124 | 404 for a missing task. 401 for a non-owner. The owner gets the stored task. Nothing changes. |
| `Handlers.Store.DeleteTask` | routes/api/tasks.js:131-155 | 404 is checked before ownership. A non-owner gets 401 and the task stays. The owner's call removes exactly that task. |
| `Handlers.Store.UpdateTask` | routes/api/tasks.js:162-206 | 404, then 401, with no change. The owner's call replaces only that task with `UpdatedTask`. No owner changes. |
| `Handlers.Store.AddTaskComment` | routes/api/tasks.js:213-257 | Checked in order: 400 (empty text), 404, 401 for a non-owner, 500 without a user record; each leaves the store unchanged. Otherwise the new list is the caller's comment followed by the old list. |
| `Handlers.Store.DeleteTaskComment` | routes/api/tasks.js:264-295 | 500 for a missing task. Otherwise the reply is `DeleteOwnComment` on its list, and only an `Ok` reply stores the shorter list. No owner changes. |

`Handlers.LifecycleScenario` is a client of these contracts:
1. U creates a project.
2. U adds two comments, and they come back newest first.
3. V's update and delete are refused with 401.
4. U's delete succeeds, and a later read is 404.

## Left out

- The authentication middleware (`middleware/auth.js`): the caller id is a parameter.
- `server.js` and Express routing: each handler is a method. (`server.js` never mounts the tasks router.)
- `GET /api/projects` and `GET /api/tasks/all`: they return the whole collection sorted by `date`. Neither schema declares that field, so the order is up to the database.
- `Handlers.Store.TasksOf` (`GET /api/tasks`) returns a map from id to task. The handler returns an array in the database's order, which the model does not fix.
- The 404 for a malformed object id (`err.kind === 'ObjectId'`): ids are opaque, so every id is well formed, and an absent one is simply not in the map.
- Type casting on save, for example an unparseable `from` date, which the handlers answer with 500: dates are opaque strings. The schema's `required` checks are not left out: `Store.Valid` keeps every required field non-empty, so they never fail.
- Validation reads only the request body. express-validator's `check` also looks at the query string, route parameters, headers and cookies. A required field sent only there passes validation, then fails `required` on save with 500, where the model answers 400.
- Persistence, concurrency and last-write-wins between requests. This includes the undeclared, shared `taskFields`/`projectFields` variables: each call builds its own.
- The text of messages in 401/404/500 replies, and the confirmation body of a delete, which is `()`.
- An explicitly empty optional field versus an absent one: both are the empty string.
- Comment ids and dates: they are inputs. Comment ids are not assumed unique except in `RemovesRequestedIff`.
- `Handlers.Store.GetProject`: it takes no caller, because the handler makes no ownership check.
- Duplicate ids: a fresh id that is already stored gives 500, as MongoDB's unique `_id` index does. The handlers themselves have no such check.
