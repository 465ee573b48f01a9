# Admin-gated task list: a Dafny model

This project models the logic of a small mobile to-do app. The app has a session identity, a task list that only the
identity "admin" may see, and a create-task screen that can attach a photo and a GPS fix to a task. Three
pieces are modelled and proved:

- **The admin gate.** The list screen normalises the stored identity with `user?.toLowerCase().trim() ?? null`
  and compares it with `"admin"`. The create screen writes `(currentUser ?? "").toLowerCase().trim() !== "admin"`.
  `Access` defines both forms and proves that they agree on every input. It also proves a characterisation: an
  identity passes exactly when it is white space, then some casing of `admin`, then white space. A null identity
  never passes.
- **The in-memory task list.** The list screen keeps a mirror of the stored tasks. Toggle is a `map` that flips
  `completed` on the tasks with a given id. Delete is a `filter` that drops them. Load gives an admin the stored
  tasks and anyone else an empty list. `TodoList` states these as functions on sequences and proves length,
  order, field preservation, double toggle, absent ids and idempotent delete. The screen itself is the class
  `TodoListScreen`. Its methods reassign `tasks` through those functions and keep the invariant "a restricted
  screen holds no tasks".
- **Creating a task.** `CreateTodo` models the title check `!title.trim()` and the payload handed to the store.
  The payload carries the untrimmed title, and `photoUri ?? null` / `locationData ?? null`. The screen is the class
  `CreateTodoScreen`, with its camera, location and save handlers.

Files: `wrappers.dfy` (Option), `text.dfy` (lowercasing and trimming), `types.dfy` (the record types),
`access.dfy`, `todolist.dfy`, `create.dfy`.

Modelling choices:

- A field declared `f?: T | null` is `Field<T>`, which has three states: `Undefined`, `Null` and `Value`. Screen state
  declared `T | null` is `Option<T>`.
- `toLowerCase` folds ASCII letters only. For the comparison with `"admin"` this loses nothing. No non-ASCII
  character lowercases to a single `a`, `d`, `m`, `i` or `n` (U+0130 gives `i` plus a combining dot). No
  character lowercases into or out of white space.
- `trim` strips exactly the ECMAScript WhiteSpace and LineTerminator code points.
- Latitude, longitude and timestamp are `real`. They are only carried and compared.
- Storage calls and device capabilities are parameters of the methods. `getItem` gives `user`. `loadTasks` gives
  `stored`, which is `None` when it fails. `toggleTaskCompleted` and `deleteTask` give `storeOk`. The camera gives a
  `CameraResult` and the location service gives an `Option<Position>`. The confirmation dialog gives `confirmed`.
  `HandleSaveTask` returns the payload it would pass to `createTask`.
- The save and location buttons are disabled while `isLoading` (app/home/todo-list/create.tsx:145, :155). The two
  handlers therefore require `!isLoading`.

Where the intended design of the app and its code differ, the model follows the code:

- The model checks the title where the create screen does (app/home/todo-list/create.tsx:86). Whether
  `createTask` also validates is not visible. A whitespace-only title is rejected too, and an accepted title is
  sent untrimmed.
- `photoUri` and `location` on a stored `Task` may be missing as well as null.
- A `loadTasks` failure leaves the list as it was with `isLoading` still set. Nothing catches it.

## Model

| member | source | states |
|---|---|---|
| Text.IsWhitespace | app/home/todo-list/create.tsx:86 | the set of code points `trim` strips; no visible ASCII character is in it |
| Text.Lower | app/home/todo-list/index.tsx:41 | `toLowerCase` keeps the length and leaves no upper-case ASCII letter; `LowerCharChanges` adds that only those letters change |
| Text.TrimStart | app/home/todo-list/index.tsx:41 | the result is the suffix of the input left after cutting a white-space-only prefix, and it is empty or starts with non-white space |
| Text.TrimEnd | app/home/todo-list/index.tsx:41 | the result is the prefix of the input left after cutting a white-space-only suffix, and it is empty or ends with non-white space |
| Text.Trim | app/home/todo-list/create.tsx:43 | `trim` never lengthens a string, and its result is empty or has non-white space at both ends |
| Text.TrimBounds | app/home/todo-list/create.tsx:86 | a trimmed string is an infix `s[i..j]` with only white space before `i` and after `j` |
| Text.TrimPadded | app/home/todo-list/create.tsx:43 | the converse: trimming white space + w + white space gives back w, when w is empty or has non-white ends |
| Text.TrimEmptyIff | app/home/todo-list/create.tsx:86 | `trim` gives "" exactly when the string is empty or white space only |
| Text.LowerWhitespace | app/home/todo-list/index.tsx:41 | lowercasing keeps white space as white space and everything else out of it |
| TodoTypes.DetailsOfWithIdentity | src/types/todolist.ts:13-14 | a payload's title, photo and location come back unchanged from a task built from it |
| TodoTypes.WithIdentityOfDetails | src/types/todolist.ts:10-16 | a task is determined by its id, its completed flag and its title, photo and location |
| Access.NormalizedUser | app/home/todo-list/index.tsx:40-42 | the normalised identity is null exactly when the stored identity is null |
| Access.IsAdmin | app/home/todo-list/index.tsx:41-44 | a missing identity never passes; `AdminWhenPadded` and `AdminSplit` characterise the passing identities in both directions |
| Access.CreateDenied | app/home/todo-list/create.tsx:43 | a null identity (read as "") is always sent away; `CreateDeniedIffNotAdmin` proves it is the negation of `IsAdmin` |
| Access.CreateDeniedIffNotAdmin | app/home/todo-list/create.tsx:41-46 | the create screen's check sends the user away exactly when the list screen's gate fails; a null identity fails both |
| Access.NormalizePadded | app/home/todo-list/index.tsx:41 | lowercasing then trimming white space + w + white space gives the lowered w, when that has non-white ends |
| Access.NormalizeSplit | app/home/todo-list/index.tsx:41 | whatever normalises to n is white space, then something that lowers to n, then white space |
| Access.AdminWhenPadded | app/home/todo-list/index.tsx:41-44 | every casing of "admin" with white space on either side passes the gate |
| Access.AdminSplit | app/home/todo-list/index.tsx:41-44 | every identity that passes splits into white space, a casing of "admin", and white space |
| Access.UpperPaddedAdmin | app/home/todo-list/index.tsx:81 | " ADMIN " passes the gate, so the list is shown |
| Access.MixedPaddedAdmin | app/home/todo-list/create.tsx:43 | "Admin " passes the gate |
| Access.NonAdminExamples | app/home/todo-list/index.tsx:81 | "user@x.com" and a null identity do not pass the gate |
| TodoList.Flip | app/home/todo-list/index.tsx:62 | the spread copy keeps the id, title, photo and location, and negates completed |
| TodoList.Toggled | app/home/todo-list/index.tsx:61-63 | the toggle keeps length, order, every id and every other field, and flips completed on exactly the tasks whose id matches |
| TodoList.ToggledKeepsIds | app/home/todo-list/index.tsx:62 | the ids are the same, in the same order, after a toggle |
| TodoList.ToggledTwice | app/home/todo-list/index.tsx:62 | toggling the same id twice gives back the original list |
| TodoList.ToggledAbsent | app/home/todo-list/index.tsx:62 | toggling an id no task carries leaves the list unchanged |
| TodoList.ToggledKeepsUnique | app/home/todo-list/index.tsx:62 | a toggle keeps ids unique |
| TodoList.Without | app/home/todo-list/index.tsx:75 | the delete is never longer than its input, and it keeps exactly the tasks whose id differs |
| TodoList.WithoutAppend | app/home/todo-list/index.tsx:75 | the delete distributes over concatenation, so the kept tasks keep their relative order |
| TodoList.WithoutLength | app/home/todo-list/index.tsx:75 | the delete is shorter than its input by the number of tasks carrying the id |
| TodoList.CountIdAbsent | app/home/todo-list/index.tsx:75 | no task carries the id exactly when the id is absent from the list's ids |
| TodoList.WithoutAbsent | app/home/todo-list/index.tsx:75 | deleting an id no task carries leaves the list unchanged |
| TodoList.WithoutTwice | app/home/todo-list/index.tsx:75 | no task carries the id after a delete, and deleting it again changes nothing |
| TodoList.WithoutRemovesOne | app/home/todo-list/index.tsx:75 | with unique ids, deleting a present id removes exactly one task |
| TodoList.WithoutKeepsUnique | app/home/todo-list/index.tsx:75 | a delete keeps ids unique |
| TodoList.TodoListScreen.constructor | app/home/todo-list/index.tsx:30-32 | the screen starts with no tasks, loading, no user, and restricted |
| TodoList.TodoListScreen.Restricted | app/home/todo-list/index.tsx:81 | a screen without a user shows the restricted view; after a load, `LoadData` proves it is shown exactly when `IsAdmin` fails |
| TodoList.TodoListScreen.LoadData | app/home/todo-list/index.tsx:37-52 | the stored user is normalised; an admin gets exactly the stored tasks; anyone else (null included) gets an empty list and the restricted view; a failed load keeps the list and leaves loading set |
| TodoList.TodoListScreen.HandleToggle | app/home/todo-list/index.tsx:59-64 | after the store's toggle succeeds, the mirror becomes the toggled list; a restricted screen stays empty |
| TodoList.TodoListScreen.HandleDelete | app/home/todo-list/index.tsx:67-79 | only after confirmation and the store's delete does the mirror drop the tasks with that id; otherwise it is unchanged |
| CreateTodo.OrNull | app/home/todo-list/create.tsx:94-95 | `x ?? null` is never missing; it is null exactly when nothing was captured, and otherwise the captured value |
| CreateTodo.TitleMissing | app/home/todo-list/create.tsx:86-88 | the title is rejected exactly when it is empty or white space only |
| CreateTodo.SaveRequest | app/home/todo-list/create.tsx:85-96 | no request exactly for an empty or whitespace-only title; otherwise the raw title, with photo and location null when not captured and the captured values otherwise |
| CreateTodo.UntrimmedTitleSent | app/home/todo-list/create.tsx:93 | "  Buy milk " is sent with its padding |
| CreateTodo.CreateTodoScreen.constructor | app/home/todo-list/create.tsx:28-31 | the screen starts with an empty title, no photo, no location, not loading |
| CreateTodo.CreateTodoScreen.ChangeTitle | app/home/todo-list/create.tsx:116 | typing replaces the title |
| CreateTodo.CreateTodoScreen.HandlePickImage | app/home/todo-list/create.tsx:51-61 | a cancelled capture keeps the photo; a successful one sets it to the first asset's URI |
| CreateTodo.CreateTodoScreen.HandleGetLocation | app/home/todo-list/create.tsx:64-82 | a fix becomes the latitude/longitude/timestamp triple; a failure keeps the previous location; loading ends cleared |
| CreateTodo.CreateTodoScreen.HandleSaveTask | app/home/todo-list/create.tsx:85-105 | the screen calls `createTask` with exactly the `SaveRequest` payload, and does not call it for a missing title; loading ends cleared |

## Left out

- Persistence (`loadTasks`, `createTask`, `toggleTaskCompleted`, `deleteTask`, `getItem`, `removeItem`) is not part of this model. Its results are method parameters. Id generation, serialisation and the stored collection's own semantics are not modelled.
- A `getItem` failure is not modelled; the session store returns null for a missing key.
- Rendering, styles, `FlatList`, `Image`, `Alert` dialogs and `router` navigation are not modelled. This includes the redirect that follows a failed create-screen check, and all of app/_layout.tsx and app/home/profile.tsx.
- Camera and location permission requests, and the capture calls themselves, are not modelled. They are foreign asynchronous calls, and their outcomes are parameters.
- The `Alert` shown when `createTask` fails is not modelled. Success and failure leave the same screen state, so the model has no separate failure branch there.
- The async interleaving is not modelled: the `isLoading` flag while a call is in flight, and lost updates between the storage call and the mirror. Each handler runs to completion in the model.
- `toFixed(4)` and `toLocaleString()` display of coordinates and timestamps is not modelled. The values are opaque `real`s.
- CreateTodo.CreateTodoScreen.HandlePickImage: requires that a capture which was not cancelled carries at least one asset, as the camera library's result contract promises. A non-cancelled result with no assets would throw a TypeError at `result.assets[0].uri` and leave `photoUri` unchanged; that case is not modelled.
- Text.Lower: folds only ASCII letters. JavaScript's `toLowerCase` folds all of Unicode. The admin comparison is unaffected, as explained above.
- Strings are sequences of Unicode scalar values, not UTF-16 code units. Lone surrogates cannot be expressed.
