# Weekly planner: a Dafny model of its week record and its update rules

The planner shows one week at a time: a column of checkbox tasks and a note for each of
the seven days, a todo list and a memo, all held in one `WeeklyData` record per week.
The record is kept in local storage under `planner_<week id>`. A "smart auto-fill" asks a
generative-language API for a plan and maps its JSON reply onto the same record.

This project models that record and every rule that builds or changes it:

- `types.dfy` (module `Types`): `Task`, `DayData`, the seven `DayKey`s, the `days` record
  (one field per key, so exactly seven entries by construction), `WeeklyData`, `DAYS` and
  `EMPTY_WEEK`.
- `dates.dfy` (module `Dates`): dates as day numbers (day 0 is 1970-01-01, a Thursday),
  `getDay`, `getMonday` and the whole-week step of `changeWeek`.
- `task_lists.dfy` (module `TaskLists`): reading a row with the `FALLBACK_TASK`
  placeholder, the pad-then-write update shared by day lists and the todo list (a method
  with the source's `while` loop, proved against the function `WriteAt`), and the colour
  cycle `nextColor`.
- `gemini_service.dfy` (module `GeminiService`): `generateSmartPlan` from the API-key
  check to the mapped result: `transformTasks`, `mappedData` and its error points.
- `planner.dfy` (module `PlannerState`): the component's state as a class `Planner`
  (`currentWeekStart`, `data`) with one method per handler, the load rule, the storage
  key, and the merge of a smart plan.
- `wrappers.dfy` (module `Wrappers`): `Option` and `Result`.

The request, `JSON.parse`, `Math.random` and the date formatter are foreign calls. They
enter the model as parameters: `reply`, `parse`, `ids` and the `formatDate` the planner is
constructed with.

Two behaviours of the code are worth knowing:

- The response schema lists every day as required (services/geminiService.ts:48), but the
  default parameter `tasks: string[] = []` (line 60) makes a reply without one day's array
  give that day no tasks, and the call succeeds (`GeminiService.MissingDayKeyIsEmpty`).
- `JSON.parse(saved)` at components/Planner.tsx:81 is unguarded. Stored records are
  `WeeklyData` values here, so a corrupt one is not modelled.

## Model

| member | source | states |
|---|---|---|
| `Types.DayKey.Name` | types.ts:29 | each day key names one of the seven properties mon..sun of the `days` record |
| `Types.DayKey.Index` | types.ts:31 | every day key has a position in `DAYS` that holds that key |
| `Types.DaysListsEachKeyOnce` | types.ts:29-31 | `DAYS` has length 7, holds every key, no key twice, in the order mon, tue, wed, thu, fri, sat, sun |
| `Types.DayNamesDistinct` | types.ts:29 | different day keys have different property names |
| `Types.Days.Set` | components/Planner.tsx:105 | replacing one day's entry sets that day and leaves the other six days as they were |
| `Types.Days.AsRecord` | types.ts:16-24 | the `days` record's property names are exactly mon..sun, each holding that day's data |
| `Types.DaysRecordHasSevenKeys` | types.ts:16-24 | the `days` record has exactly seven properties, each the name of a day key |
| `Types.EmptyWeekDaysAreEmpty` | types.ts:35-43 | every day of `EMPTY_WEEK` has no tasks and an empty note |
| `Types.EmptyWeekHasNoTodosOrMemo` | types.ts:33-46 | `EMPTY_WEEK` has an empty todo list, memo '' and week id '' |
| `Dates.WeekDay` | components/Planner.tsx:17 | `getDay` is a weekday number from 0 (Sunday) to 6 |
| `Dates.WeekDayShift` | components/Planner.tsx:137 | adding 7 x n days keeps the weekday, for negative n too |
| `Dates.GetMonday` | components/Planner.tsx:15-20 | `getMonday(d)` is a Monday, at most six days before `d` and never after it |
| `Dates.MondayIsUnique` | components/Planner.tsx:15-20 | the only Monday in the six days up to `d` is `getMonday(d)` |
| `Dates.SundayMapsToPreviousMonday` | components/Planner.tsx:18 | a Sunday maps to the Monday six days earlier |
| `Dates.MondayIsFixed` | components/Planner.tsx:15-20 | a Monday maps to itself |
| `Dates.GetMondayIdempotent` | components/Planner.tsx:15-20 | applying `getMonday` twice gives the same as once |
| `Dates.GetMondayShift` | components/Planner.tsx:183-185 | the Monday of a date n weeks later is the Monday n weeks later |
| `Dates.AddWeeks` | components/Planner.tsx:135-139 | the `changeWeek` step moves exactly 7 x offset days and keeps the weekday |
| `TaskLists.ReadAt` | components/Planner.tsx:230 | a row inside the list reads as the stored task, a row beyond its end as `FALLBACK_TASK` |
| `TaskLists.ApplyEdit` | components/Planner.tsx:104 | an edit sets the named field to the given value, keeps the other fields and the id |
| `TaskLists.WriteAt` | components/Planner.tsx:98-104 | the new list has length max(old length, i+1); old entries other than i are kept; added entries other than i are blank (text '', not done, no colour); entry i is the edit applied to the old entry or to a blank one |
| `TaskLists.PadAndWrite` | components/Planner.tsx:98-104 | the copy, the padding loop and the overwrite produce exactly `WriteAt` |
| `TaskLists.WriteThenRead` | components/Planner.tsx:230 | after writing row i, row i shows the edit applied to what it showed, and every other row shows what it showed before, padding included |
| `TaskLists.NextColor` | components/Planner.tsx:61-66 | `nextColor` always changes the colour |
| `TaskLists.CycleFromNoColor` | components/Planner.tsx:61-66 | from no colour the cycle visits red, blue, yellow, then no colour |
| `TaskLists.CyclePeriod` | components/Planner.tsx:61-66 | four steps return any colour to itself, and one to three steps never do |
| `TaskLists.ClickColor` | components/Planner.tsx:255 | a click on a row's colour tab advances that row's shown colour one step and changes nothing any other row shows |
| `TaskLists.FourClicksRestoreRow` | components/Planner.tsx:255 | four clicks on a row's colour tab show the row as it was |
| `GeminiService.TransformTasks` | services/geminiService.ts:60-61 | a list of n strings becomes n tasks, task k with text = string k, not done, no colour; a missing list becomes [] |
| `GeminiService.TextsOfTransform` | services/geminiService.ts:60-61 | the texts of the produced tasks, in order, are the reply's strings |
| `GeminiService.DayOf` | services/geminiService.ts:65 | a mapped day has note '' and one task per string the reply holds for that day (none when the property is missing): the tasks' texts, in order, are those strings, and every task is not done and has no colour |
| `GeminiService.MapResponse` | services/geminiService.ts:63-75 | every one of the seven days is mapped from its own property as `DayOf` states; the todo list's texts are the reply's `todoList` strings in order, all not done and without colour; the memo is the reply's memo when truthy, otherwise '' |
| `GeminiService.GenerateSmartPlan` | services/geminiService.ts:7-82 | a missing key, a failed request, an empty reply and a parse failure each give their own error; success exactly when none happens, and then the whole mapped plan |
| `GeminiService.PlanError.Message` | services/geminiService.ts:10-80 | the thrown error's message: a failed request's error passes its own message through; otherwise it is one of the three fixed messages (missing key, no response, failed to generate), and each names exactly one failure point |
| `GeminiService.GenerationFailedMeansParseFailed` | services/geminiService.ts:56-81 | unless the request itself failed, the call ends in "Failed to generate plan." exactly when the key and the reply text are present and the reply does not parse |
| `GeminiService.MissingKeyFailsFirst` | services/geminiService.ts:8-11 | without an API key the result is the missing-key error whatever the request and the parser would have done |
| `GeminiService.MissingDayKeyIsEmpty` | services/geminiService.ts:60 | a reply without a day's property gives that day no tasks and an empty note |
| `GeminiService.WorkedExample` | services/geminiService.ts:63-75 | a reply with one Monday task, one todo item and a memo maps to exactly those, with the task not done |
| `PlannerState.StorageKey` | components/Planner.tsx:79 | the storage key is `planner_` followed by the week id, and the week id can be read back from it |
| `PlannerState.StorageKeyInjective` | components/Planner.tsx:79 | two weeks never share a storage key |
| `PlannerState.LoadOrEmpty` | components/Planner.tsx:78-85 | a stored record is loaded as it is; with none, the data is the empty week with the current week id |
| `PlannerState.Save` | components/Planner.tsx:90 | after the save, the week's key holds exactly the saved record, and every other key is present exactly when it was before and keeps its record |
| `PlannerState.SaveThenLoad` | components/Planner.tsx:79-90 | loading a week just saved gives the saved record back, and other weeks load as before |
| `PlannerState.MergePlan` | components/Planner.tsx:145-150 | a plan replaces days, todo list (default []) and memo (default ''), and keeps the week id |
| `PlannerState.SmartPlanReplacesContent` | components/Planner.tsx:141-157 | after a successful generation the record holds the mapped reply's days, todo list and memo, under the same week id |
| `PlannerState.AlertHidesCause` | components/Planner.tsx:151-153 | the planner drops the thrown error and always alerts "Failed to generate plan. Please check your API key.", which is none of the service's three fixed messages |
| `PlannerState.Planner.WeekId` | components/Planner.tsx:69 | the displayed week's id (`currentWeekStart`, the id behind the storage key at lines 79 and 90 and the empty week's id at line 83) is the formatted Monday of the displayed week |
| `PlannerState.Planner.constructor` | components/Planner.tsx:69-70 | the initial week start is the Monday of today, and the data is the empty week with that week's id |
| `PlannerState.Planner.LoadWeek` | components/Planner.tsx:78-85 | the load effect sets the data to the stored record or to the empty week of the current week |
| `PlannerState.Planner.TaskChange` | components/Planner.tsx:95-108 | the day's list becomes `WriteAt` of the old one; its note, the other days, the todo list, the memo and the week id stay |
| `PlannerState.Planner.NoteChange` | components/Planner.tsx:110-118 | only the day's note changes |
| `PlannerState.Planner.TodoChange` | components/Planner.tsx:120-129 | the todo list becomes `WriteAt` of the old one; the days, the memo and the week id stay |
| `PlannerState.Planner.MemoChange` | components/Planner.tsx:131-133 | only the memo changes |
| `PlannerState.Planner.TaskColorClick` | components/Planner.tsx:255 | a day row's colour click is `ClickColor` on that day's list and changes nothing else |
| `PlannerState.Planner.TodoColorClick` | components/Planner.tsx:307 | a todo row's colour click is `ClickColor` on the todo list and changes nothing else |
| `PlannerState.Planner.ChangeWeek` | components/Planner.tsx:135-139 | the week start moves by exactly 7 x offset days and stays a Monday |
| `PlannerState.Planner.PickDate` | components/Planner.tsx:183-185 | a picked date sets the week start to its Monday; a cleared field changes nothing |
| `PlannerState.Planner.SmartPlan` | components/Planner.tsx:141-157 | a successful generation merges the plan; any failure raises the alert and leaves the data untouched |

## Left out

- Rendering: JSX, CSS classes, `getColorBarClass`, `DisplayDateRange`, `formatDateKorean`,
  `getWeekDays`, the row counts used for layout, the modal, the prompt text field and the
  `loading` flag. They are presentation.
- `App.tsx`: it only mounts the planner.
- Local storage, `JSON.stringify`/`JSON.parse` of the stored record and the 500 ms debounce
  of the save effect: storage is a map from key to `WeeklyData`, serialisation is taken to
  round-trip exactly, and `Save` is the write without its timer. React's effect scheduling is
  not modelled: `LoadWeek` is a method the caller runs after a week change.
- `formatDate` (`toISOString().split('T')[0]`), `new Date(string)` and `setDate`: the
  formatter is a constructor parameter and the week start is a day number, so time zones,
  time of day and daylight-saving changes are not modelled. `Planner.Valid` (the week start
  is a Monday) holds for the model's day number. It does not hold for the source's
  `currentWeekStart` string in general, because `toISOString` writes the UTC date of a
  local time. The three effects follow.
- PlannerState.Planner.constructor: east of UTC before midnight UTC (in UTC+9, before 09:00
  local time), `formatDate(getMonday(new Date()))` at components/Planner.tsx:69 names the
  Sunday before the Monday. West of UTC in the evening (in UTC-5, after 19:00) it names the
  Tuesday after it.
- PlannerState.Planner.PickDate: `new Date(e.target.value)` at components/Planner.tsx:184
  reads the picked `YYYY-MM-DD` as UTC midnight. West of UTC that is the evening of the day
  before. In UTC-5, picking Monday 2024-06-03 gives Sunday 19:00 local, `getMonday` gives
  2024-05-27 19:00, and the id written is "2024-05-28". The week shown is the one before,
  and its id is a Tuesday. The model's picker sets the week start to the picked date's own
  Monday.
- PlannerState.Planner.ChangeWeek: `setDate(getDate() + offset * 7)` at
  components/Planner.tsx:136-138 adds seven local calendar days, not 7 x 24 hours, to a
  date parsed as UTC midnight. Across a daylight-saving change the UTC date can shift: in
  US Eastern time, `changeWeek(1)` from "2024-03-04" gives "2024-03-10", a Sunday. The
  model's step is exactly 7 x offset days and always keeps a Monday.
- The request to the generative-language API (client, model name, prompt, response schema,
  `process.env`): the key and the reply are parameters. The goal and the week start only
  feed the prompt, so they are not parameters.
- The log call `console.error("Failed to parse Gemini response", e)` at
  services/geminiService.ts:79: it writes to the console only and changes no result.
- GeminiService.GenerateSmartPlan: `JSON.parse` of the reply is the parameter `parse`, whose
  results are schema-shaped objects or a failure. Other JSON values (`null`, a number, an
  array element that is not a string, a memo that is not a string) are not modelled.
- `Math.random` ids: parameters `ids`; the code does not make them unique and the model
  claims nothing about that.
- The async sequencing of `handleSmartPlan` and the in-flight guard; the model keeps only
  the merge and the no-change-on-failure outcome.
- TaskLists.NextColor: the code accepts any string and maps an unknown one to no colour; the
  model's colours are typed, so only the four real states exist.
- GeminiService.PartialWeek: `days` is required, because the service always supplies it; the
  merge's fallbacks are modelled for the todo list and the memo.
- PlannerState.Planner.TaskChange: the guard `tasks || []` for a stored day without a task
  list is not modelled, since a `DayData` always has a list; a negative row index is never
  passed by the view, so indices are natural numbers.
