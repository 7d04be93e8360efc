# ticktick-mcp tool logic, in Dafny

ticktick-mcp exposes the TickTick task API as tools an agent can call
(list projects, read tasks, create, update, complete and delete tasks, and
"tasks due today"). Nearly every tool is one HTTP call whose decoded body
is handed back. This project models the decisions the tools make around
those calls, with the network, the clock and the date parser replaced by
inputs:

- `wrappers.dfy` — `Option` and `Result`.
- `json.dfy` (`Json`) — decoded JSON values, plus the Python behaviour the
  tools depend on: truthiness, `dict.get`, what `for x in v` iterates, and
  the exceptions that can escape (`Fault`).
- `payload.dfy` (`Payload`) — the bodies `create_task` and `update_task`
  post. The required keys are always present. Each optional key is present
  exactly when its argument is not `None`. `priority` defaults to 0 on
  create and has no default on update.
- `offset.dfy` (`Offset`) — the replacement of every `+0000` by `+00:00`
  before a date is parsed.
- `today.dfy` (`Today`) — `get_today_tasks`. For every project it looks up
  the id, fetches the data and walks `tasks`. It takes `dueDate`, falling
  back to `startDate`, normalises the offset and parses. It keeps a task
  whose instant lies in `[midnight, midnight + 1 day)` and tags each kept
  task with `_projectName`. Results come in project order, then task order.
  Malformed dates are skipped, and every other exception aborts the call.
- `acks.dfy` (`Acks`) — `complete_task` and `delete_task`, which return a
  fixed message whatever the upstream response.

Inputs that stand in for I/O:
- `listing` and `fetch` are the decoded answers of `GET /project` and
  `GET /project/{id}/data`. `Transport` stands for a failed request or a
  body that is not JSON.
- `midnight(zone)` is local midnight "now" in the named zone. `None` means
  `ZoneInfo` rejects the name. That is ZoneInfoNotFoundError for an unknown
  key, or ValueError for a malformed one such as `""` or `"/UTC"`.
- `convert(zone)` is `datetime.fromisoformat` followed by
  `astimezone(zone)`, for the same zone that fixes `midnight`. Inside the
  project and task loops it is passed on as `parse`. It gives one of three
  outcomes (`Today.Conversion`):
  - an instant in microseconds on the target zone's wall clock;
  - `Invalid`, where Python raises `ValueError` or `TypeError`, which the
    loop catches;
  - `OutOfRange`, where the converted date falls outside years 1 to 9999
    and `astimezone` raises `OverflowError`, which it does not catch.

Behaviour of the code that is easy to miss:
- httpx is never asked to raise on an error status. So a non-2xx answer
  is not a fault: `complete_task` and `delete_task` still acknowledge, and
  `get_today_tasks` goes on with whatever JSON came back. Only transport
  failures and undecodable bodies are faults.
- Not every bad date is skipped. A truthy date that is not a string makes
  `due.replace` raise AttributeError. That is outside the caught
  `(ValueError, TypeError)`, so the whole call fails
  (`Today.NonStringDateAborts`). A date whose conversion overflows
  `datetime`'s range aborts it too (`Today.OutOfRangeAborts`). So does a
  task that is not a dict (`Today.NonDictTaskAborts`).
- `null`, a bool or a number under `tasks` aborts with TypeError
  (`Today.NullTasksAborts`). A missing key, `[]`, `""` or `{}` contributes
  nothing, and a non-empty string or dict aborts with AttributeError
  (`Today.NoTasksKey`, `Today.StringyTasks`).
- `_projectName` is `""` only when the project has no `name` key. A `null`
  name is copied as `null`.

## Model

| member | source | states |
|---|---|---|
| `Json.Iterate` | tools.py:50-58 | a `for` loop over a list visits exactly that list's elements. Over a str it visits one string per character, and over a dict one per key, so none when the value is empty. Over null, a bool or a number it raises TypeError |
| `Payload.CreateBody` | tools.py:136-161 | every key of the create body carries exactly its argument: `projectId` and `title` always, each optional key iff its argument is not `None`, never `id` |
| `Payload.CreateBodyRequired` | tools.py:136-139 | the create body always has `projectId` and `title` holding the given strings, and never has `id` |
| `Payload.CreateBodyOptional` | tools.py:140-161 | each of the eleven optional create keys is present iff its argument is not `None`, and then holds that argument |
| `Payload.UpdateBody` | tools.py:208-235 | every key of the update body carries exactly its argument: `id` and `projectId` always, each optional key (`title` included) iff its argument is not `None` |
| `Payload.UpdateBodyRequired` | tools.py:208-211 | the update body always has `id` holding the task id and `projectId` holding the project id |
| `Payload.UpdateBodyOptional` | tools.py:212-235 | each of the twelve optional update keys, `title` included, is present iff its argument is not `None`, and then holds that argument |
| `Payload.CreateDefaults` | tools.py:101-116 | a bare create call keeps the given ids and has priority 0 |
| `Payload.UpdateDefaults` | tools.py:171-187 | a bare update call keeps the given ids, with no title and no priority |
| `Payload.CreateBodyRoundTrip` | tools.py:136-161 | every create argument, supplied or not, can be read back from the body, so distinct calls post distinct bodies |
| `Payload.UpdateBodyRoundTrip` | tools.py:208-235 | every update argument, supplied or not, can be read back from the body |
| `Payload.CreateDefaultPriority` | tools.py:113-157 | a bare create posts exactly `projectId`, `title` and `priority = 0` |
| `Payload.CreateExplicitNonePriority` | tools.py:156-157 | passing `priority=None` to create removes the `priority` key and changes nothing else |
| `Payload.UpdateNoDefaultPriority` | tools.py:184-235 | a bare update posts exactly `id` and `projectId`, with no priority |
| `Payload.NameInjective` | tools.py:136-161 | distinct body fields are spelled with distinct JSON keys |
| `Payload.Wire` | tools.py:136-161 | the body on the wire has one JSON key per field present, holding the field's value, and no other keys |
| `Offset.Normalize` | tools.py:64 | replacing `+0000` never shortens a string and keeps a first character that is not `+` |
| `Offset.NormalizeUnchangedIff` | tools.py:64 | a string comes back unchanged iff it contains no `+0000` |
| `Offset.NormalizeRemovesRaw` | tools.py:64 | after the replacement no `+0000` is left |
| `Offset.NormalizeIdempotent` | tools.py:64 | replacing twice gives the same as replacing once |
| `Offset.NormalizeAppend` | tools.py:64 | a string cut in front of a `+` can be normalised half by half, since no occurrence straddles the cut |
| `Offset.NormalizeAround` | tools.py:64 | each `+0000` becomes `+00:00`, and the text before and after it is kept and normalised on its own |
| `Offset.OffsetSpellingsAgree` | tools.py:62-64 | a timestamp ending `+0000` and the same one ending `+00:00` normalise to the same string |
| `Offset.UpstreamExample` | tools.py:62-64 | `2019-11-13T03:00:00+0000` becomes `2019-11-13T03:00:00+00:00` |
| `Today.Read` | tools.py:58-70 | a dated task is read as a dict whose `dueDate`/`startDate` string parses to that instant. It is undated iff it is a dict whose chosen date is falsy. An element that is not a dict raises AttributeError |
| `Today.Tag` | tools.py:67 | the returned task carries `_projectName` equal to the given name. It keeps every other field of the upstream task with its value and adds no other key |
| `Today.SelectTasks` | tools.py:58-70 | one project's loop fails iff one of its tasks raises an uncaught exception; otherwise it returns at most as many tasks as it read, each tagged with the project name |
| `Today.SelectTasksAppend` | tools.py:58-68 | the tasks kept from `a + b` are those kept from `a` followed by those kept from `b`; the first uncaught fault wins |
| `Today.SelectOne` | tools.py:58-70 | one task is returned, tagged, iff it is kept; it is dropped when undated, unparsable or outside the window; it fails the call only on an uncaught exception |
| `Today.SkipOnlyThatTask` | tools.py:59-70 | a skipped task is dropped and the rest of the project is processed as if it were absent |
| `Today.UndatedSkipped` | tools.py:59-61 | a task whose `dueDate` and `startDate` are both missing or falsy (the empty string included) is dropped |
| `Today.UnparsableSkipped` | tools.py:63-70 | a task whose date the parser rejects is dropped and the loop continues |
| `Today.NonStringDateAborts` | tools.py:63-70 | a truthy date that is not a string fails the whole call with AttributeError |
| `Today.NonDictTaskAborts` | tools.py:58-59 | an element of `tasks` that is not a dict raises AttributeError at `task.get`, so the whole call fails |
| `Today.OutOfRangeAborts` | tools.py:63-70 | a date whose conversion falls outside `datetime`'s range raises OverflowError, which the loop does not catch, so the whole call fails |
| `Today.DueDateFirst` | tools.py:59 | a non-empty `dueDate` string decides the task's instant, whatever `startDate` holds |
| `Today.StartDateFallback` | tools.py:59 | without a truthy `dueDate` the `startDate` string decides the instant |
| `Today.WindowBounds` | tools.py:41-66 | a task exactly at midnight is returned and one exactly at the next midnight is not |
| `Today.OffsetSpellingsSelectAlike` | tools.py:62-64 | a date ending `+0000` and the same date ending `+00:00` get the same instant, whatever the parser |
| `Today.SelectTasksMembers` | tools.py:58-68 | a successful project loop returns exactly the tagged kept tasks |
| `Json.GetOr` | tools.py:52-57 | `d.get(key, default)` gives the default only when the key is absent. A present key gives its value, even `null`. This is how the project name defaults to `""` and `tasks` to `[]` |
| `Today.Contribution` | tools.py:50-70 | a project contributes only when it is a dict, and every task it contributes is tagged with its name. A project that is not a dict fails with TypeError, one without `id` with KeyError("id"). A failed fetch of its data fails with that fetch's own fault, and data that is not a dict fails with AttributeError |
| `Today.Collect` | tools.py:49-72 | a successful run over the project list saw only dicts |
| `Today.TodayTasks` | tools.py:32-72 | the zone is the one given, or Asia/Jakarta when none is. An unknown zone fails with ZoneNotFound, and a failed project-list fetch fails with that fault. A listed array of projects gives exactly the project loop run at that zone's midnight, with dates converted into that zone. An empty str or dict listing gives `[]`, a non-empty one TypeError, and null, a bool or a number TypeError |
| `Today.CollectAppend` | tools.py:49-72 | the tasks from projects `a + b` are those from `a` followed by those from `b`; the first fault wins |
| `Today.FetchFailureAborts` | tools.py:53-56 | one failed project fetch fails the whole call, so there is no partial list |
| `Today.NoTasksKey` | tools.py:57 | a project whose data has no `tasks` key contributes nothing |
| `Today.NullTasksAborts` | tools.py:57-58 | `null`, a bool or a number under `tasks` fails the project with TypeError |
| `Today.StringyTasks` | tools.py:57-59 | an empty string or dict under `tasks` contributes nothing, and a non-empty one fails with AttributeError |
| `Today.CollectTagged` | tools.py:50-68 | every returned task is tagged with the name of one of the projects |
| `Today.ProjectContributesItsTasks` | tools.py:50-70 | a project whose data holds a `tasks` list contributes exactly that list's selection under its name |
| `Today.ZoneDecidesConversion` | tools.py:40-66 | two zones that share today's midnight still select differently when a date converts into today in one zone and into tomorrow in the other |
| `Today.TwoProjectExample` | tools.py:32-72 | called with no zone and a listing of Work (due today 09:00, due tomorrow 09:00) and Home (starts today 18:00, no due date), the tool returns exactly the Work and Home tasks of today, tagged, in that order |
| `Acks.CompleteTask` | tools.py:245-253 | `complete_task` returns `{"message": "Task completed"}` iff the request went through, and the transport fault otherwise |
| `Acks.DeleteTask` | tools.py:256-264 | `delete_task` returns `{"message": "Task deleted"}` iff the request went through, and the transport fault otherwise |
| `Acks.AcknowledgementIgnoresResponse` | tools.py:250-264 | neither acknowledgement depends on the response's status or body, and the two messages differ |

## Left out

- HTTP (httpx clients, URLs, the bearer and content-type headers in `ticktick-mcp/config.py`): network I/O. Responses are inputs of the model.
- `get_projects`, `project_details`, `get_task_details`, `create_project`: each makes one request and returns the decoded body (`create_project` posts `{"name": project_name}`). They make no decision.
- `datetime.now`, `ZoneInfo` and the day arithmetic: clock access and time-zone database. They become the `midnight` input. Comparisons are on the zone's wall clock, as for two datetimes that share a tzinfo. DST is not modelled.
- `datetime.fromisoformat` and `astimezone`: a library parser that is not part of this model. It becomes the `convert` input, which also hides how offset-less strings are read in the server's local zone.
- JSON floating-point numbers. Where the code inspects a value, a float behaves as an `Int` with the same truthiness. As a date, `0.0` falls back to `startDate` and `1.5` aborts with AttributeError. As a listing or `tasks` value it raises TypeError. Everywhere else floats pass through untouched.
- Key order of JSON objects: the model's objects are unordered maps. This covers the posted bodies and the returned tasks, where `task["_projectName"] = pname` (tools.py:67) puts the new key last in Python.
- FastMCP tool registration, the SSE/Starlette transport (`main.py`), the OAuth bootstrap (`ticktick-mcp/auth.py`) and environment loading: framework wiring and configuration.
- Argument validation done by the tool framework from the type hints: the argument records are typed instead.
- The `if isAllDay is False and startDate is None: pass` branches (tools.py:163-164, 237-238): they have no effect.
- Offset.Normalize: its own contract only bounds the length and keeps a first character other than `+`. What the replacement does is stated by `Offset.NormalizeUnchangedIff` and `Offset.NormalizeAround`, which together determine the result on every string. It models only this one fixed `str.replace`, not the general method.
