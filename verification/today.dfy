/** The `get_today_tasks` tool: fetch every project's data, keep the tasks
    whose due date (falling back to the start date) lies in today's window,
    tag each with its project's name, and return them in project order, then
    task order.

    The network is replaced by its answers (`listing`, `fetch`), the clock
    and time-zone database by `midnight`, and `datetime.fromisoformat`
    followed by `astimezone` by `parse` (see `Conversion`). */
module Today {
  import opened Wrappers
  import opened Json
  import Offset

  /** `timedelta(days=1)` in microseconds. */
  const Day: int := 86_400_000_000

  const DefaultTimezone: string := "Asia/Jakarta"

  type Task = map<string, Value>

  /** The half-open window `[start, start + 1 day)`. */
  predicate InWindow(start: int, t: int) {
    start <= t < start + Day
  }

  /** `task.get("dueDate") or task.get("startDate")`. */
  function DateOf(task: Task): Value {
    var due := Get(task, "dueDate");
    if Truthy(due) then due else Get(task, "startDate")
  }

  /** What `datetime.fromisoformat(x).astimezone(tz)` makes of a string:
      an instant on the target zone's wall clock, in microseconds; `Invalid`
      where Python raises `ValueError` or `TypeError`, which the loop
      catches; `OutOfRange` where the converted date falls outside
      `datetime`'s years 1 to 9999 and `astimezone` raises `OverflowError`,
      which it does not. */
  datatype Conversion = Converted(instant: int) | Invalid | OutOfRange

  /** `datetime.fromisoformat(due.replace("+0000", "+00:00")).astimezone(tz)`. */
  function Instant(date: string, parse: string -> Conversion): Conversion {
    parse(Offset.Normalize(date))
  }

  /** What the loop body makes of one element of a project's `tasks`. */
  datatype Reading =
    | Undated                               // `if not due: continue`
    | Unparsable                            // the caught ValueError / TypeError
    | At(task: Task, instant: int)
    | Broken(fault: Fault)                  // an exception the loop does not catch

  function Read(element: Value, parse: string -> Conversion): (d: Reading)
    ensures d.At? ==> element == Obj(d.task)
    ensures d.At? ==> exists s :: DateOf(d.task) == Str(s) && Instant(s, parse) == Converted(d.instant)
    ensures d.Undated? <==> element.Obj? && !Truthy(DateOf(element.fields))
    ensures !element.Obj? ==> d == Broken(AttributeError)
  {
    match element
    case Obj(task) =>
      var date := DateOf(task);
      if !Truthy(date) then Undated
      else (
        match date
        case Str(s) => (
          match Instant(s, parse)
          case Converted(t) => At(task, t)
          case Invalid => Unparsable
          case OutOfRange => Broken(OverflowError))
        // `due.replace` on a truthy non-string raises AttributeError,
        // which the `except (ValueError, TypeError)` does not catch.
        case _ => Broken(AttributeError))
    // `task.get` on anything but a dict raises AttributeError.
    case _ => Broken(AttributeError)
  }

  /** The task is returned: it has a date, the date parses, and the instant
      lies in the window. */
  predicate Kept(element: Value, start: int, parse: string -> Conversion) {
    var d := Read(element, parse);
    d.At? && InWindow(start, d.instant)
  }

  /** `task["_projectName"] = pname`. */
  function Tag(task: Task, name: Value): (v: Value)
    ensures Tagged(v, name)
    ensures v.fields.Keys == task.Keys + {"_projectName"}
    ensures forall k :: k in task && k != "_projectName" ==> v.fields[k] == task[k]
  {
    Obj(task["_projectName" := name])
  }

  predicate Tagged(v: Value, name: Value) {
    v.Obj? && "_projectName" in v.fields && v.fields["_projectName"] == name
  }

  /** The first failure of two steps run one after the other, or both lists
      in order. */
  function Join(x: Result<seq<Value>, Fault>, y: Result<seq<Value>, Fault>): (r: Result<seq<Value>, Fault>)
    ensures r.Success? <==> x.Success? && y.Success?
    ensures r.Success? ==> r.value == x.value + y.value
    ensures x.Failure? ==> r == x
    ensures x.Success? && y.Failure? ==> r == y
  {
    var a :- x;
    var b :- y;
    Success(a + b)
  }

  /** What one task adds to the result: itself, tagged, when kept; nothing
      when skipped; a failure when Python raises an uncaught exception. */
  function Step(element: Value, name: Value, start: int, parse: string -> Conversion)
    : Result<seq<Value>, Fault>
  {
    var d := Read(element, parse);
    if d.Broken? then Failure(d.fault)
    else if d.At? && InWindow(start, d.instant) then Success([Tag(d.task, name)])
    else Success([])
  }

  lemma JoinAssociative(x: Result<seq<Value>, Fault>, y: Result<seq<Value>, Fault>, z: Result<seq<Value>, Fault>)
    ensures Join(Join(x, y), z) == Join(x, Join(y, z))
  {
    if x.Success? && y.Success? && z.Success? {
      assert (x.value + y.value) + z.value == x.value + (y.value + z.value);
    }
  }

  lemma JoinEmpty(y: Result<seq<Value>, Fault>)
    ensures Join(Success([]), y) == y
  {
    if y.Success? {
      assert [] + y.value == y.value;
    }
  }

  /** The inner `for task in tasks` loop of one project. */
  function SelectTasks(tasks: seq<Value>, name: Value, start: int, parse: string -> Conversion)
    : (r: Result<seq<Value>, Fault>)
    ensures r.Failure? <==> exists i :: 0 <= i < |tasks| && Read(tasks[i], parse).Broken?
    ensures r.Success? ==> |r.value| <= |tasks|
    ensures r.Success? ==> forall j :: 0 <= j < |r.value| ==> Tagged(r.value[j], name)
    decreases |tasks|
  {
    if tasks == [] then Success([])
    else
      var rest := SelectTasks(tasks[1..], name, start, parse);
      assert forall i :: 1 <= i < |tasks| ==> tasks[i] == tasks[1..][i - 1];
      Join(Step(tasks[0], name, start, parse), rest)
  }

  /** Selection distributes over concatenation: the tasks kept from `a + b`
      are those kept from `a` followed by those kept from `b`, and the first
      uncaught fault wins. */
  lemma {:induction false} SelectTasksAppend(a: seq<Value>, b: seq<Value>, name: Value, start: int,
                                             parse: string -> Conversion)
    ensures SelectTasks(a + b, name, start, parse)
         == Join(SelectTasks(a, name, start, parse), SelectTasks(b, name, start, parse))
    decreases |a|
  {
    if a == [] {
      assert a + b == b;
      JoinEmpty(SelectTasks(b, name, start, parse));
    } else {
      assert (a + b)[0] == a[0];
      assert (a + b)[1..] == a[1..] + b;
      SelectTasksAppend(a[1..], b, name, start, parse);
      JoinAssociative(Step(a[0], name, start, parse), SelectTasks(a[1..], name, start, parse),
                      SelectTasks(b, name, start, parse));
    }
  }

  /** A single task is returned, tagged, exactly when it is kept; skipped
      when undated, unparsable or outside the window; and aborts the call
      only when Python raises an exception the loop does not catch. */
  lemma SelectOne(element: Value, name: Value, start: int, parse: string -> Conversion)
    ensures var r := SelectTasks([element], name, start, parse);
      && (Kept(element, start, parse) ==> r == Success([Tag(Read(element, parse).task, name)]))
      && (!Kept(element, start, parse) && !Read(element, parse).Broken? ==> r == Success([]))
      && (Read(element, parse).Broken? ==> r == Failure(Read(element, parse).fault))
  {
    assert [element][1..] == [];
    if Kept(element, start, parse) {
      var t := [Tag(Read(element, parse).task, name)];
      assert t + [] == t;
    }
  }

  /** A task that is skipped is dropped without disturbing the rest. */
  lemma SkipOnlyThatTask(element: Value, rest: seq<Value>, name: Value, start: int,
                         parse: string -> Conversion)
    requires !Kept(element, start, parse) && !Read(element, parse).Broken?
    ensures SelectTasks([element] + rest, name, start, parse) == SelectTasks(rest, name, start, parse)
  {
    SelectTasksAppend([element], rest, name, start, parse);
    SelectOne(element, name, start, parse);
    JoinEmpty(SelectTasks(rest, name, start, parse));
  }

  /** A task with neither `dueDate` nor `startDate` (or with both falsy,
      the empty string included) never reaches the output. */
  lemma UndatedSkipped(task: Task, rest: seq<Value>, name: Value, start: int,
                       parse: string -> Conversion)
    requires !Truthy(Get(task, "dueDate")) && !Truthy(Get(task, "startDate"))
    ensures SelectTasks([Obj(task)] + rest, name, start, parse) == SelectTasks(rest, name, start, parse)
  {
    SkipOnlyThatTask(Obj(task), rest, name, start, parse);
  }

  /** A date the parser rejects drops that task and nothing else. */
  lemma UnparsableSkipped(task: Task, rest: seq<Value>, name: Value, start: int,
                          parse: string -> Conversion)
    requires DateOf(task).Str? && DateOf(task).s != ""
    requires Instant(DateOf(task).s, parse) == Invalid
    ensures SelectTasks([Obj(task)] + rest, name, start, parse) == SelectTasks(rest, name, start, parse)
  {
    SkipOnlyThatTask(Obj(task), rest, name, start, parse);
  }

  /** A truthy date that is not a string (a number, say) makes
      `due.replace` raise AttributeError, which the loop does not catch: the
      whole call fails, whatever else the project holds. */
  lemma NonStringDateAborts(task: Task, rest: seq<Value>, name: Value, start: int,
                            parse: string -> Conversion)
    requires Truthy(DateOf(task)) && !DateOf(task).Str?
    ensures SelectTasks([Obj(task)] + rest, name, start, parse) == Failure(AttributeError)
  {
    SelectTasksAppend([Obj(task)], rest, name, start, parse);
    SelectOne(Obj(task), name, start, parse);
  }

  /** An element of `tasks` that is not a dict has no `.get`: the
      AttributeError escapes the loop and fails the whole call. */
  lemma NonDictTaskAborts(element: Value, rest: seq<Value>, name: Value, start: int,
                          parse: string -> Conversion)
    requires !element.Obj?
    ensures SelectTasks([element] + rest, name, start, parse) == Failure(AttributeError)
  {
    SelectTasksAppend([element], rest, name, start, parse);
    SelectOne(element, name, start, parse);
  }

  /** A date that converts outside `datetime`'s range makes `astimezone`
      raise OverflowError, which the loop does not catch either. */
  lemma OutOfRangeAborts(task: Task, rest: seq<Value>, name: Value, start: int,
                         parse: string -> Conversion)
    requires DateOf(task).Str? && DateOf(task).s != ""
    requires Instant(DateOf(task).s, parse) == OutOfRange
    ensures SelectTasks([Obj(task)] + rest, name, start, parse) == Failure(OverflowError)
  {
    SelectTasksAppend([Obj(task)], rest, name, start, parse);
    SelectOne(Obj(task), name, start, parse);
  }

  /** A non-empty `dueDate` string decides, whatever `startDate` says. */
  lemma DueDateFirst(task: Task, due: string, parse: string -> Conversion)
    requires "dueDate" in task && task["dueDate"] == Str(due) && due != ""
    ensures Read(Obj(task), parse) == match Instant(due, parse)
      case Converted(t) => At(task, t)
      case Invalid => Unparsable
      case OutOfRange => Broken(OverflowError)
  {
  }

  /** Without a truthy `dueDate` the `startDate` string decides. */
  lemma StartDateFallback(task: Task, startDate: string, parse: string -> Conversion)
    requires !Truthy(Get(task, "dueDate"))
    requires "startDate" in task && task["startDate"] == Str(startDate) && startDate != ""
    ensures Read(Obj(task), parse) == match Instant(startDate, parse)
      case Converted(t) => At(task, t)
      case Invalid => Unparsable
      case OutOfRange => Broken(OverflowError)
  {
  }

  /** The window includes its start and excludes its end. */
  lemma WindowBounds(task: Task, date: string, name: Value, start: int, parse: string -> Conversion)
    requires DateOf(task) == Str(date) && date != ""
    ensures Instant(date, parse) == Converted(start)
         ==> SelectTasks([Obj(task)], name, start, parse) == Success([Tag(task, name)])
    ensures Instant(date, parse) == Converted(start + Day)
         ==> SelectTasks([Obj(task)], name, start, parse) == Success([])
  {
    SelectOne(Obj(task), name, start, parse);
  }

  /** Both spellings of the UTC offset select alike. */
  lemma OffsetSpellingsSelectAlike(p: string, parse: string -> Conversion)
    ensures Instant(p + Offset.Raw, parse) == Instant(p + Offset.Colon, parse)
  {
    Offset.OffsetSpellingsAgree(p);
  }

  /** What a successful selection holds: exactly the kept tasks, tagged. */
  lemma {:induction false} SelectTasksMembers(tasks: seq<Value>, name: Value, start: int,
                                              parse: string -> Conversion)
    requires SelectTasks(tasks, name, start, parse).Success?
    ensures var r := SelectTasks(tasks, name, start, parse).value;
      forall x :: x in r <==>
        exists i :: 0 <= i < |tasks| && Kept(tasks[i], start, parse) && x == Tag(Read(tasks[i], parse).task, name)
    decreases |tasks|
  {
    if tasks != [] {
      var r := SelectTasks(tasks, name, start, parse).value;
      var rest := SelectTasks(tasks[1..], name, start, parse);
      SelectTasksMembers(tasks[1..], name, start, parse);
      assert forall i :: 1 <= i < |tasks| ==> tasks[i] == tasks[1..][i - 1];
      if Kept(tasks[0], start, parse) {
        assert r == [Tag(Read(tasks[0], parse).task, name)] + rest.value;
      } else {
        assert r == rest.value;
      }
      forall x | x in r
        ensures exists i :: 0 <= i < |tasks| && Kept(tasks[i], start, parse) && x == Tag(Read(tasks[i], parse).task, name)
      {
        if x !in rest.value {
          assert Kept(tasks[0], start, parse) && x == Tag(Read(tasks[0], parse).task, name);
        } else {
          var i :| 0 <= i < |tasks[1..]| && Kept(tasks[1..][i], start, parse) && x == Tag(Read(tasks[1..][i], parse).task, name);
          assert tasks[i + 1] == tasks[1..][i];
        }
      }
      forall i | 0 <= i < |tasks| && Kept(tasks[i], start, parse)
        ensures Tag(Read(tasks[i], parse).task, name) in r
      {
        if i > 0 {
          assert tasks[1..][i - 1] == tasks[i];
        }
      }
    }
  }

  /** `project.get("name", "")`: an absent name tags with `""`, a present
      one (even `null`) tags with itself. */
  function ProjectName(project: map<string, Value>): Value {
    GetOr(project, "name", Str(""))
  }

  /** `data.get("tasks", [])`. */
  function TasksOf(data: map<string, Value>): Value {
    GetOr(data, "tasks", Arr([]))
  }

  /** One iteration of the outer `for project in projects` loop: look up the
      id, fetch the project's data, run the inner loop over its `tasks`. */
  function Contribution(project: Value, fetch: Value -> Result<Value, Fault>, start: int,
                        parse: string -> Conversion): (r: Result<seq<Value>, Fault>)
    ensures r.Success? ==> project.Obj? && forall j :: 0 <= j < |r.value| ==> Tagged(r.value[j], ProjectName(project.fields))
    ensures project.Obj? && "id" in project.fields && fetch(project.fields["id"]).Failure? ==> r.Failure?
    ensures !project.Obj? ==> r == Failure(TypeError)
    ensures project.Obj? && "id" !in project.fields ==> r == Failure(KeyError("id"))
    ensures project.Obj? && "id" in project.fields && fetch(project.fields["id"]).Failure?
         ==> r == Failure(fetch(project.fields["id"]).error)
    ensures project.Obj? && "id" in project.fields && fetch(project.fields["id"]).Success?
            && !fetch(project.fields["id"]).value.Obj?
         ==> r == Failure(AttributeError)
  {
    match project
    case Obj(p) =>
      if "id" !in p then Failure(KeyError("id"))
      else
        var data :- fetch(p["id"]);
        (match data
         case Obj(d) =>
           (match Iterate(TasksOf(d))
            case Elements(tasks) => SelectTasks(tasks, ProjectName(p), start, parse)
            // The strings a str or dict yields have no `.get`.
            case Strings(n) => if n == 0 then Success([]) else Failure(AttributeError)
            case NotIterable => Failure(TypeError))
         // `data.get` on anything but a dict.
         case _ => Failure(AttributeError))
    // `project["id"]` on anything but a dict.
    case _ => Failure(TypeError)
  }

  /** The outer loop over the project list. */
  function Collect(projects: seq<Value>, fetch: Value -> Result<Value, Fault>, start: int,
                   parse: string -> Conversion): (r: Result<seq<Value>, Fault>)
    ensures r.Success? ==> forall i :: 0 <= i < |projects| ==> projects[i].Obj?
    decreases |projects|
  {
    if projects == [] then Success([])
    else
      var rest := Collect(projects[1..], fetch, start, parse);
      assert forall i :: 1 <= i < |projects| ==> projects[i] == projects[1..][i - 1];
      Join(Contribution(projects[0], fetch, start, parse), rest)
  }

  /** `timezone: str = "Asia/Jakarta"`: the zone the caller names, or the
      default when it names none. */
  function ZoneName(timezone: Option<string>): string {
    if timezone.Some? then timezone.value else DefaultTimezone
  }

  /** The whole tool: resolve the zone and today's window, fetch the project
      list, then collect. A caller that gives no zone gets Asia/Jakarta. The
      zone decides both the window (`midnight(zone)`) and the conversion of
      every date (`convert(zone)`, that is `fromisoformat` followed by
      `astimezone(zone)`). */
  function TodayTasks(timezone: Option<string>, midnight: string -> Option<int>,
                      listing: Result<Value, Fault>, fetch: Value -> Result<Value, Fault>,
                      convert: string -> string -> Conversion): (r: Result<seq<Value>, Fault>)
    ensures midnight(ZoneName(timezone)).None? ==> r == Failure(ZoneNotFound)
    ensures midnight(ZoneName(timezone)).Some? && listing.Failure? ==> r == Failure(listing.error)
    ensures listing.Failure? ==> r.Failure?
    ensures midnight(ZoneName(timezone)).Some? && listing.Success? && listing.value.Arr?
         ==> r == Collect(listing.value.elems, fetch, midnight(ZoneName(timezone)).value,
                        convert(ZoneName(timezone)))
    ensures midnight(ZoneName(timezone)).Some? && listing.Success? && (listing.value.Str? || listing.value.Obj?)
         ==> r == if Truthy(listing.value) then Failure(TypeError) else Success([])
    ensures midnight(ZoneName(timezone)).Some? && listing.Success?
         && (listing.value.Null? || listing.value.Bool? || listing.value.Int?)
         ==> r == Failure(TypeError)
  {
    match midnight(ZoneName(timezone))
    case None => Failure(ZoneNotFound)
    case Some(start) =>
      var projects :- listing;
      match Iterate(projects)
      case Elements(ps) => Collect(ps, fetch, start, convert(ZoneName(timezone)))
      // `"..."["id"]` on the strings a str or dict yields.
      case Strings(n) => if n == 0 then Success([]) else Failure(TypeError)
      case NotIterable => Failure(TypeError)
  }

  /** Projects are handled in order: the tasks from `a + b` are those from
      `a` followed by those from `b`, and the first fault wins. */
  lemma {:induction false} CollectAppend(a: seq<Value>, b: seq<Value>, fetch: Value -> Result<Value, Fault>,
                                         start: int, parse: string -> Conversion)
    ensures Collect(a + b, fetch, start, parse)
         == Join(Collect(a, fetch, start, parse), Collect(b, fetch, start, parse))
    decreases |a|
  {
    if a == [] {
      assert a + b == b;
      JoinEmpty(Collect(b, fetch, start, parse));
    } else {
      assert (a + b)[0] == a[0];
      assert (a + b)[1..] == a[1..] + b;
      CollectAppend(a[1..], b, fetch, start, parse);
      JoinAssociative(Contribution(a[0], fetch, start, parse), Collect(a[1..], fetch, start, parse),
                      Collect(b, fetch, start, parse));
    }
  }

  /** One failed project fetch fails the whole call: there is no partial
      list. */
  lemma {:induction false} FetchFailureAborts(projects: seq<Value>, i: int, fetch: Value -> Result<Value, Fault>,
                                              start: int, parse: string -> Conversion)
    requires 0 <= i < |projects| && projects[i].Obj? && "id" in projects[i].fields
    requires fetch(projects[i].fields["id"]).Failure?
    ensures Collect(projects, fetch, start, parse).Failure?
    decreases |projects|
  {
    if i > 0 {
      assert projects[1..][i - 1] == projects[i];
      FetchFailureAborts(projects[1..], i - 1, fetch, start, parse);
    }
  }

  /** A project whose data has no `tasks` key contributes nothing. */
  lemma NoTasksKey(project: map<string, Value>, data: map<string, Value>,
                   fetch: Value -> Result<Value, Fault>, start: int, parse: string -> Conversion)
    requires "id" in project && fetch(project["id"]) == Success(Obj(data)) && "tasks" !in data
    ensures Contribution(Obj(project), fetch, start, parse) == Success([])
  {
  }

  /** A task tagged by a project of the tail is tagged by a project of the
      whole list. */
  lemma TaggedByLaterProject(projects: seq<Value>, task: Value)
    requires |projects| > 0 && forall i :: 0 <= i < |projects| ==> projects[i].Obj?
    requires exists i :: 0 <= i < |projects[1..]| && Tagged(task, ProjectName(projects[1..][i].fields))
    ensures exists i :: 0 <= i < |projects| && Tagged(task, ProjectName(projects[i].fields))
  {
    var i :| 0 <= i < |projects[1..]| && Tagged(task, ProjectName(projects[1..][i].fields));
    assert projects[1..][i] == projects[i + 1];
  }

  /** Every returned task carries the name of a project it came from. */
  lemma {:induction false} CollectTagged(projects: seq<Value>, fetch: Value -> Result<Value, Fault>,
                                         start: int, parse: string -> Conversion)
    requires Collect(projects, fetch, start, parse).Success?
    ensures var r := Collect(projects, fetch, start, parse).value;
      forall j :: 0 <= j < |r| ==>
        exists i :: 0 <= i < |projects| && Tagged(r[j], ProjectName(projects[i].fields))
    decreases |projects|
  {
    if projects != [] {
      var r := Collect(projects, fetch, start, parse).value;
      var head := Contribution(projects[0], fetch, start, parse).value;
      var rest := Collect(projects[1..], fetch, start, parse).value;
      CollectTagged(projects[1..], fetch, start, parse);
      assert r == head + rest;
      forall j | 0 <= j < |r|
        ensures exists i :: 0 <= i < |projects| && Tagged(r[j], ProjectName(projects[i].fields))
      {
        if j < |head| {
          assert Tagged(r[j], ProjectName(projects[0].fields));
        } else {
          assert r[j] == rest[j - |head|];
          TaggedByLaterProject(projects, r[j]);
        }
      }
    }
  }

  /** `for task in tasks` on `null`, a bool or a number raises TypeError
      before the first iteration, and nothing catches it. */
  lemma NullTasksAborts(project: map<string, Value>, data: map<string, Value>,
                        fetch: Value -> Result<Value, Fault>, start: int, parse: string -> Conversion)
    requires "id" in project && fetch(project["id"]) == Success(Obj(data))
    requires "tasks" in data && (data["tasks"].Null? || data["tasks"].Bool? || data["tasks"].Int?)
    ensures Contribution(Obj(project), fetch, start, parse) == Failure(TypeError)
  {
  }

  /** A `tasks` string or dict is iterated too: an empty one contributes
      nothing, and a non-empty one yields strings, whose missing `.get`
      raises AttributeError. */
  lemma StringyTasks(project: map<string, Value>, data: map<string, Value>,
                     fetch: Value -> Result<Value, Fault>, start: int, parse: string -> Conversion)
    requires "id" in project && fetch(project["id"]) == Success(Obj(data))
    requires "tasks" in data && (data["tasks"].Str? || data["tasks"].Obj?)
    ensures Contribution(Obj(project), fetch, start, parse)
         == if Truthy(data["tasks"]) then Failure(AttributeError) else Success([])
  {
  }

  /** A project that fetches to a dict with a `tasks` list contributes
      exactly the selection from that list, tagged with its name. */
  lemma ProjectContributesItsTasks(project: map<string, Value>, data: map<string, Value>, tasks: seq<Value>,
                                   fetch: Value -> Result<Value, Fault>, start: int,
                                   parse: string -> Conversion)
    requires "id" in project && fetch(project["id"]) == Success(Obj(data))
    requires "tasks" in data && data["tasks"] == Arr(tasks)
    ensures Contribution(Obj(project), fetch, start, parse) == SelectTasks(tasks, ProjectName(project), start, parse)
  {
  }

  lemma CollectOne(project: Value, fetch: Value -> Result<Value, Fault>, start: int,
                    parse: string -> Conversion)
    ensures Collect([project], fetch, start, parse) == Contribution(project, fetch, start, parse)
  {
    assert [project][1..] == [];
    var c := Contribution(project, fetch, start, parse);
    if c.Success? {
      assert c.value + [] == c.value;
    }
  }

  /** A task dated `offset` after midnight is returned, tagged, when the
      offset falls inside the day and dropped when it does not. */
  lemma DatedTask(task: Task, date: string, offset: int, name: Value, start: int,
                  parse: string -> Conversion)
    requires DateOf(task) == Str(date) && date != ""
    requires Instant(date, parse) == Converted(start + offset)
    ensures 0 <= offset < Day ==> SelectTasks([Obj(task)], name, start, parse) == Success([Tag(task, name)])
    ensures Day <= offset ==> SelectTasks([Obj(task)], name, start, parse) == Success([])
  {
    SelectOne(Obj(task), name, start, parse);
  }

  /** The "Work" half of the example below: due today 09:00 is kept, due
      tomorrow 09:00 is not. */
  lemma WorkTasks(t1: Task, t2: Task, w: Value, start: int, parse: string -> Conversion)
    requires "dueDate" in t1 && t1["dueDate"].Str? && t1["dueDate"].s != ""
    requires Instant(t1["dueDate"].s, parse) == Converted(start + 9 * 3_600_000_000)
    requires "dueDate" in t2 && t2["dueDate"].Str? && t2["dueDate"].s != ""
    requires Instant(t2["dueDate"].s, parse) == Converted(start + Day + 9 * 3_600_000_000)
    ensures SelectTasks([Obj(t1), Obj(t2)], w, start, parse) == Success([Tag(t1, w)])
  {
    DatedTask(t1, t1["dueDate"].s, 9 * 3_600_000_000, w, start, parse);
    DatedTask(t2, t2["dueDate"].s, Day + 9 * 3_600_000_000, w, start, parse);
    SelectTasksAppend([Obj(t1)], [Obj(t2)], w, start, parse);
    assert [Obj(t1), Obj(t2)] == [Obj(t1)] + [Obj(t2)];
    assert [Tag(t1, w)] + [] == [Tag(t1, w)];
  }

  /** The zone decides the conversion as well as the window. Two zones can
      share today's midnight (London and Jakarta at noon UTC) and still
      disagree on a task: due at 20:00 UTC, it is 21:00 today in one and
      03:00 tomorrow in the other. */
  lemma ZoneDecidesConversion(
    z1: string, z2: string, midnight: string -> Option<int>, start: int,
    listing: Result<Value, Fault>, fetch: Value -> Result<Value, Fault>,
    convert: string -> string -> Conversion, project: map<string, Value>, task: Task)
    requires midnight(z1) == Some(start) && midnight(z2) == Some(start)
    requires listing == Success(Arr([Obj(project)]))
    requires "id" in project && fetch(project["id"]) == Success(Obj(map["tasks" := Arr([Obj(task)])]))
    requires "dueDate" in task && task["dueDate"].Str? && task["dueDate"].s != ""
    requires Instant(task["dueDate"].s, convert(z1)) == Converted(start + 21 * 3_600_000_000)
    requires Instant(task["dueDate"].s, convert(z2)) == Converted(start + Day + 3 * 3_600_000_000)
    ensures TodayTasks(Some(z1), midnight, listing, fetch, convert)
         == Success([Tag(task, ProjectName(project))])
    ensures TodayTasks(Some(z2), midnight, listing, fetch, convert) == Success([])
  {
    var date, name, tasks := task["dueDate"].s, ProjectName(project), [Obj(task)];
    DatedTask(task, date, 21 * 3_600_000_000, name, start, convert(z1));
    DatedTask(task, date, Day + 3 * 3_600_000_000, name, start, convert(z2));
    ProjectContributesItsTasks(project, map["tasks" := Arr(tasks)], tasks, fetch, start, convert(z1));
    ProjectContributesItsTasks(project, map["tasks" := Arr(tasks)], tasks, fetch, start, convert(z2));
    CollectOne(Obj(project), fetch, start, convert(z1));
    CollectOne(Obj(project), fetch, start, convert(z2));
  }

  /** The "Work" project of the example below, on its own. */
  lemma WorkProject(start: int, parse: string -> Conversion, fetch: Value -> Result<Value, Fault>,
                    work: map<string, Value>, t1: Task, t2: Task)
    requires ProjectName(work) == Str("Work")
    requires "id" in work && fetch(work["id"]) == Success(Obj(map["tasks" := Arr([Obj(t1), Obj(t2)])]))
    requires "dueDate" in t1 && t1["dueDate"].Str? && t1["dueDate"].s != ""
    requires Instant(t1["dueDate"].s, parse) == Converted(start + 9 * 3_600_000_000)
    requires "dueDate" in t2 && t2["dueDate"].Str? && t2["dueDate"].s != ""
    requires Instant(t2["dueDate"].s, parse) == Converted(start + Day + 9 * 3_600_000_000)
    ensures Collect([Obj(work)], fetch, start, parse) == Success([Tag(t1, Str("Work"))])
  {
    WorkTasks(t1, t2, Str("Work"), start, parse);
    ProjectContributesItsTasks(work, map["tasks" := Arr([Obj(t1), Obj(t2)])], [Obj(t1), Obj(t2)],
                               fetch, start, parse);
    CollectOne(Obj(work), fetch, start, parse);
  }

  /** The "Home" project of the example below, on its own. */
  lemma HomeProject(start: int, parse: string -> Conversion, fetch: Value -> Result<Value, Fault>,
                    home: map<string, Value>, t3: Task)
    requires ProjectName(home) == Str("Home")
    requires "id" in home && fetch(home["id"]) == Success(Obj(map["tasks" := Arr([Obj(t3)])]))
    requires "dueDate" !in t3 && "startDate" in t3 && t3["startDate"].Str? && t3["startDate"].s != ""
    requires Instant(t3["startDate"].s, parse) == Converted(start + 18 * 3_600_000_000)
    ensures Collect([Obj(home)], fetch, start, parse) == Success([Tag(t3, Str("Home"))])
  {
    DatedTask(t3, t3["startDate"].s, 18 * 3_600_000_000, Str("Home"), start, parse);
    ProjectContributesItsTasks(home, map["tasks" := Arr([Obj(t3)])], [Obj(t3)], fetch, start, parse);
    CollectOne(Obj(home), fetch, start, parse);
  }

  /** The project loop of the example below: both projects, in order. */
  lemma WorkThenHome(
    start: int, parse: string -> Conversion, fetch: Value -> Result<Value, Fault>,
    work: map<string, Value>, home: map<string, Value>, t1: Task, t2: Task, t3: Task)
    requires ProjectName(work) == Str("Work") && ProjectName(home) == Str("Home")
    requires "id" in work && fetch(work["id"]) == Success(Obj(map["tasks" := Arr([Obj(t1), Obj(t2)])]))
    requires "id" in home && fetch(home["id"]) == Success(Obj(map["tasks" := Arr([Obj(t3)])]))
    requires "dueDate" in t1 && t1["dueDate"].Str? && t1["dueDate"].s != ""
    requires Instant(t1["dueDate"].s, parse) == Converted(start + 9 * 3_600_000_000)
    requires "dueDate" in t2 && t2["dueDate"].Str? && t2["dueDate"].s != ""
    requires Instant(t2["dueDate"].s, parse) == Converted(start + Day + 9 * 3_600_000_000)
    requires "dueDate" !in t3 && "startDate" in t3 && t3["startDate"].Str? && t3["startDate"].s != ""
    requires Instant(t3["startDate"].s, parse) == Converted(start + 18 * 3_600_000_000)
    ensures Collect([Obj(work), Obj(home)], fetch, start, parse)
         == Success([Tag(t1, Str("Work")), Tag(t3, Str("Home"))])
  {
    var w, h := Str("Work"), Str("Home");
    WorkProject(start, parse, fetch, work, t1, t2);
    HomeProject(start, parse, fetch, home, t3);
    CollectAppend([Obj(work)], [Obj(home)], fetch, start, parse);
    assert [Obj(work), Obj(home)] == [Obj(work)] + [Obj(home)];
    assert [Tag(t1, w)] + [Tag(t3, h)] == [Tag(t1, w), Tag(t3, h)];
  }

  /** Two projects: "Work" with a task due at 09:00 today and one due at
      09:00 tomorrow, "Home" with a task that has no due date and starts at
      18:00 today. Called without a zone, the tool returns the first and the
      third, tagged with their project's name, in that order. */
  lemma TwoProjectExample(
    midnight: string -> Option<int>, listing: Result<Value, Fault>,
    start: int, convert: string -> string -> Conversion, fetch: Value -> Result<Value, Fault>,
    work: map<string, Value>, home: map<string, Value>, t1: Task, t2: Task, t3: Task)
    requires midnight(DefaultTimezone) == Some(start)
    requires listing == Success(Arr([Obj(work), Obj(home)]))
    requires ProjectName(work) == Str("Work") && ProjectName(home) == Str("Home")
    requires "id" in work && fetch(work["id"]) == Success(Obj(map["tasks" := Arr([Obj(t1), Obj(t2)])]))
    requires "id" in home && fetch(home["id"]) == Success(Obj(map["tasks" := Arr([Obj(t3)])]))
    requires "dueDate" in t1 && t1["dueDate"].Str? && t1["dueDate"].s != ""
    requires Instant(t1["dueDate"].s, convert(DefaultTimezone)) == Converted(start + 9 * 3_600_000_000)
    requires "dueDate" in t2 && t2["dueDate"].Str? && t2["dueDate"].s != ""
    requires Instant(t2["dueDate"].s, convert(DefaultTimezone)) == Converted(start + Day + 9 * 3_600_000_000)
    requires "dueDate" !in t3 && "startDate" in t3 && t3["startDate"].Str? && t3["startDate"].s != ""
    requires Instant(t3["startDate"].s, convert(DefaultTimezone)) == Converted(start + 18 * 3_600_000_000)
    ensures TodayTasks(None, midnight, listing, fetch, convert)
         == Success([Tag(t1, Str("Work")), Tag(t3, Str("Home"))])
  {
    WorkThenHome(start, convert(DefaultTimezone), fetch, work, home, t1, t2, t3);
  }
}
