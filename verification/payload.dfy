/** Request bodies of the `create_task` and `update_task` tools: the required
    keys, then each optional argument under its own key exactly when the
    caller supplied it (an omitted argument is absent, never `null`). */
module Payload {
  import opened Wrappers
  import opened Json

  /** The keys a task body can carry. */
  datatype Field =
    | Id | ProjectId | Title | Content | Desc | IsAllDay | StartDate | DueDate
    | TimeZone | Reminders | RepeatFlag | Priority | SortOrder | Items

  /** The JSON key of each field, as the upstream service spells it. */
  function Name(f: Field): string {
    match f
    case Id => "id"
    case ProjectId => "projectId"
    case Title => "title"
    case Content => "content"
    case Desc => "desc"
    case IsAllDay => "isAllDay"
    case StartDate => "startDate"
    case DueDate => "dueDate"
    case TimeZone => "timeZone"
    case Reminders => "reminders"
    case RepeatFlag => "repeatFlag"
    case Priority => "priority"
    case SortOrder => "sortOrder"
    case Items => "items"
  }

  type Payload = map<Field, Value>

  /** Key `f` of `p` holds exactly the supplied argument `arg`: present iff
      supplied, and then with that value. */
  predicate Carries(p: Payload, f: Field, arg: Option<Value>) {
    && (f in p <==> arg.Some?)
    && (arg.Some? ==> p[f] == arg.value)
  }

  const AllFields: set<Field> := {
    Id, ProjectId, Title, Content, Desc, IsAllDay, StartDate, DueDate,
    TimeZone, Reminders, RepeatFlag, Priority, SortOrder, Items
  }

  lemma AllFieldsListed()
    ensures forall f :: f in AllFields
  {
    forall f: Field
      ensures f in AllFields
    {
      match f
      case Id => case ProjectId => case Title => case Content => case Desc =>
      case IsAllDay => case StartDate => case DueDate => case TimeZone =>
      case Reminders => case RepeatFlag => case Priority => case SortOrder =>
      case Items =>
    }
  }

  function Text(arg: Option<string>): Option<Value> {
    match arg
    case Some(s) => Some(Str(s))
    case None => None
  }

  function Flag(arg: Option<bool>): Option<Value> {
    match arg
    case Some(b) => Some(Bool(b))
    case None => None
  }

  function Number(arg: Option<int>): Option<Value> {
    match arg
    case Some(n) => Some(Int(n))
    case None => None
  }

  function List(arg: Option<seq<Value>>): Option<Value> {
    match arg
    case Some(xs) => Some(Arr(xs))
    case None => None
  }

  /** The arguments of `create_task`; `None` is an argument left at (or
      passed as) Python `None`. */
  datatype CreateArgs = CreateArgs(
    projectId: string,
    title: string,
    content: Option<string>,
    desc: Option<string>,
    isAllDay: Option<bool>,
    startDate: Option<string>,
    dueDate: Option<string>,
    timeZone: Option<string>,
    reminders: Option<seq<Value>>,
    repeatFlag: Option<string>,
    priority: Option<int>,
    sortOrder: Option<int>,
    items: Option<seq<Value>>)

  /** The arguments of `update_task`: only the task and project ids are
      required, `title` is optional too, and `priority` has no default. */
  datatype UpdateArgs = UpdateArgs(
    taskId: string,
    projectId: string,
    title: Option<string>,
    content: Option<string>,
    desc: Option<string>,
    isAllDay: Option<bool>,
    startDate: Option<string>,
    dueDate: Option<string>,
    timeZone: Option<string>,
    reminders: Option<seq<Value>>,
    repeatFlag: Option<string>,
    priority: Option<int>,
    sortOrder: Option<int>,
    items: Option<seq<Value>>)

  /** `create_task(project_id, title)` with every optional argument left at
      its default: all `None` except `priority = 0`. */
  function CreateDefaults(projectId: string, title: string): (a: CreateArgs)
    ensures a.projectId == projectId && a.title == title
    ensures a.priority == Some(0)
  {
    CreateArgs(projectId, title, None, None, None, None, None, None, None, None, Some(0), None, None)
  }

  /** `update_task(task_id, project_id)` with every optional argument left
      at its default, which is `None` throughout. */
  function UpdateDefaults(taskId: string, projectId: string): (a: UpdateArgs)
    ensures a.taskId == taskId && a.projectId == projectId
    ensures a.priority == None && a.title == None
  {
    UpdateArgs(taskId, projectId, None, None, None, None, None, None, None, None, None, None, None, None)
  }

  /** What `create_task` has to send under each key. */
  function CreateArg(a: CreateArgs, f: Field): Option<Value> {
    match f
    case Id => None
    case ProjectId => Some(Str(a.projectId))
    case Title => Some(Str(a.title))
    case Content => Text(a.content)
    case Desc => Text(a.desc)
    case IsAllDay => Flag(a.isAllDay)
    case StartDate => Text(a.startDate)
    case DueDate => Text(a.dueDate)
    case TimeZone => Text(a.timeZone)
    case Reminders => List(a.reminders)
    case RepeatFlag => Text(a.repeatFlag)
    case Priority => Number(a.priority)
    case SortOrder => Number(a.sortOrder)
    case Items => List(a.items)
  }

  /** What `update_task` has to send under each key. */
  function UpdateArg(a: UpdateArgs, f: Field): Option<Value> {
    match f
    case Id => Some(Str(a.taskId))
    case ProjectId => Some(Str(a.projectId))
    case Title => Text(a.title)
    case Content => Text(a.content)
    case Desc => Text(a.desc)
    case IsAllDay => Flag(a.isAllDay)
    case StartDate => Text(a.startDate)
    case DueDate => Text(a.dueDate)
    case TimeZone => Text(a.timeZone)
    case Reminders => List(a.reminders)
    case RepeatFlag => Text(a.repeatFlag)
    case Priority => Number(a.priority)
    case SortOrder => Number(a.sortOrder)
    case Items => List(a.items)
  }

  /** The JSON body `create_task` posts: `projectId` and `title` always,
      every other key exactly when its argument is not `None`, no `id`. */
  function CreateBody(a: CreateArgs): (p: Payload)
    ensures forall f :: Carries(p, f, CreateArg(a, f))
  {
    AllFieldsListed();
    map f | f in AllFields && CreateArg(a, f).Some? :: CreateArg(a, f).value
  }

  /** The create body always names the project and the title and never
      carries an `id`. */
  lemma CreateBodyRequired(a: CreateArgs)
    ensures ProjectId in CreateBody(a) && CreateBody(a)[ProjectId] == Str(a.projectId)
    ensures Title in CreateBody(a) && CreateBody(a)[Title] == Str(a.title)
    ensures Id !in CreateBody(a)
  {
    var p := CreateBody(a);
    assert Carries(p, Id, CreateArg(a, Id));
    assert Carries(p, ProjectId, CreateArg(a, ProjectId));
    assert Carries(p, Title, CreateArg(a, Title));
  }

  /** Each optional create argument appears in the body exactly when it was
      supplied, with the supplied value. */
  lemma CreateBodyOptional(a: CreateArgs)
    ensures Carries(CreateBody(a), Content, Text(a.content))
    ensures Carries(CreateBody(a), Desc, Text(a.desc))
    ensures Carries(CreateBody(a), IsAllDay, Flag(a.isAllDay))
    ensures Carries(CreateBody(a), StartDate, Text(a.startDate))
    ensures Carries(CreateBody(a), DueDate, Text(a.dueDate))
    ensures Carries(CreateBody(a), TimeZone, Text(a.timeZone))
    ensures Carries(CreateBody(a), Reminders, List(a.reminders))
    ensures Carries(CreateBody(a), RepeatFlag, Text(a.repeatFlag))
    ensures Carries(CreateBody(a), Priority, Number(a.priority))
    ensures Carries(CreateBody(a), SortOrder, Number(a.sortOrder))
    ensures Carries(CreateBody(a), Items, List(a.items))
  {
    var p := CreateBody(a);
    assert Carries(p, Content, CreateArg(a, Content));
    assert Carries(p, Desc, CreateArg(a, Desc));
    assert Carries(p, IsAllDay, CreateArg(a, IsAllDay));
    assert Carries(p, StartDate, CreateArg(a, StartDate));
    assert Carries(p, DueDate, CreateArg(a, DueDate));
    assert Carries(p, TimeZone, CreateArg(a, TimeZone));
    assert Carries(p, Reminders, CreateArg(a, Reminders));
    assert Carries(p, RepeatFlag, CreateArg(a, RepeatFlag));
    assert Carries(p, Priority, CreateArg(a, Priority));
    assert Carries(p, SortOrder, CreateArg(a, SortOrder));
    assert Carries(p, Items, CreateArg(a, Items));
  }

  /** The JSON body `update_task` posts to `/task/{task_id}`: `id` and
      `projectId` always, every other key (`title` and `priority` included)
      exactly when its argument is not `None`. */
  function UpdateBody(a: UpdateArgs): (p: Payload)
    ensures forall f :: Carries(p, f, UpdateArg(a, f))
  {
    AllFieldsListed();
    map f | f in AllFields && UpdateArg(a, f).Some? :: UpdateArg(a, f).value
  }

  /** The update body always names the task and its project. */
  lemma UpdateBodyRequired(a: UpdateArgs)
    ensures Id in UpdateBody(a) && UpdateBody(a)[Id] == Str(a.taskId)
    ensures ProjectId in UpdateBody(a) && UpdateBody(a)[ProjectId] == Str(a.projectId)
  {
    var p := UpdateBody(a);
    assert Carries(p, Id, UpdateArg(a, Id));
    assert Carries(p, ProjectId, UpdateArg(a, ProjectId));
  }

  /** Each optional update argument, the title included, appears in the
      body exactly when it was supplied, with the supplied value. */
  lemma UpdateBodyOptional(a: UpdateArgs)
    ensures Carries(UpdateBody(a), Title, Text(a.title))
    ensures Carries(UpdateBody(a), Content, Text(a.content))
    ensures Carries(UpdateBody(a), Desc, Text(a.desc))
    ensures Carries(UpdateBody(a), IsAllDay, Flag(a.isAllDay))
    ensures Carries(UpdateBody(a), StartDate, Text(a.startDate))
    ensures Carries(UpdateBody(a), DueDate, Text(a.dueDate))
    ensures Carries(UpdateBody(a), TimeZone, Text(a.timeZone))
    ensures Carries(UpdateBody(a), Reminders, List(a.reminders))
    ensures Carries(UpdateBody(a), RepeatFlag, Text(a.repeatFlag))
    ensures Carries(UpdateBody(a), Priority, Number(a.priority))
    ensures Carries(UpdateBody(a), SortOrder, Number(a.sortOrder))
    ensures Carries(UpdateBody(a), Items, List(a.items))
  {
    var p := UpdateBody(a);
    assert Carries(p, Title, UpdateArg(a, Title));
    assert Carries(p, Content, UpdateArg(a, Content));
    assert Carries(p, Desc, UpdateArg(a, Desc));
    assert Carries(p, IsAllDay, UpdateArg(a, IsAllDay));
    assert Carries(p, StartDate, UpdateArg(a, StartDate));
    assert Carries(p, DueDate, UpdateArg(a, DueDate));
    assert Carries(p, TimeZone, UpdateArg(a, TimeZone));
    assert Carries(p, Reminders, UpdateArg(a, Reminders));
    assert Carries(p, RepeatFlag, UpdateArg(a, RepeatFlag));
    assert Carries(p, Priority, UpdateArg(a, Priority));
    assert Carries(p, SortOrder, UpdateArg(a, SortOrder));
    assert Carries(p, Items, UpdateArg(a, Items));
  }

  /** Reads one optional argument back out of a body. */
  function ReadText(p: Payload, f: Field): Option<string> {
    if f in p && p[f].Str? then Some(p[f].s) else None
  }

  function ReadFlag(p: Payload, f: Field): Option<bool> {
    if f in p && p[f].Bool? then Some(p[f].b) else None
  }

  function ReadNumber(p: Payload, f: Field): Option<int> {
    if f in p && p[f].Int? then Some(p[f].i) else None
  }

  function ReadList(p: Payload, f: Field): Option<seq<Value>> {
    if f in p && p[f].Arr? then Some(p[f].elems) else None
  }

  /** Recovers the `create_task` arguments from the body it posted, or
      `None` when a required key is missing. */
  function ReadCreate(p: Payload): Option<CreateArgs> {
    match (ReadText(p, ProjectId), ReadText(p, Title))
    case (Some(projectId), Some(title)) =>
      Some(CreateArgs(projectId, title,
        ReadText(p, Content), ReadText(p, Desc), ReadFlag(p, IsAllDay),
        ReadText(p, StartDate), ReadText(p, DueDate), ReadText(p, TimeZone),
        ReadList(p, Reminders), ReadText(p, RepeatFlag), ReadNumber(p, Priority),
        ReadNumber(p, SortOrder), ReadList(p, Items)))
    case _ => None
  }

  /** Recovers the `update_task` arguments from the body it posted, or
      `None` when a required key is missing. */
  function ReadUpdate(p: Payload): Option<UpdateArgs> {
    match (ReadText(p, Id), ReadText(p, ProjectId))
    case (Some(taskId), Some(projectId)) =>
      Some(UpdateArgs(taskId, projectId, ReadText(p, Title),
        ReadText(p, Content), ReadText(p, Desc), ReadFlag(p, IsAllDay),
        ReadText(p, StartDate), ReadText(p, DueDate), ReadText(p, TimeZone),
        ReadList(p, Reminders), ReadText(p, RepeatFlag), ReadNumber(p, Priority),
        ReadNumber(p, SortOrder), ReadList(p, Items)))
    case _ => None
  }

  lemma ReadTextCarried(p: Payload, f: Field, x: Option<string>)
    requires Carries(p, f, Text(x))
    ensures ReadText(p, f) == x
  {
  }

  lemma ReadFlagCarried(p: Payload, f: Field, x: Option<bool>)
    requires Carries(p, f, Flag(x))
    ensures ReadFlag(p, f) == x
  {
  }

  lemma ReadNumberCarried(p: Payload, f: Field, x: Option<int>)
    requires Carries(p, f, Number(x))
    ensures ReadNumber(p, f) == x
  {
  }

  lemma ReadListCarried(p: Payload, f: Field, x: Option<seq<Value>>)
    requires Carries(p, f, List(x))
    ensures ReadList(p, f) == x
  {
  }

  /** The create body loses nothing: every argument, supplied or not, can be
      read back from it, so no two calls post the same body. */
  lemma CreateBodyRoundTrip(a: CreateArgs)
    ensures ReadCreate(CreateBody(a)) == Some(a)
  {
    var p := CreateBody(a);
    CreateBodyRequired(a);
    CreateBodyOptional(a);
    ReadTextCarried(p, ProjectId, Some(a.projectId));
    ReadTextCarried(p, Title, Some(a.title));
    ReadTextCarried(p, Content, a.content);
    ReadTextCarried(p, Desc, a.desc);
    ReadFlagCarried(p, IsAllDay, a.isAllDay);
    ReadTextCarried(p, StartDate, a.startDate);
    ReadTextCarried(p, DueDate, a.dueDate);
    ReadTextCarried(p, TimeZone, a.timeZone);
    ReadListCarried(p, Reminders, a.reminders);
    ReadTextCarried(p, RepeatFlag, a.repeatFlag);
    ReadNumberCarried(p, Priority, a.priority);
    ReadNumberCarried(p, SortOrder, a.sortOrder);
    ReadListCarried(p, Items, a.items);
  }

  /** The update body loses nothing either. */
  lemma UpdateBodyRoundTrip(a: UpdateArgs)
    ensures ReadUpdate(UpdateBody(a)) == Some(a)
  {
    var p := UpdateBody(a);
    UpdateBodyRequired(a);
    UpdateBodyOptional(a);
    ReadTextCarried(p, Id, Some(a.taskId));
    ReadTextCarried(p, ProjectId, Some(a.projectId));
    ReadTextCarried(p, Title, a.title);
    ReadTextCarried(p, Content, a.content);
    ReadTextCarried(p, Desc, a.desc);
    ReadFlagCarried(p, IsAllDay, a.isAllDay);
    ReadTextCarried(p, StartDate, a.startDate);
    ReadTextCarried(p, DueDate, a.dueDate);
    ReadTextCarried(p, TimeZone, a.timeZone);
    ReadListCarried(p, Reminders, a.reminders);
    ReadTextCarried(p, RepeatFlag, a.repeatFlag);
    ReadNumberCarried(p, Priority, a.priority);
    ReadNumberCarried(p, SortOrder, a.sortOrder);
    ReadListCarried(p, Items, a.items);
  }

  /** A bare `create_task(project_id, title)` posts exactly the project,
      the title and the default priority 0. */
  lemma CreateDefaultPriority(projectId: string, title: string)
    ensures CreateBody(CreateDefaults(projectId, title))
         == map[ProjectId := Str(projectId), Title := Str(title), Priority := Int(0)]
  {
    var a := CreateDefaults(projectId, title);
    CreateBodyRequired(a);
    CreateBodyOptional(a);
  }

  /** Passing `priority=None` explicitly to `create_task` drops the key and
      changes nothing else. */
  lemma CreateExplicitNonePriority(a: CreateArgs)
    ensures CreateBody(a.(priority := None)) == CreateBody(a) - {Priority}
  {
    var p, q := CreateBody(a), CreateBody(a.(priority := None));
    forall f
      ensures Carries(q, f, if f == Priority then None else CreateArg(a, f))
    {
      assert CreateArg(a.(priority := None), f) == if f == Priority then None else CreateArg(a, f);
    }
    assert q.Keys == p.Keys - {Priority};
  }

  /** A bare `update_task(task_id, project_id)` posts only the two ids: no
      title and, unlike `create_task`, no priority. */
  lemma UpdateNoDefaultPriority(taskId: string, projectId: string)
    ensures UpdateBody(UpdateDefaults(taskId, projectId))
         == map[Id := Str(taskId), ProjectId := Str(projectId)]
  {
    UpdateBodyRequired(UpdateDefaults(taskId, projectId));
    UpdateBodyOptional(UpdateDefaults(taskId, projectId));
  }

  /** Distinct fields have distinct JSON keys. */
  lemma NameInjective(f: Field, g: Field)
    ensures Name(f) == Name(g) ==> f == g
  {
  }

  /** The body as the JSON object on the wire. */
  function Wire(p: Payload): (w: map<string, Value>)
    ensures forall f :: Name(f) in w <==> f in p
    ensures forall f :: f in p ==> w[Name(f)] == p[f]
    ensures forall k :: k in w ==> exists f :: f in p && Name(f) == k
  {
    forall f, g | Name(f) == Name(g)
      ensures f == g
    {
      NameInjective(f, g);
    }
    map f | f in p :: Name(f) := p[f]
  }
}
