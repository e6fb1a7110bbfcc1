/**
 * The planner component's state and handlers (components/Planner.tsx): the displayed
 * week's start, the week record, the load rule, the edit handlers, week navigation and
 * the merge of a smart plan.
 */
module PlannerState {
  import opened Wrappers
  import opened Types
  import opened Dates
  import opened TaskLists
  import opened GeminiService

  /** The local-storage key of a week: `planner_${week}`. */
  function StorageKey(week: string): (key: string)
    ensures |key| == |week| + 8 && key[..8] == "planner_" && key[8..] == week
  {
    "planner_" + week
  }

  /** Different weeks are stored under different keys. */
  lemma StorageKeyInjective(a: string, b: string)
    requires StorageKey(a) == StorageKey(b)
    ensures a == b
  {
  }

  /**
   * The load effect: the stored record of the week when there is one, otherwise the
   * empty week carrying the week's id.
   */
  function LoadOrEmpty(store: map<string, WeeklyData>, week: string): (d: WeeklyData)
    ensures StorageKey(week) in store ==> d == store[StorageKey(week)]
    ensures StorageKey(week) !in store ==>
      d.weekId == week && d.todoList == [] && d.memo == ""
      && forall k: DayKey :: d.days.Get(k) == EMPTY_DAY
  {
    var key := StorageKey(week);
    if key in store then store[key] else EMPTY_WEEK.(weekId := week)
  }

  /** The save effect's write, without its delay: the record is stored under its week's key. */
  function Save(store: map<string, WeeklyData>, week: string, data: WeeklyData): (s: map<string, WeeklyData>)
    ensures StorageKey(week) in s && s[StorageKey(week)] == data
    ensures forall key :: key != StorageKey(week) ==> (key in s <==> key in store)
    ensures forall key :: key != StorageKey(week) && key in store ==> s[key] == store[key]
  {
    store[StorageKey(week) := data]
  }

  /** Loading a week right after saving it gives back the saved record; other weeks are unaffected. */
  lemma SaveThenLoad(store: map<string, WeeklyData>, week: string, other: string, data: WeeklyData)
    ensures LoadOrEmpty(Save(store, week, data), week) == data
    ensures other != week ==> LoadOrEmpty(Save(store, week, data), other) == LoadOrEmpty(store, other)
  {
  }

  /**
   * The state update of a successful smart plan: days, todo list (default empty) and memo
   * (default '') come from the plan, the week id stays.
   */
  function MergePlan(prev: WeeklyData, plan: PartialWeek): (d: WeeklyData)
    ensures d.weekId == prev.weekId
    ensures d.days == plan.days
    ensures d.todoList == (if plan.todoList.Some? then plan.todoList.value else [])
    ensures d.memo == (if Truthy(plan.memo) then plan.memo.value else "")
  {
    prev.(days := plan.days,
          todoList := if plan.todoList.Some? then plan.todoList.value else [],
          memo := if Truthy(plan.memo) then plan.memo.value else "")
  }

  /** After a successful generation, the week record holds exactly the mapped reply under the same week id. */
  lemma SmartPlanReplacesContent(prev: WeeklyData, apiKey: Option<string>, reply: GeminiReply,
                                 parse: string -> Option<PlanJson>, ids: (string, nat) -> string)
    requires GenerateSmartPlan(apiKey, reply, parse, ids).Success?
    ensures var json := parse(reply.text.value).value;
      var d := MergePlan(prev, GenerateSmartPlan(apiKey, reply, parse, ids).value);
      && d.weekId == prev.weekId
      && (forall k: DayKey :: d.days.Get(k).note == ""
            && d.days.Get(k).tasks == TransformTasks(ArrayField(json, k.Name()), ids, k.Name()))
      && d.todoList == TransformTasks(ArrayField(json, "todoList"), ids, "todoList")
      && d.memo == (if Truthy(json.memo) then json.memo.value else "")
  {
  }

  /** The one alert `handleSmartPlan` shows for every failure; the thrown error is dropped. */
  const SMART_PLAN_ALERT: string := "Failed to generate plan. Please check your API key."

  /** The alert is none of the service's own messages, so the user is not told which step failed. */
  lemma AlertHidesCause(e: PlanError)
    requires !e.RequestError?
    ensures e.Message() != SMART_PLAN_ALERT
  {
  }

  /** The planner component: the displayed week and its record. */
  class Planner {
    /** `currentWeekStart`, as a day number. */
    var currentWeekStart: int
    /** `data`: the record of the displayed week. */
    var data: WeeklyData
    /** `formatDate`: how a day number is written as the ISO date of the week id. */
    const formatDate: int -> string

    /** The week start is always a Monday. */
    ghost predicate Valid()
      reads this
    {
      IsMonday(currentWeekStart)
    }

    /**
     * The id of the displayed week (`currentWeekStart` as a string): the formatted Monday
     * of the displayed week. The record is loaded and saved under `StorageKey(WeekId())`.
     */
    function WeekId(): (id: string)
      reads this
      ensures Valid() ==> id == formatDate(GetMonday(currentWeekStart))
    {
      formatDate(currentWeekStart)
    }

    /** The initial state: this week's Monday, and the empty week carrying its id. */
    constructor (today: int, formatDate: int -> string)
      ensures Valid()
      ensures currentWeekStart == GetMonday(today)
      ensures this.formatDate == formatDate
      ensures data == EMPTY_WEEK.(weekId := formatDate(currentWeekStart))
    {
      this.formatDate := formatDate;
      currentWeekStart := GetMonday(today);
      data := EMPTY_WEEK.(weekId := formatDate(GetMonday(today)));
    }

    /** The load effect, run when the displayed week changes. */
    method LoadWeek(store: map<string, WeeklyData>)
      modifies this`data
      ensures data == LoadOrEmpty(store, WeekId())
    {
      data := LoadOrEmpty(store, WeekId());
    }

    /** `handleTaskChange(day, index, field, value)`. */
    method TaskChange(day: DayKey, index: nat, edit: TaskEdit, ids: nat -> string)
      modifies this`data
      ensures data.days.Get(day).tasks == WriteAt(old(data.days.Get(day).tasks), index, edit, ids)
      ensures data.days.Get(day).note == old(data.days.Get(day).note)
      ensures forall k: DayKey :: k != day ==> data.days.Get(k) == old(data.days.Get(k))
      ensures data.todoList == old(data.todoList) && data.memo == old(data.memo)
      ensures data.weekId == old(data.weekId)
    {
      var tasks := PadAndWrite(data.days.Get(day).tasks, index, edit, ids);
      data := data.(days := data.days.Set(day, data.days.Get(day).(tasks := tasks)));
    }

    /** `handleNoteChange(day, value)`. */
    method NoteChange(day: DayKey, value: string)
      modifies this`data
      ensures data.days.Get(day) == old(data.days.Get(day)).(note := value)
      ensures forall k: DayKey :: k != day ==> data.days.Get(k) == old(data.days.Get(k))
      ensures data.todoList == old(data.todoList) && data.memo == old(data.memo)
      ensures data.weekId == old(data.weekId)
    {
      data := data.(days := data.days.Set(day, data.days.Get(day).(note := value)));
    }

    /** `handleTodoChange(index, field, value)`. */
    method TodoChange(index: nat, edit: TaskEdit, ids: nat -> string)
      modifies this`data
      ensures data.todoList == WriteAt(old(data.todoList), index, edit, ids)
      ensures data.days == old(data.days) && data.memo == old(data.memo)
      ensures data.weekId == old(data.weekId)
    {
      var tasks := PadAndWrite(data.todoList, index, edit, ids);
      data := data.(todoList := tasks);
    }

    /** `handleMemoChange(value)`. */
    method MemoChange(value: string)
      modifies this`data
      ensures data == old(data).(memo := value)
    {
      data := data.(memo := value);
    }

    /** A click on the colour tab of a day row: the change handler fed `nextColor(task.color)`. */
    method TaskColorClick(day: DayKey, row: nat, ids: nat -> string)
      modifies this`data
      ensures data.days.Get(day).tasks == ClickColor(old(data.days.Get(day).tasks), row, ids)
      ensures data.days.Get(day).note == old(data.days.Get(day).note)
      ensures forall k: DayKey :: k != day ==> data.days.Get(k) == old(data.days.Get(k))
      ensures data.todoList == old(data.todoList) && data.memo == old(data.memo)
      ensures data.weekId == old(data.weekId)
    {
      var task := ReadAt(data.days.Get(day).tasks, row);
      TaskChange(day, row, SetColor(NextColor(task.color)), ids);
    }

    /** A click on the colour tab of a todo row. */
    method TodoColorClick(row: nat, ids: nat -> string)
      modifies this`data
      ensures data.todoList == ClickColor(old(data.todoList), row, ids)
      ensures data.days == old(data.days) && data.memo == old(data.memo)
      ensures data.weekId == old(data.weekId)
    {
      var task := ReadAt(data.todoList, row);
      TodoChange(row, SetColor(NextColor(task.color)), ids);
    }

    /** `changeWeek(offset)`: the week start moves by exactly 7 x offset days and stays a Monday. */
    method ChangeWeek(offset: int)
      requires Valid()
      modifies this`currentWeekStart
      ensures Valid()
      ensures currentWeekStart == old(currentWeekStart) + 7 * offset
    {
      currentWeekStart := AddWeeks(currentWeekStart, offset);
    }

    /** The date picker: a chosen date sets the week to that date's Monday; a cleared field does nothing. */
    method PickDate(picked: Option<int>)
      requires Valid()
      modifies this`currentWeekStart
      ensures Valid()
      ensures currentWeekStart == if picked.Some? then GetMonday(picked.value) else old(currentWeekStart)
    {
      if picked.Some? {
        currentWeekStart := GetMonday(picked.value);
      }
    }

    /**
     * `handleSmartPlan`: on success the plan is merged into the record; on any error the
     * record is left as it was and `failed` reports that `SMART_PLAN_ALERT` is shown.
     */
    method SmartPlan(apiKey: Option<string>, reply: GeminiReply, parse: string -> Option<PlanJson>,
                     ids: (string, nat) -> string) returns (failed: bool)
      modifies this`data
      ensures failed <==> GenerateSmartPlan(apiKey, reply, parse, ids).Failure?
      ensures failed ==> data == old(data)
      ensures !failed ==> data == MergePlan(old(data), GenerateSmartPlan(apiKey, reply, parse, ids).value)
    {
      var plan := GenerateSmartPlan(apiKey, reply, parse, ids);
      match plan
      case Success(p) =>
        data := MergePlan(data, p);
        failed := false;
      case Failure(_) =>
        failed := true;
    }
  }
}
