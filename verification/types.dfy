/**
 * The planner's record shapes (types.ts): a task, one day's data, the week record,
 * the seven day keys in display order and the empty week.
 */
module Types {
  import opened Wrappers

  /** The priority colours a task may carry; a task without colour has `color == None`. */
  datatype Color = Red | Blue | Yellow

  /** One checkbox line. `id` is an opaque string chosen by the client. */
  datatype Task = Task(id: string, text: string, done: bool, color: Option<Color>)

  /** One day's column: its tasks in row order and its free-text note. */
  datatype DayData = DayData(tasks: seq<Task>, note: string)

  /** The seven day keys. */
  datatype DayKey = Mon | Tue | Wed | Thu | Fri | Sat | Sun {

    /** The property name the key stands for in the stored record. */
    function Name(): (s: string)
      ensures s in DAY_NAMES
    {
      match this
      case Mon => "mon"
      case Tue => "tue"
      case Wed => "wed"
      case Thu => "thu"
      case Fri => "fri"
      case Sat => "sat"
      case Sun => "sun"
    }

    /** The position of this key in DAYS (the column it is shown in). */
    function Index(): (i: nat)
      ensures i < |DAYS| && DAYS[i] == this
    {
      match this
      case Mon => 0
      case Tue => 1
      case Wed => 2
      case Thu => 3
      case Fri => 4
      case Sat => 5
      case Sun => 6
    }
  }

  /** The day keys in display order, Monday first. */
  const DAYS: seq<DayKey> := [Mon, Tue, Wed, Thu, Fri, Sat, Sun]

  /** The names of all day keys: the property names of the `days` record. */
  const DAY_NAMES: set<string> := {"mon", "tue", "wed", "thu", "fri", "sat", "sun"}

  /**
   * The `days` record. It has one field per day key, so it holds exactly one DayData
   * for each of the seven keys by construction.
   */
  datatype Days = Days(mon: DayData, tue: DayData, wed: DayData, thu: DayData,
                       fri: DayData, sat: DayData, sun: DayData)
  {
    /** `days[k]` */
    function Get(k: DayKey): DayData {
      match k
      case Mon => mon
      case Tue => tue
      case Wed => wed
      case Thu => thu
      case Fri => fri
      case Sat => sat
      case Sun => sun
    }

    /** `{ ...days, [k]: d }`: replaces the entry of one key and keeps every other entry. */
    function Set(k: DayKey, d: DayData): (r: Days)
      ensures r.Get(k) == d
      ensures forall j: DayKey :: j != k ==> r.Get(j) == Get(j)
    {
      match k
      case Mon => this.(mon := d)
      case Tue => this.(tue := d)
      case Wed => this.(wed := d)
      case Thu => this.(thu := d)
      case Fri => this.(fri := d)
      case Sat => this.(sat := d)
      case Sun => this.(sun := d)
    }

    /** The record seen as the JavaScript object it is: property name to DayData. */
    function AsRecord(): (m: map<string, DayData>)
      ensures m.Keys == DAY_NAMES
      ensures forall k: DayKey :: k.Name() in m && m[k.Name()] == Get(k)
    {
      map["mon" := mon, "tue" := tue, "wed" := wed, "thu" := thu,
          "fri" := fri, "sat" := sat, "sun" := sun]
    }
  }

  /** The record kept for one week. `weekId` is the ISO date of the week's Monday, or empty. */
  datatype WeeklyData = WeeklyData(weekId: string, days: Days, todoList: seq<Task>, memo: string)

  /** An empty day: no tasks, empty note. */
  const EMPTY_DAY: DayData := DayData([], "")

  /** The empty week. */
  const EMPTY_WEEK: WeeklyData :=
    WeeklyData("", Days(EMPTY_DAY, EMPTY_DAY, EMPTY_DAY, EMPTY_DAY, EMPTY_DAY, EMPTY_DAY, EMPTY_DAY), [], "")

  /** DAYS holds the seven keys mon, tue, wed, thu, fri, sat, sun, in that order, once each. */
  lemma DaysListsEachKeyOnce()
    ensures |DAYS| == 7
    ensures forall i, j :: 0 <= i < j < |DAYS| ==> DAYS[i] != DAYS[j]
    ensures forall k: DayKey :: k in DAYS
    ensures DAYS[0].Name() == "mon" && DAYS[1].Name() == "tue" && DAYS[2].Name() == "wed"
         && DAYS[3].Name() == "thu" && DAYS[4].Name() == "fri" && DAYS[5].Name() == "sat"
         && DAYS[6].Name() == "sun"
  {
    forall k: DayKey ensures k in DAYS {
      assert DAYS[k.Index()] == k;
    }
  }

  /** Distinct day keys have distinct property names. */
  lemma DayNamesDistinct(j: DayKey, k: DayKey)
    ensures j.Name() == k.Name() ==> j == k
  {
  }

  /** The `days` record has exactly seven properties, one per day key and nothing else. */
  lemma {:induction false} DaysRecordHasSevenKeys(d: Days)
    ensures |d.AsRecord()| == 7
    ensures forall name :: name in d.AsRecord() <==> exists k: DayKey :: k.Name() == name
  {
    var s0: set<string> := {};
    var s1 := s0 + {"mon"};
    var s2 := s1 + {"tue"};
    var s3 := s2 + {"wed"};
    var s4 := s3 + {"thu"};
    var s5 := s4 + {"fri"};
    var s6 := s5 + {"sat"};
    var s7 := s6 + {"sun"};
    assert "sun" !in s6 && "sat" !in s5 && "fri" !in s4 && "thu" !in s3 && "wed" !in s2 && "tue" !in s1;
    assert s7 == DAY_NAMES;
    forall name | name in d.AsRecord() ensures exists k: DayKey :: k.Name() == name {
      if name == "mon" { assert Mon.Name() == name; }
      else if name == "tue" { assert Tue.Name() == name; }
      else if name == "wed" { assert Wed.Name() == name; }
      else if name == "thu" { assert Thu.Name() == name; }
      else if name == "fri" { assert Fri.Name() == name; }
      else if name == "sat" { assert Sat.Name() == name; }
      else { assert Sun.Name() == name; }
    }
  }

  /** Every day of the empty week has no tasks and an empty note. */
  lemma EmptyWeekDaysAreEmpty(k: DayKey)
    ensures EMPTY_WEEK.days.Get(k).tasks == []
    ensures EMPTY_WEEK.days.Get(k).note == ""
  {
  }

  /** The empty week has no todo items, an empty memo and an empty week id. */
  lemma EmptyWeekHasNoTodosOrMemo()
    ensures EMPTY_WEEK.todoList == [] && EMPTY_WEEK.memo == "" && EMPTY_WEEK.weekId == ""
  {
  }
}
