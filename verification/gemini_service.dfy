/**
 * The smart-plan adapter (services/geminiService.ts): it checks the API key, sends one
 * request, rejects an empty reply, parses the reply and maps its string lists onto the
 * week record's shape. The request itself and JSON parsing are foreign calls; they enter
 * the model as the parameters `reply` and `parse`, and the random ids as `ids`.
 */
module GeminiService {
  import opened Wrappers
  import opened Types

  /**
   * The object `JSON.parse` yields for a reply in the response schema: `arrays` maps each
   * array-valued property that is present ("mon" ... "sun", "todoList") to its strings, and
   * `memo` is the "memo" property if present.
   */
  datatype PlanJson = PlanJson(arrays: map<string, seq<string>>, memo: Option<string>)

  /** What `generateContent` gives back: it threw, or it answered with `response.text`. */
  datatype GeminiReply = RequestFailed(message: string) | Replied(text: Option<string>)

  /** The errors `generateSmartPlan` throws. */
  datatype PlanError =
    | MissingApiKey            // no API key configured
    | RequestError(message: string)  // the request itself threw; its error passes through
    | NoResponse               // the reply had no text
    | GenerationFailed         // parsing or mapping threw
  {
    /**
     * The message of the thrown `Error`: a failed request's own message, otherwise one of
     * three fixed texts, each of which names exactly one failure point.
     */
    function Message(): (m: string)
      ensures RequestError? ==> m == message
      ensures !RequestError? ==> (m == "API Key is missing. Please configure process.env.API_KEY." <==> MissingApiKey?)
      ensures !RequestError? ==> (m == "No response from Gemini" <==> NoResponse?)
      ensures !RequestError? ==> (m == "Failed to generate plan." <==> GenerationFailed?)
    {
      match this
      case MissingApiKey => "API Key is missing. Please configure process.env.API_KEY."
      case RequestError(message) => message
      case NoResponse => "No response from Gemini"
      case GenerationFailed => "Failed to generate plan."
    }
  }

  /** `Partial<WeeklyData>` as the service builds it and the planner merges it. */
  datatype PartialWeek = PartialWeek(days: Days, todoList: Option<seq<Task>>, memo: Option<string>)

  /** JavaScript truthiness of an optional string: present and not empty. */
  predicate Truthy(s: Option<string>) {
    s.Some? && s.value != ""
  }

  /** `json[key]`: the array under `key`, or undefined when the property is missing. */
  function ArrayField(json: PlanJson, key: string): Option<seq<string>> {
    if key in json.arrays then Some(json.arrays[key]) else None
  }

  /**
   * `transformTasks(tasks = [])`: each string becomes a task with that text, not done and
   * without colour, in the same order; a missing list counts as the empty list. The id of
   * the task made from string `k` of list `key` is `ids(key, k)`.
   */
  function TransformTasks(tasks: Option<seq<string>>, ids: (string, nat) -> string, key: string): (r: seq<Task>)
    ensures tasks.None? ==> r == []
    ensures tasks.Some? ==> |r| == |tasks.value|
    ensures tasks.Some? ==> forall k :: 0 <= k < |r| ==> r[k].text == tasks.value[k]
    ensures forall k :: 0 <= k < |r| ==> !r[k].done && r[k].color == None && r[k].id == ids(key, k)
  {
    var strs := if tasks.Some? then tasks.value else [];
    seq(|strs|, k requires 0 <= k < |strs| => Task(ids(key, k), strs[k], false, None))
  }

  /** The texts of a task list, in order. */
  function Texts(tasks: seq<Task>): (r: seq<string>)
    ensures |r| == |tasks|
  {
    if tasks == [] then [] else [tasks[0].text] + Texts(tasks[1..])
  }

  /** The texts of the transformed tasks are the strings of the reply, in order. */
  lemma {:induction false} TextsOfTransform(strs: seq<string>, ids: (string, nat) -> string, key: string)
    ensures Texts(TransformTasks(Some(strs), ids, key)) == strs
  {
    var r := TransformTasks(Some(strs), ids, key);
    TextsAt(r);
  }

  lemma {:induction false} TextsAt(tasks: seq<Task>)
    ensures forall k :: 0 <= k < |tasks| ==> Texts(tasks)[k] == tasks[k].text
  {
    if tasks != [] {
      TextsAt(tasks[1..]);
    }
  }

  /** The strings the reply holds under `key`; none when the property is missing. */
  function ReplyStrings(json: PlanJson, key: string): seq<string> {
    var field := ArrayField(json, key);
    if field.Some? then field.value else []
  }

  /**
   * One day of `mappedData`: an empty note, and one task per string the reply holds for
   * that day, in order, each not done and without colour.
   */
  function DayOf(json: PlanJson, ids: (string, nat) -> string, day: DayKey): (d: DayData)
    ensures d.note == ""
    ensures Texts(d.tasks) == ReplyStrings(json, day.Name())
    ensures forall t | t in d.tasks :: !t.done && t.color == None
  {
    var tasks := TransformTasks(ArrayField(json, day.Name()), ids, day.Name());
    TextsOfTransform(ReplyStrings(json, day.Name()), ids, day.Name());
    DayData(tasks, "")
  }

  /** `mappedData`: all seven days, the todo list by the same rule, and the memo or ''. */
  function MapResponse(json: PlanJson, ids: (string, nat) -> string): (p: PartialWeek)
    ensures forall k: DayKey :: p.days.Get(k) == DayOf(json, ids, k)
    ensures forall k: DayKey :: p.days.Get(k).note == "" && Texts(p.days.Get(k).tasks) == ReplyStrings(json, k.Name())
    ensures p.todoList.Some? && Texts(p.todoList.value) == ReplyStrings(json, "todoList")
    ensures forall t | t in p.todoList.value :: !t.done && t.color == None
    ensures p.memo == Some(if Truthy(json.memo) then json.memo.value else "")
  {
    TextsOfTransform(ReplyStrings(json, "todoList"), ids, "todoList");
    PartialWeek(
      Days(DayOf(json, ids, Mon), DayOf(json, ids, Tue), DayOf(json, ids, Wed), DayOf(json, ids, Thu),
           DayOf(json, ids, Fri), DayOf(json, ids, Sat), DayOf(json, ids, Sun)),
      Some(TransformTasks(ArrayField(json, "todoList"), ids, "todoList")),
      Some(if Truthy(json.memo) then json.memo.value else ""))
  }

  /**
   * `generateSmartPlan`. `apiKey` is `process.env.API_KEY`, `reply` what the request gave,
   * `parse` is `JSON.parse` (None when it throws). Either the whole mapped plan is returned
   * or one error, never a part of a plan.
   */
  function GenerateSmartPlan(apiKey: Option<string>, reply: GeminiReply, parse: string -> Option<PlanJson>,
                             ids: (string, nat) -> string): (r: Result<PartialWeek, PlanError>)
    ensures !Truthy(apiKey) ==> r == Failure(MissingApiKey)
    ensures Truthy(apiKey) && reply.RequestFailed? ==> r == Failure(RequestError(reply.message))
    ensures Truthy(apiKey) && reply.Replied? && !Truthy(reply.text) ==> r == Failure(NoResponse)
    ensures Truthy(apiKey) && reply.Replied? && Truthy(reply.text) && parse(reply.text.value).None?
            ==> r == Failure(GenerationFailed)
    ensures r.Success? <==> Truthy(apiKey) && reply.Replied? && Truthy(reply.text) && parse(reply.text.value).Some?
    ensures r.Success? ==> r.value == MapResponse(parse(reply.text.value).value, ids)
  {
    if !Truthy(apiKey) then Failure(MissingApiKey)
    else match reply
      case RequestFailed(message) => Failure(RequestError(message))
      case Replied(text) =>
        if !Truthy(text) then Failure(NoResponse)
        else match parse(text.value)
          case None => Failure(GenerationFailed)
          case Some(json) => Success(MapResponse(json, ids))
  }

  /** Without an API key the call fails the same way whatever the network and the parser would do. */
  lemma MissingKeyFailsFirst(apiKey: Option<string>, reply1: GeminiReply, reply2: GeminiReply,
                             parse1: string -> Option<PlanJson>, parse2: string -> Option<PlanJson>,
                             ids1: (string, nat) -> string, ids2: (string, nat) -> string)
    requires !Truthy(apiKey)
    ensures GenerateSmartPlan(apiKey, reply1, parse1, ids1) == GenerateSmartPlan(apiKey, reply2, parse2, ids2)
    ensures GenerateSmartPlan(apiKey, reply1, parse1, ids1).error.Message()
         == "API Key is missing. Please configure process.env.API_KEY."
  {
  }

  /**
   * Unless the request itself failed, the call ends in "Failed to generate plan." exactly
   * when the key and the reply text are present and the reply does not parse.
   */
  lemma GenerationFailedMeansParseFailed(apiKey: Option<string>, reply: GeminiReply,
                                         parse: string -> Option<PlanJson>, ids: (string, nat) -> string)
    requires reply.Replied?
    ensures var r := GenerateSmartPlan(apiKey, reply, parse, ids);
      (r.Failure? && r.error.Message() == "Failed to generate plan.")
      <==> Truthy(apiKey) && Truthy(reply.text) && parse(reply.text.value).None?
  {
  }

  /**
   * A reply that lacks a day's property still succeeds: that day gets no tasks
   * (the default parameter of `transformTasks`), it is not a format error.
   */
  lemma MissingDayKeyIsEmpty(json: PlanJson, ids: (string, nat) -> string, day: DayKey)
    requires day.Name() !in json.arrays
    ensures MapResponse(json, ids).days.Get(day) == EMPTY_DAY
  {
  }

  /**
   * A reply with one Monday task, one todo item and a memo maps to exactly those; the goal
   * text and the week start only reach the prompt.
   */
  lemma WorkedExample(ids: (string, nat) -> string, parse: string -> Option<PlanJson>, text: string)
    requires text != ""
    requires parse(text) == Some(PlanJson(
      map["mon" := ["운동 30분"], "tue" := [], "wed" := [], "thu" := [], "fri" := [], "sat" := [], "sun" := [],
          "todoList" := ["물 마시기"]],
      Some("힘내자")))
    ensures var r := GenerateSmartPlan(Some("key"), Replied(Some(text)), parse, ids);
      && r.Success?
      && |r.value.days.mon.tasks| == 1
      && r.value.days.mon.tasks[0].text == "운동 30분" && !r.value.days.mon.tasks[0].done
      && r.value.days.tue.tasks == []
      && r.value.todoList.Some? && |r.value.todoList.value| == 1
      && r.value.todoList.value[0].text == "물 마시기"
      && r.value.memo == Some("힘내자")
  {
    var json := parse(text).value;
    assert ArrayField(json, "mon") == Some(["운동 30분"]);
    assert ArrayField(json, "tue") == Some([]);
    assert ArrayField(json, "todoList") == Some(["물 마시기"]);
    assert Truthy(json.memo);
  }
}
