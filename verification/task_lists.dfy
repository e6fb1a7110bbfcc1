/**
 * The task-list rules of the planner view (components/Planner.tsx): reading a row with
 * the placeholder fallback, writing one field of a row after padding the list, and the
 * colour cycle of the priority tab.
 */
module TaskLists {
  import opened Wrappers
  import opened Types

  /** `FALLBACK_TASK`: what a row beyond the end of its list shows. */
  const FALLBACK_TASK: Task := Task("fallback", "", false, None)

  /** A padding entry: empty text, not done, no colour. */
  function Blank(id: string): Task {
    Task(id, "", false, None)
  }

  /** What a row shows: its text, its check mark and its colour tab (not its id). */
  datatype RowView = RowView(text: string, done: bool, color: Option<Color>)

  function View(t: Task): RowView {
    RowView(t.text, t.done, t.color)
  }

  /** `tasks[i] || FALLBACK_TASK`: row `i` of a list, or the placeholder beyond its end. */
  function ReadAt(tasks: seq<Task>, i: nat): (t: Task)
    ensures i < |tasks| ==> t == tasks[i]
    ensures |tasks| <= i ==> t == FALLBACK_TASK
  {
    if i < |tasks| then tasks[i] else FALLBACK_TASK
  }

  /** The one-field update `{ ...task, [field]: value }`, as one variant per field. */
  datatype TaskEdit = SetText(text: string) | SetDone(done: bool) | SetColor(color: Option<Color>)

  /** Applies an edit: the named field takes the new value, every other field is kept. */
  function ApplyEdit(t: Task, e: TaskEdit): (r: Task)
    ensures r.id == t.id
    ensures e.SetText? ==> r.text == e.text && r.done == t.done && r.color == t.color
    ensures e.SetDone? ==> r.done == e.done && r.text == t.text && r.color == t.color
    ensures e.SetColor? ==> r.color == e.color && r.text == t.text && r.done == t.done
  {
    match e
    case SetText(text) => t.(text := text)
    case SetDone(done) => t.(done := done)
    case SetColor(color) => t.(color := color)
  }

  function Max(a: int, b: int): int {
    if a < b then b else a
  }

  /**
   * The list after writing `edit` to row `index`: the list padded with blank entries up to
   * and including `index`, then entry `index` edited. `ids(k)` is the id the padding entry at
   * position `k` receives.
   */
  function WriteAt(tasks: seq<Task>, index: nat, edit: TaskEdit, ids: nat -> string): (r: seq<Task>)
    ensures |r| == Max(|tasks|, index + 1)
    ensures forall k :: 0 <= k < |tasks| && k != index ==> r[k] == tasks[k]
    ensures forall k :: |tasks| <= k < |r| && k != index ==> r[k] == Blank(ids(k))
    ensures r[index] == ApplyEdit(if index < |tasks| then tasks[index] else Blank(ids(index)), edit)
  {
    var padded := if index < |tasks| then tasks
                  else tasks + seq(index + 1 - |tasks|, k requires 0 <= k => Blank(ids(|tasks| + k)));
    padded[index := ApplyEdit(padded[index], edit)]
  }

  /**
   * The body of `handleTaskChange` and `handleTodoChange`: copy the list, push blank
   * entries while it is not longer than `index`, then overwrite entry `index`.
   */
  method PadAndWrite(tasks: seq<Task>, index: nat, edit: TaskEdit, ids: nat -> string) returns (r: seq<Task>)
    ensures r == WriteAt(tasks, index, edit, ids)
  {
    r := tasks;
    while |r| <= index
      invariant |tasks| <= |r| <= Max(|tasks|, index + 1)
      invariant r[..|tasks|] == tasks
      invariant forall k :: |tasks| <= k < |r| ==> r[k] == Blank(ids(k))
      decreases index + 1 - |r|
    {
      r := r + [Blank(ids(|r|))];
    }
    r := r[index := ApplyEdit(r[index], edit)];
  }

  /**
   * A write to row `index` shows up on that row exactly as the edit applied to what the
   * row showed before, and changes what no other row shows: the padding entries look
   * like the placeholder.
   */
  lemma WriteThenRead(tasks: seq<Task>, index: nat, edit: TaskEdit, ids: nat -> string, j: nat)
    ensures j == index ==> View(ReadAt(WriteAt(tasks, index, edit, ids), j)) == View(ApplyEdit(ReadAt(tasks, j), edit))
    ensures j != index ==> View(ReadAt(WriteAt(tasks, index, edit, ids), j)) == View(ReadAt(tasks, j))
  {
  }

  /** `nextColor`: absent -> red -> blue -> yellow -> absent. */
  function NextColor(c: Option<Color>): (n: Option<Color>)
    ensures n != c
  {
    match c
    case None => Some(Red)
    case Some(Red) => Some(Blue)
    case Some(Blue) => Some(Yellow)
    case Some(Yellow) => None
  }

  /** `n` successive applications of NextColor. */
  function Cycle(c: Option<Color>, n: nat): Option<Color> {
    if n == 0 then c else NextColor(Cycle(c, n - 1))
  }

  /** From absent, the colours visited are exactly red, blue, yellow, absent. */
  lemma CycleFromNoColor()
    ensures [Cycle(None, 1), Cycle(None, 2), Cycle(None, 3), Cycle(None, 4)]
         == [Some(Red), Some(Blue), Some(Yellow), None]
  {
  }

  /** Four applications return any colour to itself, and fewer never do. */
  lemma {:induction false} CyclePeriod(c: Option<Color>, n: nat)
    ensures Cycle(c, n + 4) == Cycle(c, n)
    ensures 0 < n < 4 ==> Cycle(c, n) != c
  {
    if n == 0 {
      assert Cycle(c, 4) == NextColor(NextColor(NextColor(NextColor(c))));
    } else {
      CyclePeriod(c, n - 1);
      assert Cycle(c, n + 4) == NextColor(Cycle(c, n - 1 + 4));
    }
    if 0 < n < 4 {
      assert Cycle(c, 3) == NextColor(NextColor(NextColor(c)));
    }
  }

  /**
   * A click on the colour tab of row `i` (Planner.tsx `nextColor(task.color)` fed to the
   * change handler): the row's shown colour advances one step.
   */
  function ClickColor(tasks: seq<Task>, i: nat, ids: nat -> string): (r: seq<Task>)
    ensures View(ReadAt(r, i)) == View(ReadAt(tasks, i)).(color := NextColor(ReadAt(tasks, i).color))
    ensures forall j: nat :: j != i ==> View(ReadAt(r, j)) == View(ReadAt(tasks, j))
  {
    var edit := SetColor(NextColor(ReadAt(tasks, i).color));
    WriteAt(tasks, i, edit, ids)
  }

  /** Four clicks on the same row show the row as it was, whatever ids the padding drew. */
  lemma FourClicksRestoreRow(tasks: seq<Task>, i: nat, ids1: nat -> string, ids2: nat -> string,
                             ids3: nat -> string, ids4: nat -> string)
    ensures View(ReadAt(ClickColor(ClickColor(ClickColor(ClickColor(tasks, i, ids1), i, ids2), i, ids3), i, ids4), i))
         == View(ReadAt(tasks, i))
  {
  }
}
