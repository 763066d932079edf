/**
 * The task screen (TaskManager.tsx): its counters and completion rate,
 * the two tabs, and the task built from a natural-language sentence,
 * either from the AI parse result or, without one, from the raw text.
 */
module TaskManager {
  import opened Wrappers
  import opened Domain
  import opened Text
  import Seqs
  import Gemini
  import Arith

  predicate IsPending(t: Task) { !t.isCompleted }
  predicate IsDone(t: Task) { t.isCompleted }

  function PendingCount(tasks: seq<Task>): nat {
    |Seqs.Filter(tasks, IsPending)|
  }

  function CompletedCount(tasks: seq<Task>): nat {
    |Seqs.Filter(tasks, IsDone)|
  }

  /** Every task is counted exactly once, as pending or as completed. */
  lemma CountsAddUp(tasks: seq<Task>)
    ensures PendingCount(tasks) + CompletedCount(tasks) == |tasks|
  {
    Seqs.FilterComplement(tasks, IsPending, IsDone);
  }

  /**
   * `Math.round(completed / total * 100)`, 0 for an empty list: the
   * whole percentage nearest to the exact ratio, halves rounding up,
   * which is the floor of `(200 * completed + total) / (2 * total)`.
   */
  function CompletionRate(completed: nat, total: nat): (r: int)
    requires completed <= total
    ensures total == 0 ==> r == 0
    ensures 0 <= r <= 100
    ensures total > 0 ==> r * (2 * total) <= 200 * completed + total < (r + 1) * (2 * total)
  {
    if total > 0 then
      RoundedPercent(completed, total);
      (200 * completed + total) / (2 * total)
    else 0
  }

  lemma RoundedPercent(c: nat, t: nat)
    requires 0 < t && c <= t
    ensures var q := (200 * c + t) / (2 * t);
      0 <= q <= 100 && q * (2 * t) <= 200 * c + t < (q + 1) * (2 * t)
  {
    var n := 200 * c + t;
    var d := 2 * t;
    var q := n / d;
    assert n == d * q + n % d;
    if q > 100 {
      Arith.MulLe(101, q, d);
      assert false;
    }
    assert (q + 1) * d == q * d + d;
  }

  /**
   * The rate of the task list is 100 when every task is done and 0 when
   * none is; with a task still pending it rounds up to 100 only once
   * there are at least 200 tasks.
   */
  lemma CompletionRateExtremes(tasks: seq<Task>)
    requires |tasks| > 0
    ensures CompletedCount(tasks) == |tasks| ==> CompletionRate(CompletedCount(tasks), |tasks|) == 100
    ensures CompletedCount(tasks) == 0 ==> CompletionRate(CompletedCount(tasks), |tasks|) == 0
    ensures CompletionRate(CompletedCount(tasks), |tasks|) == 100 && PendingCount(tasks) > 0 ==> |tasks| >= 200
  {
    CountsAddUp(tasks);
    var c := CompletedCount(tasks);
    var t := |tasks|;
    if c == t {
      Arith.DivUnique(200 * c + t, 2 * t, 100);
    }
    if c == 0 {
      Arith.DivUnique(200 * c + t, 2 * t, 0);
    }
  }

  datatype Tab = PendingTab | CompletedTab

  /** The tasks the active tab lists, in their order. */
  function FilteredTasks(tasks: seq<Task>, tab: Tab): (r: seq<Task>)
    ensures forall t :: t in r <==> t in tasks && (if tab == PendingTab then !t.isCompleted else t.isCompleted)
    ensures tab == PendingTab ==> |r| == PendingCount(tasks)
    ensures tab == CompletedTab ==> |r| == CompletedCount(tasks)
  {
    match tab
      case PendingTab => Seqs.Filter(tasks, IsPending)
      case CompletedTab => Seqs.Filter(tasks, IsDone)
  }

  /** Each tab keeps the relative order of the list: it works piecewise on a concatenation. */
  lemma FilteredTasksConcat(a: seq<Task>, b: seq<Task>, tab: Tab)
    ensures FilteredTasks(a + b, tab) == FilteredTasks(a, tab) + FilteredTasks(b, tab)
  {
    match tab
      case PendingTab => Seqs.FilterConcat(a, b, IsPending);
      case CompletedTab => Seqs.FilterConcat(a, b, IsDone);
  }

  /** `c.name.toLowerCase() === result.courseName?.toLowerCase()`: never equal when the name is absent. */
  predicate NameMatches(c: Course, courseName: Option<string>) {
    courseName.Some? && ToLower(c.name) == ToLower(courseName.value)
  }

  /** The outcome of `handleSmartAdd`: the task to add (None for a blank input) and the input afterwards. */
  datatype SmartAdd = SmartAdd(added: Option<Task>, input: string)

  /**
   * `handleSmartAdd` at time `nowId` / `nowIso`, given the parse result.
   * With a result: its title and priority, its due date or now, not
   * completed, and the id of the first course with the same name
   * ignoring case. Without one: the raw input, medium, due now.
   */
  function HandleSmartAdd(input: string, parsed: Option<Gemini.ParsedTask>, courses: seq<Course>,
                          nowId: string, nowIso: string): (r: SmartAdd)
    ensures IsBlank(input) ==> r == SmartAdd(None, input)
    ensures !IsBlank(input) ==>
      (r.input == "" && r.added.Some? && r.added.value.id == nowId &&
       !r.added.value.isCompleted && r.added.value.description.None?)
    ensures !IsBlank(input) && parsed.None? ==>
      r.added.value == Task(nowId, input, None, None, nowIso, false, Priority.Medium)
    ensures !IsBlank(input) && parsed.Some? ==>
      var t := r.added.value;
      t.title == parsed.value.title && t.priority == parsed.value.priority &&
      t.dueDate == OrText(parsed.value.dueDate, nowIso) &&
      (t.courseId.None? <==> forall i :: 0 <= i < |courses| ==> !NameMatches(courses[i], parsed.value.courseName)) &&
      (t.courseId.Some? ==> exists i :: (0 <= i < |courses| && courses[i].id == t.courseId.value &&
        NameMatches(courses[i], parsed.value.courseName) &&
        forall k :: 0 <= k < i ==> !NameMatches(courses[k], parsed.value.courseName)))
  {
    if IsBlank(input) then SmartAdd(None, input)
    else match parsed
      case Some(p) =>
        var matched := Seqs.FindIndex(courses, (c: Course) => NameMatches(c, p.courseName));
        var courseId := match matched case None => None case Some(i) => Some(courses[i].id);
        SmartAdd(Some(Task(nowId, p.title, None, courseId, OrText(p.dueDate, nowIso), false, p.priority)), "")
      case None =>
        SmartAdd(Some(Task(nowId, input, None, None, nowIso, false, Priority.Medium)), "")
  }

  /** A parse result without a course name never links the task to a course. */
  lemma NoCourseNameNoLink(input: string, p: Gemini.ParsedTask, courses: seq<Course>, nowId: string, nowIso: string)
    requires !IsBlank(input) && p.courseName.None?
    ensures HandleSmartAdd(input, Some(p), courses, nowId, nowIso).added.value.courseId.None?
  {
  }
}
