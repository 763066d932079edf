/**
 * The application state container of App.tsx: one collection per
 * storage key, loaded once with a fallback to the seed data, and the
 * mutation handlers the screens call (add, toggle, update, delete, and
 * the chat-history upsert that re-sorts the history newest first).
 */
module Store {
  import opened Wrappers
  import opened Domain
  import Seqs

  // ---------------------------------------------------------------
  // Loading a persisted collection (usePersistentState)
  // ---------------------------------------------------------------

  /** `localStorage.getItem(key)` over a snapshot of the storage. */
  function Lookup(storage: map<string, string>, key: string): (r: Option<string>)
    ensures r.Some? <==> key in storage
    ensures r.Some? ==> r.value == storage[key]
  {
    if key in storage then Some(storage[key]) else None
  }

  /**
   * The first value of `usePersistentState(key, initialValue)`: the stored
   * text decoded; `initialValue` when nothing is stored, when the stored
   * text is empty (it is falsy), or when decoding throws (`decode` gives None).
   */
  function LoadPersisted<T>(stored: Option<string>, decode: string -> Option<T>, initialValue: T): (r: T)
    ensures !Truthy(stored) ==> r == initialValue
    ensures Truthy(stored) && decode(stored.value).None? ==> r == initialValue
    ensures Truthy(stored) && decode(stored.value).Some? ==> r == decode(stored.value).value
  {
    if !Truthy(stored) then initialValue
    else match decode(stored.value)
      case Some(v) => v
      case None => initialValue
  }

  /** What the effect writes under a key is what the next load reads back, whatever the fallback. */
  lemma SaveThenLoad<T>(v: T, encode: T -> string, decode: string -> Option<T>, initialValue: T, storage: map<string, string>, key: string)
    requires encode(v) != ""
    requires decode(encode(v)) == Some(v)
    ensures LoadPersisted(Lookup(storage[key := encode(v)], key), decode, initialValue) == v
  {
  }

  /** JSON decoders for the six stored collections; each returns None where `JSON.parse` throws. */
  datatype Decoders = Decoders(
    tasks: string -> Option<seq<Task>>,
    courses: string -> Option<seq<Course>>,
    schedule: string -> Option<seq<ScheduleBlock>>,
    resources: string -> Option<seq<ResourceItem>>,
    stats: string -> Option<UserStats>,
    chatHistory: string -> Option<seq<ChatSession>>)

  // ---------------------------------------------------------------
  // Seed data
  // ---------------------------------------------------------------

  function SeedCourse(id: string, name: string, credits: int, difficulty: Difficulty, color: string, current: int, target: int): Course {
    Course(id, name, None, None, credits, difficulty, color, Some(current), Some(target), [], None)
  }

  const InitialCourses: seq<Course> := [
    SeedCourse("1", "فيزياء", 5, Hard, "#6366f1", 82, 95),
    SeedCourse("2", "رياضيات (تفاضل وتكامل)", 6, Hard, "#ec4899", 92, 98),
    SeedCourse("3", "كيمياء", 4, Difficulty.Medium, "#10b981", 88, 95)
  ]

  /** The one seed task, due a day after start-up (its ISO text is a parameter). */
  function InitialTasks(tomorrowIso: string): seq<Task> {
    [Task("1", "حل بنك أسئلة الفيزياء الباب الأول", None, Some("1"), tomorrowIso, false, High)]
  }

  const InitialSchedule: seq<ScheduleBlock> := [
    ScheduleBlock("1", "صلاة الفجر", Prayer, "04:30", 30, false),
    ScheduleBlock("2", "مذاكرة فيزياء", Study, "06:00", 120, false)
  ]

  const InitialStats: UserStats := UserStats(1, 0, 1, 0, 0, 0)

  // ---------------------------------------------------------------
  // The transforms inside the handlers
  // ---------------------------------------------------------------

  function TaskId(t: Task): string { t.id }
  function CourseId(c: Course): string { c.id }
  function BlockId(b: ScheduleBlock): string { b.id }

  /** `prev.filter(x => x.id !== id)`. */
  function WithoutId<T>(s: seq<T>, idOf: T -> string, id: string): (r: seq<T>)
    ensures forall x :: x in r ==> x in s && idOf(x) != id
    ensures forall x :: x in s && idOf(x) != id ==> x in r
  {
    Seqs.Filter(s, x => idOf(x) != id)
  }

  /** Deleting keeps the survivors in order: it works piecewise on a concatenation. */
  lemma WithoutIdConcat<T>(a: seq<T>, b: seq<T>, idOf: T -> string, id: string)
    ensures WithoutId(a + b, idOf, id) == WithoutId(a, idOf, id) + WithoutId(b, idOf, id)
  {
    Seqs.FilterConcat(a, b, x => idOf(x) != id);
  }

  /** Deleting an id that no element carries leaves the collection as it was. */
  lemma WithoutAbsentId<T>(s: seq<T>, idOf: T -> string, id: string)
    requires forall x :: x in s ==> idOf(x) != id
    ensures WithoutId(s, idOf, id) == s
  {
    Seqs.FilterKeepsAll(s, x => idOf(x) != id);
  }

  /** The map inside `toggleTask`: flip `isCompleted` where the id matches. */
  function ToggleById(tasks: seq<Task>, id: string): (r: seq<Task>)
    ensures |r| == |tasks|
    ensures forall i :: 0 <= i < |tasks| ==> r[i] == tasks[i].(isCompleted := (tasks[i].id == id) != tasks[i].isCompleted)
  {
    Seqs.Map(tasks, (t: Task) => if t.id == id then t.(isCompleted := !t.isCompleted) else t)
  }

  /** Toggling the same id twice restores the list. */
  lemma ToggleTwice(tasks: seq<Task>, id: string)
    ensures ToggleById(ToggleById(tasks, id), id) == tasks
  {
    var r := ToggleById(ToggleById(tasks, id), id);
    assert forall i :: 0 <= i < |tasks| ==> r[i] == tasks[i];
  }

  /** Toggling an id no task carries changes nothing. */
  lemma ToggleAbsent(tasks: seq<Task>, id: string)
    requires forall t :: t in tasks ==> t.id != id
    ensures ToggleById(tasks, id) == tasks
  {
    var r := ToggleById(tasks, id);
    assert forall i :: 0 <= i < |tasks| ==> tasks[i] in tasks && r[i] == tasks[i];
  }

  /** The map inside `updateCourse`: every course with the updated course's id is replaced by it. */
  function ReplaceById(courses: seq<Course>, updated: Course): (r: seq<Course>)
    ensures |r| == |courses|
    ensures forall i :: 0 <= i < |courses| ==> r[i] == if courses[i].id == updated.id then updated else courses[i]
  {
    Seqs.Map(courses, (c: Course) => if c.id == updated.id then updated else c)
  }

  /** Updating with an id that no course carries is a no-op. */
  lemma ReplaceAbsent(courses: seq<Course>, updated: Course)
    requires forall c :: c in courses ==> c.id != updated.id
    ensures ReplaceById(courses, updated) == courses
  {
    var r := ReplaceById(courses, updated);
    assert forall i :: 0 <= i < |courses| ==> courses[i] in courses && r[i] == courses[i];
  }

  /** Updating twice with the same course is the same as updating once. */
  lemma ReplaceIdempotent(courses: seq<Course>, updated: Course)
    ensures ReplaceById(ReplaceById(courses, updated), updated) == ReplaceById(courses, updated)
  {
  }

  // ---------------------------------------------------------------
  // Chat history: upsert, then a stable sort newest first
  // ---------------------------------------------------------------

  predicate HasSession(history: seq<ChatSession>, id: string) {
    exists i :: 0 <= i < |history| && history[i].id == id
  }

  /** The list `saveChatSession` sorts: the session replaces its namesakes, or goes in front. */
  function Upsert(history: seq<ChatSession>, session: ChatSession): (r: seq<ChatSession>)
    ensures session in r
    ensures HasSession(history, session.id) ==> |r| == |history|
    ensures HasSession(history, session.id) ==>
      forall i :: 0 <= i < |history| ==> r[i] == if history[i].id == session.id then session else history[i]
    ensures !HasSession(history, session.id) ==> r == [session] + history
  {
    if HasSession(history, session.id) then
      var r := Seqs.Map(history, (s: ChatSession) => if s.id == session.id then session else s);
      var k :| 0 <= k < |history| && history[k].id == session.id;
      assert r[k] == session;
      r
    else
      [session] + history
  }

  /** Newest first: `lastModified` never increases along the list. */
  predicate NewestFirst(s: seq<ChatSession>) {
    forall i, j :: 0 <= i < j < |s| ==> s[i].lastModified >= s[j].lastModified
  }

  /**
   * One step of a stable insertion sort: `x` enters at the end of `p`
   * and moves in front of every strictly older session before it.
   */
  function InsertByRecency(p: seq<ChatSession>, x: ChatSession): (r: seq<ChatSession>)
    ensures multiset(r) == multiset(p) + multiset{x}
    ensures |r| == |p| + 1
    decreases |p|
  {
    if p == [] then [x]
    else if p[|p| - 1].lastModified < x.lastModified then
      assert p == p[..|p| - 1] + [p[|p| - 1]];
      InsertByRecency(p[..|p| - 1], x) + [p[|p| - 1]]
    else p + [x]
  }

  /**
   * `newHistory.sort((a, b) => b.lastModified - a.lastModified)`. The
   * sort is stable, so its result is fully determined; this insertion
   * sort is that result.
   */
  function SortByRecency(s: seq<ChatSession>): (r: seq<ChatSession>)
    ensures multiset(r) == multiset(s)
    ensures |r| == |s|
    decreases |s|
  {
    if s == [] then []
    else
      assert s == s[..|s| - 1] + [s[|s| - 1]];
      InsertByRecency(SortByRecency(s[..|s| - 1]), s[|s| - 1])
  }

  /** Inserting into a newest-first list keeps it newest first. */
  lemma {:induction false} InsertKeepsOrder(p: seq<ChatSession>, x: ChatSession)
    requires NewestFirst(p)
    ensures NewestFirst(InsertByRecency(p, x))
    decreases |p|
  {
    if p != [] && p[|p| - 1].lastModified < x.lastModified {
      var q := p[..|p| - 1];
      var last := p[|p| - 1];
      InsertKeepsOrder(q, x);
      var r := InsertByRecency(q, x);
      forall y | y in r
        ensures y.lastModified >= last.lastModified
      {
        assert y in multiset(q) + multiset{x};
        if y != x {
          assert y in q;
        }
      }
      assert forall i :: 0 <= i < |r| ==> r[i] in r;
    }
  }

  /** The sorted history is newest first. */
  lemma {:induction false} SortIsNewestFirst(s: seq<ChatSession>)
    ensures NewestFirst(SortByRecency(s))
    decreases |s|
  {
    if s != [] {
      SortIsNewestFirst(s[..|s| - 1]);
      InsertKeepsOrder(SortByRecency(s[..|s| - 1]), s[|s| - 1]);
    }
  }

  /** Moving the last element of `p` behind an insertion at `j < |p|`. */
  lemma ConcatShift<T>(p: seq<T>, x: T, j: nat)
    requires j < |p|
    ensures p[..|p| - 1][..j] + [x] + p[..|p| - 1][j..] + [p[|p| - 1]] == p[..j] + [x] + p[j..]
  {
    var q := p[..|p| - 1];
    assert q[..j] == p[..j];
    assert q[j..] + [p[|p| - 1]] == p[j..];
    assert q[..j] + [x] + q[j..] + [p[|p| - 1]] == p[..j] + [x] + (q[j..] + [p[|p| - 1]]);
  }

  /** Where the insertion ends: after the last session at least as recent as `x`. */
  lemma {:induction false} InsertAt(p: seq<ChatSession>, x: ChatSession, j: nat)
    requires j <= |p|
    requires forall k :: j <= k < |p| ==> p[k].lastModified < x.lastModified
    requires j == 0 || p[j - 1].lastModified >= x.lastModified
    ensures InsertByRecency(p, x) == p[..j] + [x] + p[j..]
    decreases |p|
  {
    if j < |p| {
      InsertAt(p[..|p| - 1], x, j);
      ConcatShift(p, x, j);
    } else if p != [] {
      assert p[..j] == p;
    }
  }

  /** A sequence described element by element as `p` with `x` placed at index `j`. */
  lemma Shifted<T>(s: seq<T>, p: seq<T>, x: T, j: nat)
    requires j <= |p| && |s| == |p| + 1
    requires forall k :: 0 <= k < j ==> s[k] == p[k]
    requires s[j] == x
    requires forall k :: j < k < |s| ==> s[k] == p[k - 1]
    ensures s == p[..j] + [x] + p[j..]
  {
    var t := p[..j] + [x] + p[j..];
    assert forall k :: 0 <= k < |s| ==> s[k] == t[k];
  }

  /**
   * The element-wise picture left by one pass of the inner loop is one
   * step of `SortByRecency`'s insertion.
   */
  lemma InsertStep(before: seq<ChatSession>, after: seq<ChatSession>, i: nat, j: nat)
    requires i < |before| == |after| && j <= i
    requires forall k :: 0 <= k < j ==> after[k] == before[k]
    requires after[j] == before[i]
    requires forall k :: j < k <= i ==> after[k] == before[k - 1]
    requires forall k :: i < k < |after| ==> after[k] == before[k]
    requires forall k :: j <= k < i ==> before[k].lastModified < before[i].lastModified
    requires j == 0 || before[j - 1].lastModified >= before[i].lastModified
    ensures after[..i + 1] == InsertByRecency(before[..i], before[i])
    ensures after[i + 1..] == before[i + 1..]
  {
    var p := before[..i];
    InsertAt(p, before[i], j);
    Shifted(after[..i + 1], p, before[i], j);
  }

  /** One pass of the outer loop extends the sorted prefix by one element of the input. */
  lemma SortStep(input: seq<ChatSession>, before: seq<ChatSession>, after: seq<ChatSession>, i: nat)
    requires i < |input| == |before| == |after|
    requires before[..i] == SortByRecency(input[..i]) && before[i..] == input[i..]
    requires after[..i + 1] == InsertByRecency(before[..i], before[i])
    requires after[i + 1..] == before[i + 1..]
    ensures after[..i + 1] == SortByRecency(input[..i + 1])
    ensures after[i + 1..] == input[i + 1..]
  {
    assert before[i] == input[i] by {
      assert before[i] == before[i..][0] && input[i] == input[i..][0];
    }
    UnfoldSort(input, i);
    assert before[i + 1..] == before[i..][1..] && input[i + 1..] == input[i..][1..];
  }

  /** `SortByRecency` on a prefix one longer is one more insertion. */
  lemma UnfoldSort(s: seq<ChatSession>, i: nat)
    requires i < |s|
    ensures SortByRecency(s[..i + 1]) == InsertByRecency(SortByRecency(s[..i]), s[i])
  {
    assert s[..i + 1][..i] == s[..i];
  }

  /** The inner loop of the in-place sort: moves `a[i]` down past strictly older sessions. */
  method InsertLast(a: array<ChatSession>, i: nat)
    requires i < a.Length
    modifies a
    ensures a[..i + 1] == InsertByRecency(old(a[..i]), old(a[i]))
    ensures a[i + 1..] == old(a[i + 1..])
  {
    ghost var p := a[..];
    var x := a[i];
    var j := i;
    while j > 0 && a[j - 1].lastModified < x.lastModified
      invariant 0 <= j <= i
      invariant forall k :: 0 <= k < j ==> a[k] == p[k]
      invariant a[j] == x
      invariant forall k :: j < k <= i ==> a[k] == p[k - 1]
      invariant forall k :: i < k < a.Length ==> a[k] == p[k]
      invariant forall k :: j <= k < i ==> p[k].lastModified < x.lastModified
    {
      a[j - 1], a[j] := x, a[j - 1];
      j := j - 1;
    }
    InsertStep(p, a[..], i, j);
  }

  /** The in-place sort `saveChatSession` runs on the fresh array: a stable insertion sort. */
  method SortInPlace(a: array<ChatSession>)
    modifies a
    ensures a[..] == SortByRecency(old(a[..]))
  {
    ghost var input := a[..];
    var i := 0;
    while i < a.Length
      invariant 0 <= i <= a.Length
      invariant a[..i] == SortByRecency(input[..i])
      invariant a[i..] == input[i..]
    {
      ghost var before := a[..];
      InsertLast(a, i);
      SortStep(input, before, a[..], i);
      i := i + 1;
    }
    assert input[..a.Length] == input;
  }

  /**
   * What `saveChatSession` leaves: sorted newest first, a permutation of
   * the upserted list, holding the saved session; one longer exactly when
   * the id was new.
   */
  lemma SaveChatSessionSpec(history: seq<ChatSession>, session: ChatSession)
    ensures NewestFirst(SortByRecency(Upsert(history, session)))
    ensures multiset(SortByRecency(Upsert(history, session))) == multiset(Upsert(history, session))
    ensures session in SortByRecency(Upsert(history, session))
    ensures |SortByRecency(Upsert(history, session))| == if HasSession(history, session.id) then |history| else |history| + 1
  {
    var u := Upsert(history, session);
    SortIsNewestFirst(u);
    assert session in multiset(SortByRecency(u));
  }

  // ---------------------------------------------------------------
  // The container
  // ---------------------------------------------------------------

  class AppStore {
    var tasks: seq<Task>
    var courses: seq<Course>
    var schedule: seq<ScheduleBlock>
    var resources: seq<ResourceItem>
    var stats: UserStats
    var chatHistory: seq<ChatSession>

    /** Start-up: every collection is read from storage or falls back to its seed. */
    constructor Load(storage: map<string, string>, decoders: Decoders, tomorrowIso: string)
      ensures tasks == LoadPersisted(Lookup(storage, "db_tasks"), decoders.tasks, InitialTasks(tomorrowIso))
      ensures courses == LoadPersisted(Lookup(storage, "db_courses"), decoders.courses, InitialCourses)
      ensures schedule == LoadPersisted(Lookup(storage, "db_schedule"), decoders.schedule, InitialSchedule)
      ensures resources == LoadPersisted(Lookup(storage, "db_resources"), decoders.resources, [])
      ensures stats == LoadPersisted(Lookup(storage, "db_stats"), decoders.stats, InitialStats)
      ensures chatHistory == LoadPersisted(Lookup(storage, "db_chat_history"), decoders.chatHistory, [])
    {
      tasks := LoadPersisted(Lookup(storage, "db_tasks"), decoders.tasks, InitialTasks(tomorrowIso));
      courses := LoadPersisted(Lookup(storage, "db_courses"), decoders.courses, InitialCourses);
      schedule := LoadPersisted(Lookup(storage, "db_schedule"), decoders.schedule, InitialSchedule);
      resources := LoadPersisted(Lookup(storage, "db_resources"), decoders.resources, []);
      stats := LoadPersisted(Lookup(storage, "db_stats"), decoders.stats, InitialStats);
      chatHistory := LoadPersisted(Lookup(storage, "db_chat_history"), decoders.chatHistory, []);
    }

    /** `addTask`: the new task goes in front, the others follow in their order. */
    method AddTask(task: Task)
      modifies this`tasks
      ensures tasks == [task] + old(tasks)
      ensures tasks[0] == task && tasks[1..] == old(tasks)
    {
      tasks := [task] + tasks;
    }

    method ToggleTask(id: string)
      modifies this`tasks
      ensures tasks == ToggleById(old(tasks), id)
    {
      tasks := ToggleById(tasks, id);
    }

    method DeleteTask(id: string)
      modifies this`tasks
      ensures tasks == WithoutId(old(tasks), TaskId, id)
    {
      tasks := WithoutId(tasks, TaskId, id);
    }

    /** `addCourse`: appended; the earlier courses are untouched. */
    method AddCourse(course: Course)
      modifies this`courses
      ensures courses == old(courses) + [course]
    {
      courses := courses + [course];
    }

    method UpdateCourse(course: Course)
      modifies this`courses
      ensures courses == ReplaceById(old(courses), course)
    {
      courses := ReplaceById(courses, course);
    }

    method DeleteCourse(id: string)
      modifies this`courses
      ensures courses == WithoutId(old(courses), CourseId, id)
    {
      courses := WithoutId(courses, CourseId, id);
    }

    method AddScheduleBlock(block: ScheduleBlock)
      modifies this`schedule
      ensures schedule == old(schedule) + [block]
    {
      schedule := schedule + [block];
    }

    method DeleteScheduleBlock(id: string)
      modifies this`schedule
      ensures schedule == WithoutId(old(schedule), BlockId, id)
    {
      schedule := WithoutId(schedule, BlockId, id);
    }

    method AddResource(item: ResourceItem)
      modifies this`resources
      ensures resources == old(resources) + [item]
    {
      resources := resources + [item];
    }

    /** `saveChatSession`: upsert into a fresh array, sort it in place newest first, keep it. */
    method SaveChatSession(session: ChatSession)
      modifies this`chatHistory
      ensures chatHistory == SortByRecency(Upsert(old(chatHistory), session))
      ensures NewestFirst(chatHistory) && session in chatHistory
    {
      var updated := Upsert(chatHistory, session);
      var a := new ChatSession[|updated|](i requires 0 <= i < |updated| => updated[i]);
      assert a[..] == updated;
      SortInPlace(a);
      chatHistory := a[..];
      SaveChatSessionSpec(old(chatHistory), session);
    }
  }
}
