/**
 * The records of the study planner (types.ts) as Dafny datatypes.
 * Optional fields are `Option`s; a field the source reads with a
 * JavaScript `||` default is read through `OrElse`/`OrText`, so a
 * stored `0` (or `""`) behaves exactly like an absent value.
 * Timestamps are integer milliseconds; ids and ISO date texts are strings.
 */
module Domain {
  import opened Wrappers

  /** `x || d` for an optional number: `undefined` and `0` are both falsy. */
  function OrElse(x: Option<int>, d: int): (r: int)
    ensures x.Some? && x.value != 0 ==> r == x.value
    ensures x.None? || x.value == 0 ==> r == d
  {
    if x.Some? && x.value != 0 then x.value else d
  }

  /** `s || d` for an optional string: `undefined` and `""` are both falsy. */
  function OrText(s: Option<string>, d: string): (r: string)
    ensures s.Some? && s.value != "" ==> r == s.value
    ensures s.None? || s.value == "" ==> r == d
  {
    if s.Some? && s.value != "" then s.value else d
  }

  /** The truthiness test `if (s)` on an optional string. */
  predicate Truthy(s: Option<string>) {
    s.Some? && s.value != ""
  }

  datatype LessonStatus = Pending | Reading | Homework | Review | Mastered

  datatype Lesson = Lesson(id: string, title: string, status: LessonStatus)

  datatype Unit = Unit(id: string, title: string, lessons: seq<Lesson>)

  datatype BacklogItemType = ChapterItem | UnitItem | LessonItem | LectureItem

  /** `StudyConfig.mode`. */
  datatype DeliveryMode = AtCenter | OnlineDelivery

  /** `Course.studyMode`. */
  datatype StudyMode = Online | Offline

  /**
   * Catch-up parameters of a subject. `lectureDays` is optional because
   * the code reads it as `lectureDays || []` (stored data may predate it).
   */
  datatype StudyConfig = StudyConfig(
    accumulatedChapters: int,
    backlogType: BacklogItemType,
    backlogCount: int,
    itemDuration: real,
    studyDuration: real,
    mode: DeliveryMode,
    studyHoursPerDay: real,
    studyDays: seq<string>,
    lectureDays: Option<seq<string>>)

  datatype Difficulty = Easy | Medium | Hard

  datatype Course = Course(
    id: string,
    name: string,
    teacherName: Option<string>,
    studyMode: Option<StudyMode>,
    credits: int,
    difficulty: Difficulty,
    color: string,
    currentGrade: Option<int>,
    targetGrade: Option<int>,
    units: seq<Unit>,
    studyConfig: Option<StudyConfig>)

  datatype Priority = Low | Medium | High

  datatype Task = Task(
    id: string,
    title: string,
    description: Option<string>,
    courseId: Option<string>,
    dueDate: string,
    isCompleted: bool,
    priority: Priority)

  datatype UserStats = UserStats(
    level: int,
    xp: int,
    streakDays: int,
    totalFocusMinutes: int,
    tasksCompleted: int,
    masteryScore: int)

  datatype ActivityType = Study | Prayer | Sport | Sleep | Rest | Meal

  datatype ScheduleBlock = ScheduleBlock(
    id: string,
    title: string,
    kind: ActivityType,
    startTime: string,
    durationMinutes: int,
    isCompleted: bool)

  datatype Mood = Happy | Stressed | Tired | Neutral

  datatype HealthLog = HealthLog(date: string, waterCups: int, sleepHours: int, mood: Mood)

  datatype ResourceType = Pdf | Video | Link | Book

  datatype ResourceItem = ResourceItem(
    id: string,
    title: string,
    kind: ResourceType,
    url: Option<string>,
    courseId: Option<string>)

  datatype Role = User | Assistant

  datatype ChatMessage = ChatMessage(id: string, role: Role, content: string, timestamp: int)

  datatype ChatSession = ChatSession(id: string, title: string, messages: seq<ChatMessage>, lastModified: int)

  datatype PlanTaskType = LectureTask | BacklogTask | RevisionTask

  datatype PlanTask = PlanTask(subject: string, kind: PlanTaskType, details: string, duration: real)

  datatype DailyPlan = DailyPlan(day: string, tasks: seq<PlanTask>, totalHours: real)
}
