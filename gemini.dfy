/**
 * The AI service (services/geminiService.ts) around its three model
 * calls. The calls themselves are not modelled: what a call returned is
 * a parameter (`Reply`), and `JSON.parse` is a `decode` parameter that
 * gives None where it would throw. What is modelled is everything the
 * service decides before and after a call: the missing-key and
 * exception fallbacks, the student context sent with a chat message,
 * the mapping of the chat history to model turns, the clean-up of the
 * reply, and which courses go into a backlog plan request.
 */
module Gemini {
  import opened Wrappers
  import opened Domain
  import opened Text
  import Seqs

  /** What a model call produced: a response whose `text` may be absent, or an exception. */
  datatype Reply = Answered(text: Option<string>) | Failed

  /** A service result, with whether the model was called at all. */
  datatype Called<T> = Called(result: T, modelCalled: bool)

  // ---------------------------------------------------------------
  // parseTaskWithAI
  // ---------------------------------------------------------------

  /** `ParsedTaskResult`: what the model extracts from a sentence. */
  datatype ParsedTask = ParsedTask(title: string, courseName: Option<string>, dueDate: Option<string>, priority: Priority)

  /**
   * `parseTaskWithAI`: null without a call when the key is empty; null
   * when the response text is empty or absent, or when the call or the
   * JSON decoding throws; otherwise the decoded result.
   */
  function ParseTaskWithAI(apiKey: string, reply: Reply, decode: string -> Option<ParsedTask>): (r: Called<Option<ParsedTask>>)
    ensures apiKey == "" ==> r == Called(None, false)
    ensures apiKey != "" ==> r.modelCalled
    ensures r.result.Some? ==> apiKey != "" && reply.Answered? && Truthy(reply.text) && decode(reply.text.value) == r.result
    ensures apiKey != "" && reply.Answered? && Truthy(reply.text) ==> r.result == decode(reply.text.value)
  {
    if apiKey == "" then Called(None, false)
    else match reply
      case Failed => Called(None, true)
      case Answered(text) => Called(if Truthy(text) then decode(text.value) else None, true)
  }

  // ---------------------------------------------------------------
  // chatWithGenie: the student context
  // ---------------------------------------------------------------

  /** One entry of `academicStatus`. */
  datatype AcademicEntry = AcademicEntry(
    subject: string,
    currentGrade: int,
    targetGrade: int,
    gap: int,
    difficulty: Difficulty,
    remainingBacklog: int)

  /**
   * A course as the model sees it: a missing or zero current grade reads
   * as 0, a missing or zero target as 100, a missing config as no backlog.
   */
  function AcademicStatus(c: Course): (r: AcademicEntry)
    ensures r.subject == c.name && r.difficulty == c.difficulty
    ensures r.currentGrade == OrElse(c.currentGrade, 0)
    ensures r.targetGrade == OrElse(c.targetGrade, 100)
    ensures r.gap == r.targetGrade - r.currentGrade
    ensures r.remainingBacklog == if c.studyConfig.Some? then c.studyConfig.value.backlogCount else 0
  {
    AcademicEntry(
      c.name,
      OrElse(c.currentGrade, 0),
      OrElse(c.targetGrade, 100),
      OrElse(c.targetGrade, 100) - OrElse(c.currentGrade, 0),
      c.difficulty,
      match c.studyConfig
        case None => 0
        case Some(config) => OrElse(Some(config.backlogCount), 0))
  }

  /** A course with no grades recorded (or zeros) shows the whole scale as its gap. */
  lemma UngradedCourseGap(c: Course)
    requires c.currentGrade.None? || c.currentGrade == Some(0)
    requires c.targetGrade.None? || c.targetGrade == Some(0)
    ensures AcademicStatus(c).gap == 100
  {
  }

  /** A recorded target that is met or passed shows no positive gap. */
  lemma TargetReachedGap(c: Course, current: int, target: int)
    requires c.currentGrade == Some(current) && c.targetGrade == Some(target)
    requires 0 < target <= current
    ensures AcademicStatus(c).gap <= 0
  {
  }

  /** One entry of `pendingTasks`. */
  datatype TaskView = TaskView(title: string, due: string, priority: Priority)

  function View(t: Task): TaskView {
    TaskView(t.title, t.dueDate, t.priority)
  }

  /** `tasks.filter(t => !t.isCompleted).map(t => ({title, due, priority}))`. */
  function PendingTasks(tasks: seq<Task>): (r: seq<TaskView>)
    ensures |r| <= |tasks|
    ensures forall v :: v in r ==> exists t :: t in tasks && !t.isCompleted && v == View(t)
    ensures forall t :: t in tasks && !t.isCompleted ==> View(t) in r
  {
    if tasks == [] then []
    else
      var rest := PendingTasks(tasks[1..]);
      assert forall t :: t in tasks[1..] ==> t in tasks;
      assert forall t :: t in tasks ==> t == tasks[0] || t in tasks[1..];
      (if tasks[0].isCompleted then [] else [View(tasks[0])]) + rest
  }

  /** A single task is shown exactly when it is not completed. */
  lemma PendingTasksSingle(t: Task)
    ensures PendingTasks([t]) == if t.isCompleted then [] else [View(t)]
  {
    assert [t][1..] == [];
  }

  /** The projection works piecewise, so it keeps the order of the task list. */
  lemma {:induction false} PendingTasksConcat(a: seq<Task>, b: seq<Task>)
    ensures PendingTasks(a + b) == PendingTasks(a) + PendingTasks(b)
  {
    if a != [] {
      var head := if a[0].isCompleted then [] else [View(a[0])];
      assert (a + b)[0] == a[0] && (a + b)[1..] == a[1..] + b;
      assert PendingTasks(a + b) == head + PendingTasks(a[1..] + b);
      PendingTasksConcat(a[1..], b);
      assert PendingTasks(a) == head + PendingTasks(a[1..]);
      assert head + (PendingTasks(a[1..]) + PendingTasks(b)) == (head + PendingTasks(a[1..])) + PendingTasks(b);
    } else {
      assert a + b == b;
    }
  }

  /** The `type` field as the source spells it. */
  function ActivityName(k: ActivityType): string {
    match k
      case Study => "study"
      case Prayer => "prayer"
      case Sport => "sport"
      case Sleep => "sleep"
      case Rest => "rest"
      case Meal => "meal"
  }

  /** One line of `todaysSchedule`: start time, title, then the activity in parentheses. */
  function ScheduleLine(b: ScheduleBlock): (r: string)
    ensures StartsWith(r, b.startTime + ": " + b.title + " (")
    ensures |r| == |b.startTime| + |b.title| + |ActivityName(b.kind)| + 5 && r[|r| - 1] == ')'
    ensures r[|r| - |ActivityName(b.kind)| - 1..|r| - 1] == ActivityName(b.kind)
  {
    b.startTime + ": " + b.title + " (" + ActivityName(b.kind) + ")"
  }

  /** The data sent with every chat message. */
  datatype ChatContext = ChatContext(
    level: int,
    mastery: int,
    streak: int,
    academicStatus: seq<AcademicEntry>,
    pendingTasks: seq<TaskView>,
    todaysSchedule: seq<string>,
    resources: seq<string>)

  function BuildContext(tasks: seq<Task>, schedule: seq<ScheduleBlock>, courses: seq<Course>,
                        stats: UserStats, resources: seq<ResourceItem>): (r: ChatContext)
    ensures r.level == stats.level && r.mastery == stats.masteryScore && r.streak == stats.streakDays
    ensures |r.academicStatus| == |courses| &&
      forall i :: 0 <= i < |courses| ==> r.academicStatus[i] == AcademicStatus(courses[i])
    ensures r.pendingTasks == PendingTasks(tasks)
    ensures |r.todaysSchedule| == |schedule| &&
      forall i :: 0 <= i < |schedule| ==> r.todaysSchedule[i] == ScheduleLine(schedule[i])
    ensures |r.resources| == |resources| &&
      forall i :: 0 <= i < |resources| ==> r.resources[i] == resources[i].title
  {
    ChatContext(
      stats.level, stats.masteryScore, stats.streakDays,
      Seqs.Map(courses, AcademicStatus),
      PendingTasks(tasks),
      Seqs.Map(schedule, ScheduleLine),
      Seqs.Map(resources, (x: ResourceItem) => x.title))
  }

  // ---------------------------------------------------------------
  // chatWithGenie: the request
  // ---------------------------------------------------------------

  datatype TurnRole = UserTurn | ModelTurn

  /** A message part: text, or inline JPEG data (absent when the data URL has no comma). */
  datatype Part = TextPart(text: string) | ImagePart(data: Option<string>)

  datatype Turn = Turn(role: TurnRole, parts: seq<Part>)

  function TurnRoleOf(role: Role): TurnRole {
    if role == User then UserTurn else ModelTurn
  }

  function RoleOfTurn(t: TurnRole): Role {
    if t == UserTurn then User else Assistant
  }

  /** The role mapping is a bijection: `user` stays `user`, the assistant becomes `model`. */
  lemma RoleMappingBijective(role: Role, t: TurnRole)
    ensures RoleOfTurn(TurnRoleOf(role)) == role
    ensures TurnRoleOf(RoleOfTurn(t)) == t
  {
  }

  /** `history.map(msg => ({role, parts: [{text: msg.content}]}))`. */
  function PastTurns(history: seq<ChatMessage>): (r: seq<Turn>)
    ensures |r| == |history|
    ensures forall i :: 0 <= i < |history| ==>
      RoleOfTurn(r[i].role) == history[i].role && r[i].parts == [TextPart(history[i].content)]
  {
    Seqs.Map(history, (m: ChatMessage) => Turn(TurnRoleOf(m.role), [TextPart(m.content)]))
  }

  /** `imageData.split(',')[1]`: the field between the first and second comma. */
  function Base64Data(imageData: string): (r: Option<string>)
    ensures r.Some? ==> ',' !in r.value
    ensures r.Some? <==> ',' in imageData
  {
    match SplitOnce(imageData, ',').1
      case None => None
      case Some(rest) => Some(SplitOnce(rest, ',').0)
  }

  /** A data URL's payload comes back from the field after its header. */
  lemma Base64DataOfDataUrl(header: string, payload: string)
    requires ',' !in header && ',' !in payload
    ensures Base64Data(header + [','] + payload) == Some(payload)
  {
    var s := header + [','] + payload;
    SplitOnceAt(header, ',', payload);
    SplitOnceAbsent(payload, ',');
  }

  /** The turn that carries the new message: its text, then the image when one is attached. */
  function CurrentTurn(userMessage: string, imageData: Option<string>): (r: Turn)
    ensures r.role == UserTurn && |r.parts| >= 1 && r.parts[0] == TextPart(userMessage)
    ensures |r.parts| == 2 <==> Truthy(imageData)
  {
    Turn(UserTurn, [TextPart(userMessage)] +
      if Truthy(imageData) then [ImagePart(Base64Data(imageData.value))] else [])
  }

  /** The `contents` of the request: the history, then the new message. */
  function RequestContents(history: seq<ChatMessage>, userMessage: string, imageData: Option<string>): (r: seq<Turn>)
    ensures |r| == |history| + 1
    ensures r[..|history|] == PastTurns(history)
    ensures r[|history|] == CurrentTurn(userMessage, imageData)
  {
    PastTurns(history) + [CurrentTurn(userMessage, imageData)]
  }

  // ---------------------------------------------------------------
  // chatWithGenie: the reply
  // ---------------------------------------------------------------

  const NoKeyMessage := "عذراً، المفتاح الخاص بـ AI غير موجود."
  const TechnicalFallback := "مش قادر أرد دلوقتي، في مشكلة تقنية."
  const ConnectionMessage := "فيه مشكلة في الاتصال، جرب كمان شوية."

  const MarkdownChars: set<char> := {'*', '#', '_', '`'}

  /** `text.replace(/[*#_`]/g, '').trim()`: no markdown character is left and no white space at either end. */
  function CleanReply(text: string): (r: string)
    ensures forall c :: c in r ==> c !in MarkdownChars
    ensures r == [] || (!IsSpace(r[0]) && !IsSpace(r[|r| - 1]))
  {
    Trim(RemoveChars(text, MarkdownChars))
  }

  /** The cleaned reply is one contiguous piece of the reply with its markdown removed. */
  lemma CleanReplyIsSlice(text: string)
    ensures var m := RemoveChars(text, MarkdownChars);
      var r := CleanReply(text);
      var k := |m| - |TrimStart(m)|;
      k + |r| <= |m| && r == m[k..k + |r|]
  {
    TrimIsSlice(RemoveChars(text, MarkdownChars));
  }

  /** A reply without markdown characters or surrounding white space comes through unchanged. */
  lemma CleanReplyKeepsPlainText(text: string)
    requires forall i :: 0 <= i < |text| ==> text[i] !in MarkdownChars
    requires text == [] || (!IsSpace(text[0]) && !IsSpace(text[|text| - 1]))
    ensures CleanReply(text) == text
  {
    assert forall c :: c in text ==> c !in MarkdownChars;
    Seqs.FilterKeepsAll(text, c => c !in MarkdownChars);
    TrimStartKeeps(text);
    TrimEndKeeps(text);
  }

  /** Cleaning a cleaned reply changes nothing. */
  lemma CleanReplyIdempotent(text: string)
    ensures CleanReply(CleanReply(text)) == CleanReply(text)
  {
    var r := CleanReply(text);
    Seqs.FilterKeepsAll(r, c => c !in MarkdownChars);
    TrimIdempotent(RemoveChars(text, MarkdownChars));
  }

  /**
   * `chatWithGenie`'s answer: the fixed apology without a key or after an
   * exception; otherwise the cleaned response text, the technical
   * fallback standing in for an empty or absent one.
   */
  function ChatReply(apiKey: string, reply: Reply): (r: Called<string>)
    ensures apiKey == "" ==> r == Called(NoKeyMessage, false)
    ensures apiKey != "" && reply.Failed? ==> r == Called(ConnectionMessage, true)
    ensures apiKey != "" && reply.Answered? ==> r == Called(CleanReply(OrText(reply.text, TechnicalFallback)), true)
  {
    if apiKey == "" then Called(NoKeyMessage, false)
    else match reply
      case Failed => Called(ConnectionMessage, true)
      case Answered(text) => Called(CleanReply(OrText(text, TechnicalFallback)), true)
  }

  /** An empty or absent response text is answered with the technical fallback, which the clean-up leaves intact. */
  lemma EmptyReplyFallback(apiKey: string, text: Option<string>)
    requires apiKey != "" && !Truthy(text)
    ensures ChatReply(apiKey, Answered(text)).result == TechnicalFallback
  {
    FallbackIsClean();
  }

  /** The technical fallback survives the clean-up intact. */
  lemma FallbackIsClean()
    ensures CleanReply(TechnicalFallback) == TechnicalFallback
  {
    FallbackIsPlain();
    CleanReplyKeepsPlainText(TechnicalFallback);
  }

  lemma FallbackIsPlain()
    ensures var f := TechnicalFallback;
      (forall i :: 0 <= i < |f| ==> f[i] !in MarkdownChars) && !IsSpace(f[0]) && !IsSpace(f[|f| - 1])
  {
  }

  // ---------------------------------------------------------------
  // generateBacklogPlan
  // ---------------------------------------------------------------

  /** A course that needs planning: it has a config with a backlog or fixed lecture days. */
  predicate NeedsPlan(c: Course) {
    c.studyConfig.Some? &&
    (c.studyConfig.value.backlogCount > 0 ||
     (c.studyConfig.value.lectureDays.Some? && |c.studyConfig.value.lectureDays.value| > 0))
  }

  /** `{subject: c.name, ...c.studyConfig}`. */
  datatype PlanInput = PlanInput(subject: string, config: StudyConfig)

  /** `courses.filter(NeedsPlan).map(...)`: the courses sent for planning, in order, as subject plus configuration. */
  function PlanInputs(courses: seq<Course>): (r: seq<PlanInput>)
    ensures |r| <= |courses|
    ensures forall x :: x in r ==> exists c :: c in courses && NeedsPlan(c) && x == PlanInput(c.name, c.studyConfig.value)
    ensures forall c :: c in courses && NeedsPlan(c) ==> PlanInput(c.name, c.studyConfig.value) in r
  {
    if courses == [] then []
    else
      var c := courses[0];
      var rest := PlanInputs(courses[1..]);
      assert forall d :: d in courses[1..] ==> d in courses;
      assert forall d :: d in courses ==> d == c || d in courses[1..];
      (if NeedsPlan(c) then [PlanInput(c.name, c.studyConfig.value)] else []) + rest
  }

  /** Selection works piecewise on a concatenation, so the courses are sent in their stored order. */
  lemma {:induction false} PlanInputsConcat(a: seq<Course>, b: seq<Course>)
    ensures PlanInputs(a + b) == PlanInputs(a) + PlanInputs(b)
  {
    if a != [] {
      var head := if NeedsPlan(a[0]) then [PlanInput(a[0].name, a[0].studyConfig.value)] else [];
      var ab := a + b;
      assert ab[0] == a[0];
      assert PlanInputs(ab) == head + PlanInputs(ab[1..]);
      assert ab[1..] == a[1..] + b;
      PlanInputsConcat(a[1..], b);
      assert PlanInputs(a) == head + PlanInputs(a[1..]);
      assert head + (PlanInputs(a[1..]) + PlanInputs(b)) == (head + PlanInputs(a[1..])) + PlanInputs(b);
    } else {
      assert a + b == b;
    }
  }

  /** One course is sent exactly when it needs planning. */
  lemma PlanInputsSingle(c: Course)
    ensures PlanInputs([c]) == if NeedsPlan(c) then [PlanInput(c.name, c.studyConfig.value)] else []
  {
    assert [c][1..] == [];
  }

  /** Nothing is sent exactly when no course needs planning. */
  lemma NoPlanInputs(courses: seq<Course>)
    ensures PlanInputs(courses) == [] <==> forall c :: c in courses ==> !NeedsPlan(c)
  {
    if PlanInputs(courses) != [] {
      assert PlanInputs(courses)[0] in PlanInputs(courses);
    }
  }

  /**
   * `generateBacklogPlan`: `[]` without a call when the key is missing or
   * no course needs planning; `[]` after an exception or undecodable text;
   * otherwise the decoded plan (an absent text decodes as `"[]"`).
   */
  function GenerateBacklogPlan(apiKey: string, courses: seq<Course>, reply: Reply,
                               decode: string -> Option<seq<DailyPlan>>): (r: Called<seq<DailyPlan>>)
    ensures apiKey == "" || PlanInputs(courses) == [] ==> r == Called([], false)
    ensures apiKey != "" && PlanInputs(courses) != [] ==> r.modelCalled
    ensures r.result != [] ==>
      (r.modelCalled && reply.Answered? && decode(OrText(reply.text, "[]")) == Some(r.result))
    ensures apiKey != "" && PlanInputs(courses) != [] && reply.Answered? && decode(OrText(reply.text, "[]")).Some? ==>
      r.result == decode(OrText(reply.text, "[]")).value
    ensures apiKey != "" && PlanInputs(courses) != [] && reply.Answered? && decode(OrText(reply.text, "[]")).None? ==>
      r.result == []
    ensures reply.Failed? ==> r.result == []
  {
    if apiKey == "" then Called([], false)
    else if PlanInputs(courses) == [] then Called([], false)
    else match reply
      case Failed => Called([], true)
      case Answered(text) =>
        match decode(OrText(text, "[]"))
          case None => Called([], true)
          case Some(plan) => Called(plan, true)
  }
}
