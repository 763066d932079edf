/**
 * The curriculum map (CurriculumMapper.tsx): courses broken into units
 * and lessons, a five-state study status per lesson, and the form that
 * creates a course together with its list of unit names.
 *
 * Each handler is a function from the current screen state to the course
 * it hands to `updateCourse`/`addCourse` (None when it hands nothing)
 * together with the new form state.
 */
module Curriculum {
  import opened Wrappers
  import opened Domain
  import opened Text
  import Seqs

  // ---------------------------------------------------------------
  // The lesson status cycle
  // ---------------------------------------------------------------

  /** The order of the status button's cycle. */
  const Statuses: seq<LessonStatus> := [Pending, Reading, Homework, Review, Mastered]

  /** `statuses.indexOf(status)`: every status occurs, exactly once. */
  function StatusIndex(s: LessonStatus): (r: nat)
    ensures r < |Statuses| && Statuses[r] == s
  {
    match s
      case Pending => 0
      case Reading => 1
      case Homework => 2
      case Review => 3
      case Mastered => 4
  }

  /** `statuses[(indexOf(status) + 1) % statuses.length]`. */
  function NextStatus(s: LessonStatus): (r: LessonStatus)
    ensures StatusIndex(r) == (StatusIndex(s) + 1) % |Statuses|
  {
    match s
      case Pending => Reading
      case Reading => Homework
      case Homework => Review
      case Review => Mastered
      case Mastered => Pending
  }

  function Repeat(s: LessonStatus, n: nat): (r: LessonStatus)
    ensures StatusIndex(r) == (StatusIndex(s) + n) % |Statuses|
  {
    if n == 0 then s else NextStatus(Repeat(s, n - 1))
  }

  /** Five clicks bring any status back. */
  lemma FiveStepsReturn(s: LessonStatus)
    ensures Repeat(s, 5) == s
  {
    SameIndexSameStatus(Repeat(s, 5), s);
  }

  /** Fewer than five clicks never do: the cycle has length exactly five. */
  lemma NoShorterCycle(s: LessonStatus, n: nat)
    requires 0 < n < 5
    ensures Repeat(s, n) != s
  {
    ShortCycleMoves(StatusIndex(s), n);
  }

  lemma SameIndexSameStatus(a: LessonStatus, b: LessonStatus)
    requires StatusIndex(a) == StatusIndex(b)
    ensures a == b
  {
  }

  lemma ShortCycleMoves(k: nat, n: nat)
    requires k < 5 && 0 < n < 5
    ensures (k + n) % 5 != k
  {
    if k + n >= 5 {
      assert (k + n) % 5 == k + n - 5;
    }
  }

  /** The inner map of `cycleStatus`: the lesson with the id moves one status on. */
  function CycleInLessons(lessons: seq<Lesson>, lessonId: string): (r: seq<Lesson>)
    ensures |r| == |lessons|
    ensures forall i :: 0 <= i < |lessons| ==>
      r[i].id == lessons[i].id && r[i].title == lessons[i].title &&
      r[i].status == (if lessons[i].id == lessonId then NextStatus(lessons[i].status) else lessons[i].status)
  {
    Seqs.Map(lessons, (l: Lesson) => if l.id == lessonId then l.(status := NextStatus(l.status)) else l)
  }

  /** The outer map of `cycleStatus`: only the unit with the id has its lessons cycled. */
  function CycleInUnits(units: seq<Unit>, unitId: string, lessonId: string): (r: seq<Unit>)
    ensures |r| == |units|
    ensures forall i :: 0 <= i < |units| ==>
      r[i].id == units[i].id && r[i].title == units[i].title &&
      r[i].lessons == (if units[i].id == unitId then CycleInLessons(units[i].lessons, lessonId) else units[i].lessons)
  {
    Seqs.Map(units, (u: Unit) => if u.id == unitId then u.(lessons := CycleInLessons(u.lessons, lessonId)) else u)
  }

  /** `courses.find(c => c.id === id)`: the first course with the id, None when there is none. */
  function FindCourse(courses: seq<Course>, id: string): (r: Option<Course>)
    ensures r.None? <==> forall i :: 0 <= i < |courses| ==> courses[i].id != id
    ensures r.Some? ==> exists i :: (0 <= i < |courses| && courses[i] == r.value && courses[i].id == id &&
      forall k :: 0 <= k < i ==> courses[k].id != id)
  {
    Seqs.Find(courses, (c: Course) => c.id == id)
  }

  /**
   * `cycleStatus(courseId, unitId, lessonId)`: the course to update, or
   * None when no course has the id. The course is the first one with the
   * id, and only its `units` change.
   */
  function CycleStatus(courses: seq<Course>, courseId: string, unitId: string, lessonId: string): (r: Option<Course>)
    ensures r.None? <==> forall i :: 0 <= i < |courses| ==> courses[i].id != courseId
    ensures r.Some? ==> exists i :: (0 <= i < |courses| && courses[i].id == courseId &&
      (forall k :: 0 <= k < i ==> courses[k].id != courseId) &&
      r.value == courses[i].(units := CycleInUnits(courses[i].units, unitId, lessonId)))
  {
    match FindCourse(courses, courseId)
      case None => None
      case Some(c) => Some(c.(units := CycleInUnits(c.units, unitId, lessonId)))
  }

  function CycleLessonsTimes(lessons: seq<Lesson>, lessonId: string, n: nat): seq<Lesson>
  {
    if n == 0 then lessons else CycleInLessons(CycleLessonsTimes(lessons, lessonId, n - 1), lessonId)
  }

  /** Five clicks on the same lesson give back the unit's lessons as they were. */
  lemma {:induction false} CycleLessonsFiveTimes(lessons: seq<Lesson>, lessonId: string)
    ensures CycleLessonsTimes(lessons, lessonId, 5) == lessons
  {
    var r := CycleLessonsTimes(lessons, lessonId, 5);
    CycleLessonsLength(lessons, lessonId, 5);
    forall i | 0 <= i < |lessons|
      ensures r[i] == lessons[i]
    {
      CycleLessonsPointwise(lessons, lessonId, 5, i);
      FiveStepsReturn(lessons[i].status);
    }
  }

  lemma {:induction false} CycleLessonsLength(lessons: seq<Lesson>, lessonId: string, n: nat)
    ensures |CycleLessonsTimes(lessons, lessonId, n)| == |lessons|
  {
    if n > 0 {
      CycleLessonsLength(lessons, lessonId, n - 1);
    }
  }

  lemma {:induction false} CycleLessonsPointwise(lessons: seq<Lesson>, lessonId: string, n: nat, i: nat)
    requires i < |lessons|
    ensures |CycleLessonsTimes(lessons, lessonId, n)| == |lessons|
    ensures CycleLessonsTimes(lessons, lessonId, n)[i] ==
      if lessons[i].id == lessonId then lessons[i].(status := Repeat(lessons[i].status, n)) else lessons[i]
  {
    CycleLessonsLength(lessons, lessonId, n);
    if n > 0 {
      CycleLessonsPointwise(lessons, lessonId, n - 1, i);
    }
  }

  // ---------------------------------------------------------------
  // Adding a lesson to a unit
  // ---------------------------------------------------------------

  /** The lesson modal: which course and unit the new lesson goes to. */
  datatype LessonModal = LessonModal(isOpen: bool, courseId: Option<string>, unitId: Option<string>)

  const ClosedModal := LessonModal(false, None, None)

  /** The map inside `handleSaveLesson`: the lesson goes at the end of the unit with the id. */
  function AppendLesson(units: seq<Unit>, unitId: string, lesson: Lesson): (r: seq<Unit>)
    ensures |r| == |units|
    ensures forall i :: 0 <= i < |units| ==>
      r[i].id == units[i].id && r[i].title == units[i].title &&
      r[i].lessons == (if units[i].id == unitId then units[i].lessons + [lesson] else units[i].lessons)
  {
    Seqs.Map(units, (u: Unit) => if u.id == unitId then u.(lessons := u.lessons + [lesson]) else u)
  }

  /** The outcome of `handleSaveLesson`: the course to update, the modal and the title field afterwards. */
  datatype LessonSave = LessonSave(update: Option<Course>, modal: LessonModal, title: string)

  /**
   * `handleSaveLesson`. A blank title or a missing course or unit id
   * changes nothing; otherwise the modal closes and the title clears, and
   * the first course with the id (if any) gains one pending lesson `newId`.
   */
  function SaveLesson(courses: seq<Course>, modal: LessonModal, title: string, newId: string): (r: LessonSave)
    ensures IsBlank(title) || !Truthy(modal.courseId) || !Truthy(modal.unitId) ==> r == LessonSave(None, modal, title)
    ensures !IsBlank(title) && Truthy(modal.courseId) && Truthy(modal.unitId) ==>
      r.modal == ClosedModal && r.title == "" &&
      (r.update.None? <==> forall i :: 0 <= i < |courses| ==> courses[i].id != modal.courseId.value) &&
      (r.update.Some? ==> exists i :: (0 <= i < |courses| && courses[i].id == modal.courseId.value &&
        (forall k :: 0 <= k < i ==> courses[k].id != modal.courseId.value) &&
        r.update.value == courses[i].(units := AppendLesson(courses[i].units, modal.unitId.value, Lesson(newId, title, Pending)))))
  {
    if IsBlank(title) || !Truthy(modal.courseId) || !Truthy(modal.unitId) then LessonSave(None, modal, title)
    else
      var update := match FindCourse(courses, modal.courseId.value)
        case None => None
        case Some(c) => Some(c.(units := AppendLesson(c.units, modal.unitId.value, Lesson(newId, title, Pending))));
      LessonSave(update, ClosedModal, "")
  }

  function LessonCount(units: seq<Unit>): nat {
    if units == [] then 0 else |units[0].lessons| + LessonCount(units[1..])
  }

  function CountUnitsWithId(units: seq<Unit>, unitId: string): nat {
    if units == [] then 0 else (if units[0].id == unitId then 1 else 0) + CountUnitsWithId(units[1..], unitId)
  }

  /** The course gains one lesson per unit carrying the id: exactly one when unit ids are unique. */
  lemma {:induction false} AppendLessonCount(units: seq<Unit>, unitId: string, lesson: Lesson)
    ensures LessonCount(AppendLesson(units, unitId, lesson)) == LessonCount(units) + CountUnitsWithId(units, unitId)
  {
    if units != [] {
      AppendLessonCount(units[1..], unitId, lesson);
      assert AppendLesson(units, unitId, lesson)[1..] == AppendLesson(units[1..], unitId, lesson);
    }
  }

  // ---------------------------------------------------------------
  // The new-course form
  // ---------------------------------------------------------------

  datatype CourseForm = CourseForm(
    name: string,
    teacherName: string,
    mode: StudyMode,
    color: string,
    structureItems: seq<string>,
    tempItemInput: string)

  const EmptyForm := CourseForm("", "", Online, "#6366f1", [], "")

  /** `handleAddItemToStructure`: a non-blank input is appended trimmed and the input clears. */
  function AddItemToStructure(f: CourseForm): (r: CourseForm)
    ensures IsBlank(f.tempItemInput) ==> r == f
    ensures !IsBlank(f.tempItemInput) ==>
      r == f.(structureItems := f.structureItems + [Trim(f.tempItemInput)], tempItemInput := "")
  {
    if Trim(f.tempItemInput) != "" then
      f.(structureItems := f.structureItems + [Trim(f.tempItemInput)], tempItemInput := "")
    else f
  }

  /** An added unit name never has white space at either end and is never empty. */
  lemma AddedItemIsTrimmed(f: CourseForm)
    requires !IsBlank(f.tempItemInput)
    ensures var items := AddItemToStructure(f).structureItems;
      |items| == |f.structureItems| + 1 && items[|items| - 1] != "" &&
      Trim(items[|items| - 1]) == items[|items| - 1]
  {
    var t := Trim(f.tempItemInput);
    assert AddItemToStructure(f).structureItems == f.structureItems + [t];
    TrimIdempotent(f.tempItemInput);
  }

  /** `items.filter((_, i) => i !== index)`. */
  function WithoutIndex<T>(s: seq<T>, index: int): (r: seq<T>)
    ensures 0 <= index < |s| ==> r == s[..index] + s[index + 1..]
    ensures !(0 <= index < |s|) ==> r == s
  {
    if s == [] then []
    else
      var rest := WithoutIndex(s[1..], index - 1);
      if index == 0 then
        rest
      else
        assert 0 < index < |s| ==> [s[0]] + s[1..][..index - 1] == s[..index];
        [s[0]] + rest
  }

  /** `handleRemoveItemFromStructure`. */
  function RemoveItemFromStructure(f: CourseForm, index: int): (r: CourseForm)
    ensures r.structureItems == WithoutIndex(f.structureItems, index)
    ensures r == f.(structureItems := r.structureItems)
  {
    f.(structureItems := WithoutIndex(f.structureItems, index))
  }

  /** The units built from the form: one per name, `now + idx` as id, no lessons. */
  function UnitsFromItems(items: seq<string>, now: string): (r: seq<Unit>)
    ensures |r| == |items|
    ensures forall i :: 0 <= i < |items| ==> r[i] == Unit(now + NatToString(i), items[i], [])
  {
    seq(|items|, i requires 0 <= i < |items| => Unit(now + NatToString(i), items[i], []))
  }

  /** The unit ids built from one timestamp are pairwise distinct. */
  lemma UnitIdsDistinct(items: seq<string>, now: string)
    ensures var units := UnitsFromItems(items, now);
      forall i, j :: 0 <= i < j < |units| ==> units[i].id != units[j].id
  {
    var units := UnitsFromItems(items, now);
    forall i, j | 0 <= i < j < |units|
      ensures units[i].id != units[j].id
    {
      if units[i].id == units[j].id {
        assert (now + NatToString(i))[|now|..] == NatToString(i);
        assert (now + NatToString(j))[|now|..] == NatToString(j);
        ParseIntNatToString(i);
        ParseIntNatToString(j);
      }
    }
  }

  /** The outcome of `handleSaveCourse`: the course to add, the form, and whether the modal stays open. */
  datatype CourseSave = CourseSave(added: Option<Course>, form: CourseForm, modalOpen: bool)

  /**
   * `handleSaveCourse` at time `now`: a blank name changes nothing;
   * otherwise the new course (credits 3, medium, grade 0, one empty
   * unit per listed name) is added and the form resets and closes.
   */
  function SaveCourse(f: CourseForm, modalOpen: bool, now: string): (r: CourseSave)
    ensures IsBlank(f.name) ==> r == CourseSave(None, f, modalOpen)
    ensures !IsBlank(f.name) ==> r.form == EmptyForm && !r.modalOpen && r.added.Some?
    ensures r.added.Some? ==>
      var c := r.added.value;
      c.id == now && c.name == f.name && c.teacherName == Some(f.teacherName) &&
      c.studyMode == Some(f.mode) && c.color == f.color &&
      c.credits == 3 && c.difficulty == Difficulty.Medium && c.currentGrade == Some(0) &&
      c.targetGrade.None? && c.studyConfig.None? &&
      |c.units| == |f.structureItems| &&
      forall i :: 0 <= i < |c.units| ==> c.units[i].title == f.structureItems[i] && c.units[i].lessons == []
    ensures r.added.Some? ==> r.added.value.units == UnitsFromItems(f.structureItems, now)
  {
    if IsBlank(f.name) then CourseSave(None, f, modalOpen)
    else
      var course := Course(now, f.name, Some(f.teacherName), Some(f.mode), 3, Difficulty.Medium, f.color,
                           Some(0), None, UnitsFromItems(f.structureItems, now), None);
      CourseSave(Some(course), EmptyForm, false)
  }
}
