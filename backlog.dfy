/**
 * The catch-up planner (BacklogManager.tsx): the subject list of the
 * chosen track, the study-configuration form of a subject (open, edit
 * the lecture days and the backlog count, save), the total backlog of
 * all courses, and the track / sub-track navigation with its restored
 * preference.
 */
module Backlog {
  import opened Wrappers
  import opened Domain
  import Text
  import Seqs
  import Store

  datatype Subject = Subject(name: string, color: string)

  const CommonSubjects: seq<Subject> := [
    Subject("اللغة العربية", "#10b981"),
    Subject("اللغة الإنجليزية", "#f59e0b"),
    Subject("اللغة الثانية (فرنساوي/ألماني/إيطالي)", "#8b5cf6")]

  const ArtsSubjects: seq<Subject> := [
    Subject("التاريخ", "#ef4444"),
    Subject("الجغرافيا", "#3b82f6"),
    Subject("الفلسفة والمنطق", "#ec4899"),
    Subject("علم النفس والاجتماع", "#f97316")]

  const ScienceSubjects: seq<Subject> := [
    Subject("الفيزياء", "#6366f1"),
    Subject("الكيمياء", "#14b8a6"),
    Subject("الأحياء", "#84cc16"),
    Subject("الجيولوجيا", "#a855f7")]

  const MathSubjects: seq<Subject> := [
    Subject("الفيزياء", "#6366f1"),
    Subject("الكيمياء", "#14b8a6"),
    Subject("الرياضيات البحتة (تفاضل/جبر)", "#06b6d4"),
    Subject("الرياضيات التطبيقية (استاتيكا/ديناميكا)", "#f43f5e")]

  datatype Track = Arts | Sci

  /**
   * `getSubjectsList()`. The sub-track is the raw selected value: a
   * restored preference may hold any stored text, and only exactly
   * "science" picks the science list; every other value picks the
   * mathematics list.
   */
  function SubjectsList(track: Option<Track>, subTrack: Option<string>): (r: seq<Subject>)
    ensures |r| == if track.None? then |CommonSubjects| else |CommonSubjects| + 4
    ensures r[..|CommonSubjects|] == CommonSubjects
    ensures track.None? ==> r == CommonSubjects
    ensures track == Some(Arts) ==> r[|CommonSubjects|..] == ArtsSubjects
    ensures track == Some(Sci) && subTrack == Some("science") ==> r[|CommonSubjects|..] == ScienceSubjects
    ensures track == Some(Sci) && subTrack != Some("science") ==> r[|CommonSubjects|..] == MathSubjects
  {
    match track
      case None => CommonSubjects
      case Some(Arts) => CommonSubjects + ArtsSubjects
      case Some(Sci) => CommonSubjects + (if subTrack == Some("science") then ScienceSubjects else MathSubjects)
  }

  predicate NamesDistinct(s: seq<Subject>) {
    forall i, j :: 0 <= i < j < |s| ==> s[i].name != s[j].name
  }

  /**
   * Within any one list no two subjects share a name, so the course a
   * subject's form finds by name belongs to that subject alone.
   */
  lemma SubjectNamesDistinct(track: Option<Track>, subTrack: Option<string>)
    ensures NamesDistinct(SubjectsList(track, subTrack))
    ensures track.Some? ==> |SubjectsList(track, subTrack)| == 7
  {
    var s := SubjectsList(track, subTrack);
    forall i, j | 0 <= i < j < |s|
      ensures s[i].name != s[j].name
    {
      NamesDiffer(s[i].name, s[j].name, s, i, j);
    }
  }

  /** Two of the literal names differ already in their length or in one of their first characters. */
  lemma NamesDiffer(a: string, b: string, s: seq<Subject>, i: nat, j: nat)
    requires s == CommonSubjects + ArtsSubjects || s == CommonSubjects + ScienceSubjects ||
             s == CommonSubjects + MathSubjects || s == CommonSubjects
    requires i < j < |s| && a == s[i].name && b == s[j].name
    ensures a != b
  {
  }

  /** The form shown when a subject has no stored configuration yet. */
  const DefaultConfig: StudyConfig :=
    StudyConfig(0, ChapterItem, 0, 1.5, 2.0, AtCenter, 2.0, [], Some([]))

  /** `configForm.lectureDays || []`. */
  function LectureDays(config: StudyConfig): seq<string> {
    match config.lectureDays
      case None => []
      case Some(days) => days
  }

  /**
   * `toggleLectureDay(day)`: every occurrence of a chosen day is removed,
   * an unchosen day is appended; nothing else in the form changes.
   */
  function ToggleLectureDay(config: StudyConfig, day: string): (r: StudyConfig)
    ensures r.(lectureDays := config.lectureDays) == config
    ensures r.lectureDays.Some?
    ensures day in LectureDays(r) <==> day !in LectureDays(config)
    ensures forall d :: d != day ==> (d in LectureDays(r) <==> d in LectureDays(config))
    ensures day !in LectureDays(config) ==> LectureDays(r) == LectureDays(config) + [day]
    ensures |LectureDays(r)| <= |LectureDays(config)| + 1
  {
    var days := LectureDays(config);
    if day in days then config.(lectureDays := Some(Seqs.Filter(days, d => d != day)))
    else config.(lectureDays := Some(days + [day]))
  }

  /** Choosing a day that was not chosen and then un-choosing it gives back the very same list. */
  lemma ToggleTwiceRestores(config: StudyConfig, day: string)
    requires day !in LectureDays(config)
    ensures LectureDays(ToggleLectureDay(ToggleLectureDay(config, day), day)) == LectureDays(config)
  {
    var days := LectureDays(config);
    var p := (d: string) => d != day;
    Seqs.FilterConcat(days, [day], p);
    Seqs.FilterKeepsAll(days, p);
    assert Seqs.Filter([day], p) == [];
  }

  /** Toggling a day twice always gives back the same set of chosen days. */
  lemma ToggleTwiceSameDays(config: StudyConfig, day: string)
    ensures var r := ToggleLectureDay(ToggleLectureDay(config, day), day);
      forall d :: d in LectureDays(r) <==> d in LectureDays(config)
  {
  }

  /** The backlog count field: `parseInt(value) || 0`. */
  function BacklogCountInput(text: string): (r: int)
    ensures Text.ParseInt(text).None? ==> r == 0
    ensures Text.ParseInt(text).Some? ==> r == Text.ParseInt(text).value
  {
    OrElse(Text.ParseInt(text), 0)
  }

  /** The field reads back every count it displays. */
  lemma BacklogCountReadsBack(n: nat)
    ensures BacklogCountInput(Text.NatToString(n)) == n
  {
    Text.ParseIntNatToString(n);
  }

  /** `c.studyConfig?.backlogCount || 0`. */
  function BacklogOf(c: Course): int {
    match c.studyConfig
      case None => 0
      case Some(config) => OrElse(Some(config.backlogCount), 0)
  }

  /** The sum of the backlog counts of the courses. */
  function BacklogTotal(courses: seq<Course>): int {
    if courses == [] then 0 else BacklogTotal(courses[..|courses| - 1]) + BacklogOf(courses[|courses| - 1])
  }

  /** The `totalAccumulated` accumulation over the courses. */
  method TotalAccumulated(courses: seq<Course>) returns (total: int)
    ensures total == BacklogTotal(courses)
  {
    total := 0;
    var i := 0;
    while i < |courses|
      invariant 0 <= i <= |courses|
      invariant total == BacklogTotal(courses[..i])
    {
      var c := courses[i];
      total := total + (if c.studyConfig.Some? then OrElse(Some(c.studyConfig.value.backlogCount), 0) else 0);
      assert courses[..i + 1][..i] == courses[..i];
      i := i + 1;
    }
    assert courses[..i] == courses;
  }

  /** The total of a concatenation is the sum of the totals: each course counts once, wherever it is. */
  lemma {:induction false} BacklogTotalConcat(a: seq<Course>, b: seq<Course>)
    ensures BacklogTotal(a + b) == BacklogTotal(a) + BacklogTotal(b)
    decreases |b|
  {
    if b != [] {
      var ab := a + b;
      assert ab[..|ab| - 1] == a + b[..|b| - 1];
      assert ab[|ab| - 1] == b[|b| - 1];
      BacklogTotalConcat(a, b[..|b| - 1]);
    } else {
      assert a + b == a;
    }
  }

  /** With no negative counts the total is at least the backlog of any one course. */
  lemma {:induction false} BacklogTotalBounds(courses: seq<Course>)
    requires forall c :: c in courses ==> BacklogOf(c) >= 0
    ensures BacklogTotal(courses) >= 0
    ensures forall c :: c in courses ==> BacklogOf(c) <= BacklogTotal(courses)
  {
    if courses != [] {
      var init := courses[..|courses| - 1];
      assert forall c :: c in init ==> c in courses;
      BacklogTotalBounds(init);
      assert forall c :: c in courses ==> c in init || c == courses[|courses| - 1];
    }
  }

  /** The first course named like the subject. */
  function NamedIndex(courses: seq<Course>, name: string): (r: Option<nat>)
    ensures r.None? <==> forall i :: 0 <= i < |courses| ==> courses[i].name != name
    ensures r.Some? ==> (r.value < |courses| && courses[r.value].name == name &&
      forall k :: 0 <= k < r.value ==> courses[k].name != name)
  {
    Seqs.FindIndex(courses, (c: Course) => c.name == name)
  }

  /** The configuration modal: the form it shows and the subject being edited (None when closed). */
  datatype ConfigModal = ConfigModal(form: StudyConfig, editing: Option<Subject>)

  /**
   * `openConfigModal(subject)`: the stored configuration of the first
   * course with the subject's name, or the default form when there is
   * no such course or it has none.
   */
  function OpenConfigModal(courses: seq<Course>, subject: Subject): (r: ConfigModal)
    ensures r.editing == Some(subject)
    ensures NamedIndex(courses, subject.name).Some? && courses[NamedIndex(courses, subject.name).value].studyConfig.Some? ==>
      Some(r.form) == courses[NamedIndex(courses, subject.name).value].studyConfig
    ensures NamedIndex(courses, subject.name).None? ==> r.form == DefaultConfig
    ensures NamedIndex(courses, subject.name).Some? && courses[NamedIndex(courses, subject.name).value].studyConfig.None? ==>
      r.form == DefaultConfig
  {
    match NamedIndex(courses, subject.name)
      case Some(k) =>
        ConfigModal(if courses[k].studyConfig.Some? then courses[k].studyConfig.value else DefaultConfig, Some(subject))
      case None => ConfigModal(DefaultConfig, Some(subject))
  }

  /** What the planner asks the store to do with the courses. */
  datatype CourseEdit = NoEdit | UpdateCourse(course: Course) | AddCourse(course: Course)

  /** The store applying the edit: `updateCourse` replaces by id, `addCourse` appends. */
  function ApplyEdit(courses: seq<Course>, edit: CourseEdit): (r: seq<Course>)
    ensures edit.NoEdit? ==> r == courses
    ensures edit.AddCourse? ==> r == courses + [edit.course]
    ensures edit.UpdateCourse? ==> r == Store.ReplaceById(courses, edit.course)
  {
    match edit
      case NoEdit => courses
      case UpdateCourse(c) => Store.ReplaceById(courses, c)
      case AddCourse(c) => courses + [c]
  }

  /** The outcome of `saveConfiguration`: the edit, and the subject being edited afterwards. */
  datatype ConfigSave = ConfigSave(edit: CourseEdit, editing: Option<Subject>)

  /**
   * `saveConfiguration()` with `nowId` for `Date.now().toString()`: nothing
   * without a subject; otherwise the first course with its name gets the
   * form as its configuration, or a new course is made for the subject
   * (4 credits, medium, grade 0, no units). The modal closes.
   */
  function SaveConfiguration(courses: seq<Course>, editing: Option<Subject>, form: StudyConfig, nowId: string): (r: ConfigSave)
    ensures r.editing.None?
    ensures editing.None? ==> r.edit.NoEdit?
    ensures editing.Some? && NamedIndex(courses, editing.value.name).Some? ==>
      r.edit == UpdateCourse(courses[NamedIndex(courses, editing.value.name).value].(studyConfig := Some(form)))
    ensures editing.Some? && NamedIndex(courses, editing.value.name).None? ==>
      r.edit == AddCourse(Course(nowId, editing.value.name, None, None, 4, Difficulty.Medium, editing.value.color,
                                 Some(0), None, [], Some(form)))
  {
    match editing
      case None => ConfigSave(NoEdit, None)
      case Some(subject) =>
        match NamedIndex(courses, subject.name)
          case Some(k) => ConfigSave(UpdateCourse(courses[k].(studyConfig := Some(form))), None)
          case None =>
            ConfigSave(AddCourse(Course(nowId, subject.name, None, None, 4, Difficulty.Medium, subject.color,
                                        Some(0), None, [], Some(form))), None)
  }

  /**
   * Saving a subject's form and opening the subject again shows the
   * saved form, whether the save updated a course or added one.
   */
  lemma SaveThenReopen(courses: seq<Course>, subject: Subject, form: StudyConfig, nowId: string)
    ensures var after := ApplyEdit(courses, SaveConfiguration(courses, Some(subject), form, nowId).edit);
      OpenConfigModal(after, subject).form == form
  {
    match NamedIndex(courses, subject.name)
      case None =>
        var c := SaveConfiguration(courses, Some(subject), form, nowId).edit.course;
        FirstNamedAfterAppend(courses, c);
      case Some(k) =>
        FirstNamedAfterReplace(courses, k, courses[k].(studyConfig := Some(form)));
  }

  /** An appended course that is the only one with its name is the one found by name. */
  lemma FirstNamedAfterAppend(courses: seq<Course>, c: Course)
    requires NamedIndex(courses, c.name).None?
    ensures NamedIndex(courses + [c], c.name) == Some(|courses|)
  {
    var after := courses + [c];
    assert forall i :: 0 <= i < |courses| ==> after[i] == courses[i] && after[i].name != c.name;
    assert after[|courses|] == c;
  }

  /**
   * Replacing the first course with a name by a course with the same id
   * and name: the course found by that name afterwards is the replacement.
   */
  lemma FirstNamedAfterReplace(courses: seq<Course>, k: nat, u: Course)
    requires NamedIndex(courses, u.name) == Some(k) && u.id == courses[k].id
    ensures var after := Store.ReplaceById(courses, u);
      NamedIndex(after, u.name).Some? && after[NamedIndex(after, u.name).value] == u
  {
    var after := Store.ReplaceById(courses, u);
    assert after[k] == u;
    var j := NamedIndex(after, u.name).value;
    assert j <= k;
    if j < k {
      assert courses[j].name != u.name;
    }
  }

  /** A save that adds a course raises the total backlog by the form's count and nothing else. */
  lemma SaveNewRaisesTotal(courses: seq<Course>, subject: Subject, form: StudyConfig, nowId: string)
    requires NamedIndex(courses, subject.name).None?
    ensures var after := ApplyEdit(courses, SaveConfiguration(courses, Some(subject), form, nowId).edit);
      BacklogTotal(after) == BacklogTotal(courses) + form.backlogCount
  {
    var c := SaveConfiguration(courses, Some(subject), form, nowId).edit.course;
    BacklogTotalConcat(courses, [c]);
    assert [c][..0] == [];
  }

  /** The screen of the planner. */
  datatype Step = TrackStep | SubTrackStep | ListStep

  /**
   * The navigation state of the planner and the two stored preferences
   * (`userTrack`, `userSubTrack`; None when not stored).
   */
  class TrackNavigator {
    var step: Step
    var track: Option<Track>
    var subTrack: Option<string>
    var storedTrack: Option<string>
    var storedSubTrack: Option<string>

    /** The list screen always has a track; the sub-track screen belongs to the sciences. */
    predicate Valid()
      reads this
    {
      (step == ListStep ==> track.Some?) &&
      (step == SubTrackStep ==> track == Some(Sci)) &&
      (step == ListStep && track == Some(Sci) ==> subTrack.Some?)
    }

    /** The subjects the list screen shows. */
    function Subjects(): (r: seq<Subject>)
      reads this
      ensures Valid() && step == ListStep ==> |r| == 7 && NamesDistinct(r)
    {
      SubjectNamesDistinct(track, subTrack);
      SubjectsList(track, subTrack)
    }

    /**
     * Mounting with the stored preferences: "arts" opens the list;
     * "sci" opens the list with a non-empty stored sub-track, else the
     * sub-track screen; anything else stays on the track screen.
     */
    constructor Restore(savedTrack: Option<string>, savedSubTrack: Option<string>)
      ensures Valid()
      ensures storedTrack == savedTrack && storedSubTrack == savedSubTrack
      ensures savedTrack == Some("arts") ==> step == ListStep && track == Some(Arts) && subTrack.None?
      ensures savedTrack == Some("sci") && Truthy(savedSubTrack) ==>
        step == ListStep && track == Some(Sci) && subTrack == savedSubTrack
      ensures savedTrack == Some("sci") && !Truthy(savedSubTrack) ==>
        step == SubTrackStep && track == Some(Sci) && subTrack.None?
      ensures savedTrack != Some("arts") && savedTrack != Some("sci") ==>
        step == TrackStep && track.None? && subTrack.None?
    {
      storedTrack := savedTrack;
      storedSubTrack := savedSubTrack;
      step := TrackStep;
      track := None;
      subTrack := None;
      if savedTrack == Some("arts") {
        track := Some(Arts);
        step := ListStep;
      } else if savedTrack == Some("sci") {
        track := Some(Sci);
        if Truthy(savedSubTrack) {
          subTrack := savedSubTrack;
          step := ListStep;
        } else {
          step := SubTrackStep;
        }
      }
    }

    /** `handleTrackSelect`: remember the track; arts goes to the list, sciences to the sub-track screen. */
    method SelectTrack(t: Track)
      requires Valid()
      modifies this
      ensures Valid()
      ensures track == Some(t) && subTrack == old(subTrack)
      ensures storedTrack == Some(if t == Arts then "arts" else "sci") && storedSubTrack == old(storedSubTrack)
      ensures step == (if t == Arts then ListStep else SubTrackStep)
    {
      track := Some(t);
      storedTrack := Some(if t == Arts then "arts" else "sci");
      step := if t == Arts then ListStep else SubTrackStep;
    }

    /** `handleSubTrackSelect`, offered on the sub-track screen: remember it and go to the list. */
    method SelectSubTrack(science: bool)
      requires Valid() && step == SubTrackStep
      modifies this
      ensures Valid()
      ensures subTrack == Some(if science then "science" else "math")
      ensures storedSubTrack == subTrack && storedTrack == old(storedTrack)
      ensures step == ListStep && track == old(track)
    {
      subTrack := Some(if science then "science" else "math");
      storedSubTrack := subTrack;
      step := ListStep;
    }

    /** `resetSelection`: forget both preferences and both selections, back to the track screen. */
    method Reset()
      modifies this
      ensures Valid()
      ensures step == TrackStep && track.None? && subTrack.None?
      ensures storedTrack.None? && storedSubTrack.None?
    {
      storedTrack := None;
      storedSubTrack := None;
      track := None;
      subTrack := None;
      step := TrackStep;
    }

    /** The back button of the sub-track screen: only the screen changes. */
    method Back()
      requires Valid()
      modifies this
      ensures Valid()
      ensures step == TrackStep
      ensures track == old(track) && subTrack == old(subTrack)
      ensures storedTrack == old(storedTrack) && storedSubTrack == old(storedSubTrack)
    {
      step := TrackStep;
    }
  }
}
