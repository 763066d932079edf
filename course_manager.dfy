/**
 * The add-course form of the courses page (CourseManager.tsx). The form
 * holds what the user typed: a number field read with `Number(...)` is
 * `None` when it does not hold a number (`NaN`), and `handleSubmit`
 * reads credits and color with `||` defaults. `now` stands for
 * `Date.now()`.
 */
module CourseManager {
  import opened Wrappers
  import opened Domain
  import opened Text
  import Predictor

  /** The default course color (indigo). */
  const Indigo: string := "#6366f1"

  datatype CourseForm = CourseForm(
    name: string,
    credits: Option<int>,
    difficulty: Difficulty,
    currentGrade: Option<int>,
    color: Option<string>)

  /** The form when the page opens and after every add. */
  const EmptyForm: CourseForm := CourseForm("", Some(3), Difficulty.Medium, Some(90), Some(Indigo))

  /** The course `handleSubmit` hands to `addCourse`. */
  function CourseOfForm(form: CourseForm, now: int): (r: Course)
    ensures r.name == form.name && r.difficulty == form.difficulty && r.currentGrade == form.currentGrade
    ensures r.credits == (if form.credits.Some? && form.credits.value != 0 then form.credits.value else 3)
    ensures r.color == (if form.color.Some? && form.color.value != "" then form.color.value else Indigo)
    ensures r.units == [] && r.targetGrade.None? && r.teacherName.None? && r.studyMode.None? && r.studyConfig.None?
    ensures now >= 0 ==> ParseInt(r.id) == Some(now)
  {
    if now >= 0 then ParseIntNatToString(now); Build(form, now) else Build(form, now)
  }

  function Build(form: CourseForm, now: int): Course {
    Course(IntText(now), form.name, None, None, OrElse(form.credits, 3), form.difficulty,
           OrText(form.color, Indigo), form.currentGrade, None, [], None)
  }

  /** What a submit leaves: the course added (if any), the form, and whether it stays open. */
  datatype Submission = Submission(added: Option<Course>, form: CourseForm, isAdding: bool)

  /**
   * `handleSubmit`: with a name, the course is added, the form reset and
   * closed; with an empty name nothing changes.
   */
  function Submit(form: CourseForm, isAdding: bool, now: int): (r: Submission)
    ensures form.name == "" <==> r.added.None?
    ensures form.name == "" ==> r.form == form && r.isAdding == isAdding
    ensures form.name != "" ==> r.added == Some(CourseOfForm(form, now)) && r.form == EmptyForm && !r.isAdding
  {
    if form.name != "" then Submission(Some(CourseOfForm(form, now)), EmptyForm, false)
    else Submission(None, form, isAdding)
  }

  /** An added course always has non-zero credits, a color and no units. */
  lemma AddedCourseShape(form: CourseForm, isAdding: bool, now: int)
    ensures var r := Submit(form, isAdding, now);
      r.added.Some? ==> (r.added.value.credits != 0 && r.added.value.color != "" && r.added.value.units == [])
  {
  }

  /**
   * A course added from the untouched form with just a name has 3
   * credits, medium difficulty, indigo, and counts in the grade
   * predictor with 90 points on 3 credits.
   */
  lemma DefaultFormCourse(name: string, now: int)
    requires name != ""
    ensures var c := Submit(EmptyForm.(name := name), true, now).added.value;
      c.credits == 3 && c.difficulty == Difficulty.Medium && c.color == Indigo &&
      Predictor.Score(c, false) == 90 && Predictor.Average([c], false) == 90.0
  {
    var c := Submit(EmptyForm.(name := name), true, now).added.value;
    assert [c][..0] == [];
    assert Predictor.WeightedSum([c], false) == 270;
    assert Predictor.CreditSum([c]) == 3;
  }

  /** The grade typed in the form is the grade the predictor scores, unless it is 0 or not a number. */
  lemma TypedGradeIsScored(form: CourseForm, now: int, g: int)
    requires form.name != "" && form.currentGrade == Some(g) && g != 0
    ensures Predictor.Score(Submit(form, true, now).added.value, false) == g
  {
  }
}
