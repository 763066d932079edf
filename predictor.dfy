/**
 * The grade predictor (Predictor.tsx): the credit-weighted average of
 * the current or the target grades, the course with the largest gap
 * to its target, a grade edit, and the "+5 on the weakest course"
 * simulation. Grades are read with `||` defaults, so a stored 0 falls
 * through like a missing grade.
 */
module Predictor {
  import opened Wrappers
  import opened Domain
  import Seqs
  import Arith

  /** The score a course contributes: current grade, or (target mode) target, then current, then 0. */
  function Score(c: Course, useTarget: bool): (r: int)
    ensures !useTarget ==> r == OrElse(c.currentGrade, 0)
    ensures useTarget ==> r == OrElse(c.targetGrade, OrElse(c.currentGrade, 0))
  {
    if useTarget then OrElse(c.targetGrade, OrElse(c.currentGrade, 0)) else OrElse(c.currentGrade, 0)
  }

  /** A zero target is no target: target mode then scores the current grade. */
  lemma ZeroTargetFallsThrough(c: Course)
    requires c.targetGrade.None? || c.targetGrade == Some(0)
    ensures Score(c, true) == Score(c, false)
  {
  }

  /** `Σ score · credits` over the courses. */
  function WeightedSum(s: seq<Course>, useTarget: bool): int {
    if s == [] then 0 else WeightedSum(s[..|s| - 1], useTarget) + Score(s[|s| - 1], useTarget) * s[|s| - 1].credits
  }

  /** `Σ credits` over the courses. */
  function CreditSum(s: seq<Course>): int {
    if s == [] then 0 else CreditSum(s[..|s| - 1]) + s[|s| - 1].credits
  }

  /** The average the screen shows (before `toFixed(2)`), 0 when the credits sum to 0. */
  function Average(s: seq<Course>, useTarget: bool): real {
    if CreditSum(s) == 0 then 0.0 else WeightedSum(s, useTarget) as real / CreditSum(s) as real
  }

  /** `calculateTotal(useTarget)`: one pass accumulating the weighted scores and the credits. */
  method CalculateTotal(courses: seq<Course>, useTarget: bool) returns (total: real)
    ensures total == Average(courses, useTarget)
  {
    var totalWeightedScore := 0;
    var totalWeights := 0;
    var i := 0;
    while i < |courses|
      invariant 0 <= i <= |courses|
      invariant totalWeightedScore == WeightedSum(courses[..i], useTarget)
      invariant totalWeights == CreditSum(courses[..i])
    {
      var c := courses[i];
      var score := Score(c, useTarget);
      totalWeightedScore := totalWeightedScore + score * c.credits;
      totalWeights := totalWeights + c.credits;
      assert courses[..i + 1][..i] == courses[..i];
      i := i + 1;
    }
    assert courses[..i] == courses;
    total := if totalWeights == 0 then 0.0 else totalWeightedScore as real / totalWeights as real;
  }

  /** With positive credits and every score in 0..100, the weighted sum stays within 0..100 times the credits. */
  lemma {:induction false} WeightedSumBounds(s: seq<Course>, useTarget: bool)
    requires forall c :: c in s ==> c.credits > 0 && 0 <= Score(c, useTarget) <= 100
    ensures 0 <= WeightedSum(s, useTarget) <= 100 * CreditSum(s)
    ensures s != [] ==> CreditSum(s) > 0
  {
    if s != [] {
      var last := s[|s| - 1];
      assert last in s;
      assert forall c :: c in s[..|s| - 1] ==> c in s;
      WeightedSumBounds(s[..|s| - 1], useTarget);
      var k := last.credits;
      var sc := Score(last, useTarget);
      assert 0 <= sc * k <= 100 * k by {
        Arith.MulLe(0, sc, k);
        Arith.MulLe(sc, 100, k);
      }
    }
  }

  /** So the average of such grades is itself a grade in 0..100. */
  lemma AverageBounds(s: seq<Course>, useTarget: bool)
    requires forall c :: c in s ==> c.credits > 0 && 0 <= Score(c, useTarget) <= 100
    ensures 0.0 <= Average(s, useTarget) <= 100.0
  {
    WeightedSumBounds(s, useTarget);
    if CreditSum(s) != 0 {
      RatioBound(WeightedSum(s, useTarget) as real, CreditSum(s) as real);
    }
  }

  lemma RatioBound(w: real, d: real)
    requires d > 0.0 && 0.0 <= w <= 100.0 * d
    ensures 0.0 <= w / d <= 100.0
  {
  }

  /** `(target || 0) - (current || 0)`. */
  function Gap(c: Course): int {
    OrElse(c.targetGrade, 0) - OrElse(c.currentGrade, 0)
  }

  /**
   * The biggest-gap search: the first course whose gap is positive and
   * not exceeded by any course; none when no gap is positive. `maxGap`
   * is that gap, 0 when there is none.
   */
  method BiggestGap(courses: seq<Course>) returns (best: Option<nat>, maxGap: int)
    ensures best.None? <==> forall k :: 0 <= k < |courses| ==> Gap(courses[k]) <= 0
    ensures best.None? ==> maxGap == 0
    ensures best.Some? ==> best.value < |courses| && maxGap == Gap(courses[best.value]) > 0
    ensures best.Some? ==> forall k :: 0 <= k < |courses| ==> Gap(courses[k]) <= maxGap
    ensures best.Some? ==> forall k :: 0 <= k < best.value ==> Gap(courses[k]) < maxGap
  {
    best := None;
    maxGap := 0;
    var i := 0;
    while i < |courses|
      invariant 0 <= i <= |courses|
      invariant maxGap >= 0
      invariant forall k :: 0 <= k < i ==> Gap(courses[k]) <= maxGap
      invariant best.None? ==> maxGap == 0
      invariant best.Some? ==> best.value < i && maxGap == Gap(courses[best.value]) > 0
      invariant best.Some? ==> forall k :: 0 <= k < best.value ==> Gap(courses[k]) < maxGap
    {
      var gap := Gap(courses[i]);
      if gap > maxGap {
        maxGap := gap;
        best := Some(i);
      }
      i := i + 1;
    }
  }

  datatype GradeField = CurrentGrade | TargetGrade

  /**
   * `handleGradeChange(id, field, value)`: the course with the id with
   * that one grade set to the entered number; None when no course has the id.
   */
  function GradeChange(courses: seq<Course>, id: string, field: GradeField, value: int): (r: Option<Course>)
    ensures r.None? <==> forall k :: 0 <= k < |courses| ==> courses[k].id != id
    ensures r.Some? ==> exists k :: (0 <= k < |courses| && courses[k].id == id &&
      (forall j :: 0 <= j < k ==> courses[j].id != id) &&
      r.value == (if field == CurrentGrade then courses[k].(currentGrade := Some(value))
                  else courses[k].(targetGrade := Some(value))))
  {
    match Seqs.FindIndex(courses, (c: Course) => c.id == id)
      case None => None
      case Some(k) =>
        var c := courses[k];
        Some(if field == CurrentGrade then c.(currentGrade := Some(value)) else c.(targetGrade := Some(value)))
  }

  /** The first course with the lowest current grade (`|| 0`): what a stable ascending sort puts first. */
  function LowestIndex(courses: seq<Course>): (r: nat)
    requires courses != []
    ensures r < |courses|
    ensures forall k :: 0 <= k < |courses| ==> Score(courses[r], false) <= Score(courses[k], false)
    ensures forall k :: 0 <= k < r ==> Score(courses[k], false) > Score(courses[r], false)
  {
    if |courses| == 1 then 0
    else
      var j := LowestIndex(courses[..|courses| - 1]);
      assert forall k :: 0 <= k < |courses| - 1 ==> courses[..|courses| - 1][k] == courses[k];
      if Score(courses[|courses| - 1], false) < Score(courses[j], false) then |courses| - 1 else j
  }

  /**
   * `simulateImprovement`: the weakest course gains 5 points, capped at
   * 100; None for an empty list.
   */
  function SimulateImprovement(courses: seq<Course>): (r: Option<Course>)
    ensures r.None? <==> courses == []
    ensures r.Some? ==>
      var k := LowestIndex(courses);
      r.value == courses[k].(currentGrade := Some(if Score(courses[k], false) + 5 < 100 then Score(courses[k], false) + 5 else 100))
  {
    if courses == [] then None
    else
      var lowest := courses[LowestIndex(courses)];
      var raised := OrElse(lowest.currentGrade, 0) + 5;
      Some(lowest.(currentGrade := Some(if raised < 100 then raised else 100)))
  }

  /** The simulation never lowers a grade that is at most 100, and never leaves it above 100. */
  lemma ImprovementIsCapped(courses: seq<Course>)
    requires courses != []
    requires forall c :: c in courses ==> OrElse(c.currentGrade, 0) <= 100
    ensures var c := SimulateImprovement(courses).value;
      var before := courses[LowestIndex(courses)];
      OrElse(before.currentGrade, 0) <= c.currentGrade.value <= 100 &&
      c.currentGrade.value <= OrElse(before.currentGrade, 0) + 5
  {
    assert courses[LowestIndex(courses)] in courses;
  }
}
