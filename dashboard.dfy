/**
 * The dashboard (Dashboard.tsx): the days-left card with its editable
 * exam date, and the three-task inbox. Times are integer milliseconds;
 * turning a date text into milliseconds (`new Date(text)`) and back
 * (`toISOString`) are parameters, since they depend on the clock's
 * time zone.
 */
module Dashboard {
  import opened Wrappers
  import opened Domain
  import Arith

  /** Milliseconds in a day: `1000 * 60 * 60 * 24`. */
  const DayMs: int := 86400000

  /** The exam date shown when none was saved. */
  const DefaultExamText: string := "2026-06-20T00:00:00"

  /** `Math.ceil((exam - now) / DayMs)`: the whole days, rounded up, until the exam. */
  function DaysLeft(exam: int, now: int): (r: int)
    ensures (r - 1) * DayMs < exam - now <= r * DayMs
  {
    var q := (now - exam) / DayMs;
    assert q * DayMs <= now - exam < q * DayMs + DayMs;
    -q
  }

  /** The rounding is the only one possible: any count of days that brackets the time left is `DaysLeft`. */
  lemma DaysLeftUnique(exam: int, now: int, k: int)
    requires (k - 1) * DayMs < exam - now <= k * DayMs
    ensures DaysLeft(exam, now) == k
  {
    Arith.DivUnique(now - exam, DayMs, -k);
  }

  /** The card's number: `Math.max(0, daysLeft)`; 0 exactly when the exam time has come. */
  function DisplayDays(exam: int, now: int): (r: nat)
    ensures r == 0 <==> exam <= now
    ensures r > 0 ==> r == DaysLeft(exam, now)
  {
    var d := DaysLeft(exam, now);
    if d > 0 then d else 0
  }

  /** The count never goes up as time passes. */
  lemma DisplayDaysFalls(exam: int, now: int, later: int)
    requires now <= later
    ensures DisplayDays(exam, later) <= DisplayDays(exam, now)
  {
    var a := DaysLeft(exam, now);
    var b := DaysLeft(exam, later);
    if b > a {
      assert false;
    }
  }

  /** A whole number of days before the exam, the card shows exactly that number. */
  lemma DisplayWholeDays(exam: int, days: nat)
    requires days > 0
    ensures DisplayDays(exam, exam - days * DayMs) == days
  {
    DaysLeftUnique(exam, exam - days * DayMs, days);
  }

  /** The exam date on opening: the saved text when there is one, else the default date. */
  function InitialExam(saved: Option<string>, parse: string -> int): (r: int)
    ensures Truthy(saved) ==> r == parse(saved.value)
    ensures !Truthy(saved) ==> r == parse(DefaultExamText)
  {
    if Truthy(saved) then parse(saved.value) else parse(DefaultExamText)
  }

  /** The days-left card: the exam date and whether the date input is open. */
  datatype DateCard = DateCard(examDate: int, isEditingDate: bool)

  /** What a date change leaves: the card, and the text written under the exam-date key (if any). */
  datatype DateChange = DateChange(card: DateCard, stored: Option<string>)

  /**
   * `handleDateChange`: an empty value (the input cleared) changes
   * nothing and writes nothing; any other value becomes the exam date,
   * is saved as its ISO text, and closes the input.
   */
  function HandleDateChange(card: DateCard, value: string, parse: string -> int, toIso: int -> string): (r: DateChange)
    ensures value == "" ==> r == DateChange(card, None)
    ensures value != "" ==> r.card == DateCard(parse(value), false) && r.stored == Some(toIso(parse(value)))
  {
    if value != "" then
      var newDate := parse(value);
      DateChange(DateCard(newDate, false), Some(toIso(newDate)))
    else DateChange(card, None)
  }

  /**
   * A chosen date survives a reload: when reading an ISO text back gives
   * the same instant, the next opening starts from the date just chosen.
   */
  lemma ChosenDateSurvivesReload(card: DateCard, value: string, parse: string -> int, toIso: int -> string)
    requires value != ""
    requires toIso(parse(value)) != "" && parse(toIso(parse(value))) == parse(value)
    ensures var r := HandleDateChange(card, value, parse, toIso);
      InitialExam(r.stored, parse) == r.card.examDate
  {
  }

  /** The inbox: `tasks.slice(0, 3)`, the first three tasks (fewer when there are fewer). */
  function Inbox(tasks: seq<Task>): (r: seq<Task>)
    ensures |r| == (if |tasks| < 3 then |tasks| else 3)
    ensures forall i :: 0 <= i < |r| ==> r[i] == tasks[i]
  {
    if |tasks| < 3 then tasks else tasks[..3]
  }

  /** A task just added (tasks are prepended) heads the inbox, and the rest of the inbox shifts down by one. */
  lemma NewTaskHeadsInbox(tasks: seq<Task>, task: Task)
    ensures var r := Inbox([task] + tasks);
      r[0] == task && r[1..] == Inbox(tasks)[..|r| - 1]
  {
    var r := Inbox([task] + tasks);
    assert forall i :: 1 <= i < |r| ==> r[i] == tasks[i - 1];
  }
}
