/**
 * The Pomodoro study room (Timer.tsx): a focus countdown of a chosen
 * length, then a short break, or a long break after every third focus
 * session; the ring at zero, the tick, pause/resume, reset and the
 * duration buttons. The timer's state is a record; each handler is a
 * step function on it, and the `PomodoroTimer` class performs the same
 * steps on its fields.
 */
module Timer {
  import opened Wrappers
  import opened Text

  datatype Mode = Focus | ShortBreak | LongBreak

  datatype TimerState = TimerState(
    timeLeft: int,
    isActive: bool,
    mode: Mode,
    sessionsCount: nat,
    isRinging: bool,
    selectedDuration: int)

  /** Thirty minutes of focus, paused, nothing done yet. */
  const Initial: TimerState := TimerState(30 * 60, false, Focus, 0, false, 30)

  /** The minutes the duration buttons offer. */
  const DurationChoices: set<int> := {30, 50, 60, 120}

  /** The full length in seconds of a mode: the chosen minutes, 5 or 30 minutes. */
  function ModeLength(mode: Mode, selectedDuration: int): int {
    match mode
      case Focus => selectedDuration * 60
      case ShortBreak => 5 * 60
      case LongBreak => 30 * 60
  }

  /**
   * The state every step keeps: time never negative, a positive focus
   * length, never more time left than the mode's full length, and a
   * ringing alarm only at zero with the countdown stopped.
   */
  predicate Valid(s: TimerState) {
    0 <= s.timeLeft <= ModeLength(s.mode, s.selectedDuration) && s.selectedDuration > 0 &&
    (s.isRinging ==> !s.isActive && s.timeLeft == 0)
  }

  lemma InitialValid()
    ensures Valid(Initial)
  {
  }

  /**
   * The effect that runs after every change: an active timer at zero
   * completes, stops and rings (`handleTimerComplete`).
   */
  function Completed(s: TimerState): (r: TimerState)
    ensures s.isActive && s.timeLeft == 0 ==> r == s.(isActive := false, isRinging := true)
    ensures !(s.isActive && s.timeLeft == 0) ==> r == s
  {
    if s.timeLeft == 0 && s.isActive then s.(isActive := false, isRinging := true) else s
  }

  /** One second of an active timer: one second less, then the completion check. */
  function Ticked(s: TimerState): (r: TimerState)
    ensures s.isActive && s.timeLeft > 1 ==> r == s.(timeLeft := s.timeLeft - 1)
    ensures s.isActive && s.timeLeft == 1 ==> r == s.(timeLeft := 0, isActive := false, isRinging := true)
    ensures !s.isActive ==> r == s
  {
    if s.isActive && s.timeLeft > 0 then Completed(s.(timeLeft := s.timeLeft - 1)) else Completed(s)
  }

  /**
   * `toggleTimer`: pause or resume. Resuming at zero completes at once
   * (the ring starts), so the timer only runs with time left.
   */
  function Toggle(s: TimerState): (r: TimerState)
    ensures r.isActive ==> !s.isActive && s.timeLeft != 0
    ensures s.isActive ==> r == s.(isActive := false)
    ensures !s.isActive && s.timeLeft != 0 ==> r == s.(isActive := true)
    ensures !s.isActive && s.timeLeft == 0 ==> r == s.(isRinging := true)
  {
    Completed(s.(isActive := !s.isActive))
  }

  /**
   * `stopAlarmAndProceed`: the ring stops. After focus the session is
   * counted and its minutes reported, then a long break every third
   * session and a short one otherwise; after a break, a fresh focus.
   */
  function Proceed(s: TimerState): (r: (TimerState, Option<int>))
    ensures !r.0.isRinging && r.0.isActive == s.isActive && r.0.selectedDuration == s.selectedDuration
    ensures r.0.timeLeft == ModeLength(r.0.mode, s.selectedDuration)
    ensures s.mode == Focus ==> r.1 == Some(s.selectedDuration) && r.0.sessionsCount == s.sessionsCount + 1
    ensures s.mode == Focus ==> (r.0.mode == LongBreak <==> r.0.sessionsCount % 3 == 0)
    ensures s.mode == Focus ==> r.0.mode != Focus
    ensures s.mode != Focus ==> r.1.None? && r.0.mode == Focus && r.0.sessionsCount == s.sessionsCount
  {
    var s1 := s.(isRinging := false);
    if s.mode == Focus then
      var newCount := s.sessionsCount + 1;
      if newCount % 3 == 0 then (s1.(sessionsCount := newCount, mode := LongBreak, timeLeft := 30 * 60), Some(s.selectedDuration))
      else (s1.(sessionsCount := newCount, mode := ShortBreak, timeLeft := 5 * 60), Some(s.selectedDuration))
    else (s1.(mode := Focus, timeLeft := s.selectedDuration * 60), None)
  }

  /** `resetTimer`: stopped, silent, and the full length of the current mode. */
  function Reset(s: TimerState): (r: TimerState)
    ensures !r.isActive && !r.isRinging && r.timeLeft == ModeLength(s.mode, s.selectedDuration)
    ensures r.(timeLeft := s.timeLeft, isActive := s.isActive, isRinging := s.isRinging) == s
  {
    var s1 := s.(isActive := false, isRinging := false);
    match s.mode
      case Focus => s1.(timeLeft := s.selectedDuration * 60)
      case ShortBreak => s1.(timeLeft := 5 * 60)
      case LongBreak => s1.(timeLeft := 30 * 60)
  }

  /** `setDuration(mins)`: the chosen length; the countdown follows only in paused focus. */
  function SetDuration(s: TimerState, mins: int): (r: TimerState)
    ensures r.selectedDuration == mins
    ensures s.mode == Focus && !s.isActive ==> r.timeLeft == mins * 60
    ensures !(s.mode == Focus && !s.isActive) ==> r.timeLeft == s.timeLeft
    ensures r.(selectedDuration := s.selectedDuration, timeLeft := s.timeLeft) == s
  {
    var s1 := s.(selectedDuration := mins);
    if s.mode == Focus && !s.isActive then s1.(timeLeft := mins * 60) else s1
  }

  /**
   * A duration button as written: `setDuration(mins)` decides on the mode
   * and the activity of the state before the click, then the mode becomes
   * focus and the timer pauses. Clicked during a break or a running focus,
   * the countdown keeps its old value.
   */
  function DurationPressedAsWritten(s: TimerState, mins: int): (r: TimerState)
    ensures r.mode == Focus && !r.isActive && r.selectedDuration == mins
    ensures s.mode == Focus && !s.isActive ==> r.timeLeft == mins * 60
    ensures !(s.mode == Focus && !s.isActive) ==> r.timeLeft == s.timeLeft
    ensures r.sessionsCount == s.sessionsCount && r.isRinging == s.isRinging
  {
    SetDuration(s, mins).(mode := Focus, isActive := false)
  }

  /** A duration button as intended: a paused focus countdown of the chosen length. */
  function DurationPressed(s: TimerState, mins: int): (r: TimerState)
    ensures r == s.(selectedDuration := mins, mode := Focus, isActive := false, timeLeft := mins * 60)
    ensures r.timeLeft == ModeLength(r.mode, r.selectedDuration)
  {
    SetDuration(s.(mode := Focus, isActive := false), mins)
  }

  /** The clock, the alarm button and reset keep the timer valid. */
  lemma StepsKeepValid(s: TimerState)
    requires Valid(s)
    ensures Valid(Ticked(s)) && Valid(Proceed(s).0) && Valid(Reset(s))
  {
  }

  /**
   * So do the controls under the alarm overlay (play/pause and, as
   * intended, the duration buttons), which can be pressed only while the
   * alarm is silent.
   */
  lemma ControlsKeepValid(s: TimerState, mins: int)
    requires Valid(s) && !s.isRinging && mins in DurationChoices
    ensures Valid(Toggle(s)) && Valid(DurationPressed(s, mins))
  {
  }

  /**
   * The button as written breaks the bound: with a running two-hour focus
   * at 7200 seconds, choosing 30 minutes leaves 7200 seconds for a
   * thirty-minute session.
   */
  lemma AsWrittenBreaksBound()
    ensures var s := TimerState(7200, true, Focus, 0, false, 120);
      Valid(s) && !Valid(DurationPressedAsWritten(s, 30))
  {
  }

  /** `n` seconds of the timer. */
  function Ticks(s: TimerState, n: nat): TimerState {
    if n == 0 then s else Ticked(Ticks(s, n - 1))
  }

  /**
   * A running countdown runs to zero in exactly its remaining seconds,
   * and then stops and rings.
   */
  lemma {:induction false} RunsDown(s: TimerState, n: nat)
    requires s.isActive && !s.isRinging && n <= s.timeLeft
    ensures n < s.timeLeft ==> Ticks(s, n) == s.(timeLeft := s.timeLeft - n)
    ensures n == s.timeLeft && n > 0 ==> Ticks(s, n) == s.(timeLeft := 0, isActive := false, isRinging := true)
  {
    if n > 0 {
      RunsDown(s, n - 1);
    }
  }

  /**
   * With the intended button, a focus session that is started and left to
   * ring lasts exactly the chosen minutes, and those are the minutes reported.
   */
  lemma FocusReportsItsLength(s: TimerState, mins: int)
    requires mins in DurationChoices && !s.isRinging
    ensures var started := Toggle(DurationPressed(s, mins));
      started.isActive &&
      Ticks(started, mins * 60).isRinging &&
      Proceed(Ticks(started, mins * 60)).1 == Some(mins)
  {
    var started := Toggle(DurationPressed(s, mins));
    RunsDown(started, mins * 60);
  }

  /**
   * With the button as written, a short break with five minutes left
   * turned into a 50-minute focus rings after those five minutes and
   * reports 50 minutes of study.
   */
  lemma ShortSessionReportedLong()
    ensures var s := TimerState(300, false, ShortBreak, 1, false, 30);
      var started := Toggle(DurationPressedAsWritten(s, 50));
      started.timeLeft == 300 &&
      Ticks(started, 300).isRinging &&
      Proceed(Ticks(started, 300)).1 == Some(50)
  {
    var s := TimerState(300, false, ShortBreak, 1, false, 30);
    var started := Toggle(DurationPressedAsWritten(s, 50));
    RunsDown(started, 300);
  }

  /** The third focus session of a run is followed by the long break, the others by short ones. */
  lemma {:induction false} EveryThirdBreakIsLong(s: TimerState)
    requires s.mode == Focus && s.sessionsCount % 3 == 2
    ensures Proceed(s).0.mode == LongBreak
    ensures Proceed(Proceed(s).0.(mode := Focus)).0.mode == ShortBreak
  {
    var n := s.sessionsCount;
    assert (n + 1) % 3 == 0;
    assert (n + 2) % 3 == 1;
  }

  /** `formatTime(seconds)`: `MM:SS`, minutes and seconds each padded to two digits. */
  function FormatTime(seconds: nat): (r: string)
    ensures seconds < 6000 ==> |r| == 5 && r[2] == ':'
  {
    var mins := seconds / 60;
    var secs := seconds % 60;
    ZeroPadTwoDigits(secs);
    ZeroPadTwoDigits(mins);
    PadStart2(NatToString(mins)) + ":" + PadStart2(NatToString(secs))
  }

  /** The display reads back as the time it shows: minutes, then seconds below 60. */
  lemma FormatTimeReadsBack(seconds: nat)
    ensures var parts := SplitOnce(FormatTime(seconds), ':');
      parts.1.Some? &&
      ParseInt(parts.0) == Some(seconds / 60) && ParseInt(parts.1.value) == Some(seconds % 60) &&
      seconds % 60 < 60 && (seconds / 60) * 60 + seconds % 60 == seconds
  {
    var m := ZeroPad(seconds / 60);
    assert ':' !in m by {
      assert forall i :: 0 <= i < |m| ==> IsDigit(m[i]);
    }
    SplitOnceAt(m, ':', ZeroPad(seconds % 60));
    ParseIntZeroPad(seconds / 60);
    ParseIntZeroPad(seconds % 60);
  }

  /** The study room's timer. */
  class PomodoroTimer {
    var timeLeft: int
    var isActive: bool
    var mode: Mode
    var sessionsCount: nat
    var isRinging: bool
    var selectedDuration: int

    function State(): TimerState
      reads this
    {
      TimerState(timeLeft, isActive, mode, sessionsCount, isRinging, selectedDuration)
    }

    constructor ()
      ensures State() == Initial && Valid(State())
    {
      timeLeft := 30 * 60;
      isActive := false;
      mode := Focus;
      sessionsCount := 0;
      isRinging := false;
      selectedDuration := 30;
    }

    /** The completion effect, after every change. */
    method Settle()
      modifies this
      ensures State() == Completed(old(State()))
    {
      if timeLeft == 0 && isActive {
        isActive := false;
        isRinging := true;
      }
    }

    method Tick()
      modifies this
      ensures State() == Ticked(old(State()))
    {
      if isActive && timeLeft > 0 {
        timeLeft := timeLeft - 1;
      }
      Settle();
    }

    method ToggleTimer()
      modifies this
      ensures State() == Toggle(old(State()))
    {
      isActive := !isActive;
      Settle();
    }

    /** Returns the minutes handed to `onSessionComplete`, None after a break. */
    method StopAlarmAndProceed() returns (reported: Option<int>)
      modifies this
      ensures (State(), reported) == Proceed(old(State()))
    {
      isRinging := false;
      if mode == Focus {
        reported := Some(selectedDuration);
        var newCount := sessionsCount + 1;
        sessionsCount := newCount;
        if newCount % 3 == 0 {
          mode := LongBreak;
          timeLeft := 30 * 60;
        } else {
          mode := ShortBreak;
          timeLeft := 5 * 60;
        }
      } else {
        reported := None;
        mode := Focus;
        timeLeft := selectedDuration * 60;
      }
    }

    method ResetTimer()
      modifies this
      ensures State() == Reset(old(State()))
    {
      isActive := false;
      isRinging := false;
      if mode == Focus {
        timeLeft := selectedDuration * 60;
      } else if mode == ShortBreak {
        timeLeft := 5 * 60;
      } else {
        timeLeft := 30 * 60;
      }
    }

    /**
     * A duration button as the page wires it: `setDuration` sees the mode
     * and activity from before the click, so the countdown restarts only
     * from a paused focus; then the mode becomes focus and the timer pauses.
     */
    method PressDuration(mins: int)
      modifies this
      ensures State() == DurationPressedAsWritten(old(State()), mins)
    {
      selectedDuration := mins;
      if mode == Focus && !isActive {
        timeLeft := mins * 60;
      }
      mode := Focus;
      isActive := false;
    }
  }
}
