/**
 * The prayer and remembrance screen (ScheduleManager.tsx): the 12-hour
 * display of a prayer time, the once-a-second clock that picks the next
 * prayer, shows its countdown and rings the alarm once per prayer, the
 * remembrance counters that stop at their target, the rotating tasbeeh
 * word, and the prayer list restored from today's cache.
 */
module Schedule {
  import opened Wrappers
  import opened Domain
  import opened Text
  import Arith

  /** A prayer time; `at` is the instant (ms) it falls on, when known. */
  datatype Prayer = Prayer(name: string, time: string, displayTime: string, at: Option<int>, key: string)

  /** JavaScript's `%`, whose remainder takes the sign of the dividend. */
  function JsRem(v: int, d: nat): (r: int)
    requires d > 0
    ensures v >= 0 ==> r == v % d
    ensures v < 0 ==> r == -((-v) % d)
  {
    if v >= 0 then v % d else -((-v) % d)
  }

  /**
   * `h = h % 12; h = h ? h : 12` on the parsed hour; `NaN` (None) is
   * falsy, so it shows as 12 as well.
   */
  function Hour12(h: Option<int>): (r: int)
    ensures h.None? ==> r == 12
    ensures h.Some? && h.value >= 0 ==> 1 <= r <= 12 && r % 12 == h.value % 12
    ensures h.Some? && 0 <= h.value <= 23 ==> r == (if h.value == 0 || h.value == 12 then 12
                                                     else if h.value > 12 then h.value - 12 else h.value)
  {
    match h
      case None => 12
      case Some(v) => var r := JsRem(v, 12); if r == 0 then 12 else r
  }

  /** The minutes as the screen writes them: `m < 10 ? '0' + m : m`, with `NaN` for an unreadable number. */
  function MinuteText(m: Option<int>): (r: string)
    ensures m.Some? && m.value >= 0 ==> r == ZeroPad(m.value)
    ensures m.None? ==> r == "NaN"
  {
    match m
      case None => "NaN"
      case Some(v) => if v < 10 then "0" + IntText(v) else IntText(v)
  }

  /**
   * `formatTime12h(time24)`, given the localized am/pm labels: the text
   * before the first ':' is the hour and the text after it the minutes
   * (`parseInt` stops at a further ':', so only the first split matters).
   */
  function FormatTime12h(time24: string, am: string, pm: string): (r: string)
    ensures var h := ParseInt(SplitOnce(time24, ':').0);
      var suffix := if h.Some? && h.value >= 12 then pm else am;
      |r| > |suffix| && r[|r| - |suffix|..] == suffix && r[|r| - |suffix| - 1] == ' '
    ensures ParseInt(SplitOnce(time24, ':').0).None? ==> |r| >= 3 && r[..3] == "12:"
    ensures var h := ParseInt(SplitOnce(time24, ':').0);
      h.Some? && h.value < 0 && h.value % 12 != 0 ==> r[0] == '-'
  {
    var parts := SplitOnce(time24, ':');
    var m := match parts.1 case None => None case Some(t) => ParseInt(t);
    Time12h(ParseInt(parts.0), m, am, pm)
  }

  /**
   * The text `formatTime12h` builds from the parsed hour and minutes: it
   * ends in a space and the am or pm label, a `NaN` hour shows as 12, and
   * a negative hour off the twelve-hour grid keeps its minus sign.
   */
  function Time12h(h: Option<int>, m: Option<int>, am: string, pm: string): (r: string)
    ensures var suffix := if h.Some? && h.value >= 12 then pm else am;
      |r| > |suffix| && r[|r| - |suffix|..] == suffix && r[|r| - |suffix| - 1] == ' '
    ensures h.None? ==> |r| >= 3 && r[..3] == "12:"
    ensures h.Some? && h.value < 0 && h.value % 12 != 0 ==> r[0] == '-'
  {
    var suffix := if h.Some? && h.value >= 12 then pm else am;
    var hour := IntText(Hour12(h));
    var r := hour + ":" + MinuteText(m) + " " + suffix;
    assert r[|r| - |suffix|..] == suffix;
    assert h.None? ==> hour == "12" && r[..3] == "12:";
    assert h.Some? && h.value < 0 && h.value % 12 != 0 ==> Hour12(h) < 0 && r[0] == hour[0];
    r
  }

  /**
   * For a zero-padded "HH:MM" time of day: hour 0 shows as 12 am, 12 as
   * 12 pm, 13 to 23 as 1 to 11 pm, and the minutes keep two digits.
   */
  lemma FormatClockTime(h: nat, m: nat, am: string, pm: string)
    requires h < 24 && m < 60
    ensures FormatTime12h(ZeroPad(h) + ":" + ZeroPad(m), am, pm) ==
      NatToString(if h == 0 || h == 12 then 12 else if h > 12 then h - 12 else h) + ":" + ZeroPad(m) + " " +
      (if h >= 12 then pm else am)
  {
    var hText := ZeroPad(h);
    assert ':' !in hText by {
      assert forall i :: 0 <= i < |hText| ==> IsDigit(hText[i]);
    }
    SplitOnceAt(hText, ':', ZeroPad(m));
    ParseIntZeroPad(h);
    ParseIntZeroPad(m);
  }

  /** A prayer still ahead of the instant `now`. */
  predicate Upcoming(p: Prayer, now: int) {
    p.at.Some? && p.at.value > now
  }

  /** Every prayer of the list is behind `now` (or has no instant). */
  predicate AllPassed(prayers: seq<Prayer>, now: int) {
    forall i :: 0 <= i < |prayers| ==> !Upcoming(prayers[i], now)
  }

  /** The loop of the clock: the first prayer still ahead, -1 when every one has passed. */
  method NextPrayerIndex(prayers: seq<Prayer>, now: int) returns (idx: int)
    ensures -1 <= idx < |prayers|
    ensures idx == -1 <==> AllPassed(prayers, now)
    ensures idx >= 0 ==> Upcoming(prayers[idx], now) && forall k :: 0 <= k < idx ==> !Upcoming(prayers[k], now)
  {
    idx := -1;
    var i := 0;
    while i < |prayers|
      invariant 0 <= i <= |prayers|
      invariant forall k :: 0 <= k < i ==> !Upcoming(prayers[k], now)
    {
      if prayers[i].at.Some? && prayers[i].at.value > now {
        idx := i;
        return;
      }
      i := i + 1;
    }
  }

  /** The countdown to a prayer. */
  datatype Countdown = Countdown(hours: nat, minutes: nat, seconds: nat)

  /**
   * `Math.floor(diff / 3600000)`, `Math.floor((diff % 3600000) / 60000)`,
   * `Math.floor((diff % 60000) / 1000)`: whole hours, minutes and seconds
   * of the remaining time, minutes and seconds below 60.
   */
  function SplitCountdown(diff: nat): (r: Countdown)
    ensures r.minutes < 60 && r.seconds < 60
    ensures Millis(r) <= diff < Millis(r) + 1000
  {
    var hours := diff / 3600000;
    var minutes := (diff % 3600000) / 60000;
    var seconds := (diff % 60000) / 1000;
    CountdownParts(diff);
    Countdown(hours, minutes, seconds)
  }

  function Millis(c: Countdown): int {
    c.hours * 3600000 + c.minutes * 60000 + c.seconds * 1000
  }

  lemma CountdownParts(diff: nat)
    ensures var c := Countdown(diff / 3600000, (diff % 3600000) / 60000, (diff % 60000) / 1000);
      c.minutes < 60 && c.seconds < 60 && Millis(c) <= diff < Millis(c) + 1000
  {
    var h := diff / 3600000;
    var a := diff % 3600000;
    var m := a / 60000;
    var b := a % 60000;
    assert diff == h * 3600000 + a;
    assert a == m * 60000 + b;
    Arith.ModUnique(diff, 60000, h * 60 + m, b);
    var s := b / 1000;
    assert b == s * 1000 + b % 1000;
  }

  /**
   * The countdown text `h:mm:ss`: the hours as they are, then minutes and
   * seconds with a leading zero below 10 (the `x < 10 ? '0' + x : x` idiom).
   */
  function CountdownText(diff: nat): (r: string)
    ensures var c := SplitCountdown(diff);
      r == NatToString(c.hours) + ":" + ZeroPad(c.minutes) + ":" + ZeroPad(c.seconds)
    ensures var c := SplitCountdown(diff);
      |r| == |NatToString(c.hours)| + 6 && r[|NatToString(c.hours)|] == ':' && r[|r| - 3] == ':'
  {
    var c := SplitCountdown(diff);
    ZeroPadTwoDigits(c.minutes);
    ZeroPadTwoDigits(c.seconds);
    NatToString(c.hours) + ":" + MinuteText(Some(c.minutes)) + ":" + MinuteText(Some(c.seconds))
  }

  /**
   * Reading the countdown text back, field by field between the colons,
   * gives its hours, minutes and seconds, which are the remaining time to
   * the second.
   */
  lemma CountdownReadsBack(diff: nat)
    ensures var c := SplitCountdown(diff);
      var first := SplitOnce(CountdownText(diff), ':');
      first.1.Some? &&
      var second := SplitOnce(first.1.value, ':');
      second.1.Some? &&
      ParseInt(first.0) == Some(c.hours) &&
      ParseInt(second.0) == Some(c.minutes) && ParseInt(second.1.value) == Some(c.seconds) &&
      (c.hours * 3600 + c.minutes * 60 + c.seconds) * 1000 <= diff < (c.hours * 3600 + c.minutes * 60 + c.seconds + 1) * 1000
  {
    var c := SplitCountdown(diff);
    var h := NatToString(c.hours);
    var m := ZeroPad(c.minutes);
    NoColonInDigits(h);
    NoColonInDigits(m);
    SplitAtColons(h, m, ZeroPad(c.seconds));
    ParseIntNatToString(c.hours);
    ParseIntZeroPad(c.minutes);
    ParseIntZeroPad(c.seconds);
  }

  /** Splitting `h:m:s` at its first colon, then the rest at its first colon, gives the three fields. */
  lemma SplitAtColons(h: string, m: string, sec: string)
    requires ':' !in h && ':' !in m
    ensures SplitOnce(h + ":" + m + ":" + sec, ':') == (h, Some(m + ":" + sec))
    ensures SplitOnce(m + ":" + sec, ':') == (m, Some(sec))
  {
    assert h + ":" + m + ":" + sec == h + [':'] + (m + ":" + sec);
    SplitOnceAt(h, ':', m + ":" + sec);
    assert m + ":" + sec == m + [':'] + sec;
    SplitOnceAt(m, ':', sec);
  }

  /** A run of digits holds no colon. */
  lemma NoColonInDigits(s: string)
    requires forall i :: 0 <= i < |s| ==> IsDigit(s[i])
    ensures ':' !in s
  {
  }

  /** The alarm condition: at most five minutes left, notifications on, not yet rung for this prayer. */
  predicate AlarmDue(diff: int, notificationsEnabled: bool, alarmPlayedFor: string, key: string) {
    0 < diff <= 300000 && notificationsEnabled && alarmPlayedFor != key
  }

  /**
   * The alarm is only due while the countdown shows no hours and at most
   * five minutes, that is `0:04:59` or less or exactly `0:05:00`.
   */
  lemma AlarmDueWithinFiveMinutes(diff: int, notificationsEnabled: bool, alarmPlayedFor: string, key: string)
    ensures AlarmDue(diff, notificationsEnabled, alarmPlayedFor, key) ==>
      var c := SplitCountdown(diff);
      c.hours == 0 && (c.minutes < 5 || (c.minutes == 5 && c.seconds == 0))
  {
  }

  /** Milliseconds from `now` to a prayer still ahead. */
  function Remaining(p: Prayer, now: int): nat
    requires Upcoming(p, now)
  {
    p.at.value - now
  }

  /** The label shown when every prayer of the day has passed. */
  const Tomorrow: string := "غداً"

  /** The countdown card: the day's prayers, the clock's display, and the alarm latch. */
  class PrayerClock {
    var prayers: seq<Prayer>
    var nextIndex: int
    var timeRemaining: string
    var notificationsEnabled: bool
    var alarmPlayedFor: string

    constructor (prayers: seq<Prayer>, notificationsEnabled: bool)
      ensures this.prayers == prayers && this.notificationsEnabled == notificationsEnabled
      ensures nextIndex == -1 && timeRemaining == "" && alarmPlayedFor == ""
    {
      this.prayers := prayers;
      this.notificationsEnabled := notificationsEnabled;
      nextIndex := -1;
      timeRemaining := "";
      alarmPlayedFor := "";
    }

    /** `toggleNotifications`: the switch flips. */
    method ToggleNotifications()
      modifies this`notificationsEnabled
      ensures notificationsEnabled == !old(notificationsEnabled)
    {
      notificationsEnabled := !notificationsEnabled;
    }

    /**
     * One second of the clock at instant `now`; `alarmLoaded` says whether
     * the alarm sound is available. Without prayers the clock does not
     * run. With every prayer passed it shows the first prayer and
     * "tomorrow". Otherwise it shows the next prayer's countdown and rings
     * when the alarm is due, latching the prayer's key so that it cannot
     * ring again for it.
     */
    method Tick(now: int, alarmLoaded: bool) returns (rang: bool)
      modifies this`nextIndex, this`timeRemaining, this`alarmPlayedFor
      ensures old(prayers) == [] ==>
        !rang && nextIndex == old(nextIndex) && timeRemaining == old(timeRemaining) && alarmPlayedFor == old(alarmPlayedFor)
      ensures prayers != [] && AllPassed(prayers, now) ==>
        !rang && nextIndex == 0 && timeRemaining == Tomorrow && alarmPlayedFor == old(alarmPlayedFor)
      ensures prayers != [] && !AllPassed(prayers, now) ==>
        0 <= nextIndex < |prayers| && Upcoming(prayers[nextIndex], now) &&
        forall k :: 0 <= k < nextIndex ==> !Upcoming(prayers[k], now)
      ensures prayers != [] && !AllPassed(prayers, now) ==>
        timeRemaining == CountdownText(Remaining(prayers[nextIndex], now))
      ensures prayers != [] && !AllPassed(prayers, now) ==>
        (rang <==> alarmLoaded &&
                   AlarmDue(prayers[nextIndex].at.value - now, notificationsEnabled, old(alarmPlayedFor), prayers[nextIndex].key))
      ensures prayers != [] && !AllPassed(prayers, now) ==>
        alarmPlayedFor == (if rang then prayers[nextIndex].key else old(alarmPlayedFor))
      ensures rang ==> !AlarmDue(prayers[nextIndex].at.value - now, notificationsEnabled, alarmPlayedFor, prayers[nextIndex].key)
    {
      rang := false;
      var ps := prayers;
      if ps == [] {
        return;
      }
      var idx := NextPrayerIndex(ps, now);
      if idx == -1 {
        nextIndex := 0;
        timeRemaining := Tomorrow;
        return;
      }
      var p := ps[idx];
      var diff := Remaining(p, now);
      var text := CountdownText(diff);
      if AlarmDue(diff, notificationsEnabled, alarmPlayedFor, p.key) && alarmLoaded {
        rang := true;
        alarmPlayedFor := p.key;
      }
      nextIndex := idx;
      timeRemaining := text;
    }

  }

  /** `prev[key] || 0`. */
  function Count(counts: map<string, int>, key: string): int {
    if key in counts then OrElse(Some(counts[key]), 0) else 0
  }

  /**
   * `handleDhikrClick(key, target)`: one more on the counter while it is
   * below its target; at the target the click changes nothing. Every
   * other counter is untouched.
   */
  function DhikrClick(counts: map<string, int>, key: string, target: int): (r: map<string, int>)
    ensures forall k :: k != key ==> (k in r <==> k in counts) && (k in r ==> r[k] == counts[k])
    ensures Count(counts, key) < target ==> Count(r, key) == Count(counts, key) + 1
    ensures Count(counts, key) >= target ==> r == counts
    ensures Count(counts, key) <= target ==> Count(r, key) <= target
  {
    var current := Count(counts, key);
    if current < target then counts[key := current + 1] else counts
  }

  /** `n` clicks on the same counter. */
  function Clicks(counts: map<string, int>, key: string, target: int, n: nat): map<string, int> {
    if n == 0 then counts else DhikrClick(Clicks(counts, key, target, n - 1), key, target)
  }

  /**
   * However often it is clicked, a counter that starts at or below its
   * target counts up to the target and stops there.
   */
  lemma {:induction false} ClicksStopAtTarget(counts: map<string, int>, key: string, target: int, n: nat)
    requires Count(counts, key) <= target
    ensures Count(Clicks(counts, key, target, n), key) ==
      if Count(counts, key) + n < target then Count(counts, key) + n else target
  {
    if n > 0 {
      ClicksStopAtTarget(counts, key, target, n - 1);
    }
  }

  /** The remembrance counters of the screen. */
  class DhikrCounters {
    var counts: map<string, int>

    constructor ()
      ensures counts == map[]
    {
      counts := map[];
    }

    method Click(key: string, target: int)
      modifies this
      ensures counts == DhikrClick(old(counts), key, target)
    {
      var current := if key in counts && counts[key] != 0 then counts[key] else 0;
      if current < target {
        counts := counts[key := current + 1];
      }
    }
  }

  const TasbeehWords: seq<string> := ["سُبْحَانَ اللَّهِ", "الْحَمْدُ لِلَّهِ", "لَا إِلَهَ إِلَّا اللَّهُ", "اللَّهُ أَكْبَرُ",
                                      "لَا حَوْلَ وَلَا قُوَّةَ إِلَّا بِاللَّهِ"]

  /** The tasbeeh word after `i`, every four seconds or on a tap: `(i + 1) % 5`. */
  function NextTasbeeh(i: nat): (r: nat)
    ensures r < |TasbeehWords|
    ensures i < |TasbeehWords| - 1 ==> r == i + 1
    ensures i == |TasbeehWords| - 1 ==> r == 0
  {
    (i + 1) % |TasbeehWords|
  }

  function TasbeehAfter(i: nat, n: nat): nat {
    if n == 0 then i else NextTasbeeh(TasbeehAfter(i, n - 1))
  }

  /** After `n` steps from word `i` the screen shows word `(i + n) % 5`: every word comes round in turn. */
  lemma {:induction false} TasbeehRotation(i: nat, n: nat)
    requires i < |TasbeehWords|
    ensures TasbeehAfter(i, n) == (i + n) % |TasbeehWords|
  {
    if n > 0 {
      TasbeehRotation(i, n - 1);
      Arith.ModSucc(i + n - 1, |TasbeehWords|);
    }
  }

  /**
   * The prayer list on opening: the cached list, when there is one and
   * it was cached today, read with `decode` (a failing read leaves the
   * list empty); otherwise empty until the times are fetched.
   */
  function CachedPrayers(cached: Option<string>, cachedDate: Option<string>, today: string,
                         decode: string -> Option<seq<Prayer>>): (r: seq<Prayer>)
    ensures cachedDate != Some(today) || !Truthy(cached) ==> r == []
    ensures cachedDate == Some(today) && Truthy(cached) && decode(cached.value).Some? ==> r == decode(cached.value).value
    ensures cachedDate == Some(today) && Truthy(cached) && decode(cached.value).None? ==> r == []
  {
    if Truthy(cached) && cachedDate == Some(today) then
      match decode(cached.value)
        case Some(list) => list
        case None => []
    else []
  }
}
