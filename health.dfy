/**
 * The health tracker (HealthTracker.tsx): the water counter, the sleep
 * buttons and the water message. Every handler hands a copy of the day's
 * `HealthLog` with one field changed to `updateStats`.
 */
module Health {
  import opened Domain

  /** The most cups `addWater` counts. */
  const WaterCap: int := 10

  /** The most hours the sleep "+" button reaches. */
  const SleepMax: int := 12

  /** `addWater`: one more cup below the cap, otherwise the log as it was. */
  function AddWater(log: HealthLog): (r: HealthLog)
    ensures r.date == log.date && r.sleepHours == log.sleepHours && r.mood == log.mood
    ensures log.waterCups < WaterCap ==> r.waterCups == log.waterCups + 1
    ensures log.waterCups >= WaterCap ==> r == log
  {
    if log.waterCups < WaterCap then log.(waterCups := log.waterCups + 1) else log
  }

  /** `n` presses of the water button. */
  function AddWaterTimes(log: HealthLog, n: nat): HealthLog {
    if n == 0 then log else AddWater(AddWaterTimes(log, n - 1))
  }

  /**
   * From a count within the cap, `n` presses give `min(10, cups + n)`:
   * the count climbs one per press and never passes the cap, and the
   * other fields stay as they were.
   */
  lemma {:induction false} AddWaterSaturates(log: HealthLog, n: nat)
    requires log.waterCups <= WaterCap
    ensures var r := AddWaterTimes(log, n);
      r.waterCups == (if log.waterCups + n < WaterCap then log.waterCups + n else WaterCap) &&
      r.date == log.date && r.sleepHours == log.sleepHours && r.mood == log.mood
  {
    if n > 0 {
      AddWaterSaturates(log, n - 1);
    }
  }

  /** `setSleep(hours)`: only the sleep hours change. */
  function SetSleep(log: HealthLog, hours: int): (r: HealthLog)
    ensures r.sleepHours == hours
    ensures r.date == log.date && r.waterCups == log.waterCups && r.mood == log.mood
  {
    log.(sleepHours := hours)
  }

  /** The "-" button: `setSleep(Math.max(0, sleepHours - 1))`, the larger of 0 and one hour less. */
  function SleepDown(log: HealthLog): (r: HealthLog)
    ensures r.date == log.date && r.waterCups == log.waterCups && r.mood == log.mood
    ensures r.sleepHours >= 0 && r.sleepHours >= log.sleepHours - 1
    ensures r.sleepHours == 0 || r.sleepHours == log.sleepHours - 1
  {
    SetSleep(log, if log.sleepHours - 1 > 0 then log.sleepHours - 1 else 0)
  }

  /** The "+" button: `setSleep(Math.min(12, sleepHours + 1))`, the smaller of 12 and one hour more. */
  function SleepUp(log: HealthLog): (r: HealthLog)
    ensures r.date == log.date && r.waterCups == log.waterCups && r.mood == log.mood
    ensures r.sleepHours <= SleepMax && r.sleepHours <= log.sleepHours + 1
    ensures r.sleepHours == SleepMax || r.sleepHours == log.sleepHours + 1
  {
    SetSleep(log, if log.sleepHours + 1 < SleepMax then log.sleepHours + 1 else SleepMax)
  }

  /**
   * The buttons keep the hours in 0..12: from inside the range both stay
   * inside, "-" stops at 0 and "+" stops at 12, and each moves by at most
   * one hour.
   */
  lemma SleepButtonsKeepRange(log: HealthLog)
    requires 0 <= log.sleepHours <= SleepMax
    ensures 0 <= SleepDown(log).sleepHours <= SleepMax && 0 <= SleepUp(log).sleepHours <= SleepMax
    ensures log.sleepHours == 0 <==> SleepDown(log) == log
    ensures log.sleepHours == SleepMax <==> SleepUp(log) == log
    ensures SleepDown(log).sleepHours <= log.sleepHours <= SleepUp(log).sleepHours <= log.sleepHours + 1
  {
  }

  /** Inside the range the two buttons undo each other. */
  lemma SleepButtonsUndo(log: HealthLog)
    ensures 0 <= log.sleepHours < SleepMax ==> SleepDown(SleepUp(log)) == log
    ensures 0 < log.sleepHours <= SleepMax ==> SleepUp(SleepDown(log)) == log
  {
  }

  const WellHydrated: string := "ممتاز! جسمك رطب وجاهز للتركيز 💧"
  const HalfWay: string := "عاش.. كمل للنص التاني 🥤"
  const DrinkMore: string := "لازم تشرب ميه عشان صداع المذاكرة يروح! 🤕"

  /** `getWaterMessage`: 8 cups or more, 4 to 7, fewer than 4. */
  function WaterMessage(cups: int): (r: string)
    ensures r == WellHydrated <==> cups >= 8
    ensures r == HalfWay <==> 4 <= cups < 8
    ensures r == DrinkMore <==> cups < 4
  {
    if cups >= 8 then WellHydrated
    else if cups >= 4 then HalfWay
    else DrinkMore
  }

  /** Eight presses from any count within the cap earn the best message. */
  lemma EightCupsHydrate(log: HealthLog)
    requires 0 <= log.waterCups <= WaterCap
    ensures WaterMessage(AddWaterTimes(log, 8).waterCups) == WellHydrated
  {
    AddWaterSaturates(log, 8);
  }
}
