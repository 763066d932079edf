# Study planner: a verified model of its rules

The study planner is a single-page React application for a secondary-school
student. It keeps tasks, courses, a daily schedule, study resources, health
stats and AI chat sessions in browser storage. Around those collections it has
a number of small screens. Each screen applies a few rules:

- the task list with its counts and tabs;
- the grade predictor;
- a curriculum map of units and lessons with a five-step lesson status;
- the backlog manager, with its track-dependent subject list;
- the prayer schedule with its countdown, alarm latch and dhikr counters;
- a Pomodoro timer;
- the AI assistant;
- the health tracker;
- the resources page;
- the dashboard.

This project models those rules in Dafny and proves what they promise.

The model follows the program's files, one module each:

- `Store` (App.tsx): the collection handlers and the chat-history upsert with its in-place sort.
- `Curriculum` (CurriculumMapper.tsx)
- `TaskManager` (TaskManager.tsx)
- `Predictor` (Predictor.tsx)
- `Backlog` (BacklogManager.tsx)
- `Schedule` (ScheduleManager.tsx)
- `Timer` (Timer.tsx)
- `Gemini` (services/geminiService.ts)
- `Assistant` (AIAssistant.tsx)
- `Health` (HealthTracker.tsx)
- `Resources` (ResourceManager.tsx)
- `CourseManager` (CourseManager.tsx)
- `Dashboard` (Dashboard.tsx)

The records of types.ts are datatypes in `Domain`. Four modules hold helpers:

- `Wrappers`: the `Option` type.
- `Seqs`: find, filter and map.
- `Text`: JavaScript's `trim`, `parseInt`, `toString`, `padStart` and `split` on strings.
- `Arith`: division facts.

The code reads optional fields with JavaScript `||`. `Domain.OrElse` and
`Domain.OrText` model that operator, so a stored `0` or `""` falls through to
the default exactly as an absent value does.

Time is integer milliseconds. `Date.now()`, the model's reply, `JSON.parse` and
date parsing enter as parameters.

Code that changes held state step by step is modelled as a class, and each
method's `ensures` ties the new state to a pure function of the old one:

- the App store;
- the backlog track navigator;
- the prayer clock;
- the dhikr counters;
- the Pomodoro timer;
- the chat panel;
- the resources panel.

The properties are then proved about those functions.

## Model

| member | source | states |
|---|---|---|
| Domain.OrElse | components/Predictor.tsx:19 | `x \|\| d` on a number: the value when present and non-zero, else the default |
| Domain.OrText | services/geminiService.ts:161 | `s \|\| d` on a string: the value when present and non-empty, else the default |
| Text.Trim | components/CurriculumMapper.tsx:51 | `trim()`: the result holds only the input's characters, is no longer than it and has no white space at either end |
| Text.TrimIsSlice | components/CurriculumMapper.tsx:51 | the trimmed text is the contiguous piece of the input that starts right after its leading white space |
| Text.TrimCutsOnlySpace | components/CurriculumMapper.tsx:51 | everything `trim()` cuts off, before or after the result, is white space |
| Text.IntText | components/ScheduleManager.tsx:137 | `String(n)`: decimal digits, with a leading minus for negatives |
| Text.ParseInt | components/ScheduleManager.tsx:131-132 | `parseInt` in base 10: a number is read exactly when, after leading white space, a digit comes first, possibly after one sign; a negative result needs a leading minus |
| Text.ParseIntZeroPad | components/ScheduleManager.tsx:130-132 | `parseInt` reads a zero-padded number back as that number |
| Text.TrimIdempotent | components/CurriculumMapper.tsx:51 | trimming a trimmed string changes nothing |
| Text.BlankIffAllSpace | components/CurriculumMapper.tsx:51 | `!s.trim()` holds exactly when every character is white space |
| Text.ParseIntNatToString | components/CourseManager.tsx:28 | `parseInt(String(n))` gives back `n`, so an id made from the time reads back as that time |
| Text.ToLower | components/TaskManager.tsx:39 | same length, each character lowered |
| Text.RemoveChars | services/geminiService.ts:163 | removing the markdown characters: what remains are exactly the input's characters outside the set |
| Text.RemoveCharsConcat | services/geminiService.ts:163 | removing characters from a joined text is joining the two cleaned parts, so the input's order is kept |
| Text.RemoveCharsSingle | services/geminiService.ts:163 | a single character is dropped exactly when it is in the set, otherwise kept |
| Text.SplitOnce | services/geminiService.ts:139 | the part before the first separator holds none, and the parts rebuild the input |
| Store.LoadPersisted | App.tsx:72-80 | the decoded stored value when one is stored and decodes, the initial value when nothing is stored, it is empty or decoding throws |
| Store.SaveThenLoad | App.tsx:72-87 | what the save effect writes under a key is what the next load returns |
| Store.AppStore.Load | App.tsx:97-102 | each collection loads from its own storage key with its own seed as fallback |
| Store.AppStore.AddTask | App.tsx:105-107 | the new task is first and the old tasks follow in order |
| Store.ToggleById | App.tsx:109-116 | same length; only tasks with the id have `isCompleted` flipped, every other field and task unchanged |
| Store.ToggleTwice | App.tsx:109-116 | toggling the same id twice restores the list |
| Store.ToggleAbsent | App.tsx:109-116 | toggling an id no task has changes nothing |
| Store.AppStore.ToggleTask | App.tsx:109-116 | the task list becomes the toggled list |
| Store.WithoutId | App.tsx:118-120 | deletion keeps exactly the elements whose id differs |
| Store.WithoutIdConcat | App.tsx:130-132 | deletion works piecewise on a concatenation, so survivors keep their order |
| Store.WithoutAbsentId | App.tsx:138-140 | deleting an id no element has leaves the collection unchanged |
| Store.AppStore.DeleteTask | App.tsx:118-120 | tasks become the list without that id |
| Store.AppStore.AddCourse | App.tsx:122-124 | the course is appended; earlier courses unchanged |
| Store.ReplaceById | App.tsx:126-128 | same length; elements with the id are replaced, all others unchanged |
| Store.ReplaceAbsent | App.tsx:126-128 | updating with an absent id is a no-op |
| Store.ReplaceIdempotent | App.tsx:126-128 | updating twice with the same course equals updating once |
| Store.AppStore.UpdateCourse | App.tsx:126-128 | courses become the replaced list |
| Store.AppStore.DeleteCourse | App.tsx:130-132 | courses become the list without that id |
| Store.AppStore.AddScheduleBlock | App.tsx:134-136 | the block is appended; earlier blocks unchanged |
| Store.AppStore.DeleteScheduleBlock | App.tsx:138-140 | schedule becomes the list without that id |
| Store.AppStore.AddResource | App.tsx:142-144 | the resource is appended; earlier resources unchanged |
| Store.Upsert | App.tsx:149-155 | the session is in the result; an existing id is replaced in place with length unchanged; a new id goes in front |
| Store.InsertByRecency | App.tsx:157 | one insertion step adds exactly the element (multiset) and grows the length by one |
| Store.SortByRecency | App.tsx:157 | the stable sort result is a permutation of its input |
| Store.InsertKeepsOrder | App.tsx:157 | inserting into a newest-first list keeps it newest first |
| Store.SortIsNewestFirst | App.tsx:157 | the sorted history is ordered by `lastModified`, newest first |
| Store.InsertLast | App.tsx:157 | the in-place inner loop leaves the prefix equal to one insertion step and the rest untouched |
| Store.SortInPlace | App.tsx:157 | the in-place sort leaves the array equal to the stable sort of its old contents |
| Store.SaveChatSessionSpec | App.tsx:147-159 | the result is newest first, a permutation of the upserted list, holds the session, and grows by one exactly when the id was new |
| Store.AppStore.SaveChatSession | App.tsx:147-159 | the history becomes the sorted upsert, newest first and holding the session |
| Curriculum.StatusIndex | components/CurriculumMapper.tsx:136 | every status occurs in the five-status list at its index |
| Curriculum.NextStatus | components/CurriculumMapper.tsx:136-146 | the next status is the one at index + 1 modulo 5 |
| Curriculum.FiveStepsReturn | components/CurriculumMapper.tsx:136-146 | five clicks return any status to itself |
| Curriculum.NoShorterCycle | components/CurriculumMapper.tsx:136-146 | one to four clicks never do |
| Curriculum.CycleInLessons | components/CurriculumMapper.tsx:141-148 | same length; only lessons with the id move one status on, titles and ids kept |
| Curriculum.CycleInUnits | components/CurriculumMapper.tsx:140-152 | same length; only units with the id have their lessons cycled, other units unchanged |
| Curriculum.FindCourse | components/CurriculumMapper.tsx:137 | none exactly when no course has the id; otherwise the first course with the id, as `find` returns it |
| Curriculum.CycleStatus | components/CurriculumMapper.tsx:135-154 | none (no update) when the course id is absent; otherwise the first course with the id, with only its units' lessons cycled |
| Curriculum.CycleLessonsFiveTimes | components/CurriculumMapper.tsx:135-154 | five clicks on a lesson restore the unit's lessons |
| Curriculum.CycleLessonsPointwise | components/CurriculumMapper.tsx:141-148 | after n clicks each lesson with the id has moved n statuses on and the others are unchanged |
| Curriculum.AppendLesson | components/CurriculumMapper.tsx:113-124 | same units; the lesson is appended only to units with the id, others unchanged |
| Curriculum.SaveLesson | components/CurriculumMapper.tsx:109-133 | a blank title or missing course or unit id does nothing; otherwise the first course with the id gains a pending lesson with the title, and the modal and title reset |
| Curriculum.AppendLessonCount | components/CurriculumMapper.tsx:113-124 | the lesson count grows by the number of units carrying the id |
| Curriculum.AddItemToStructure | components/CurriculumMapper.tsx:50-58 | blank input changes nothing; otherwise the trimmed input is appended and the input cleared |
| Curriculum.AddedItemIsTrimmed | components/CurriculumMapper.tsx:50-58 | an added unit name is non-empty with no white space at either end |
| Curriculum.WithoutIndex | components/CurriculumMapper.tsx:63 | removes exactly the item at the index, the others in order; an out-of-range index removes nothing |
| Curriculum.RemoveItemFromStructure | components/CurriculumMapper.tsx:60-65 | only the structure list changes, by that removal |
| Curriculum.UnitsFromItems | components/CurriculumMapper.tsx:70-74 | one unit per item, same order, no lessons, id the time's text with the index's digits appended |
| Curriculum.UnitIdsDistinct | components/CurriculumMapper.tsx:70-74 | the built unit ids are pairwise distinct |
| Curriculum.SaveCourse | components/CurriculumMapper.tsx:67-100 | a blank name does nothing; otherwise a course with credits 3, grade 0, medium difficulty and exactly the units built from the listed names (so with their distinct ids) is added, and the form resets and closes |
| TaskManager.CountsAddUp | components/TaskManager.tsx:24-25 | pending plus completed equals the number of tasks |
| TaskManager.CompletionRate | components/TaskManager.tsx:26 | `round(100 * completed / total)` stated as its bracketing inequality; 0 for no tasks; always in 0..100 |
| TaskManager.CompletionRateExtremes | components/TaskManager.tsx:26 | all done gives 100, none done gives 0, and 100 with a task pending needs at least 200 tasks |
| TaskManager.FilteredTasks | components/TaskManager.tsx:63-67 | each tab lists exactly its tasks, as many as its count |
| TaskManager.FilteredTasksConcat | components/TaskManager.tsx:63-67 | each tab keeps the list order |
| TaskManager.HandleSmartAdd | components/TaskManager.tsx:28-60 | blank input adds nothing; a parse result gives its title, priority and due date (default now) with the first case-insensitively matching course; no result gives the raw input, medium, no course; never completed; input cleared |
| TaskManager.NoCourseNameNoLink | components/TaskManager.tsx:38 | a result without a course name never links a course |
| Predictor.Score | components/Predictor.tsx:19 | current grade or 0; in target mode target, else current, else 0, with 0 falling through |
| Predictor.ZeroTargetFallsThrough | components/Predictor.tsx:19 | a zero or missing target scores like current mode |
| Predictor.CalculateTotal | components/Predictor.tsx:14-25 | the loop returns the credit-weighted average, 0 when credits sum to 0 |
| Predictor.WeightedSumBounds | components/Predictor.tsx:14-25 | with positive credits and scores in 0..100 the weighted sum lies in 0..100 times the credits |
| Predictor.AverageBounds | components/Predictor.tsx:14-25 | such an average is a grade in 0..100 |
| Predictor.BiggestGap | components/Predictor.tsx:31-39 | none exactly when no gap is positive; otherwise a course with the maximal positive gap, the first one on ties |
| Predictor.GradeChange | components/Predictor.tsx:41-45 | none when no course has the id; otherwise the first such course with only the chosen grade set |
| Predictor.LowestIndex | components/Predictor.tsx:49 | the first course with the lowest current grade, what the stable sort puts first |
| Predictor.SimulateImprovement | components/Predictor.tsx:47-53 | none for no courses; otherwise that course with its grade raised by 5, capped at 100 |
| Predictor.ImprovementIsCapped | components/Predictor.tsx:47-53 | the simulated grade never falls, never exceeds 100 and rises by at most 5 |
| Backlog.SubjectsList | components/BacklogManager.tsx:112-124 | the common subjects first; then arts, science (only for "science") or math per track; nothing more without a track |
| Backlog.SubjectNamesDistinct | components/BacklogManager.tsx:15-39 | every list has pairwise distinct subject names, seven with a track |
| Backlog.ToggleLectureDay | components/BacklogManager.tsx:187-196 | only lecture days change; the day's membership flips, other days keep theirs, an absent day is appended |
| Backlog.ToggleTwiceRestores | components/BacklogManager.tsx:187-196 | adding then removing a day restores the list |
| Backlog.ToggleTwiceSameDays | components/BacklogManager.tsx:187-196 | toggling a day twice leaves the same set of lecture days |
| Backlog.BacklogCountInput | components/BacklogManager.tsx:480 | `parseInt(text) \|\| 0`: the parsed number, 0 when unparsable |
| Backlog.BacklogCountReadsBack | components/BacklogManager.tsx:480 | a typed count reads back as itself |
| Backlog.TotalAccumulated | components/BacklogManager.tsx:249-250 | the loop returns the sum of backlog counts, 0 for unconfigured courses |
| Backlog.BacklogTotalConcat | components/BacklogManager.tsx:249-250 | the total is additive over a concatenation |
| Backlog.BacklogTotalBounds | components/BacklogManager.tsx:249-250 | with non-negative counts the total is at least each course's count |
| Backlog.NamedIndex | components/BacklogManager.tsx:127 | the first course with the name, none when there is none |
| Backlog.OpenConfigModal | components/BacklogManager.tsx:126-146 | the subject is being edited; the form is the course's config, or the default when none |
| Backlog.ApplyEdit | components/BacklogManager.tsx:148-173 | an update replaces by id, an add appends, no edit keeps the courses |
| Backlog.SaveConfiguration | components/BacklogManager.tsx:148-173 | no subject: nothing; an existing course gets only its config replaced; otherwise a new course with credits 4, medium, grade 0, no units and the config; editing closes |
| Backlog.SaveThenReopen | components/BacklogManager.tsx:126-173 | after saving, reopening the subject shows the saved config |
| Backlog.SaveNewRaisesTotal | components/BacklogManager.tsx:148-173 | saving a new subject raises the total by its count |
| Backlog.TrackNavigator.Restore | components/BacklogManager.tsx:70-86 | arts opens the list; sci with a sub-track opens the list; sci alone opens the sub-track step; else the track step |
| Backlog.TrackNavigator.SelectTrack | components/BacklogManager.tsx:88-96 | arts goes to the list, sci to the sub-track step; the track is stored |
| Backlog.TrackNavigator.SelectSubTrack | components/BacklogManager.tsx:98-102 | the sub-track is set and stored, the list opens |
| Backlog.TrackNavigator.Reset | components/BacklogManager.tsx:104-110 | back to the track step with both selections and stored values cleared |
| Backlog.TrackNavigator.Back | components/BacklogManager.tsx:240 | back to the track step, selections kept |
| Backlog.TrackNavigator.Subjects | components/BacklogManager.tsx:247 | on the list step the shown list has seven distinct subjects |
| Schedule.JsRem | components/ScheduleManager.tsx:134 | JavaScript `%`: the remainder takes the sign of the dividend |
| Schedule.Hour12 | components/ScheduleManager.tsx:131-136 | hour 0 and 12 show 12, 13–23 show 1–11; always 1..12 for non-negative hours |
| Schedule.MinuteText | components/ScheduleManager.tsx:137 | minutes below 10 get a leading zero; NaN shows "NaN" |
| Schedule.FormatTime12h | components/ScheduleManager.tsx:128-137 | for any text: it ends in a space and pm when the parsed hour is 12 or more, am otherwise (also for `NaN`); a `NaN` hour shows as 12; a negative hour off the twelve-hour grid keeps its minus sign |
| Schedule.Time12h | components/ScheduleManager.tsx:133-136 | the same three facts about the text built from the parsed hour and minutes |
| Schedule.FormatClockTime | components/ScheduleManager.tsx:129-137 | a valid `HH:MM` formats as the 12-hour hour, the padded minutes and am before noon, pm after |
| Schedule.NextPrayerIndex | components/ScheduleManager.tsx:240-247 | the smallest index whose time is later than now; -1 exactly when all have passed |
| Schedule.AlarmDueWithinFiveMinutes | components/ScheduleManager.tsx:260-263 | the alarm condition holds only while the countdown shows no hours and at most five minutes |
| Schedule.SplitCountdown | components/ScheduleManager.tsx:280-282 | minutes and seconds below 60, and the parts rebuild the difference to within a second |
| Schedule.CountdownParts | components/ScheduleManager.tsx:280-282 | the source's floor/modulo expressions give exactly that split |
| Schedule.CountdownText | components/ScheduleManager.tsx:283 | the text is exactly the hours, a colon, the minutes padded to two digits, a colon and the seconds padded to two digits |
| Schedule.CountdownReadsBack | components/ScheduleManager.tsx:283 | splitting the countdown text at its two colons gives three fields that parse back to the hours, minutes and seconds left, and those bracket the remaining milliseconds |
| Schedule.SplitAtColons | components/ScheduleManager.tsx:283 | joining colon-free fields with colons splits back into the same fields |
| Schedule.PrayerClock.Tick | components/ScheduleManager.tsx:236-288 | all passed: index 0 and "tomorrow"; else the next index and countdown; the alarm rings only when due (0 < diff ≤ 5 min, notifications on, not yet rung for that prayer) and then latches the prayer's key |
| Schedule.PrayerClock.ToggleNotifications | components/ScheduleManager.tsx:292-296 | notifications flip |
| Schedule.PrayerClock.constructor | components/ScheduleManager.tsx:103-126 | no next prayer, empty countdown, no alarm played |
| Schedule.DhikrClick | components/ScheduleManager.tsx:139-149 | other keys unchanged; below target the count rises by one, at or above it nothing changes; never passes the target |
| Schedule.ClicksStopAtTarget | components/ScheduleManager.tsx:139-149 | n clicks give min(target, count + n) |
| Schedule.DhikrCounters.constructor | components/ScheduleManager.tsx:97 | no counts |
| Schedule.DhikrCounters.Click | components/ScheduleManager.tsx:139-149 | the counters become the clicked map |
| Schedule.NextTasbeeh | components/ScheduleManager.tsx:152-157 | `(i + 1) % 5`, always in range, wrapping after the last word |
| Schedule.TasbeehRotation | components/ScheduleManager.tsx:515 | after n steps the word shown is `(i + n) % 5` |
| Schedule.CachedPrayers | components/ScheduleManager.tsx:103-114 | the cached list only when cached today and it decodes; otherwise empty |
| Timer.InitialValid | components/Timer.tsx:37-46 | the initial state (30 minutes, paused, focus) satisfies the timer invariant |
| Timer.Completed | components/Timer.tsx:65-66 | reaching 0 while active stops the timer and starts the ring |
| Timer.Ticked | components/Timer.tsx:59-64 | while active each tick takes exactly one second off, ringing at 0 |
| Timer.Toggle | components/Timer.tsx:120 | a running timer pauses and nothing else changes; a paused timer with time left resumes and nothing else changes; a paused timer at zero stays paused and starts ringing |
| Timer.Proceed | components/Timer.tsx:92-118 | after focus the session is counted and its minutes reported, with a long break exactly on multiples of 3 and a short one otherwise; after a break a fresh focus of the chosen length |
| Timer.Reset | components/Timer.tsx:122-133 | inactive, silent, full length of the current mode; nothing else changes |
| Timer.SetDuration | components/Timer.tsx:135-140 | the duration is stored; the countdown changes only in paused focus |
| Timer.DurationPressedAsWritten | components/Timer.tsx:261-265 | the button as written: focus and paused, but the countdown keeps its old value unless the timer was already in paused focus |
| Timer.DurationPressed | components/Timer.tsx:261-265 | the intended button: paused focus with a full countdown of the chosen minutes |
| Timer.StepsKeepValid | components/Timer.tsx:59-133 | tick, proceed and reset keep the countdown within the mode's length and a ring only at 0 |
| Timer.ControlsKeepValid | components/Timer.tsx:120 | pause/resume and the intended duration button keep that invariant |
| Timer.AsWrittenBreaksBound | components/Timer.tsx:261-265 | the button as written leaves a running 120-minute focus at 7200 seconds in a 30-minute mode |
| Timer.RunsDown | components/Timer.tsx:59-66 | n ticks from an active timer take n seconds off, ringing exactly at 0 |
| Timer.FocusReportsItsLength | components/Timer.tsx:92-117 | with the intended button a started focus rings after exactly the chosen minutes and reports them |
| Timer.ShortSessionReportedLong | components/Timer.tsx:261-265 | as written, a 50-minute focus chosen during a short break rings after 5 minutes and reports 50 |
| Timer.EveryThirdBreakIsLong | components/Timer.tsx:100-112 | the third focus session is followed by the long break, the next one by a short break |
| Timer.FormatTime | components/Timer.tsx:142-146 | below 100 minutes the display is five characters with the colon in the middle |
| Timer.FormatTimeReadsBack | components/Timer.tsx:142-146 | the display reads back as `s div 60` and `s mod 60` |
| Timer.PomodoroTimer.constructor | components/Timer.tsx:37-46 | the initial state, which is valid |
| Timer.PomodoroTimer.Settle | components/Timer.tsx:65-66 | the state becomes the completed state |
| Timer.PomodoroTimer.Tick | components/Timer.tsx:59-64 | the state becomes the ticked state |
| Timer.PomodoroTimer.ToggleTimer | components/Timer.tsx:120 | the state becomes the toggled state |
| Timer.PomodoroTimer.StopAlarmAndProceed | components/Timer.tsx:92-118 | state and reported minutes are those of `Proceed` |
| Timer.PomodoroTimer.ResetTimer | components/Timer.tsx:122-133 | the state becomes the reset state |
| Timer.PomodoroTimer.PressDuration | components/Timer.tsx:261-265 | the state becomes that of the duration button as written: the duration is stored, the clock is reset only when already in focus mode, and the timer goes to focus mode, paused |
| Gemini.ParseTaskWithAI | services/geminiService.ts:21-56 | no call and null without a key; null on an empty reply or exception; otherwise the decoded result |
| Gemini.AcademicStatus | services/geminiService.ts:85-92 | current defaults to 0, target to 100, backlog to 0; the gap is target minus current |
| Gemini.UngradedCourseGap | services/geminiService.ts:87-89 | a course without grades shows a gap of 100 |
| Gemini.TargetReachedGap | services/geminiService.ts:87-89 | a met target shows no positive gap |
| Gemini.PendingTasks | services/geminiService.ts:93-97 | exactly the uncompleted tasks, projected to title, due date and priority |
| Gemini.PendingTasksConcat | services/geminiService.ts:93-97 | the projection keeps the task order |
| Gemini.ScheduleLine | services/geminiService.ts:98 | `start: title (type)`: the length is fixed by the parts, and the activity name of the block's kind sits inside the closing parenthesis |
| Gemini.BuildContext | services/geminiService.ts:79-100 | the profile fields, one status per course, the pending tasks, one line per block, one title per resource |
| Gemini.RoleMappingBijective | services/geminiService.ts:132 | user maps to user and assistant to model, and back |
| Gemini.PastTurns | services/geminiService.ts:131-134 | same length and order; each turn carries its message's role and text |
| Gemini.Base64Data | services/geminiService.ts:139 | `split(',')[1]`: defined exactly when there is a comma, and holds none |
| Gemini.Base64DataOfDataUrl | services/geminiService.ts:139 | a data URL's payload is recovered |
| Gemini.CurrentTurn | services/geminiService.ts:137-146 | a user turn with the text, plus the image exactly when one is attached |
| Gemini.RequestContents | services/geminiService.ts:155-158 | the history turns, then the current turn |
| Gemini.CleanReply | services/geminiService.ts:163 | no markdown character remains and no white space at either end |
| Gemini.CleanReplyIsSlice | services/geminiService.ts:163 | the cleaned reply is the contiguous piece of the reply with markdown removed that starts right after its leading white space |
| Gemini.CleanReplyKeepsPlainText | services/geminiService.ts:163 | a reply without markdown and without white space at its ends comes back unchanged |
| Gemini.CleanReplyIdempotent | services/geminiService.ts:163 | cleaning twice equals cleaning once |
| Gemini.FallbackIsClean | services/geminiService.ts:161-163 | cleaning leaves the technical fallback unchanged |
| Gemini.ChatReply | services/geminiService.ts:61-169 | the apology and no call without a key; the connection message on exception; else the cleaned text |
| Gemini.EmptyReplyFallback | services/geminiService.ts:161-163 | an empty reply becomes the technical fallback intact |
| Gemini.PlanInputs | services/geminiService.ts:176-181 | exactly the courses with a config holding a backlog or lecture days, as subject plus config |
| Gemini.PlanInputsConcat | services/geminiService.ts:176-181 | the inputs of joined course lists are the joined inputs, so course order is kept |
| Gemini.PlanInputsSingle | services/geminiService.ts:176-181 | one course gives its subject and config exactly when it has a qualifying config, else nothing |
| Gemini.NoPlanInputs | services/geminiService.ts:176-183 | nothing is sent exactly when no course qualifies |
| Gemini.GenerateBacklogPlan | services/geminiService.ts:173-220 | `[]` without a call when there is no key or no qualifying course; with a call, the decoded plan of the reply text (or of `[]`) is returned, and `[]` when the call fails or the reply does not decode |
| Assistant.SessionTitle | components/AIAssistant.tsx:51-56 | up to 25 characters kept, longer cut to 25 plus "...", empty becomes the new-chat title |
| Assistant.TitleShape | components/AIAssistant.tsx:51-56 | a title is 1 to 28 characters and starts like the message |
| Assistant.SessionToSave | components/AIAssistant.tsx:48-61 | saved exactly when there are messages and a session id, titled after the first message |
| Assistant.UserContent | components/AIAssistant.tsx:116 | the input, or the image marker for an image without text |
| Assistant.CanSendIff | components/AIAssistant.tsx:104 | the send guard passes exactly when no reply is pending and the input has a non-white-space character or an image is attached |
| Assistant.SentMessageNotEmpty | components/AIAssistant.tsx:104-116 | whatever passes the guard carries a non-empty message |
| Assistant.UserTurnSentTwice | components/AIAssistant.tsx:123-142 | as written, a first message reaches the model as two identical user turns |
| Assistant.RequestMirrorsConversation | components/AIAssistant.tsx:123-142 | the intended request has one turn per message with the same roles and texts |
| Assistant.ChatPanel.constructor | components/AIAssistant.tsx:25-32 | empty composer, no messages, no session, no image, not typing |
| Assistant.ChatPanel.HandleSend | components/AIAssistant.tsx:103-153 | a blocked send changes nothing; otherwise the request sent is the one the code builds, with the new message in the history and again as the prompt; an id is allocated if missing, the user message and the reply are appended, the composer clears and the session is saved |
| Assistant.UserTurnAlwaysDoubled | components/AIAssistant.tsx:123-142 | the request built from a history ending in the new message carries that message's text in two consecutive user turns |
| Assistant.ChatPanel.StartNewChat | components/AIAssistant.tsx:63-67 | no messages and no session id |
| Assistant.ChatPanel.LoadSession | components/AIAssistant.tsx:69-73 | the session's messages and id become current and it is saved again |
| Assistant.ChatPanel.SetInput | components/AIAssistant.tsx:389 | the composer holds the typed text |
| Assistant.ChatPanel.SelectImage | components/AIAssistant.tsx:155-163 | the chosen image is attached |
| Health.AddWater | components/HealthTracker.tsx:34-38 | one more cup below 10, otherwise unchanged; other fields unchanged |
| Health.AddWaterSaturates | components/HealthTracker.tsx:34-38 | n presses give min(10, cups + n), so the count never passes 10 |
| Health.SetSleep | components/HealthTracker.tsx:40-42 | only the sleep hours change |
| Health.SleepDown | components/HealthTracker.tsx:95 | the "-" button: the hours become the larger of 0 and one hour less; nothing else changes |
| Health.SleepUp | components/HealthTracker.tsx:96 | the "+" button: the hours become the smaller of 12 and one hour more; nothing else changes |
| Health.SleepButtonsKeepRange | components/HealthTracker.tsx:95-96 | the buttons keep the hours in 0..12, stop at the ends and move by at most one |
| Health.SleepButtonsUndo | components/HealthTracker.tsx:95-96 | inside the range "+" and "-" undo each other |
| Health.WaterMessage | components/HealthTracker.tsx:44-48 | each of the three messages exactly for ≥8, 4..7 and <4 cups |
| Health.EightCupsHydrate | components/HealthTracker.tsx:34-48 | eight presses from any count earn the best message |
| Resources.NormalizeUrl | components/ResourceManager.tsx:50-53 | the result starts with "http"; an address starting with "http" is kept, any other gets "https://" in front |
| Resources.NormalizeIdempotent | components/ResourceManager.tsx:50-53 | normalising twice equals normalising once |
| Resources.NormalizeKeepsAddress | components/ResourceManager.tsx:50-53 | the typed address is the tail of the stored one |
| Resources.LinkResources | components/ResourceManager.tsx:170 | exactly the link resources |
| Resources.AddedLinkShownLast | components/ResourceManager.tsx:170 | an appended link appears last, after the existing links in order |
| Resources.NextVerse | components/ResourceManager.tsx:40 | `(i + 1) % 11`, in range, wrapping after the last verse |
| Resources.VerseRotation | components/ResourceManager.tsx:36-44 | after n minutes the verse shown is `(i + n) % 11` |
| Resources.NewPlatform | components/ResourceManager.tsx:55-60 | a link with the title and the normalised address, whose id reads back as the time |
| Resources.ResourcePanel.AddPlatform | components/ResourceManager.tsx:48-64 | with a title and an address the platform is returned, the form cleared and closed; otherwise nothing changes |
| Resources.ResourcePanel.AdvanceVerse | components/ResourceManager.tsx:40 | the verse index moves to the next verse |
| Resources.ResourcePanel.ToggleForm | components/ResourceManager.tsx:118 | the form opens or closes |
| Resources.ResourcePanel.SetAdding | components/ResourceManager.tsx:152 | the form is set open or closed |
| Resources.ResourcePanel.SetTitle | components/ResourceManager.tsx:135 | only the title changes |
| Resources.ResourcePanel.SetUrl | components/ResourceManager.tsx:145 | only the address changes |
| Resources.ResourcePanel.constructor | components/ResourceManager.tsx:28-32 | empty form, closed, first verse |
| CourseManager.CourseOfForm | components/CourseManager.tsx:27-35 | credits default to 3 when 0 or missing, color to indigo; grade copied; no units; id reads back as the time |
| CourseManager.Submit | components/CourseManager.tsx:24-39 | an empty name adds nothing and changes nothing; otherwise the course is added and the form resets (3 credits, medium, 90, indigo) and closes |
| CourseManager.AddedCourseShape | components/CourseManager.tsx:24-39 | an added course has non-zero credits, a color and no units |
| CourseManager.DefaultFormCourse | components/CourseManager.tsx:15-21 | a course from the untouched form scores 90 on 3 credits in the predictor |
| CourseManager.TypedGradeIsScored | components/CourseManager.tsx:33 | a non-zero typed grade is the grade the predictor scores |
| Dashboard.DaysLeft | components/Dashboard.tsx:202 | `ceil((exam - now) / day)`, stated as its bracketing inequality |
| Dashboard.DaysLeftUnique | components/Dashboard.tsx:202 | any day count bracketing the time left equals it |
| Dashboard.DisplayDays | components/Dashboard.tsx:237 | `max(0, daysLeft)`: never negative, 0 exactly once the exam time has come |
| Dashboard.DisplayDaysFalls | components/Dashboard.tsx:237 | the count never rises as time passes |
| Dashboard.DisplayWholeDays | components/Dashboard.tsx:202-237 | a whole number of days before the exam shows that number |
| Dashboard.InitialExam | components/Dashboard.tsx:126-129 | the saved date, or 2026-06-20 when none is saved |
| Dashboard.HandleDateChange | components/Dashboard.tsx:193-200 | an empty value changes and stores nothing; otherwise the date is set, stored and the input closes |
| Dashboard.ChosenDateSurvivesReload | components/Dashboard.tsx:126-200 | a chosen date is the exam date at the next opening |
| Dashboard.Inbox | components/Dashboard.tsx:295 | the first min(3, n) tasks in order |
| Dashboard.NewTaskHeadsInbox | components/Dashboard.tsx:295 | a newly added task heads the inbox and the rest shifts down |

## Left out

- The model calls themselves, the prayer-time fetch and geolocation: the model's reply is a parameter (`Gemini.Reply`) and the prayer list is an input.
- Storage writes, `JSON.parse` and `JSON.stringify`: storage is a map snapshot and decoding is a parameter that may fail. The save effects are modelled only as the value they write.
- Audio, notifications, vibration, clipboard, `FileReader` and `window.open` are side effects with no rule to state. `Schedule.PrayerClock.Tick` takes whether the alarm sound is loaded as a parameter.
- Randomness: the quote, snack and tip pickers.
- Animation: the canvas particles and the verse fade.
- Progress percentages.
- Floating point: `toFixed(2)` on the average is not modelled; the average is a real. Plan durations are reals that are only carried.
- Date formatting and parsing: `toDateString`, `toISOString`, locale formats and `new Date(text)` are opaque strings or parameters, and `getFavicon` is not modelled.
- Interval timing: each tick, effect and handler is one atomic step.
- Clock readings: the several `Date.now()` calls of one handler are one reading `now` in the model, so the ids and timestamps a handler makes share it. This applies to the course id and unit ids of `handleSaveCourse` and to the session id, message id and timestamp of `handleSend`.
- Assistant.ChatPanel.HandleSend: the `isTyping` flag shown while the reply is awaited is not modelled, because the send is one step.
- Text.ToLower: folds only ASCII letters, so non-ASCII cased letters compare case-sensitively in the model. For example, "Économie" and "économie" match in `handleSmartAdd` but not in the model.
- Text.ParseInt: reads base 10 only. JavaScript's `parseInt` without a radix reads a `0x` prefix as hexadecimal, whereas the model reads "0x1A" as 0. The texts parsed here are number-field values and "HH:MM" times, which never carry that prefix.
- Assistant.SessionTitle: the model counts characters. JavaScript counts UTF-16 code units, so the two differ for characters outside the Basic Multilingual Plane.
- Number fields that hold `NaN` are `None` in the model.
- Backlog.BacklogTotal: a `NaN` backlog count is not modelled. Counts only enter through `parseInt(...) || 0`, which never yields `NaN`.
- Backlog.TrackNavigator.SelectSubTrack: requires the sub-track step, the only screen that shows its buttons.
- Timer.ControlsKeepValid: requires the alarm to be silent, because the ringing overlay hides the controls.
- Timer.Toggle: includes the completion effect, because a timer resumed at 0 rings at once.
- TaskManager.CompletionRate: rounds the exact ratio `100 * completed / total` to the nearest whole number. The source rounds the floating-point product `(completed / total) * 100`, which can fall just below a half: for 23 of 40 tasks done the product is 57.49999999999999, so the page shows 57 while the model gives 58.
- Predictor.GradeChange, Predictor.Score and Predictor.CalculateTotal: grades (`currentGrade`, `targetGrade` in `Domain.Course`) are whole numbers. `Number(value)` also stores fractional grades such as 85.5, and those are not represented.
- Schedule.Hour12 and Schedule.MinuteText: hours or minutes outside a clock's range are only covered by the general formula.
- The components' pure presentation (layout, video library, channel, guide) and the language table are not part of this model.

## Findings

| source | as written | input that shows it | evidently intended | confidence | as-written member | corrected member |
|---|---|---|---|---|---|---|
| components/AIAssistant.tsx:123-142 | `handleSend` gives `chatWithGenie` the history `newHistory`, which already ends with the user's message. `chatWithGenie` (services/geminiService.ts:131-158) then appends that message again as the current turn. | first message "hi": the request holds two identical user turns "hi" | the earlier messages as history, then the new message once | high (not executed) | Assistant.UserTurnSentTwice | Assistant.RequestMirrorsConversation |
| components/Timer.tsx:135-265 | A duration button calls `setDuration(mins)`, which decides on the mode and running state from before the click, and only then switches to focus and pauses. During a break or a running focus the countdown keeps its old value. | a short break with 300 s left, button 50: a focus of 5 minutes that, once it rings, reports 50 minutes of study | a paused focus with a full countdown of the chosen minutes | high (not executed) | Timer.ShortSessionReportedLong | Timer.FocusReportsItsLength |
