# Brain-Wave panels in Dafny

Brain-Wave is a wellness and beauty web application made of independent panels. This project
models the logic of eleven of them:

- the **mood tracker**: one entry per calendar date, tag selection, the average mood, the
  recent trend, today's entry, and the newest-first listing. The mood buttons store the keys
  of the emoji table, which are strings, so the panel's sums join digits. The model computes
  both readings: as the panel does (`AverageMoodAsWritten`, `MoodTrendAsWritten`), and with
  numeric moods (`AverageMood`, `MoodTrend`, `ChronologicalTrend`);
- the **focus timer**: a focus session, then a five-minute break, then focus again, with a
  count of completed sessions and an `MM:SS` clock;
- the **study planner**: tasks to add, tick off and delete, goals, and a completion rate;
- the **upload zone**: a type check and then a size check on dropped files;
- the **beauty-analysis chat**: a message log, canned replies, and a five-step simulated
  analysis;
- the **chat companion**: a message log, a typing flag, and ten canned replies;
- the **peer stories** feed: a featured filter, truncation, and expand/collapse;
- the **resource library**: a case-insensitive search and a category filter;
- the **health insights** card: a score and its status band;
- the **cosmetics recommendations** card: confidence bands, category icons, and a summary;
- the **analysis progress** panel: the stage for a progress value, and the completion notice.

Each panel is one module. A panel whose handlers update state is a class:

- its fields are the component's state variables;
- its methods are the handlers, each with a `modifies` clause;
- a `Valid()` predicate holds the invariant that every method keeps.

The pure helpers are functions, and lemmas state their properties. Shared JavaScript behaviour
lives in small modules:

- `Seqs`: `filter`, the add-or-remove toggle, and removal by index;
- `Text`: `trim`, `startsWith`, `includes`, ASCII `toLowerCase`, `replace` of one character, and
  the order of ISO 8601 calendar dates;
- `Numbers`: `Math.round` and sums;
- `Decimal`: `toString`, `padStart(2, '0')` and `parseInt`.

Timers are modelled as explicit step methods:

- the focus timer's effect is `Tick`;
- each reply timeout is `DeliverBotReply` or `DeliverReply`;
- each analysis step is `AnalysisStep`.

Values that come from outside the model become parameters:

- random choices;
- clock-derived ids;
- "today";
- the fixed sample catalogues.

The upload chat's progress panel is on screen only while `isAnalyzing` is set. The step that
sets the progress to 100 also clears that flag, in the same render (React 18 batches the
updates of one timeout callback). So the panel never shows its "Analysis
Complete!" notice or its "Health Insights" stage (`AnalysisChat.Chat.PanelNeverShowsCompletion`).

## Model

| member | source | states |
|---|---|---|
| MoodTracker.MoodLog.constructor | src/components/MoodTracker.tsx:28-32 | The log starts empty, with no mood and no tags selected, an empty note, and today's date selected. |
| MoodTracker.MoodLog.SelectMood | src/components/MoodTracker.tsx:147 | Picking a mood sets the selected mood and leaves everything else alone. |
| MoodTracker.MoodLog.SetNote | src/components/MoodTracker.tsx:191 | Typing a note sets the note and leaves everything else alone. |
| MoodTracker.MoodLog.SaveMoodEntry | src/components/MoodTracker.tsx:45-64 | With no mood or no date selected, nothing changes. Otherwise the entry of the selected date is replaced by the new entry, which goes last. The mood, note and tags are reset and the date is kept. The one-entry-per-date invariant is preserved. |
| MoodTracker.SavedReplacesSameDate | src/components/MoodTracker.tsx:55-57 | After a save, exactly one entry has the saved date, and it is the last one. The entries before it are an order-preserving subsequence of the old log. No entry of another date is lost. One entry per date still holds. |
| MoodTracker.WithoutDateKeepsOnePerDate | src/components/MoodTracker.tsx:56 | Removing every entry of a date keeps the one-entry-per-date invariant. |
| MoodTracker.MoodLog.ToggleTag | src/components/MoodTracker.tsx:66-72 | The selected tags become the toggle of the old tags. The tag's membership flips, and no tag is ever selected twice. |
| Seqs.Toggle | src/components/MoodTracker.tsx:66-72 | An absent value is appended at the end. A present value is removed completely; the others keep their order and their number of occurrences. |
| Seqs.ToggleTwiceRestoresMembership | src/components/MoodTracker.tsx:66-72 | Toggling the same value twice restores the membership of every value. |
| Seqs.ToggleAbsentTwiceIsIdentity | src/components/MoodTracker.tsx:66-72 | Toggling an absent value twice gives back exactly the same list. |
| Seqs.ToggleKeepsNoDuplicates | src/components/MoodTracker.tsx:66-72 | A toggle never makes a value occur twice. |
| Seqs.Filter | src/components/MoodTracker.tsx:56 | `filter` keeps exactly the elements that satisfy the predicate, each as often as it occurs in the input, and drops the rest. It never grows the list. |
| Seqs.FilterIsSubsequence | src/components/MoodTracker.tsx:56 | `filter` keeps the surviving elements in their original order. |
| MoodTracker.AverageMood | src/components/MoodTracker.tsx:74-78 | The evidently intended average, with the moods read as numbers: 0 for an empty log, otherwise a value in [1, 5] that, multiplied by the number of entries, gives the sum of the moods. |
| MoodTracker.Mean | src/components/MoodTracker.tsx:85-86 | The evidently intended window mean, with the moods read as numbers, lies in [1, 5]. |
| Numbers.Round | face_analysis_platform/src/components/StudyAssistant.tsx:99 | `Math.round` gives the integer within half a unit of its argument, rounding halves up. |
| Numbers.RoundMonotone | face_analysis_platform/src/components/StudyAssistant.tsx:99 | Rounding preserves order. |
| Numbers.RoundBetween | face_analysis_platform/src/components/StudyAssistant.tsx:99 | A value between two integers rounds to a value between them. |
| MoodTracker.TrendOfShortLog | src/components/MoodTracker.tsx:81 | Fewer than two entries gives the neutral trend. |
| MoodTracker.TrendWithoutOlderWindow | src/components/MoodTracker.tsx:82-86 | With 2 to 7 entries the older window `slice(-14, -7)` is empty, so the trend is stable. |
| MoodTracker.TrendOfSteadyMood | src/components/MoodTracker.tsx:85-90 | With the moods read as numbers, a log whose moods are all the same is neither improving nor declining. |
| MoodTracker.TrendOfClearRise | src/components/MoodTracker.tsx:82-88 | If every mood in the last seven is at least one point above every mood in the seven before, the trend is improving. |
| MoodTracker.TrendOfClearFall | src/components/MoodTracker.tsx:82-89 | With the moods read as numbers, if every mood in the last seven is at least one point below every mood in the seven before, the trend is declining. |
| MoodTracker.RenderedWindowsHoldOldest | src/components/MoodTracker.tsx:98-103 | On the newest-first array the panel leaves behind, the "recent" window `slice(-7)` holds entries no later than those in the "older" window. |
| MoodTracker.MoodTrend | src/components/MoodTracker.tsx:80-91 | The trend with the moods read as numbers, on the list as given. Fewer than two entries give neutral, and only they do. The trend is improving exactly when there are at least eight entries and the recent mean exceeds the older mean by more than 0.3. It is declining exactly when there are at least eight entries and the recent mean is more than 0.3 below the older one. Every other log is stable. |
| MoodTracker.MoodKey | src/components/MoodTracker.tsx:144-147 | A mood button stores the one-digit key string of its mood, whose value is the mood. |
| MoodTracker.MoodDigits | src/components/MoodTracker.tsx:76 | Adding string moods joins their keys: one decimal digit per entry, in list order, each the entry's mood. |
| MoodTracker.JoinedMoodValue | src/components/MoodTracker.tsx:85-86 | The number `/` reads from the joined sum ("0" and the digits) lies between 11...1 and 55...5, with one digit per entry. |
| MoodTracker.JoinedValueIsNumeral | src/components/MoodTracker.tsx:85-86 | The leading 0 does not change the number: it is the numeral of the moods' digits. |
| MoodTracker.JoinedValueOfSteadyMood | src/components/MoodTracker.tsx:85-86 | A window of n equal moods m reads as the number mm...m. |
| MoodTracker.AverageMoodAsWritten | src/components/MoodTracker.tsx:74-78 | The average as written: 0 for an empty log, the mood itself for one entry, and above 5 for two or more entries. |
| MoodTracker.TrendByMeans | src/components/MoodTracker.tsx:88-90 | Improving exactly when the recent mean is more than 0.3 above the older one, declining exactly when it is more than 0.3 below, otherwise stable. |
| MoodTracker.WindowLengths | src/components/MoodTracker.tsx:82-83 | `slice(-7)` holds up to seven entries. `slice(-14, -7)` is empty up to seven entries, holds the entries past the seventh up to thirteen, and holds seven from fourteen on. |
| MoodTracker.MoodTrendAsWritten | src/components/MoodTracker.tsx:80-91 | The trend as written, with string moods: neutral exactly below two entries, stable from two to seven, and always improving from eight to thirteen. From fourteen on, it is improving exactly when the recent window's number is at least the older one's plus 3, and declining exactly when it is at most the older one's minus 3. |
| MoodTracker.JoinedTrend | src/components/MoodTracker.tsx:85-90 | On the numbers the joined sums spell: an empty older window gives stable. A seven-digit recent window against one to six older digits gives improving. Two seven-entry windows are improving or declining exactly when their numbers differ by at least 3 in that direction. |
| MoodTracker.ShortOlderWindowLoses | src/components/MoodTracker.tsx:85-89 | A seven-digit window over 7 exceeds any window of one to six digits from 1 to 5, over its length, by more than 0.3. |
| MoodTracker.FullWindowsCompare | src/components/MoodTracker.tsx:85-89 | For two seven-entry windows, the 0.3 margin on the means is a margin of 3 on the joined numbers, in both directions. |
| MoodTracker.SteadyMoodReadsImprovingAsWritten | src/components/MoodTracker.tsx:80-91 | Eight to thirteen entries of one steady mood read as improving with string moods, but as stable with numeric moods. |
| MoodTracker.AverageOfFourThenTwo | src/components/MoodTracker.tsx:74-78 | Moods 4 then 2 average to 21.0 as written, and to 3.0 with numeric moods. |
| MoodTracker.ChronologicalTrend | src/components/MoodTracker.tsx:80-91 | Read oldest first, the log is neutral exactly when it has fewer than two entries. It shows a rise or a fall only from eight entries on. Up to seven entries, the reading order does not change the trend. |
| MoodTracker.ChronologicalWindowsHoldNewest | src/components/MoodTracker.tsx:82-83 | Read in chronological order, the recent window holds entries no earlier than those in the older window. |
| MoodTracker.RisingFortnightIsNewestFirst | src/components/MoodTracker.tsx:98-99 | The example fortnight is in the order the panel's sort produces. |
| MoodTracker.RenderedTrendReversesRisingMood | src/components/MoodTracker.tsx:98-103 | As written, a fortnight of rising mood is reported as declining, with the moods read as numbers and also as the strings the panel stores. |
| MoodTracker.RisingFortnightDeclinesAsWritten | src/components/MoodTracker.tsx:98-103 | With string moods, the same fortnight's windows spell 1111111 against 5555555, which reads as declining. |
| MoodTracker.ChronologicalTrendSeesRisingMood | src/components/MoodTracker.tsx:80-91 | Read chronologically, the same fortnight is improving. |
| MoodTracker.TodaysEntry | src/components/MoodTracker.tsx:93-96 | `find` returns an entry of the log dated today. It returns nothing exactly when no entry is dated today. |
| MoodTracker.TodaysEntryIsUnique | src/components/MoodTracker.tsx:93-96 | With one entry per date, the entry found is the entry of that date. |
| MoodTracker.SortNewestFirst | src/components/MoodTracker.tsx:98-99 | The in-place sort leaves a newest-first permutation of the array. It keeps one entry per date. |
| MoodTracker.InsertNewest | src/components/MoodTracker.tsx:99 | Inserting one more entry extends the sorted prefix, keeps the multiset of entries, and leaves every later position untouched. |
| MoodTracker.MoodLog.Render | src/components/MoodTracker.tsx:74-103 | The log is replaced by its newest-first permutation, as the in-place sort leaves it. The listing is its first seven entries. Today's entry, the average and the trend are computed on that newest-first array, as written: the average and the trend use the string moods (`AverageMoodAsWritten`, `MoodTrendAsWritten`), and the trend's recent window is the oldest seven entries. The form is unchanged. |
| Text.LexLeq | src/components/MoodTracker.tsx:99 | The date order is reflexive. A non-empty string no later than another has a first character no greater than the other's. Only the empty string comes no later than the empty string. |
| Text.LexLeqTotal | src/components/MoodTracker.tsx:99 | Any two dates are comparable. |
| Text.LexLeqTransitive | src/components/MoodTracker.tsx:99 | The date order is transitive. |
| Text.LexLeqAntisymmetric | src/components/MoodTracker.tsx:99 | Dates that are each no later than the other are equal. |
| FocusMode.DurationSeconds | face_analysis_platform/src/components/FocusMode.tsx:15-20 | Every selectable duration is between 15 and 60 minutes. |
| FocusMode.FocusTimer.constructor | face_analysis_platform/src/components/FocusMode.tsx:9-13 | The timer starts paused at 1500 s, in a focus session, with "25" selected and nothing completed. |
| FocusMode.Step | face_analysis_platform/src/components/FocusMode.tsx:22-45 | One run of the timer effect keeps the selected duration. It switches the session exactly when the clock reads zero, and a switch leaves the timer stopped at the full length of the new session. The completed count rises by one exactly when a focus session turns into a break. The clock reaches zero only from a running timer at 1 s. A timer still running after the step has counted down one second. |
| FocusMode.Toggled | face_analysis_platform/src/components/FocusMode.tsx:47-49 | Toggling flips the running flag and changes nothing else. |
| FocusMode.Reset | face_analysis_platform/src/components/FocusMode.tsx:51-54 | A reset leaves the timer stopped, with a positive clock of at most 3600 s. The clock shows the full length of the current session type. Session, duration and completed count are unchanged. |
| FocusMode.WithDuration | face_analysis_platform/src/components/FocusMode.tsx:56-61 | A duration change records the choice and never starts, stops or switches the session. The clock takes the new length only while paused. |
| FocusMode.FocusTimer.Tick | face_analysis_platform/src/components/FocusMode.tsx:22-45 | One run of the timer effect does three things. While running with time left, it counts down one second. At zero, it stops and switches session. Otherwise nothing changes. The completed count never falls. |
| FocusMode.FocusTimer.ToggleTimer | face_analysis_platform/src/components/FocusMode.tsx:47-49 | Toggling flips whether the timer runs and changes nothing else. |
| FocusMode.FocusTimer.ResetTimer | face_analysis_platform/src/components/FocusMode.tsx:51-54 | Resetting stops the timer and restores the full length of the current session type. |
| FocusMode.FocusTimer.HandleDurationChange | face_analysis_platform/src/components/FocusMode.tsx:56-61 | A new duration is always recorded, and it resets the clock only while paused. |
| FocusMode.OperationsKeepBounds | face_analysis_platform/src/components/FocusMode.tsx:22-61 | Every operation keeps the clock at or below 3600 s. None of them lowers the completed count. |
| FocusMode.RunNeverLowersCompleted | face_analysis_platform/src/components/FocusMode.tsx:32 | The completed count never falls over any number of ticks. |
| FocusMode.RunCountsDown | face_analysis_platform/src/components/FocusMode.tsx:25-28 | A running timer with n seconds left has n - k left after k ticks, for k up to n. Nothing else changes. |
| FocusMode.FocusSessionCompletes | face_analysis_platform/src/components/FocusMode.tsx:29-35 | A running focus session with n seconds left ends after n + 1 effect runs. The timer is then stopped, the completed count is one higher, and a 300 s break is ready. |
| FocusMode.BreakCompletes | face_analysis_platform/src/components/FocusMode.tsx:29-39 | A running break ends in a stopped focus session of the selected length. The completed count is unchanged. |
| FocusMode.PausedTimerStands | face_analysis_platform/src/components/FocusMode.tsx:25-29 | A paused timer with time left never moves. |
| FocusMode.ToggleAndResetLaws | face_analysis_platform/src/components/FocusMode.tsx:47-54 | Toggling twice is the identity. Resetting twice is the same as resetting once. A reset leaves the timer stopped at the full length. |
| FocusMode.DurationChangeOnlyWhenPaused | face_analysis_platform/src/components/FocusMode.tsx:56-61 | A duration change records the choice. It moves the clock only when paused. It never starts, stops or switches the session. |
| FocusMode.FormatTime | face_analysis_platform/src/components/FocusMode.tsx:63-67 | The clock has a colon before a two-digit seconds field. Below 6000 s it is exactly five characters. |
| FocusMode.FormatTimeRoundTrip | face_analysis_platform/src/components/FocusMode.tsx:63-67 | Reading the clock back, as minutes × 60 + seconds with seconds below 60, gives the number of seconds formatted. |
| Decimal.NatToString | face_analysis_platform/src/components/FocusMode.tsx:66 | `toString` writes a non-empty string of decimal digits. It has one digit exactly below 10 and no leading zero. |
| Decimal.NatToStringValue | face_analysis_platform/src/components/FocusMode.tsx:66 | The numeral `toString` writes has the number as its value. |
| Decimal.Pad2 | face_analysis_platform/src/components/FocusMode.tsx:66 | `padStart(2, '0')` gives two digits below 100, and the padded numeral keeps its value. |
| StudyAssistant.StudyPlanner.constructor | face_analysis_platform/src/components/StudyAssistant.tsx:26-50 | The planner starts with the three sample tasks, one of them done, the two sample goals, and empty forms. |
| StudyAssistant.StudyPlanner.SetNewTask | face_analysis_platform/src/components/StudyAssistant.tsx:135 | Typing in the task box changes only the box. |
| StudyAssistant.StudyPlanner.SetGoalForm | face_analysis_platform/src/components/StudyAssistant.tsx:236-247 | Typing in the goal form changes only the form. |
| StudyAssistant.StudyPlanner.AddTask | face_analysis_platform/src/components/StudyAssistant.tsx:52-63 | A blank title changes nothing. Otherwise exactly one undone medium-priority task is appended, the old tasks are kept, and the box is cleared. |
| StudyAssistant.StudyPlanner.ToggleTask | face_analysis_platform/src/components/StudyAssistant.tsx:65-69 | Toggling applies the map that flips the completed flag of the tasks with that id. |
| StudyAssistant.StudyPlanner.DeleteTask | face_analysis_platform/src/components/StudyAssistant.tsx:71-73 | Deleting applies the filter that drops the tasks with that id. |
| StudyAssistant.StudyPlanner.AddGoal | face_analysis_platform/src/components/StudyAssistant.tsx:75-87 | A blank title changes nothing. Otherwise one goal with progress 0 is appended and the form is cleared. |
| StudyAssistant.ToggledById | face_analysis_platform/src/components/StudyAssistant.tsx:65-69 | Only tasks with that id have their completed flag flipped. Length, order, ids, titles and priorities are unchanged. |
| StudyAssistant.ToggleTwiceIsIdentity | face_analysis_platform/src/components/StudyAssistant.tsx:65-69 | Toggling the same id twice gives back the task list. |
| StudyAssistant.WithoutId | face_analysis_platform/src/components/StudyAssistant.tsx:71-73 | Deleting leaves no task with that id. Every other task stays, as often as before. |
| StudyAssistant.DeleteRemovesOnlyThatId | face_analysis_platform/src/components/StudyAssistant.tsx:71-73 | Deleting removes every task with that id and keeps all others, in order. |
| StudyAssistant.CompletedCount | face_analysis_platform/src/components/StudyAssistant.tsx:98 | At most the number of tasks. It is 0 exactly when none is done, and equal to the number of tasks exactly when all are done. |
| StudyAssistant.CompletedCountIsFilterLength | face_analysis_platform/src/components/StudyAssistant.tsx:98 | The count is the length of the list that filtering the completed tasks builds. |
| StudyAssistant.ShareBounds | face_analysis_platform/src/components/StudyAssistant.tsx:99 | The completed share lies between 0 and 100 percent. It is 0 when none is done and 100 when all are done. |
| StudyAssistant.CompletionRate | face_analysis_platform/src/components/StudyAssistant.tsx:99 | For a non-empty list, the rate is the completed share as a percentage, rounded half up (`Math.round`). It lies in [0, 100]. It is 0 for no tasks or none done, and 100 when all of a non-empty list are done. |
| StudyAssistant.CompletionRateMonotone | face_analysis_platform/src/components/StudyAssistant.tsx:98-99 | More completed tasks, in a list of the same length, never give a lower rate. |
| StudyAssistant.ToggleUndoneRaisesCount | face_analysis_platform/src/components/StudyAssistant.tsx:65-99 | Ticking off tasks that were not done raises the completed count by exactly the number of tasks with that id, and never lowers the rate. |
| StudyAssistant.PriorityColorOf | face_analysis_platform/src/components/StudyAssistant.tsx:89-96 | The colour is gray exactly when the priority is none of "high", "medium" and "low". |
| StudyAssistant.PriorityColorsDistinct | face_analysis_platform/src/components/StudyAssistant.tsx:89-96 | The three priorities get three different, non-gray colours. Any other string gets gray. |
| Text.StartsWith | face_analysis_platform/src/components/UploadZone.tsx:20-21 | `startsWith` holds exactly when the prefix occurs at position 0. The text is then the prefix followed by the rest. |
| UploadZone.VerdictOf | face_analysis_platform/src/components/UploadZone.tsx:19-35 | A file is accepted exactly when its type starts with "image/" or "video/" and its size is at most 10485760 bytes. It is refused for its type exactly when the type is neither. |
| UploadZone.TypeCheckedBeforeSize | face_analysis_platform/src/components/UploadZone.tsx:24-32 | An oversized non-media file gets only the type rejection. |
| UploadZone.ValidFiles | face_analysis_platform/src/components/UploadZone.tsx:19-35 | The accepted files are exactly the dropped files that pass both checks. |
| UploadZone.ValidFilesIsSubsequence | face_analysis_platform/src/components/UploadZone.tsx:19 | The accepted files keep their drop order. |
| UploadZone.AllValidAllKept | face_analysis_platform/src/components/UploadZone.tsx:19-35 | A drop of valid files keeps them all and raises no error notice. |
| UploadZone.RejectionOf | face_analysis_platform/src/components/UploadZone.tsx:24-32 | A file refused for its type raises the not-valid-media notice with its name. A file refused for its size raises the too-large notice with its name. An accepted file raises none. |
| UploadZone.Rejections | face_analysis_platform/src/components/UploadZone.tsx:24-32 | One error notice is raised per rejected file. |
| UploadZone.RejectionsAppend | face_analysis_platform/src/components/UploadZone.tsx:19-32 | The notices follow the file order: those of a list of files are the notices of its first part followed by those of the rest. |
| UploadZone.DropZone.constructor | face_analysis_platform/src/components/UploadZone.tsx:13-14 | The zone starts with no uploaded files. |
| UploadZone.DropZone.OnDrop | face_analysis_platform/src/components/UploadZone.tsx:16-42 | When disabled, a drop does nothing. Otherwise every rejected file raises its notice. If some files are valid, they replace the uploaded list and are handed on, followed by a success notice with their count. If none is valid, the list is unchanged and nothing is handed on. |
| UploadZone.DropZone.RemoveFile | face_analysis_platform/src/components/UploadZone.tsx:54-57 | Removing drops only that position. The list shrinks by one when the index is in range and is unchanged otherwise. |
| Seqs.RemoveAt | face_analysis_platform/src/components/UploadZone.tsx:55 | Elements before the index stay, later ones shift down by one, and an out-of-range index changes nothing. |
| AnalysisChat.StepDelay | face_analysis_platform/src/components/AIAnalysisChat.tsx:173 | Every step fires at least 1500 ms after the start. |
| AnalysisChat.ScheduleStrictlyIncreasing | face_analysis_platform/src/components/AIAnalysisChat.tsx:74-84 | Later steps fire later and report more progress. The last step reports 100. |
| AnalysisChat.ScheduleVisitsStagesInOrder | face_analysis_platform/src/components/AIAnalysisChat.tsx:74-80 | The i-th step's progress falls in the i-th stage of the progress panel. |
| AnalysisChat.KindOf | face_analysis_platform/src/components/AIAnalysisChat.tsx:182 | A file is labelled a video exactly when its type starts with "video/". |
| AnalysisChat.AcceptedPhotoIsImage | face_analysis_platform/src/components/AIAnalysisChat.tsx:182 | An accepted file labelled a photo has an "image/" type. |
| AnalysisChat.Chat.constructor | face_analysis_platform/src/components/AIAnalysisChat.tsx:25-35 | The log starts with one bot greeting. The input is empty and nothing is under way. |
| AnalysisChat.Chat.SetInput | face_analysis_platform/src/components/AIAnalysisChat.tsx:283 | Typing changes only the input. |
| AnalysisChat.Chat.AddMessage | face_analysis_platform/src/components/AIAnalysisChat.tsx:38-47 | Adding a message appends exactly that message and changes nothing else. |
| AnalysisChat.Chat.HandleSendMessage | face_analysis_platform/src/components/AIAnalysisChat.tsx:49-66 | Blank input changes nothing. Otherwise one user message with the text is appended, a reply is scheduled, and the input is cleared. |
| AnalysisChat.Chat.DeliverBotReply | face_analysis_platform/src/components/AIAnalysisChat.tsx:55-63 | The reply timer appends one of the three canned replies. |
| AnalysisChat.Chat.StartAnalysis | face_analysis_platform/src/components/AIAnalysisChat.tsx:68-71 | Starting an analysis sets the busy flag and progress 0. |
| AnalysisChat.Chat.AnalysisStep | face_analysis_platform/src/components/AIAnalysisChat.tsx:82-173 | Step i sets the i-th progress value. Only the last step clears the busy flag and appends the result message. |
| AnalysisChat.Chat.RunSchedule | face_analysis_platform/src/components/AIAnalysisChat.tsx:82-174 | Firing the steps in order shows the progress values 20, 40, 60, 80 and 100. The busy flag ends cleared, and exactly one result message is appended. |
| AnalysisChat.Chat.HandleFileUpload | face_analysis_platform/src/components/AIAnalysisChat.tsx:178-189 | An empty list does nothing. Otherwise only the first file is used: a user note and a bot note, both with its video/photo label, are appended, and the analysis starts. |
| AnalysisChat.Chat.PanelNeverShowsCompletion | face_analysis_platform/src/components/AIAnalysisChat.tsx:263-271 | While the progress panel is shown, the progress is at most 80. So the completion notice and the last stage never appear there. |
| ChatCompanion.OnlyPlainEnterSends | face_analysis_platform/src/components/AIChatCompanion.tsx:76-81 | Enter without Shift sends. Shift+Enter and other keys do not. |
| ChatCompanion.Companion.constructor | face_analysis_platform/src/components/AIChatCompanion.tsx:17-26 | The log starts with exactly one message, the companion's greeting. Nothing is typing. |
| ChatCompanion.Companion.SetInput | face_analysis_platform/src/components/AIChatCompanion.tsx:158 | Typing changes only the input. |
| Text.TrimStart | face_analysis_platform/src/components/AIChatCompanion.tsx:49 | Trimming keeps a suffix of the text that starts with a visible character. It is empty exactly when the text is blank. |
| Text.IsBlank | face_analysis_platform/src/components/AIChatCompanion.tsx:49 | The empty text is blank. Text that starts or ends with a visible character is not. |
| ChatCompanion.Companion.HandleSendMessage | face_analysis_platform/src/components/AIChatCompanion.tsx:48-60 | Blank input changes nothing. Otherwise one user message with the text is appended, the input is cleared, and the typing flag is raised. |
| ChatCompanion.Companion.DeliverReply | face_analysis_platform/src/components/AIChatCompanion.tsx:63-73 | The reply appends one message from the companion, which is one of the ten fixed replies, and clears the typing flag. |
| ChatCompanion.Companion.HandleKeyPress | face_analysis_platform/src/components/AIChatCompanion.tsx:76-81 | Plain Enter prevents the default action and sends. Any other key changes nothing. |
| PeerStories.TruncateContent | face_analysis_platform/src/components/PeerStories.tsx:107-110 | Content no longer than the limit is returned unchanged. Longer content becomes its first maxLength characters followed by "...", so it has length maxLength + 3. |
| PeerStories.TruncationKeepsPrefix | face_analysis_platform/src/components/PeerStories.tsx:107-110 | A truncated text is never more than 3 characters longer than the limit or the content, and it begins with the content. |
| PeerStories.FilteredStories | face_analysis_platform/src/components/PeerStories.tsx:103-105 | "all" yields the stories unchanged. "featured" yields exactly the featured stories, each as often as in the feed. |
| PeerStories.FilteredStoriesMeaning | face_analysis_platform/src/components/PeerStories.tsx:103-105 | "all" yields every story. "featured" yields exactly the featured stories. Both keep the original order. |
| PeerStories.DisplayedText | face_analysis_platform/src/components/PeerStories.tsx:147-181 | Expanded stories and stories of at most 200 characters show in full. All others show 200 characters followed by "...". |
| PeerStories.ExpandThenCollapse | face_analysis_platform/src/components/PeerStories.tsx:178-181 | Expanding a collapsed story shows its full text. Collapsing it again restores the text shown before. |
| PeerStories.StoryFeed.constructor | face_analysis_platform/src/components/PeerStories.tsx:92-93 | The feed starts with nothing expanded and the "all" filter. |
| PeerStories.StoryFeed.ToggleExpanded | face_analysis_platform/src/components/PeerStories.tsx:95-101 | Toggling collapses an expanded story or expands a collapsed one. No id is listed twice. |
| PeerStories.StoryFeed.SetFilter | face_analysis_platform/src/components/PeerStories.tsx:126-141 | The filter buttons set the filter and leave the expanded stories alone. |
| ResourceLibrary.FilteredResources | src/components/ResourceLibrary.tsx:81-87 | The filtered list is never longer than the catalogue. |
| ResourceLibrary.FilteredResourcesMeaning | src/components/ResourceLibrary.tsx:81-87 | A resource is kept exactly when both hold: the lower-cased term occurs in its lower-cased title, description or some tag, and its category matches. The catalogue order is kept. |
| ResourceLibrary.EmptySearchListsAll | src/components/ResourceLibrary.tsx:81-87 | An empty term with "All" lists the whole catalogue. |
| ResourceLibrary.EmptySearchIsCategoryOnly | src/components/ResourceLibrary.tsx:82-85 | With an empty term, only the category decides. |
| ResourceLibrary.SearchIgnoresCase | src/components/ResourceLibrary.tsx:82-84 | Terms that differ only in letter case give the same list. |
| ResourceLibrary.SearchForLowerCase | src/components/ResourceLibrary.tsx:82-84 | Searching for a term and for its lower-case form gives the same list. |
| ResourceLibrary.TypeIconOf | src/components/ResourceLibrary.tsx:89-97 | The book icon goes to articles and to every unknown type, and to nothing else. |
| ResourceLibrary.TypeColorOf | src/components/ResourceLibrary.tsx:99-107 | The colour is gray exactly when the type is not one of the four known types. |
| ResourceLibrary.TypeLookupsDistinguishKnownTypes | src/components/ResourceLibrary.tsx:89-107 | The four types get distinct icons and colours. An unknown type gets the gray colour and the article icon. |
| Text.ToLower | src/components/ResourceLibrary.tsx:82 | Lower-casing keeps the length, leaves no upper-case letter, and changes only upper-case letters. |
| Text.ToLowerIdempotent | src/components/ResourceLibrary.tsx:82-84 | Lower-casing twice is the same as lower-casing once. |
| Text.ContainsEmpty | src/components/ResourceLibrary.tsx:82 | Every text includes the empty term. |
| Text.Contains | src/components/ResourceLibrary.tsx:82-84 | `includes` holds exactly when the term occurs at some position. A term longer than the text never occurs. A prefix is always included. |
| HealthInsights.HealthScore | face_analysis_platform/src/components/HealthInsights.tsx:24-27 | The score is 0 without skin-health data. Otherwise it is within half a point of the mean of the three metrics. |
| HealthInsights.HealthScoreInRange | face_analysis_platform/src/components/HealthInsights.tsx:26 | With each metric in [0, 100], the score is in [0, 100]. |
| HealthInsights.EqualMetricsScore | face_analysis_platform/src/components/HealthInsights.tsx:26 | Three equal metrics score exactly their value. |
| HealthInsights.StatusOf | face_analysis_platform/src/components/HealthInsights.tsx:29-34 | The status is Excellent from 80, Good from 60, Fair from 40, and Needs Attention below 40. |
| HealthInsights.StatusMonotone | face_analysis_platform/src/components/HealthInsights.tsx:29-34 | A higher score never gets a worse status. |
| HealthInsights.Render | face_analysis_platform/src/components/HealthInsights.tsx:19-37 | Nothing renders for missing insights or insights with no keys. Otherwise the score block shows exactly when there is skin-health data, and the status is that of the score. Present suggestion and tip lists are shown unchanged, and missing ones become empty. |
| HealthInsights.ListsOnlyCard | face_analysis_platform/src/components/HealthInsights.tsx:20-37 | Insights with only suggestions still render, with score 0 and the lowest status. |
| Cosmetics.ConfidenceColorOf | face_analysis_platform/src/components/CosmeticsRecommendations.tsx:35-40 | The colour is green from 90, blue from 80, yellow from 70, and red below 70. |
| Cosmetics.ConfidenceColorMonotone | face_analysis_platform/src/components/CosmeticsRecommendations.tsx:35-40 | A higher confidence never gets a lower band. |
| Cosmetics.CategoryIconOf | face_analysis_platform/src/components/CosmeticsRecommendations.tsx:42-54 | Listed categories get their table icon. Any other category gets the lipstick icon. |
| Cosmetics.CategoryIconsDistinct | face_analysis_platform/src/components/CosmeticsRecommendations.tsx:42-54 | Every icon is non-empty, and the eight listed categories have distinct icons. |
| Cosmetics.Categories | face_analysis_platform/src/components/CosmeticsRecommendations.tsx:192 | The category set holds exactly the categories present. Its size is at most the number of products, and at least 1 for a non-empty list. |
| Cosmetics.DistinctCategoriesCount | face_analysis_platform/src/components/CosmeticsRecommendations.tsx:192 | If no two products share a category, there are as many categories as products. |
| Cosmetics.PriceValueOfDollars | face_analysis_platform/src/components/CosmeticsRecommendations.tsx:198 | "$" followed by a whole number reads back as that number. Reading stops at the first character that is neither a digit nor a letter. |
| Cosmetics.PriceValueOfWholeDollars | face_analysis_platform/src/components/CosmeticsRecommendations.tsx:198 | "$" followed by a whole number reads back as that number. |
| Cosmetics.TotalValue | face_analysis_platform/src/components/CosmeticsRecommendations.tsx:198 | The total is NaN exactly when some price does not parse. |
| Cosmetics.SumOrNaN | face_analysis_platform/src/components/CosmeticsRecommendations.tsx:198 | The `reduce` addition is NaN exactly when some term is NaN. |
| Cosmetics.SumOfNumbers | face_analysis_platform/src/components/CosmeticsRecommendations.tsx:198 | With no NaN term, the sum is the sum of the numbers. |
| Cosmetics.TotalOfDollarPrices | face_analysis_platform/src/components/CosmeticsRecommendations.tsx:198 | If every price is "$" and a whole number, the total is the sum of those numbers. |
| Cosmetics.SummaryOf | face_analysis_platform/src/components/CosmeticsRecommendations.tsx:180-198 | Nothing renders for an empty list. Otherwise the summary shows the rounded mean confidence, the number of products, the number of distinct categories (between 1 and the product count), and the total value. |
| Cosmetics.AverageConfidenceBetween | face_analysis_platform/src/components/CosmeticsRecommendations.tsx:180 | The rounded average confidence lies between the lowest and the highest confidence. |
| Text.FirstIndex | face_analysis_platform/src/components/CosmeticsRecommendations.tsx:198 | The position found holds the character, and no earlier position does. |
| Text.RemoveFirst | face_analysis_platform/src/components/CosmeticsRecommendations.tsx:198 | `replace('$', '')` removes the first '$' and keeps every other character in order. It changes nothing when there is no '$'. |
| Decimal.ParseInt | face_analysis_platform/src/components/CosmeticsRecommendations.tsx:198 | `parseInt` gives NaN for blank text. It also gives NaN when the first visible character is neither a sign nor a decimal digit. A negative value needs a leading minus sign. |
| Cosmetics.PriceValue | face_analysis_platform/src/components/CosmeticsRecommendations.tsx:198 | A price without "$" is parsed as written. A price starting with "$" is parsed without that sign. A blank price and a bare "$" are NaN. |
| Decimal.ParseIntOfNumeral | face_analysis_platform/src/components/CosmeticsRecommendations.tsx:198 | `parseInt` reads back any numeral `toString` writes, when what follows is neither a digit nor a letter. |
| AnalysisProgress.StageOf | face_analysis_platform/src/components/AnalysisProgress.tsx:10-47 | The stage is Face Detection up to 20, Feature Analysis up to 40, Skin Analysis up to 60, Recommendations up to 80, and Health Insights above 80. |
| AnalysisProgress.StageMonotone | face_analysis_platform/src/components/AnalysisProgress.tsx:10-47 | More progress never shows an earlier stage. |
| AnalysisProgress.CompletionOnlyInLastStage | face_analysis_platform/src/components/AnalysisProgress.tsx:73 | The completion notice, shown at exactly 100, appears only in the last stage. |

## Left out

- Persistence: loading and saving the mood log through `localStorage` and JSON. The model starts from an empty log.
- Dates, ids and clocks are not computed:
  - `Date.now()` ids are a `freshId` parameter;
  - today's date is a `today` parameter;
  - the ISO 8601 date of the selected `Date` (`toISOString`), time zones, and locale formatting are not modelled;
  - dates are "YYYY-MM-DD" strings ordered lexicographically;
  - message timestamps are dropped.
- MoodTracker.MoodLog.constructor: the calendar is imported but never changes the selected date, so no date-picking operation exists; the date stays the one given at construction.
- MoodTracker.AverageMood: states the evidently intended numeric mean, not what the panel shows; the panel joins string moods (see Findings), which `MoodTracker.AverageMoodAsWritten` models. Neither models the one-decimal `toFixed(1)` string or the mixed number/string return type.
- MoodTracker.AverageMoodAsWritten: returns the exact quotient; the `toFixed(1)` string is not modelled.
- MoodTracker.Mean: the numeric window mean of the intended reading; the panel divides the number spelt by the joined digits instead (`MoodTracker.JoinedMoodValue`).
- MoodTracker.MoodTrend: characterises the ±0.3 comparison of numeric means; the panel compares joined digit strings (`MoodTracker.MoodTrendAsWritten`), under which eight to thirteen entries are always improving.
- MoodTracker.TrendOfSteadyMood: holds for numeric moods only; with the string moods the panel stores, eight to thirteen steady entries read as improving (`MoodTracker.SteadyMoodReadsImprovingAsWritten`).
- MoodTracker.TrendOfClearFall: holds for numeric moods only; with string moods, eight to thirteen entries always read as improving, and from fourteen on the joined numbers decide.
- Floating point: means, shares and scores are exact rationals, so the rounding of binary floating point is not modelled.
- Timers:
  - each timer callback is a step method;
  - overlapping, cancelled or re-armed timers (the interval cleanup in the focus timer) are not modelled;
  - a second analysis cannot start while one is under way, as in the panel, where the upload zone is disabled during an analysis.
- AnalysisChat.Chat.PanelNeverShowsCompletion: assumes React 18 automatic batching, so the progress update and the clearing of `isAnalyzing` in one timeout land in one render. Under legacy rendering, one frame at 100 with the panel shown could appear.
- AnalysisChat.Chat.AnalysisStep: the await continuation of the upload handler is folded into the last step, because it runs before any other timer. The failure branch (`catch`) cannot be reached in the source and is not modelled.
- Randomness: reply choices are parameters. The mock analysis result (landmarks, random shapes and metrics, image URL) is named `ResultSummary` and not built.
- The `onAnalysisComplete` callback and toast notifications are not called. Drop-zone notices are an abstract list.
- The focus timer's progress percentage and its focus-minutes display are not modelled, and neither is the ambient-sound list.
- The upload zone's `formatFileSize`, react-dropzone's `accept` list, its `multiple: false` setting, and object URLs are not modelled. `onDrop` receives whatever files the library passes.
- Text.ToLower: only ASCII letters are lower-cased; full Unicode case mapping is not modelled.
- PeerStories.TruncateContent: lengths count Unicode scalar values, not UTF-16 code units as JavaScript does.
- Decimal.ParseInt: the numeric value is exact; precision loss on very long numerals, and negative zero, are not modelled.
- HealthInsights.Render: a key present with the value `undefined` counts as absent here. `Object.keys` counts it, so for such an object the panel renders a card with score 0 where the model renders nothing.
- Cosmetics.TotalOfDollarPrices: covers non-negative whole-dollar amounts only. A price such as "$-5", which `parseInt` reads as -5, falls outside the lemma, though `TotalValue` handles it.
- Cosmetics.CategoryIconOf: the table is a plain map, so inherited object keys such as "constructor" fall back to the default icon here.
- The fixed catalogues are parameters or are not spelled out: the peer stories, the resources and their categories list, and the canned analysis replies (named by index).
- Colour classes and icons are enumerations, not class strings. All JSX layout, page routing and navigation are not modelled.

## Findings

| source | as written | input that shows it | evidently intended | confidence | as-written member | corrected member |
|---|---|---|---|---|---|---|
| src/components/MoodTracker.tsx:98-103 | `recentEntries` sorts the state array newest first in place. `getMoodTrend` then takes `slice(-7)` of that same array as the recent window, which is the seven oldest entries. | Fourteen daily entries with mood 1 on days 1-7 and mood 5 on days 8-14 are reported as Declining. | The recent window is the seven newest entries, so that fortnight is Improving. | medium, not executed | MoodTracker.RenderedTrendReversesRisingMood | MoodTracker.ChronologicalTrendSeesRisingMood |
| src/components/MoodTracker.tsx:74-78 | The mood buttons are built from `Object.keys` of the emoji table (:144-147), so a saved mood is the string "1" to "5". `acc + entry.mood` then joins digits after the initial 0. | Two entries with moods 4 and 2 give "042" / 2, shown as 21.0. | The mean mood, 3.0. | high, not executed | MoodTracker.AverageOfFourThenTwo | MoodTracker.AverageMood |
| src/components/MoodTracker.tsx:80-91 | The window sums join string moods too, so the recent "mean" with seven entries is a seven-digit number over 7. With eight to thirteen entries it always beats the older window. | Eight entries that all have mood 3 are reported as Improving. | A steady mood is stable. | high, not executed | MoodTracker.SteadyMoodReadsImprovingAsWritten | MoodTracker.TrendOfSteadyMood |
