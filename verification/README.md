# Learning platform bookkeeping, modelled in Dafny

The web application teaches data-analysis skills. Most of it is UI glue around a
hosted language model and browser storage. Inside the React components sits a small
amount of bookkeeping logic, and this project models that logic and proves its
properties:

- **AI tutor** (`AiTutor`): one generated course per skill level.
  - Each course keeps a completion flag per chapter.
  - Chapter assessments are graded: MCQs are compared with the key, and open-ended answers go to an evaluator.
  - A chapter opens only once the previous one is complete.
  - Submitting only unlocked chapters keeps the completed chapters a prefix.
- **Daily practice** (`DailyPractice`, `DateFormat`):
  - the incorrect-attempt counter that unlocks the hint button;
  - the stored solved counter;
  - the per-day activity log, upserted under a `YYYY-MM-DD` local-date key.
- **Progress dashboard** (`Progress`):
  - completed chapters per level;
  - total video minutes of the completed tutorials;
  - the headline counters;
  - the Monday-to-Sunday activity chart.
- **Tutorials and interview prep** (`Tutorials`, `InterviewPrep`, `Membership`):
  - the list-as-set toggle;
  - the fixed tutorial catalogue;
  - the once-per-day cache of interview questions.
- **Mock authentication** (`Auth`, `Login`):
  - the session context (`user`, `loading`);
  - the credential check against the stored email-to-password map.

Modelling choices:
- React components that hold state become classes: `AiTutor.Page`, `DailyPractice.Page`, `InterviewPrep.Page`, `Auth.Context` and `Login.Page`.
  - Each stored key these components own is a plain field.
  - The tutorials and progress pages hold no state of their own beyond what they read, so they become functions. Their stored keys arrive as arguments: `completedTutorials`, and for progress also `challengesSolved`, `activityHistory`, `aiTutor_courses` and `interview-questions-learned`.
  - Each event handler is one method, treated as a single atomic step.
- Pure `map`/`filter`/`find`/`reduce` expressions become functions.
- Language-model calls are inputs to the operations:
  - Tutorial generation, practice-question generation and interview-question generation arrive as `Option` arguments; `None` stands for a rejected promise.
  - The solution evaluator (`EvaluateInput -> Option<Evaluation>`) and the code assistant (`HintInput -> Option<Hint>`) are function parameters; a `None` result stands for a rejected promise. This lets the model state which request each is asked.
- "Today" is an input. The practice log takes the calendar fields read from the clock. Interview prep takes its UTC date string. The week chart takes a day number.

## Model

| member | source | states |
|---|---|---|
| BoolSeqs.AllTrue | src/components/ai-tutor.tsx:129 | `every(Boolean)` holds iff every entry is true (so it holds for the empty list) |
| BoolSeqs.CountTrue | src/components/progress.tsx:72 | `filter(Boolean).length` is at most the length; it equals the length iff all entries are true, and is 0 iff none is |
| BoolSeqs.CountTrueSet | src/components/ai-tutor.tsx:235-236 | setting one false completion flag to true raises the completed count by exactly one |
| BoolSeqs.PrefixClosedShape | src/components/ai-tutor.tsx:361 | a prefix-closed completion list is exactly `CountTrue` trues followed by falses |
| Membership.RemoveAll | src/components/tutorials.tsx:101-102 | the filter removes every occurrence of the title, keeps every other title, and shrinks the list by the number of occurrences; a list without the title is returned unchanged |
| Membership.RemoveAllConcat | src/components/tutorials.tsx:101-102 | filtering distributes over concatenation, so the other titles keep their order |
| Membership.Toggle | src/components/tutorials.tsx:98-107 | a present title is filtered out, an absent one appended at the end; the title's membership flips and every other title's membership is unchanged |
| Membership.ToggleTwiceAbsent | src/components/tutorials.tsx:98-107 | toggling an absent title twice gives back exactly the original list |
| Membership.ToggleNoDuplicates | src/components/tutorials.tsx:98-107 | a toggle never introduces a duplicate into a duplicate-free list |
| Membership.ToggleLength | src/components/tutorials.tsx:98-107 | on a duplicate-free list a toggle changes the length by exactly one, down when present and up when absent |
| AiTutor.NewCourse | src/components/ai-tutor.tsx:162-166 | a generated course has one completion flag per chapter, none set, and keeps the tutorial and topic |
| AiTutor.GradeMcqs | src/components/ai-tutor.tsx:206-208 | one result per MCQ; result i is true iff an answer for i is stored and equals the key exactly, so an unanswered MCQ is wrong |
| AiTutor.GradeOpenEnded | src/components/ai-tutor.tsx:210-223 | `Promise.all` over the verdicts: it succeeds iff every verdict does, then has one result per question equal to that question's verdict |
| AiTutor.EmptyAnswerNotEvaluated | src/components/ai-tutor.tsx:211-213 | a missing or empty answer is judged `{isCorrect: false, feedback: "No answer provided.", score: 0}` whatever the evaluator would say |
| AiTutor.GradeOpenEndedFromOnlyAsksAnswered | src/components/ai-tutor.tsx:210-221 | the evaluator is consulted only on answered questions: two evaluators that agree on those give identical grading |
| AiTutor.AllCorrect | src/components/ai-tutor.tsx:224-225 | `allCorrect` holds iff every MCQ result is true and every open-ended result has `isCorrect` |
| AiTutor.PassingNeedsEveryAnswer | src/components/ai-tutor.tsx:206-225 | a passed assessment had every MCQ answered with the key and every open-ended question answered |
| AiTutor.PassedAssessmentWasAnswered | src/components/ai-tutor.tsx:206-231 | stored results that say "all correct" mean every MCQ was answered with the key and every open-ended question was answered |
| AiTutor.MarkChapterComplete | src/components/ai-tutor.tsx:235-236 | the copied progress has the same length, has the chapter's flag set, and agrees with the old progress everywhere else |
| AiTutor.CompleteUnlockedKeepsPrefix | src/components/ai-tutor.tsx:235-236 | completing a chapter that is not locked keeps the completed chapters a prefix |
| AiTutor.UnlockedIffWithinProgress | src/components/ai-tutor.tsx:361 | in a prefix-closed course, chapter i is open iff i is at most the number of completed chapters: the completed ones and the next one |
| AiTutor.NewCourseOpensOnlyFirstChapter | src/components/ai-tutor.tsx:162-166 | every new course is prefix-closed and has only chapter 0 open, whatever the generator returned |
| AiTutor.ConformingCourseHasFiveChapters | src/components/ai-tutor.tsx:162-166 | a new course from a schema-conforming tutorial has at least five completion flags |
| AiTutor.Page.AllChaptersComplete | src/components/ai-tutor.tsx:129 | true iff a course is loaded and every one of its completion flags is set |
| AiTutor.Page.constructor | src/components/ai-tutor.tsx:101-142 | first render: the stored courses, form at Beginner/SQL, no answers or results; shows the stored Beginner course if there is one, the form otherwise |
| AiTutor.Page.SyncCourse | src/components/ai-tutor.tsx:131-142 | the course effect shows the stored course of the selected level in the tutorial view, or the form when none is stored; nothing else changes |
| AiTutor.Page.SelectSkillLevel | src/components/ai-tutor.tsx:131-142 | picking a level shows that level's stored course, or the form when none is stored; the store, topic, answers, results, active chapter and evaluation flag are unchanged |
| AiTutor.Page.OnSubmit | src/components/ai-tutor.tsx:149-182 | only the chosen level's course is dropped; on success the new course is stored under that level alone and shown; on failure the level stays empty and the form returns; other levels are untouched |
| AiTutor.Page.SetActiveChapter | src/components/ai-tutor.tsx:144-147 | opening a chapter clears the answers and the results and changes nothing else |
| AiTutor.Page.AnswerChange | src/components/ai-tutor.tsx:184-196 | records one answer under its index in the chosen answer map and leaves everything else unchanged |
| AiTutor.Page.SubmitAssessment | src/components/ai-tutor.tsx:198-261 | no-op without a course; otherwise results are stored when every evaluation succeeds; a pass sets only that chapter's flag, in both the current course and the store, and clears the answers; anything else leaves progress and answers unchanged; completing an unlocked chapter keeps completion prefix-closed; evaluation ends |
| AiTutor.Page.ResetTutorial | src/components/ai-tutor.tsx:263-272 | removes only the selected level's course, keeps every other level's, and returns to the form |
| DateFormat.Decimal | src/components/daily-practice.tsx:157-159 | `String(n)` is a non-empty string of decimal digits |
| DateFormat.PadStart | src/components/daily-practice.tsx:158-159 | `padStart` gives at least the target width, ends with the original string and is filled with the pad character before it |
| DateFormat.TwoDigitsValue | src/components/daily-practice.tsx:158-159 | a number below 100 padded to two characters is two digits that read back as the number |
| DateFormat.DateKeyFormat | src/components/daily-practice.tsx:156-159 | the `today` key is `YYYY-MM-DD`: ten characters, dashes at 4 and 7, the four-digit year, then the 1-based month and the day each in two digits |
| DateFormat.ParseDateKeyRoundTrip | src/components/daily-practice.tsx:156-159 | reading the key back gives the date it was made from |
| DateFormat.DateKeyInjective | src/components/daily-practice.tsx:156-159 | different dates get different keys, so a key identifies one day of the log |
| DailyPractice.IncrementOn | src/components/daily-practice.tsx:163-167 | the `map` keeps length and dates and raises by one exactly the counts of entries dated today |
| DailyPractice.RecordSolved | src/components/daily-practice.tsx:161-172 | with an entry for today, only today's count rises by one and the length is kept; otherwise `{date: today, count: 1}` is appended at the end; either way today has an entry |
| DailyPractice.RecordSolvedKeepsUniqueDates | src/components/daily-practice.tsx:161-172 | a log with unique dates keeps unique dates after the upsert |
| DailyPractice.RecordSolvedAddsOne | src/components/daily-practice.tsx:161-172 | with unique dates, the total of all counts rises by exactly one |
| DailyPractice.Page.constructor | src/components/daily-practice.tsx:81-105 | first render: nothing loaded, no attempts, technology SQL, the stored counter and log as found |
| DailyPractice.Page.ShowHintButton | src/components/daily-practice.tsx:216 | the hint button shows iff there have been at least five incorrect attempts; the methods below state how each handler moves it |
| DailyPractice.Page.ResetChallengeState | src/components/daily-practice.tsx:107-113 | clears practice data, hint, result and code, sets the attempts to 0 so the hint button is hidden, and touches nothing stored |
| DailyPractice.Page.OnSubmit | src/components/daily-practice.tsx:115-131 | a new challenge starts from a reset state (no attempts, hint button hidden) and shows the generated question, or none on failure; loading ends; the stored counter and log are unchanged |
| DailyPractice.Page.SelectTechnology | src/components/daily-practice.tsx:258-268 | picking a technology in the form replaces the one the next submission and hint request send, and changes nothing else |
| DailyPractice.Page.SetUserCode | src/components/daily-practice.tsx:358 | typing replaces the code |
| DailyPractice.Page.SubmitSolution | src/components/daily-practice.tsx:133-187 | no-op without a challenge. Correct: attempts reset to 0 and the hint button hides, solved count +1, log upserted under today's key. Incorrect: attempts +1, so the button shows iff there were already four or more misses; solved count and log unchanged. Failed call: no counter or button changes. Evaluated with the form's current technology. Submitting ends |
| DailyPractice.Page.GetHint | src/components/daily-practice.tsx:189-214 | no-op without a challenge; otherwise the hint is the assistant's answer about the current code, and no counter changes |
| Tutorials.CatalogueShape | src/components/tutorials.tsx:20-93 | the catalogue has eight entries with pairwise-distinct titles and positive durations |
| Tutorials.ToggleFlipsProgress | src/components/tutorials.tsx:98-120 | a card's progress is 100 iff its title is completed and 0 otherwise; toggling a tutorial flips its own progress between 0 and 100 and leaves every other card's progress alone |
| Progress.CourseProgress | src/components/progress.tsx:71-80 | `completed` is the number of set flags and `total` the chapter count; for a well-formed course, completed ≤ total, with equality iff every chapter is complete |
| Progress.TutorProgress | src/components/progress.tsx:71-80 | there is one progress entry per stored level and none for the others |
| Progress.LevelCardOf | src/components/progress.tsx:161-175 | a level without a course shows `0 / 0` and "No course started"; a stored one shows its completed and total counts and "chapters completed" |
| Progress.PassingRaisesCard | src/components/progress.tsx:71-80 | passing one more chapter of a well-formed course raises its card's completed count by exactly one and keeps the total |
| Progress.DurationOf | src/components/progress.tsx:85-86 | a title absent from the catalogue contributes 0 minutes |
| Progress.DurationOfFirstMatch | src/components/progress.tsx:85-86 | a listed title contributes the duration of its first catalogue entry |
| Progress.TotalVideoTimeAppend | src/components/progress.tsx:84-87 | appending a completed title adds exactly its catalogue duration to the total |
| Progress.TotalVideoTimeRemove | src/components/progress.tsx:84-87 | filtering a title out of a duplicate-free list takes away exactly its duration, if it was there |
| Progress.ToggleVideoTime | src/components/progress.tsx:84-87 | on a duplicate-free list, toggling a tutorial moves the video time up or down by exactly its duration |
| Progress.StatsOf | src/components/progress.tsx:91-97 | "Tutorials Completed" and "Interview Qs Learned" are the lengths of their lists, "Challenges Solved" is the stored counter, video time is the sum over the catalogue, and the streak is "0 days" |
| Progress.ToggleTutorialMovesStats | src/components/progress.tsx:91-95 | on a duplicate-free list, toggling a tutorial moves "Tutorials Completed" by one and the video time by exactly its catalogue duration, in the same direction; the other counters stay |
| Progress.MarkLearnedMovesStats | src/components/progress.tsx:94 | on a duplicate-free list, marking a question learned or unlearned moves "Interview Qs Learned" by exactly one and no other counter |
| Progress.DayOfWeek | src/components/progress.tsx:105 | `getDay()` is a weekday number in 0..6 |
| Progress.MondayOffset | src/components/progress.tsx:107 | the offset back to Monday is at most 6 and always lands on weekday 1 |
| Progress.SlotIndex | src/components/progress.tsx:121 | `(getDay() + 6) % 7` lies in 0..6, with Monday at 0 and Sunday at 6 |
| Progress.StartOfWeekIsMonday | src/components/progress.tsx:104-108 | the week start is a Monday, at most six days before today |
| Progress.SlotOfWeekDay | src/components/progress.tsx:110-122 | day i after the Monday lands in slot i, so the seven days hit each slot exactly once |
| Progress.FindFirst | src/components/progress.tsx:119 | `find` returns the first entry with the date, or nothing when no entry has it |
| Progress.FillDay | src/components/progress.tsx:119-123 | one pass of the loop: when the day's date has a log entry, the weekday slot it writes is the day's own slot and gets the first entry's count; no other slot changes |
| Progress.WeekChartData | src/components/progress.tsx:100-125 | exactly seven bars labelled Mon..Sun; bar k shows the count of the first log entry dated the k-th day of the current week, or 0 when there is none |
| Progress.SlotIgnoresOtherDates | src/components/progress.tsx:119-123 | a log entry for another date does not move a day's bar |
| Progress.RecordSolvedRaisesToday | src/components/progress.tsx:119-123 | a correct practice answer raises today's bar by exactly one and leaves every other day's bar alone |
| InterviewPrep.Page.constructor | src/components/interview-prep.tsx:27-31 | first render: no questions, not loading, storage as found |
| InterviewPrep.Page.FetchQuestions | src/components/interview-prep.tsx:35-53 | success sets the shown questions and the cache to the result and stamps today, so a non-empty result is reused by a mount later today and by no mount on another day; failure changes none of them; loading ends either way; the learned list is untouched |
| InterviewPrep.Page.Mount | src/components/interview-prep.tsx:66-75 | the cache is shown iff it was stamped today and is non-empty, with nothing else changed; otherwise a fetch runs and the learned list is emptied, so no question shows as learned, and a non-empty fetched set becomes today's cache |
| InterviewPrep.Page.MarkAsLearned | src/components/interview-prep.tsx:55-64 | the learned list is toggled: whether the question shows as learned (`includes`, line 99) flips, and every other question's is unchanged |
| Auth.Context.Default | src/hooks/use-auth.tsx:17-22 | outside a provider the context has no user and is loading |
| Auth.Context.Provider | src/hooks/use-auth.tsx:24-27 | the provider starts with the stored user and loading true |
| Auth.Context.Mount | src/hooks/use-auth.tsx:29-33 | the mount effect ends loading in a provider and leaves the user alone |
| Auth.Context.Login | src/hooks/use-auth.tsx:35-37 | in a provider the user becomes exactly `{email}`; the default context does nothing; loading is never touched |
| Auth.Context.Logout | src/hooks/use-auth.tsx:39-41 | in a provider no user is left (so login then logout leaves none); the default context does nothing; loading is never touched |
| Login.DefaultCredentialsSucceed | src/app/login/page.tsx:43-52 | with the default user map, `user@example.com` signs in with `password123` and with no other password |
| Login.Page.constructor | src/app/login/page.tsx:42-45 | first render: not loading, the stored user map, no navigation, no failure shown |
| Login.Page.OnSubmit | src/app/login/page.tsx:55-74 | valid credentials call `login(email)` and navigate to `/dashboard`; an unknown email, an empty stored password or a different password shows the failure and neither signs in nor navigates; navigation happens only for a known email whose non-empty stored password was entered; loading ends in both outcomes |

## Left out

- Prompt templates and language-model calls (`src/ai/flows/*`) are not part of this model. Their results are inputs to the operations.
  - The tutorial schema appears as `AiTutor.ConformsToSchema` (at least five chapters, two MCQs and three open-ended questions per chapter). Only `ConformingCourseHasFiveChapters`, the lemma that a new course has at least five chapters, uses it; the operations do not require it, because the component does not check it.
  - The interview schema's "exactly five questions" is not modelled. The cache rule only needs a non-empty set, and the contracts state it for any non-empty set.
  - The evaluator's score bound (0..100) is not modelled, because no modelled operation reads the score. `score` is an `int`, while the source has a JavaScript number.
- Rendering, toasts, icons and styling are left out. The login page's failure toast is kept only as a flag.
- Routing: `router.push` is recorded as a navigation target. The "redirect to login only once `loading` is false" rule of the other pages is not modelled.
- `useLocalStorage` is not part of this model. Serialisation is left out. A stored key is a plain field of the class that owns it, or an argument of the tutorials and progress functions that read it.
- JavaScript `Date`, time zones and `toISOString` are left out.
  - The practice key is built from calendar fields given as input.
  - The interview cache uses a UTC date string given as input.
  - The week chart gets the conversion from a day number to a local calendar key as a parameter, `localDateKey`. `DateFormat.DateKey` is that key's format.
- Async scheduling is left out: each handler is one atomic step. This leaves out:
  - the `Promise.all` fan-out;
  - the simulated 500 ms login delay;
  - React's batching and effect interleaving. For example, the course effect runs when `onSubmit` first clears the level, and it can show the form while generation is still running.
- zod and react-hook-form validation (such as the email format) are left out. That is library code.
- `src/lib/auth.ts` is left out: it is a constant stub.
- Of the tutorial catalogue fields, only `title` and `duration` are read by logic. `category` and `videoUrl` are kept in `Tutorials.TutorialInfo` but are read only by the view. The description, image and image hint are left out.
- The learned-question hook's array identity and React keys are left out.
- AiTutor.Page.SubmitAssessment: requires an in-range chapter index, as the page only offers existing chapters. An out-of-range index would make the source throw on `undefined`.
- AiTutor.Page.SubmitAssessment: the open-ended verdicts are grouped into one all-or-nothing `Option`, as `Promise.all` does. Which evaluation failed first is not recorded.
- InterviewPrep.Page.FetchQuestions: `isLoading` being true during the request is not observable in a one-step model. The method states only that it is false afterwards.
- Login.Page.OnSubmit: `isLoading` being true during the delay is not observable in a one-step model. The method states only that it is false afterwards.
- Progress.WeekChartData: the date a bar shows is `localDateKey` of a day number. The proof that `localDateKey` produces the `YYYY-MM-DD` local date (calendar arithmetic and time zones) is not part of this model.
- Progress.TotalVideoTime sums from the head of the list rather than as a left fold. For a sum of naturals the two give the same total.
- DailyPractice.Page.SubmitSolution: the solved counter and the log are updated in the same step. The source makes two separate storage writes.
