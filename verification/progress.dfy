/**
 * The progress dashboard: per-level chapter counts, total video time of completed
 * tutorials, the headline counters and the Monday-to-Sunday activity chart.
 */
module Progress {
  import opened Wrappers
  import opened BoolSeqs
  import opened Membership
  import AiTutor
  import Tutorials
  import DailyPractice

  // ---------------------------------------------------------------- AI tutor progress

  datatype LevelProgress = LevelProgress(level: AiTutor.SkillLevel, completed: nat, total: nat)

  /** One entry of `aiTutorProgress`: completed chapters and chapter count of a stored course. */
  function CourseProgress(level: AiTutor.SkillLevel, data: AiTutor.CourseData): (p: LevelProgress)
    ensures p.level == level && p.total == |data.tutorialData.chapters|
    ensures p.completed <= |data.completedChapters|
    ensures AiTutor.WellFormed(data) ==> p.completed <= p.total
    ensures AiTutor.WellFormed(data) ==> (p.completed == p.total <==> AllTrue(data.completedChapters))
  {
    LevelProgress(level, CountTrue(data.completedChapters), |data.tutorialData.chapters|)
  }

  /** `aiTutorProgress`: one entry per stored level, none for the others. */
  function TutorProgress(courses: AiTutor.Courses): (r: map<AiTutor.SkillLevel, LevelProgress>)
    ensures r.Keys == courses.Keys
  {
    map l | l in courses :: CourseProgress(l, courses[l])
  }

  /** A level's card: its counts and caption. */
  datatype LevelCard = LevelCard(completed: nat, total: nat, caption: string)

  function LevelCardOf(courses: AiTutor.Courses, level: AiTutor.SkillLevel): (card: LevelCard)
    ensures level !in courses ==> card == LevelCard(0, 0, "No course started")
    ensures level in courses ==>
              && card.caption == "chapters completed"
              && card.completed == CountTrue(courses[level].completedChapters)
              && card.total == |courses[level].tutorialData.chapters|
  {
    var progress := TutorProgress(courses);
    if level in progress then LevelCard(progress[level].completed, progress[level].total, "chapters completed")
    else LevelCard(0, 0, "No course started")
  }

  /** Passing one more chapter of a well-formed course moves its card up by exactly one. */
  lemma PassingRaisesCard(courses: AiTutor.Courses, level: AiTutor.SkillLevel, k: nat)
    requires level in courses && AiTutor.WellFormed(courses[level])
    requires k < |courses[level].completedChapters| && !courses[level].completedChapters[k]
    ensures var c := courses[level];
            var passed := courses[level := c.(completedChapters := c.completedChapters[k := true])];
            && LevelCardOf(passed, level).completed == LevelCardOf(courses, level).completed + 1
            && LevelCardOf(passed, level).total == LevelCardOf(courses, level).total
  {
    CountTrueSet(courses[level].completedChapters, k);
  }

  // ---------------------------------------------------------------- video time

  /** `tutorials.find(t => t.title === title)?.duration || 0`. */
  function DurationOf(catalogue: seq<Tutorials.TutorialInfo>, title: string): (d: nat)
    ensures title !in Tutorials.Titles(catalogue) ==> d == 0
  {
    if catalogue == [] then 0
    else if catalogue[0].title == title then catalogue[0].duration
    else
      assert Tutorials.Titles(catalogue[1..]) == Tutorials.Titles(catalogue)[1..];
      DurationOf(catalogue[1..], title)
  }

  /** A listed title counts with the duration of its first catalogue entry. */
  lemma {:induction false} DurationOfFirstMatch(catalogue: seq<Tutorials.TutorialInfo>, title: string, i: nat)
    requires i < |catalogue| && catalogue[i].title == title
    requires forall j :: 0 <= j < i ==> catalogue[j].title != title
    ensures DurationOf(catalogue, title) == catalogue[i].duration
  {
    if i > 0 {
      DurationOfFirstMatch(catalogue[1..], title, i - 1);
    }
  }

  /** The `reduce` that sums the catalogue durations of the completed titles. */
  function TotalVideoTime(catalogue: seq<Tutorials.TutorialInfo>, completed: seq<string>): nat
  {
    if completed == [] then 0 else DurationOf(catalogue, completed[0]) + TotalVideoTime(catalogue, completed[1..])
  }

  /** Completing a new tutorial adds its catalogue duration (0 for an unknown title). */
  lemma {:induction false} TotalVideoTimeAppend(catalogue: seq<Tutorials.TutorialInfo>, completed: seq<string>, title: string)
    ensures TotalVideoTime(catalogue, completed + [title]) == TotalVideoTime(catalogue, completed) + DurationOf(catalogue, title)
  {
    if completed != [] {
      assert (completed + [title])[1..] == completed[1..] + [title];
      TotalVideoTimeAppend(catalogue, completed[1..], title);
    } else {
      assert [title][1..] == [];
    }
  }

  /** Removing a title from a duplicate-free list takes away its duration, if it was there. */
  lemma {:induction false} TotalVideoTimeRemove(catalogue: seq<Tutorials.TutorialInfo>, completed: seq<string>, title: string)
    requires NoDuplicates(completed)
    ensures TotalVideoTime(catalogue, RemoveAll(completed, title)) + (if title in completed then DurationOf(catalogue, title) else 0)
            == TotalVideoTime(catalogue, completed)
  {
    if completed != [] {
      var tail := completed[1..];
      assert NoDuplicates(tail) by {
        forall i, j | 0 <= i < j < |tail| ensures tail[i] != tail[j] {
          assert completed[i + 1] != completed[j + 1];
        }
      }
      if completed[0] == title {
        assert title !in tail;
        assert RemoveAll(completed, title) == RemoveAll(tail, title) == tail;
      } else {
        TotalVideoTimeRemove(catalogue, tail, title);
        var rest := RemoveAll(tail, title);
        assert RemoveAll(completed, title) == [completed[0]] + rest;
        assert ([completed[0]] + rest)[1..] == rest;
        assert title in completed <==> title in tail;
      }
    }
  }

  /** The video-time stat after a toggle of a duplicate-free list moves by exactly the title's duration. */
  lemma ToggleVideoTime(catalogue: seq<Tutorials.TutorialInfo>, completed: seq<string>, title: string)
    requires NoDuplicates(completed)
    ensures title !in completed ==>
              TotalVideoTime(catalogue, Toggle(completed, title)) == TotalVideoTime(catalogue, completed) + DurationOf(catalogue, title)
    ensures title in completed ==>
              TotalVideoTime(catalogue, Toggle(completed, title)) == TotalVideoTime(catalogue, completed) - DurationOf(catalogue, title)
  {
    if title in completed {
      TotalVideoTimeRemove(catalogue, completed, title);
    } else {
      TotalVideoTimeAppend(catalogue, completed, title);
    }
  }

  // ---------------------------------------------------------------- headline counters

  datatype ProgressStats = ProgressStats(tutorialsCompleted: nat, challengesSolved: int,
                                         interviewQsLearned: nat, videoMinutes: nat, currentStreak: string)

  /** `progressStats`: list lengths, the stored solved counter, the video time and a fixed streak. */
  function StatsOf(completedTutorials: seq<string>, solvedCount: int, learnedQuestions: seq<string>): (s: ProgressStats)
    ensures s.tutorialsCompleted == |completedTutorials| && s.interviewQsLearned == |learnedQuestions|
    ensures s.challengesSolved == solvedCount && s.currentStreak == "0 days"
    ensures s.videoMinutes == TotalVideoTime(Tutorials.Catalogue, completedTutorials)
  {
    ProgressStats(|completedTutorials|, solvedCount, |learnedQuestions|, TotalVideoTime(Tutorials.Catalogue, completedTutorials), "0 days")
  }

  /**
   * Toggling a tutorial moves "Tutorials Completed" by one and the video time by that
   * tutorial's duration, in the same direction; the other counters stay.
   */
  lemma ToggleTutorialMovesStats(completed: seq<string>, solvedCount: int, learned: seq<string>, title: string)
    requires NoDuplicates(completed)
    ensures var before := StatsOf(completed, solvedCount, learned);
            var after := StatsOf(Toggle(completed, title), solvedCount, learned);
            && (title !in completed ==>
                  && after.tutorialsCompleted == before.tutorialsCompleted + 1
                  && after.videoMinutes == before.videoMinutes + DurationOf(Tutorials.Catalogue, title))
            && (title in completed ==>
                  && after.tutorialsCompleted == before.tutorialsCompleted - 1
                  && after.videoMinutes == before.videoMinutes - DurationOf(Tutorials.Catalogue, title))
            && after.challengesSolved == before.challengesSolved
            && after.interviewQsLearned == before.interviewQsLearned
            && after.currentStreak == before.currentStreak
  {
    ToggleLength(completed, title);
    ToggleVideoTime(Tutorials.Catalogue, completed, title);
  }

  /** Marking an interview question learned or unlearned moves "Interview Qs Learned" by one and nothing else. */
  lemma MarkLearnedMovesStats(completed: seq<string>, solvedCount: int, learned: seq<string>, question: string)
    requires NoDuplicates(learned)
    ensures var before := StatsOf(completed, solvedCount, learned);
            var after := StatsOf(completed, solvedCount, Toggle(learned, question));
            && (question !in learned ==> after.interviewQsLearned == before.interviewQsLearned + 1)
            && (question in learned ==> after.interviewQsLearned == before.interviewQsLearned - 1)
            && after.tutorialsCompleted == before.tutorialsCompleted && after.videoMinutes == before.videoMinutes
            && after.challengesSolved == before.challengesSolved && after.currentStreak == before.currentStreak
  {
    ToggleLength(learned, question);
  }

  // ---------------------------------------------------------------- weekly chart

  const Days: seq<string> := ["Mon", "Tue", "Wed", "Thu", "Fri", "Sat", "Sun"]

  datatype DaySlot = DaySlot(day: string, questions: int)

  /** `getDay()` of a local day number, with day 0 = 1970-01-01, a Thursday: Sunday is 0. */
  function DayOfWeek(day: int): (w: nat)
    ensures w < 7
  {
    (day + 4) % 7
  }

  /** Days back from today to this week's Monday. */
  function MondayOffset(currentDay: nat): (offset: nat)
    requires currentDay < 7
    ensures offset <= 6
    ensures (currentDay + 7 - offset) % 7 == 1
  {
    if currentDay == 0 then 6 else currentDay - 1
  }

  function StartOfWeek(today: int): int
  {
    today - MondayOffset(DayOfWeek(today))
  }

  /** `(getDay() + 6) % 7`: Monday 0 to Sunday 6. */
  function SlotIndex(weekday: nat): (k: nat)
    requires weekday < 7
    ensures k < 7
    ensures weekday == 1 ==> k == 0
    ensures weekday == 0 ==> k == 6
  {
    (weekday + 6) % 7
  }

  lemma StartOfWeekIsMonday(today: int)
    ensures DayOfWeek(StartOfWeek(today)) == 1
    ensures StartOfWeek(today) <= today < StartOfWeek(today) + 7
  {
  }

  /** Day `i` of the week starting on Monday lands in slot `i`: each slot is hit exactly once. */
  lemma SlotOfWeekDay(monday: int, i: nat)
    requires DayOfWeek(monday) == 1 && i < 7
    ensures SlotIndex(DayOfWeek(monday + i)) == i
  {
    assert (monday + i + 4) % 7 == ((monday + 4) % 7 + i) % 7;
  }

  /** `activityHistory.find(h => h.date === date)`: the first entry with that date. */
  function FindFirst(history: seq<DailyPractice.ActivityEntry>, date: string, k: nat): (r: Option<nat>)
    requires k <= |history|
    ensures r.None? ==> forall j :: k <= j < |history| ==> history[j].date != date
    ensures r.Some? ==> k <= r.value < |history| && history[r.value].date == date
    ensures r.Some? ==> forall j :: k <= j < r.value ==> history[j].date != date
    decreases |history| - k
  {
    if k == |history| then None
    else if history[k].date == date then Some(k)
    else FindFirst(history, date, k + 1)
  }

  /** What a day's bar shows: the count of its first log entry, or 0 without one. */
  function SlotValue(history: seq<DailyPractice.ActivityEntry>, date: string): int
  {
    match FindFirst(history, date, 0)
    case None => 0
    case Some(i) => history[i].count
  }

  /**
   * One pass of the chart loop, for day `i` of the week starting on `monday`: when the
   * log has an entry for `dateString`, its count goes into the day's weekday slot, which
   * is slot `i`; otherwise nothing changes.
   */
  method FillDay(weekData: array<DaySlot>, history: seq<DailyPractice.ActivityEntry>, monday: int, i: nat,
                 dateString: string)
    requires weekData.Length == 7 && DayOfWeek(monday) == 1 && i < 7
    modifies weekData
    ensures FindFirst(history, dateString, 0).Some? ==>
              weekData[i] == old(weekData[i]).(questions := SlotValue(history, dateString))
    ensures FindFirst(history, dateString, 0).None? ==> weekData[i] == old(weekData[i])
    ensures forall k :: 0 <= k < 7 && k != i ==> weekData[k] == old(weekData[k])
  {
    var historyEntry := FindFirst(history, dateString, 0);
    if historyEntry.Some? {
      var dayIndex := SlotIndex(DayOfWeek(monday + i));
      SlotOfWeekDay(monday, i);
      weekData[dayIndex] := weekData[dayIndex].(questions := history[historyEntry.value].count);
    }
  }

  /**
   * `getWeekChartData`: seven bars Mon..Sun, each showing the count logged on that
   * day of the current week. `localDateKey` gives the `YYYY-MM-DD` key (DateFormat.DateKey)
   * of the local calendar date of a day number.
   */
  method WeekChartData(history: seq<DailyPractice.ActivityEntry>, today: int, localDateKey: int -> string)
    returns (week: seq<DaySlot>)
    ensures |week| == 7
    ensures forall k :: 0 <= k < 7 ==>
              week[k].day == Days[k] && week[k].questions == SlotValue(history, localDateKey(StartOfWeek(today) + k))
  {
    var weekData := new DaySlot[7](i requires 0 <= i < 7 => DaySlot(Days[i], 0));
    var currentDay := DayOfWeek(today);
    var startOfWeek := today - MondayOffset(currentDay);
    assert startOfWeek == StartOfWeek(today);
    StartOfWeekIsMonday(today);
    for i := 0 to 7
      invariant forall k :: 0 <= k < i ==> weekData[k] == DaySlot(Days[k], SlotValue(history, localDateKey(startOfWeek + k)))
      invariant forall k :: i <= k < 7 ==> weekData[k] == DaySlot(Days[k], 0)
    {
      FillDay(weekData, history, startOfWeek, i, localDateKey(startOfWeek + i));
    }
    week := weekData[..];
  }

  /** A log entry dated outside the chart's day does not move that day's bar. */
  lemma SlotIgnoresOtherDates(history: seq<DailyPractice.ActivityEntry>, e: DailyPractice.ActivityEntry, date: string)
    requires e.date != date
    ensures SlotValue(history + [e], date) == SlotValue(history, date)
  {
    FindFirstAppend(history, e, date, 0);
  }

  lemma {:induction false} FindFirstAppend(history: seq<DailyPractice.ActivityEntry>, e: DailyPractice.ActivityEntry,
                                           date: string, k: nat)
    requires e.date != date && k <= |history|
    ensures FindFirst(history + [e], date, k) == FindFirst(history, date, k)
    decreases |history| - k
  {
    if k < |history| {
      assert (history + [e])[k] == history[k];
      FindFirstAppend(history, e, date, k + 1);
    }
  }

  /** Solving a practice challenge today raises today's bar by exactly one and leaves other days alone. */
  lemma RecordSolvedRaisesToday(history: seq<DailyPractice.ActivityEntry>, today: string, other: string)
    requires other != today
    ensures SlotValue(DailyPractice.RecordSolved(history, today), today) == SlotValue(history, today) + 1
    ensures SlotValue(DailyPractice.RecordSolved(history, today), other) == SlotValue(history, other)
  {
    var r := DailyPractice.RecordSolved(history, today);
    if DailyPractice.HasEntry(history, today) {
      FindFirstSameDates(history, r, today, 0);
      FindFirstSameDates(history, r, other, 0);
    } else {
      SlotIgnoresOtherDates(history, DailyPractice.ActivityEntry(today, 1), other);
      assert FindFirst(r, today, |history|) == Some(|history|);
      FindFirstSkips(r, today, 0, |history|);
    }
  }

  /** Two logs with the same dates position by position find the same first entry. */
  lemma {:induction false} FindFirstSameDates(a: seq<DailyPractice.ActivityEntry>, b: seq<DailyPractice.ActivityEntry>,
                                              date: string, k: nat)
    requires |a| == |b| && k <= |a|
    requires forall i :: 0 <= i < |a| ==> a[i].date == b[i].date
    ensures FindFirst(a, date, k) == FindFirst(b, date, k)
    decreases |a| - k
  {
    if k < |a| {
      FindFirstSameDates(a, b, date, k + 1);
    }
  }

  /** The search passes over a stretch of entries that do not carry the date. */
  lemma {:induction false} FindFirstSkips(h: seq<DailyPractice.ActivityEntry>, date: string, k: nat, m: nat)
    requires k <= m <= |h|
    requires forall j :: k <= j < m ==> h[j].date != date
    ensures FindFirst(h, date, k) == FindFirst(h, date, m)
    decreases m - k
  {
    if k < m {
      FindFirstSkips(h, date, k + 1, m);
    }
  }
}
