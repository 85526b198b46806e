/**
 * The daily practice challenge: a generated question, the learner's code, an
 * incorrect-attempt counter that unlocks hints, the stored solved counter and the
 * per-day activity log.
 */
module DailyPractice {
  import opened Wrappers
  import opened SolutionEvaluation
  import opened DateFormat

  datatype QuestionType = Coding | Theoretical | Numerical
  datatype DataTable = DataTable(tableName: string, headers: seq<string>, rows: seq<seq<string>>)

  /** What the practice question generator returns. */
  datatype PracticeQuestion = PracticeQuestion(questionType: QuestionType, description: string,
                                               table: Option<DataTable>, solution: string)

  /** What the code assistant is asked, and what it returns. */
  datatype HintInput = HintInput(exerciseDescription: string, userCode: string, programmingLanguage: string)
  datatype Hint = Hint(hint: string, solution: string, explanation: string)

  /** One day of the `activityHistory` log. */
  datatype ActivityEntry = ActivityEntry(date: string, count: int)

  /** Attempts after which the hint button appears. */
  const HintThreshold := 5

  predicate HasEntry(history: seq<ActivityEntry>, date: string)
  {
    exists i :: 0 <= i < |history| && history[i].date == date
  }

  /** No two log entries share a date. */
  predicate UniqueDates(history: seq<ActivityEntry>)
  {
    forall i, j :: 0 <= i < j < |history| ==> history[i].date != history[j].date
  }

  /** Sum of all counts in the log. */
  function TotalCount(history: seq<ActivityEntry>): int
  {
    if history == [] then 0 else TotalCount(history[..|history| - 1]) + history[|history| - 1].count
  }

  /** Number of entries dated `date`. */
  function EntriesOn(history: seq<ActivityEntry>, date: string): nat
  {
    if history == [] then 0
    else EntriesOn(history[..|history| - 1], date) + (if history[|history| - 1].date == date then 1 else 0)
  }

  /** `prev.map(entry => entry.date === today ? {...entry, count: entry.count + 1} : entry)`. */
  function IncrementOn(history: seq<ActivityEntry>, date: string): (r: seq<ActivityEntry>)
    ensures |r| == |history|
    ensures forall i :: 0 <= i < |history| ==>
              r[i].date == history[i].date
              && r[i].count == history[i].count + (if history[i].date == date then 1 else 0)
  {
    if history == [] then []
    else IncrementOn(history[..|history| - 1], date)
         + [var e := history[|history| - 1]; if e.date == date then e.(count := e.count + 1) else e]
  }

  /**
   * The `setActivityHistory` updater after a correct answer: bump today's entry if
   * there is one, otherwise append `{date: today, count: 1}`.
   */
  function RecordSolved(history: seq<ActivityEntry>, today: string): (r: seq<ActivityEntry>)
    ensures HasEntry(history, today) ==>
              |r| == |history|
              && forall i :: 0 <= i < |history| ==>
                   r[i].date == history[i].date
                   && r[i].count == history[i].count + (if history[i].date == today then 1 else 0)
    ensures !HasEntry(history, today) ==> r == history + [ActivityEntry(today, 1)]
    ensures HasEntry(r, today)
  {
    if HasEntry(history, today) then IncrementOn(history, today)
    else
      var appended := history + [ActivityEntry(today, 1)];
      assert appended[|history|].date == today;
      appended
  }

  /** Incrementing raises the total by the count of entries on that date. */
  lemma {:induction false} IncrementOnTotal(history: seq<ActivityEntry>, date: string)
    ensures TotalCount(IncrementOn(history, date)) == TotalCount(history) + EntriesOn(history, date)
  {
    if history != [] {
      var r := IncrementOn(history, date);
      var init := history[..|history| - 1];
      assert r[..|r| - 1] == IncrementOn(init, date);
      IncrementOnTotal(init, date);
    }
  }

  /** A date that occurs in a log with unique dates occurs exactly once. */
  lemma {:induction false} UniqueDatesEntriesOn(history: seq<ActivityEntry>, date: string)
    requires UniqueDates(history)
    ensures EntriesOn(history, date) == if HasEntry(history, date) then 1 else 0
  {
    if history != [] {
      var init := history[..|history| - 1];
      assert UniqueDates(init);
      UniqueDatesEntriesOn(init, date);
      if history[|history| - 1].date == date {
        assert !HasEntry(init, date) by {
          forall i | 0 <= i < |init| ensures init[i].date != date {
            assert history[i].date != history[|history| - 1].date;
          }
        }
      } else {
        assert HasEntry(history, date) <==> HasEntry(init, date) by {
          if HasEntry(history, date) {
            var i :| 0 <= i < |history| && history[i].date == date;
            assert init[i].date == date;
          }
        }
      }
    }
  }

  /** Recording a solve never creates two entries for one date. */
  lemma RecordSolvedKeepsUniqueDates(history: seq<ActivityEntry>, today: string)
    requires UniqueDates(history)
    ensures UniqueDates(RecordSolved(history, today))
  {
  }

  /** With unique dates, recording a solve adds exactly one to the total. */
  lemma RecordSolvedAddsOne(history: seq<ActivityEntry>, today: string)
    requires UniqueDates(history)
    ensures TotalCount(RecordSolved(history, today)) == TotalCount(history) + 1
  {
    if HasEntry(history, today) {
      IncrementOnTotal(history, today);
      UniqueDatesEntriesOn(history, today);
    } else {
      var r := history + [ActivityEntry(today, 1)];
      assert r[..|r| - 1] == history;
    }
  }

  /** The `DailyPractice` component: its React state and its two storage keys. */
  class Page {
    var isLoading: bool
    var isSubmitting: bool
    var isHintLoading: bool
    var practiceData: Option<PracticeQuestion>
    var submissionResult: Option<Evaluation>
    var hintData: Option<Hint>
    var userCode: string
    var incorrectAttempts: nat
    var technology: string                       // the form's selected technology
    var solvedCount: int                          // stored under `challengesSolved`
    var activityHistory: seq<ActivityEntry>       // stored under `activityHistory`

    /** Mounting: nothing loaded, the stored counters as found. */
    constructor (storedSolved: int, storedHistory: seq<ActivityEntry>)
      ensures !isLoading && !isSubmitting && !isHintLoading
      ensures practiceData == None && submissionResult == None && hintData == None
      ensures userCode == "" && incorrectAttempts == 0 && technology == "SQL"
      ensures solvedCount == storedSolved && activityHistory == storedHistory
    {
      isLoading, isSubmitting, isHintLoading := false, false, false;
      practiceData, submissionResult, hintData := None, None, None;
      userCode, incorrectAttempts, technology := "", 0, "SQL";
      solvedCount, activityHistory := storedSolved, storedHistory;
    }

    /** `showHintButton`. */
    function ShowHintButton(): (r: bool)
      reads this
      ensures r <==> incorrectAttempts >= HintThreshold
    {
      incorrectAttempts >= HintThreshold
    }

    /** `resetChallengeState`: forget the challenge and the attempts against it. */
    method ResetChallengeState()
      modifies this
      ensures practiceData == None && hintData == None && submissionResult == None
      ensures userCode == "" && incorrectAttempts == 0 && !ShowHintButton()
      ensures isLoading == old(isLoading) && isSubmitting == old(isSubmitting)
      ensures isHintLoading == old(isHintLoading) && technology == old(technology)
      ensures solvedCount == old(solvedCount) && activityHistory == old(activityHistory)
    {
      practiceData := None;
      hintData := None;
      submissionResult := None;
      userCode := "";
      incorrectAttempts := 0;
    }

    /** `onSubmit`: start a new challenge; `generated` is None when generation fails. */
    method OnSubmit(chosenTechnology: string, generated: Option<PracticeQuestion>)
      modifies this
      ensures practiceData == generated && hintData == None && submissionResult == None
      ensures userCode == "" && incorrectAttempts == 0 && !ShowHintButton()
      ensures !isLoading && technology == chosenTechnology
      ensures isSubmitting == old(isSubmitting) && isHintLoading == old(isHintLoading)
      ensures solvedCount == old(solvedCount) && activityHistory == old(activityHistory)
    {
      technology := chosenTechnology;
      isLoading := true;
      ResetChallengeState();
      if generated.Some? {
        practiceData := generated;
      }
      isLoading := false;
    }

    /** Picking a technology in the form; the next submission and hint request read it. */
    method SelectTechnology(t: string)
      modifies this`technology
      ensures technology == t
    {
      technology := t;
    }

    /** Typing in the answer box. */
    method SetUserCode(code: string)
      modifies this`userCode
      ensures userCode == code
    {
      userCode := code;
    }

    /**
     * `handleSubmitSolution`: ask the evaluator about the current code. A correct
     * answer resets the attempts, counts one solve and records it under `today`;
     * an incorrect one counts one more attempt; a failed call changes no counter.
     */
    method SubmitSolution(evaluate: EvaluateInput -> Option<Evaluation>, today: DateParts)
      modifies this
      ensures old(practiceData).None? ==>
                && hintData == old(hintData) && submissionResult == old(submissionResult)
                && incorrectAttempts == old(incorrectAttempts) && ShowHintButton() == old(ShowHintButton())
                && isSubmitting == old(isSubmitting)
                && solvedCount == old(solvedCount) && activityHistory == old(activityHistory)
      ensures old(practiceData).Some? ==>
                var q := old(practiceData).value;
                var result := evaluate(EvaluateInput(q.description, q.solution, old(userCode), old(technology)));
                && hintData == None && submissionResult == result && !isSubmitting
                && (result.Some? && result.value.isCorrect ==>
                      && incorrectAttempts == 0 && !ShowHintButton() && solvedCount == old(solvedCount) + 1
                      && activityHistory == RecordSolved(old(activityHistory), DateKey(today)))
                && (result.Some? && !result.value.isCorrect ==>
                      && incorrectAttempts == old(incorrectAttempts) + 1 && solvedCount == old(solvedCount)
                      && (ShowHintButton() <==> old(incorrectAttempts) >= HintThreshold - 1)
                      && activityHistory == old(activityHistory))
                && (result.None? ==>
                      && incorrectAttempts == old(incorrectAttempts) && ShowHintButton() == old(ShowHintButton())
                      && solvedCount == old(solvedCount)
                      && activityHistory == old(activityHistory))
      ensures practiceData == old(practiceData) && userCode == old(userCode) && technology == old(technology)
      ensures isLoading == old(isLoading) && isHintLoading == old(isHintLoading)
    {
      if practiceData.None? {
        return;
      }
      var q := practiceData.value;
      isSubmitting := true;
      hintData := None;
      submissionResult := None;
      var result := evaluate(EvaluateInput(q.description, q.solution, userCode, technology));
      if result.Some? {
        submissionResult := result;
        if result.value.isCorrect {
          incorrectAttempts := 0;
          solvedCount := solvedCount + 1;
          activityHistory := RecordSolved(activityHistory, DateKey(today));
        } else {
          incorrectAttempts := incorrectAttempts + 1;
        }
      }
      isSubmitting := false;
    }

    /** `handleGetHint`: ask the code assistant; nothing happens without a challenge. */
    method GetHint(getHint: HintInput -> Option<Hint>)
      modifies this
      ensures old(practiceData).None? ==> hintData == old(hintData) && isHintLoading == old(isHintLoading)
      ensures old(practiceData).Some? ==>
                && hintData == getHint(HintInput(old(practiceData).value.description, old(userCode), old(technology)))
                && !isHintLoading
      ensures practiceData == old(practiceData) && userCode == old(userCode) && technology == old(technology)
      ensures submissionResult == old(submissionResult) && incorrectAttempts == old(incorrectAttempts)
      ensures isLoading == old(isLoading) && isSubmitting == old(isSubmitting)
      ensures solvedCount == old(solvedCount) && activityHistory == old(activityHistory)
    {
      if practiceData.None? {
        return;
      }
      isHintLoading := true;
      hintData := None;
      hintData := getHint(HintInput(practiceData.value.description, userCode, technology));
      isHintLoading := false;
    }
  }
}
