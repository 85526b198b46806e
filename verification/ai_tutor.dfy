/**
 * The AI-tutor course store: one generated course per skill level, each with a
 * completion flag per chapter, graded chapter assessments and the rule that a
 * chapter opens only once the one before it is complete.
 */
module AiTutor {
  import opened Wrappers
  import opened BoolSeqs
  import opened SolutionEvaluation

  datatype SkillLevel = Beginner | Intermediate | Advanced

  datatype Mcq = Mcq(question: string, options: seq<string>, answer: string)
  datatype OpenEndedQuestion = OpenEndedQuestion(question: string, solution: string)
  datatype Assessment = Assessment(mcqs: seq<Mcq>, openEndedQuestions: seq<OpenEndedQuestion>)
  datatype Chapter = Chapter(title: string, content: string, assessment: Assessment)
  datatype Tutorial = Tutorial(title: string, introduction: string, chapters: seq<Chapter>, conclusion: string)

  /** The generator's output schema: at least 5 chapters, each with 2 MCQs and 3 open-ended questions. */
  predicate ConformsToSchema(t: Tutorial)
  {
    && |t.chapters| >= 5
    && forall i :: 0 <= i < |t.chapters| ==>
         |t.chapters[i].assessment.mcqs| == 2 && |t.chapters[i].assessment.openEndedQuestions| == 3
  }

  /** One stored course: the generated tutorial, a completion flag per chapter, and its topic. */
  datatype CourseData = CourseData(tutorialData: Tutorial, completedChapters: seq<bool>, topic: string)

  /** One completion flag per chapter. */
  predicate WellFormed(c: CourseData)
  {
    |c.completedChapters| == |c.tutorialData.chapters|
  }

  /** The stored `aiTutor_courses` object: at most one course per skill level. */
  type Courses = map<SkillLevel, CourseData>

  datatype View = Form | Generating | TutorialView
  datatype AnswerKind = Mcqs | OpenEnded

  /** Answers typed so far, keyed by question index. */
  datatype UserAnswers = UserAnswers(mcqs: map<int, string>, openEnded: map<int, string>)
  const NoAnswers := UserAnswers(map[], map[])

  const NoAnswerEvaluation := Evaluation(false, "No answer provided.", 0)

  datatype AssessmentResults = AssessmentResults(mcqs: seq<bool>, openEnded: seq<Evaluation>, allCorrect: bool)

  /** A freshly generated course: nothing completed yet, one flag per chapter. */
  function NewCourse(t: Tutorial, topic: string): (c: CourseData)
    ensures WellFormed(c) && c.tutorialData == t && c.topic == topic
    ensures CountTrue(c.completedChapters) == 0
  {
    CourseData(t, seq(|t.chapters|, _ => false), topic)
  }

  // ---------------------------------------------------------------- grading

  /** MCQ results from index `k` on: `userAnswers.mcqs[index] === mcq.answer`. */
  function GradeMcqsFrom(mcqs: seq<Mcq>, answers: map<int, string>, k: nat): (r: seq<bool>)
    requires k <= |mcqs|
    ensures |r| == |mcqs| - k
    ensures forall i :: k <= i < |mcqs| ==> (r[i - k] <==> i in answers && answers[i] == mcqs[i].answer)
    decreases |mcqs| - k
  {
    if k == |mcqs| then []
    else [k in answers && answers[k] == mcqs[k].answer] + GradeMcqsFrom(mcqs, answers, k + 1)
  }

  /** One result per MCQ; an unanswered MCQ is incorrect. */
  function GradeMcqs(mcqs: seq<Mcq>, answers: map<int, string>): (r: seq<bool>)
    ensures |r| == |mcqs|
    ensures forall i :: 0 <= i < |mcqs| ==> (r[i] <==> i in answers && answers[i] == mcqs[i].answer)
  {
    GradeMcqsFrom(mcqs, answers, 0)
  }

  /** `userAnswers.openEnded[index] || ""`. */
  function AnswerOrEmpty(answers: map<int, string>, i: int): string
  {
    if i in answers then answers[i] else ""
  }

  /** The question put to the evaluator for open-ended question `q`. */
  function EvaluatorInput(q: OpenEndedQuestion, answer: string, topic: string): EvaluateInput
  {
    EvaluateInput(q.question, q.solution, answer, topic)
  }

  /**
   * The verdict on open-ended question `i`: a fixed "no answer" verdict for an empty
   * answer, otherwise whatever the evaluator says (None when its call fails).
   */
  function Verdict(qs: seq<OpenEndedQuestion>, answers: map<int, string>, topic: string,
                   evaluate: EvaluateInput -> Option<Evaluation>, i: nat): Option<Evaluation>
    requires i < |qs|
  {
    var answer := AnswerOrEmpty(answers, i);
    if answer == "" then Some(NoAnswerEvaluation)
    else evaluate(EvaluatorInput(qs[i], answer, topic))
  }

  /**
   * `Promise.all` over the verdicts from index `k` on: every verdict when all
   * evaluator calls succeed, None as soon as one fails.
   */
  function GradeOpenEndedFrom(qs: seq<OpenEndedQuestion>, answers: map<int, string>, topic: string,
                              evaluate: EvaluateInput -> Option<Evaluation>, k: nat): (r: Option<seq<Evaluation>>)
    requires k <= |qs|
    ensures r.Some? <==> forall i :: k <= i < |qs| ==> Verdict(qs, answers, topic, evaluate, i).Some?
    ensures r.Some? ==> |r.value| == |qs| - k
    ensures r.Some? ==> forall i :: k <= i < |qs| ==> Some(r.value[i - k]) == Verdict(qs, answers, topic, evaluate, i)
    decreases |qs| - k
  {
    if k == |qs| then Some([])
    else
      match Verdict(qs, answers, topic, evaluate, k)
      case None => None
      case Some(v) =>
        match GradeOpenEndedFrom(qs, answers, topic, evaluate, k + 1)
        case None => None
        case Some(rest) => Some([v] + rest)
  }

  function GradeOpenEnded(qs: seq<OpenEndedQuestion>, answers: map<int, string>, topic: string,
                          evaluate: EvaluateInput -> Option<Evaluation>): (r: Option<seq<Evaluation>>)
    ensures r.Some? <==> forall i :: 0 <= i < |qs| ==> Verdict(qs, answers, topic, evaluate, i).Some?
    ensures r.Some? ==> |r.value| == |qs|
    ensures r.Some? ==> forall i :: 0 <= i < |qs| ==> Some(r.value[i]) == Verdict(qs, answers, topic, evaluate, i)
  {
    GradeOpenEndedFrom(qs, answers, topic, evaluate, 0)
  }

  /** An empty answer is judged without the evaluator: it is "No answer provided." with score 0. */
  lemma EmptyAnswerNotEvaluated(qs: seq<OpenEndedQuestion>, answers: map<int, string>, topic: string,
                                evaluate: EvaluateInput -> Option<Evaluation>, i: nat)
    requires i < |qs| && AnswerOrEmpty(answers, i) == ""
    ensures GradeOpenEnded(qs, answers, topic, evaluate).Some? ==>
              GradeOpenEnded(qs, answers, topic, evaluate).value[i] == Evaluation(false, "No answer provided.", 0)
  {
  }

  /**
   * Only answered questions reach the evaluator: two evaluators that agree on every
   * answered question grade alike.
   */
  lemma {:induction false} GradeOpenEndedFromOnlyAsksAnswered(
    qs: seq<OpenEndedQuestion>, answers: map<int, string>, topic: string,
    e1: EvaluateInput -> Option<Evaluation>, e2: EvaluateInput -> Option<Evaluation>, k: nat)
    requires k <= |qs|
    requires forall i :: k <= i < |qs| && AnswerOrEmpty(answers, i) != "" ==>
               e1(EvaluatorInput(qs[i], AnswerOrEmpty(answers, i), topic)) ==
               e2(EvaluatorInput(qs[i], AnswerOrEmpty(answers, i), topic))
    ensures GradeOpenEndedFrom(qs, answers, topic, e1, k) == GradeOpenEndedFrom(qs, answers, topic, e2, k)
    decreases |qs| - k
  {
    if k < |qs| {
      assert Verdict(qs, answers, topic, e1, k) == Verdict(qs, answers, topic, e2, k);
      GradeOpenEndedFromOnlyAsksAnswered(qs, answers, topic, e1, e2, k + 1);
    }
  }

  /** `mcqResults.every(Boolean) && openEndedResults.every(r => r.isCorrect)`. */
  function AllCorrect(mcqResults: seq<bool>, openEndedResults: seq<Evaluation>): (r: bool)
    ensures r <==> ((forall i :: 0 <= i < |mcqResults| ==> mcqResults[i])
                    && (forall j :: 0 <= j < |openEndedResults| ==> openEndedResults[j].isCorrect))
  {
    var verdicts := seq(|openEndedResults|, j requires 0 <= j < |openEndedResults| => openEndedResults[j].isCorrect);
    assert forall j :: 0 <= j < |openEndedResults| ==> verdicts[j] == openEndedResults[j].isCorrect;
    AllTrue(mcqResults) && AllTrue(verdicts)
  }

  /** A passed assessment had every MCQ answered correctly and every open-ended question answered. */
  lemma PassingNeedsEveryAnswer(a: Assessment, answers: UserAnswers, topic: string,
                                evaluate: EvaluateInput -> Option<Evaluation>)
    requires GradeOpenEnded(a.openEndedQuestions, answers.openEnded, topic, evaluate).Some?
    requires AllCorrect(GradeMcqs(a.mcqs, answers.mcqs),
                        GradeOpenEnded(a.openEndedQuestions, answers.openEnded, topic, evaluate).value)
    ensures forall i :: 0 <= i < |a.mcqs| ==> i in answers.mcqs && answers.mcqs[i] == a.mcqs[i].answer
    ensures forall j :: 0 <= j < |a.openEndedQuestions| ==> AnswerOrEmpty(answers.openEnded, j) != ""
  {
    var res := GradeOpenEnded(a.openEndedQuestions, answers.openEnded, topic, evaluate).value;
    forall j | 0 <= j < |a.openEndedQuestions| ensures AnswerOrEmpty(answers.openEnded, j) != "" {
      assert res[j].isCorrect;
      assert Some(res[j]) == Verdict(a.openEndedQuestions, answers.openEnded, topic, evaluate, j);
    }
  }

  /**
   * What `handleSubmitAssessment` stores as `assessmentResults` for one assessment:
   * None when an evaluator call fails, otherwise both result lists and `allCorrect`.
   */
  function GradeAssessment(a: Assessment, answers: UserAnswers, topic: string,
                           evaluate: EvaluateInput -> Option<Evaluation>): Option<AssessmentResults>
  {
    var mcqResults := GradeMcqs(a.mcqs, answers.mcqs);
    match GradeOpenEnded(a.openEndedQuestions, answers.openEnded, topic, evaluate)
    case None => None
    case Some(openEndedResults) =>
      Some(AssessmentResults(mcqResults, openEndedResults, AllCorrect(mcqResults, openEndedResults)))
  }

  /** A stored result that says "all correct" means every MCQ was answered with the key and every open-ended question was answered. */
  lemma PassedAssessmentWasAnswered(a: Assessment, answers: UserAnswers, topic: string,
                                    evaluate: EvaluateInput -> Option<Evaluation>)
    requires GradeAssessment(a, answers, topic, evaluate).Some?
    requires GradeAssessment(a, answers, topic, evaluate).value.allCorrect
    ensures forall i :: 0 <= i < |a.mcqs| ==> i in answers.mcqs && answers.mcqs[i] == a.mcqs[i].answer
    ensures forall j :: 0 <= j < |a.openEndedQuestions| ==> AnswerOrEmpty(answers.openEnded, j) != ""
  {
    PassingNeedsEveryAnswer(a, answers, topic, evaluate);
  }

  // ---------------------------------------------------------------- completion and locking

  /** `newProgress = [...completedChapters]; newProgress[chapterIndex] = true`. */
  method MarkChapterComplete(progress: seq<bool>, chapterIndex: nat) returns (r: seq<bool>)
    requires chapterIndex < |progress|
    ensures |r| == |progress| && r[chapterIndex]
    ensures forall j :: 0 <= j < |progress| && j != chapterIndex ==> r[j] == progress[j]
  {
    var newProgress := new bool[|progress|](i requires 0 <= i < |progress| => progress[i]);
    newProgress[chapterIndex] := true;
    r := newProgress[..];
  }

  /** Chapter `i` is locked while chapter `i - 1` is not complete; chapter 0 never is. */
  predicate IsLocked(completed: seq<bool>, i: nat)
    requires i <= |completed|
  {
    i > 0 && !completed[i - 1]
  }

  /** Completing an unlocked chapter keeps the completed chapters a prefix. */
  lemma CompleteUnlockedKeepsPrefix(completed: seq<bool>, k: nat)
    requires IsPrefixClosed(completed) && k < |completed| && !IsLocked(completed, k)
    ensures IsPrefixClosed(completed[k := true])
  {
    var c := completed[k := true];
    forall i, j | 0 <= i < j < |c| && c[j] ensures c[i] {
      if j == k && i < k - 1 {
        assert completed[k - 1];
      }
    }
  }

  /** In a prefix-closed course exactly the completed chapters and the next one are open. */
  lemma UnlockedIffWithinProgress(completed: seq<bool>, i: nat)
    requires IsPrefixClosed(completed) && i < |completed|
    ensures !IsLocked(completed, i) <==> i <= CountTrue(completed)
  {
    PrefixClosedShape(completed);
  }

  /** A freshly generated course has only chapter 0 open, whatever the generator returned. */
  lemma NewCourseOpensOnlyFirstChapter(t: Tutorial, topic: string)
    ensures IsPrefixClosed(NewCourse(t, topic).completedChapters)
    ensures forall i :: 0 <= i < |t.chapters| ==> (IsLocked(NewCourse(t, topic).completedChapters, i) <==> i > 0)
  {
  }

  /** A schema-conforming tutorial gives a course with at least five chapters to complete. */
  lemma ConformingCourseHasFiveChapters(t: Tutorial, topic: string)
    requires ConformsToSchema(t)
    ensures |NewCourse(t, topic).completedChapters| >= 5
  {
  }

  // ---------------------------------------------------------------- the component's state

  /** The `AiTutor` component: its React state and its `aiTutor_courses` storage key. */
  class Page {
    var view: View
    var courses: Courses
    var currentCourse: Option<CourseData>
    var skillLevel: SkillLevel          // the form's selected level
    var topic: string                   // the form's selected topic
    var activeChapter: Option<nat>
    var userAnswers: UserAnswers
    var assessmentResults: Option<AssessmentResults>
    var isEvaluating: bool

    /** Every stored course, and the current one, has one completion flag per chapter. */
    ghost predicate Valid()
      reads this
    {
      && (forall l :: l in courses ==> WellFormed(courses[l]))
      && (currentCourse.Some? ==> WellFormed(currentCourse.value))
    }

    /** `allChaptersComplete`: false while no course is loaded. */
    function AllChaptersComplete(): (r: bool)
      reads this
      ensures r <==> currentCourse.Some? && forall i :: 0 <= i < |currentCourse.value.completedChapters| ==>
                                              currentCourse.value.completedChapters[i]
    {
      currentCourse.Some? && AllTrue(currentCourse.value.completedChapters)
    }

    /** Mounting with the stored courses; the form starts at Beginner / SQL. */
    constructor (stored: Courses)
      requires forall l :: l in stored ==> WellFormed(stored[l])
      ensures Valid()
      ensures courses == stored && skillLevel == Beginner && topic == "SQL"
      ensures userAnswers == NoAnswers && assessmentResults == None && !isEvaluating && activeChapter == None
      ensures Beginner in stored ==> currentCourse == Some(stored[Beginner]) && view == TutorialView
      ensures Beginner !in stored ==> currentCourse == None && view == Form
    {
      courses := stored;
      skillLevel := Beginner;
      topic := "SQL";
      activeChapter := None;
      userAnswers := NoAnswers;
      assessmentResults := None;
      isEvaluating := false;
      if Beginner in stored {
        currentCourse := Some(stored[Beginner]);
        view := TutorialView;
      } else {
        currentCourse := None;
        view := Form;
      }
    }

    /** The effect on `courses` and the selected level: show the stored course for that level, if any. */
    method SyncCourse()
      requires Valid()
      modifies this
      ensures Valid()
      ensures skillLevel in courses ==> currentCourse == Some(courses[skillLevel]) && view == TutorialView
      ensures skillLevel !in courses ==> currentCourse == None && view == Form
      ensures courses == old(courses) && skillLevel == old(skillLevel) && topic == old(topic)
      ensures activeChapter == old(activeChapter) && userAnswers == old(userAnswers)
      ensures assessmentResults == old(assessmentResults) && isEvaluating == old(isEvaluating)
    {
      if skillLevel in courses {
        currentCourse := Some(courses[skillLevel]);
        view := TutorialView;
      } else {
        currentCourse := None;
        view := Form;
      }
    }

    /** Picking a level in the form, followed by the effect that watches it. */
    method SelectSkillLevel(level: SkillLevel)
      requires Valid()
      modifies this
      ensures Valid()
      ensures skillLevel == level && courses == old(courses)
      ensures level in courses ==> currentCourse == Some(courses[level]) && view == TutorialView
      ensures level !in courses ==> currentCourse == None && view == Form
      ensures topic == old(topic) && activeChapter == old(activeChapter) && userAnswers == old(userAnswers)
      ensures assessmentResults == old(assessmentResults) && isEvaluating == old(isEvaluating)
    {
      skillLevel := level;
      SyncCourse();
    }

    /**
     * `onSubmit`: drop the stored course for the chosen level, then store the generated
     * one under that level alone; `generated` is None when generation fails.
     */
    method OnSubmit(level: SkillLevel, chosenTopic: string, generated: Option<Tutorial>)
      requires Valid()
      modifies this
      ensures Valid()
      ensures skillLevel == level && topic == chosenTopic && assessmentResults == None
      ensures forall l :: l != level ==> (l in courses <==> l in old(courses))
      ensures forall l :: l != level && l in courses ==> courses[l] == old(courses)[l]
      ensures generated.Some? ==>
                && courses == old(courses)[level := NewCourse(generated.value, chosenTopic)]
                && currentCourse == Some(NewCourse(generated.value, chosenTopic))
                && view == TutorialView
      ensures generated.None? ==> courses == old(courses) - {level} && currentCourse == None && view == Form
      ensures userAnswers == old(userAnswers) && activeChapter == old(activeChapter) && isEvaluating == old(isEvaluating)
    {
      view := Generating;
      assessmentResults := None;
      skillLevel, topic := level, chosenTopic;
      courses := courses - {level};
      currentCourse := None;
      match generated {
        case Some(t) =>
          var course := NewCourse(t, chosenTopic);
          courses := courses[level := course];
          currentCourse := Some(course);
          view := TutorialView;
        case None =>
          view := Form;
      }
    }

    /** Opening a chapter of the accordion resets the answers and results. */
    method SetActiveChapter(chapter: Option<nat>)
      requires Valid()
      modifies this
      ensures Valid()
      ensures activeChapter == chapter && userAnswers == NoAnswers && assessmentResults == None
      ensures courses == old(courses) && currentCourse == old(currentCourse) && view == old(view)
      ensures skillLevel == old(skillLevel) && topic == old(topic) && isEvaluating == old(isEvaluating)
    {
      activeChapter := chapter;
      userAnswers := NoAnswers;
      assessmentResults := None;
    }

    /** `handleAnswerChange`: record the answer to one question. */
    method AnswerChange(kind: AnswerKind, index: int, value: string)
      requires Valid()
      modifies this
      ensures Valid()
      ensures kind == Mcqs ==> userAnswers == old(userAnswers).(mcqs := old(userAnswers).mcqs[index := value])
      ensures kind == OpenEnded ==>
                userAnswers == old(userAnswers).(openEnded := old(userAnswers).openEnded[index := value])
      ensures courses == old(courses) && currentCourse == old(currentCourse) && view == old(view)
      ensures assessmentResults == old(assessmentResults) && activeChapter == old(activeChapter)
      ensures skillLevel == old(skillLevel) && topic == old(topic) && isEvaluating == old(isEvaluating)
    {
      match kind {
        case Mcqs => userAnswers := userAnswers.(mcqs := userAnswers.mcqs[index := value]);
        case OpenEnded => userAnswers := userAnswers.(openEnded := userAnswers.openEnded[index := value]);
      }
    }

    /**
     * `handleSubmitAssessment`: grade chapter `chapterIndex`; when everything is
     * correct, mark that chapter complete (nothing else) and clear the answers.
     */
    method SubmitAssessment(chapterIndex: nat, evaluate: EvaluateInput -> Option<Evaluation>)
      requires Valid()
      requires currentCourse.Some? ==> chapterIndex < |currentCourse.value.tutorialData.chapters|
      modifies this
      ensures Valid()
      ensures old(currentCourse).None? ==>
                && courses == old(courses) && currentCourse == None && userAnswers == old(userAnswers)
                && assessmentResults == old(assessmentResults) && isEvaluating == old(isEvaluating)
      ensures old(currentCourse).Some? ==>
                var c := old(currentCourse).value;
                var results := GradeAssessment(c.tutorialData.chapters[chapterIndex].assessment, old(userAnswers), c.topic, evaluate);
                var passed := results.Some? && results.value.allCorrect;
                && !isEvaluating
                && assessmentResults == results
                && (passed ==>
                      var done := c.(completedChapters := c.completedChapters[chapterIndex := true]);
                      currentCourse == Some(done) && courses == old(courses)[skillLevel := done]
                      && userAnswers == NoAnswers)
                && (!passed ==>
                      currentCourse == old(currentCourse) && courses == old(courses) && userAnswers == old(userAnswers))
      ensures old(currentCourse).Some? && IsPrefixClosed(old(currentCourse).value.completedChapters)
              && !IsLocked(old(currentCourse).value.completedChapters, chapterIndex) ==>
                IsPrefixClosed(currentCourse.value.completedChapters)
      ensures view == old(view) && skillLevel == old(skillLevel) && topic == old(topic)
      ensures activeChapter == old(activeChapter)
    {
      if currentCourse.None? {
        return;
      }
      var c := currentCourse.value;
      isEvaluating := true;
      assessmentResults := None;

      var results := GradeAssessment(c.tutorialData.chapters[chapterIndex].assessment, userAnswers, c.topic, evaluate);
      assessmentResults := results;
      if results.Some? && results.value.allCorrect {
        var newProgress := MarkChapterComplete(c.completedChapters, chapterIndex);
        assert newProgress == c.completedChapters[chapterIndex := true];
        var updated := c.(completedChapters := newProgress);
        currentCourse := Some(updated);
        courses := courses[skillLevel := updated];
        userAnswers := NoAnswers;
        if IsPrefixClosed(c.completedChapters) && !IsLocked(c.completedChapters, chapterIndex) {
          CompleteUnlockedKeepsPrefix(c.completedChapters, chapterIndex);
        }
      }
      isEvaluating := false;
    }

    /** `resetTutorial`: forget the current level's course and go back to the form. */
    method ResetTutorial()
      requires Valid()
      modifies this
      ensures Valid()
      ensures courses == old(courses) - {skillLevel}
      ensures forall l :: l != skillLevel && l in old(courses) ==> l in courses && courses[l] == old(courses)[l]
      ensures currentCourse == None && view == Form
      ensures skillLevel == old(skillLevel) && topic == old(topic) && userAnswers == old(userAnswers)
      ensures assessmentResults == old(assessmentResults) && activeChapter == old(activeChapter)
      ensures isEvaluating == old(isEvaluating)
    {
      courses := courses - {skillLevel};
      currentCourse := None;
      view := Form;
    }
  }
}
