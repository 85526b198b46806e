/**
 * Daily interview questions: fetched once per (UTC) day and cached, with a
 * learned-question list that is reset whenever a new day's set is fetched.
 */
module InterviewPrep {
  import opened Wrappers
  import opened Membership

  datatype QuestionAnswer = QuestionAnswer(question: string, answer: string)

  /** The mount-time decision: reuse the cache only if it was filled today and is non-empty. */
  predicate UseCache(lastFetched: Option<string>, today: string, cache: seq<QuestionAnswer>)
  {
    lastFetched == Some(today) && |cache| > 0
  }

  /** The `InterviewPrep` component: its React state and its three storage keys. */
  class Page {
    var isLoading: bool
    var questions: seq<QuestionAnswer>
    var lastFetched: Option<string>             // stored under `interview-questions-date`
    var cachedQuestions: seq<QuestionAnswer>    // stored under `interview-questions-cache`
    var learnedQuestions: seq<string>           // stored under `interview-questions-learned`

    /** First render, before the mount effect: nothing shown yet, storage as found. */
    constructor (storedDate: Option<string>, storedCache: seq<QuestionAnswer>, storedLearned: seq<string>)
      ensures !isLoading && questions == []
      ensures lastFetched == storedDate && cachedQuestions == storedCache && learnedQuestions == storedLearned
    {
      isLoading := false;
      questions := [];
      lastFetched, cachedQuestions, learnedQuestions := storedDate, storedCache, storedLearned;
    }

    /** Whether a question is shown as learned. */
    function IsLearned(question: string): (r: bool)
      reads this
      ensures r <==> exists i :: 0 <= i < |learnedQuestions| && learnedQuestions[i] == question
    {
      question in learnedQuestions
    }

    /**
     * `fetchQuestions`: `fetched` is the generator's answer, None when it fails.
     * Success replaces the shown questions and the cache and stamps today; failure changes none of them.
     */
    method FetchQuestions(fetched: Option<seq<QuestionAnswer>>, today: string)
      modifies this
      ensures !isLoading
      ensures fetched.Some? ==>
                questions == fetched.value && cachedQuestions == fetched.value && lastFetched == Some(today)
      ensures fetched.Some? && |fetched.value| > 0 ==>
                && UseCache(lastFetched, today, cachedQuestions)
                && forall d :: d != today ==> !UseCache(lastFetched, d, cachedQuestions)
      ensures fetched.None? ==>
                questions == old(questions) && cachedQuestions == old(cachedQuestions) && lastFetched == old(lastFetched)
      ensures learnedQuestions == old(learnedQuestions)
    {
      isLoading := true;
      if fetched.Some? {
        questions := fetched.value;
        lastFetched := Some(today);
        cachedQuestions := fetched.value;
      }
      isLoading := false;
    }

    /** The mount effect: show today's cache, or fetch a new set and forget what was learned. */
    method Mount(today: string, fetched: Option<seq<QuestionAnswer>>)
      modifies this
      ensures UseCache(old(lastFetched), today, old(cachedQuestions)) ==>
                && questions == old(cachedQuestions) && learnedQuestions == old(learnedQuestions)
                && cachedQuestions == old(cachedQuestions) && lastFetched == old(lastFetched)
                && isLoading == old(isLoading)
      ensures !UseCache(old(lastFetched), today, old(cachedQuestions)) ==>
                && learnedQuestions == [] && (forall q :: !IsLearned(q)) && !isLoading
                && (fetched.Some? && |fetched.value| > 0 ==>
                      && UseCache(lastFetched, today, cachedQuestions)
                      && forall d :: d != today ==> !UseCache(lastFetched, d, cachedQuestions))
                && (fetched.Some? ==>
                      questions == fetched.value && cachedQuestions == fetched.value && lastFetched == Some(today))
                && (fetched.None? ==>
                      questions == old(questions) && cachedQuestions == old(cachedQuestions)
                      && lastFetched == old(lastFetched))
    {
      if UseCache(lastFetched, today, cachedQuestions) {
        questions := cachedQuestions;
      } else {
        FetchQuestions(fetched, today);
        learnedQuestions := [];
      }
    }

    /** `handleMarkAsLearned`: flip the question's membership in the learned list. */
    method MarkAsLearned(question: string)
      modifies this`learnedQuestions
      ensures learnedQuestions == Toggle(old(learnedQuestions), question)
      ensures IsLearned(question) <==> !(question in old(learnedQuestions))
      ensures forall q :: q != question ==> (q in learnedQuestions <==> q in old(learnedQuestions))
    {
      learnedQuestions := Toggle(learnedQuestions, question);
    }
  }
}
