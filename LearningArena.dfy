/**
 * The learning arena's bookkeeping: the per-quiz progress record updated when a quiz is
 * completed, and the lists of user-authored articles and quizzes shown after the built-in
 * ones.
 */
module LearningArena {
  import opened Wrappers
  import opened Strings

  // ---------------------------------------------------------------------------
  // content

  /** An article, with the fields the page shows. */
  datatype Article = Article(id: string, title: string, summary: string, imageUrl: string)

  /** An article as the create dialog hands it over: everything but the id. */
  datatype ArticleDraft = ArticleDraft(title: string, summary: string, imageUrl: string)

  /** A quiz, with the fields the page shows; question bodies are kept as they are. */
  datatype Quiz = Quiz(id: string, title: string, questions: seq<string>)

  datatype QuizDraft = QuizDraft(title: string, questions: seq<string>)

  /** `custom-article-<now>`, `now` being the save time in milliseconds. */
  function CustomArticleId(now: nat): string
  {
    "custom-article-" + DecimalString(now)
  }

  function CustomQuizId(now: nat): string
  {
    "custom-quiz-" + DecimalString(now)
  }

  /**
   * Generated ids differ exactly when the save times differ, and an article id is never a
   * quiz id.
   */
  lemma CustomIdsUnique(a: nat, b: nat)
    ensures CustomArticleId(a) == CustomArticleId(b) <==> a == b
    ensures CustomQuizId(a) == CustomQuizId(b) <==> a == b
    ensures CustomArticleId(a) != CustomQuizId(b)
  {
    DecimalStringInjective(a, b);
    if CustomArticleId(a) == CustomArticleId(b) {
      assert CustomArticleId(a)[15..] == DecimalString(a);
      assert CustomArticleId(b)[15..] == DecimalString(b);
    }
    if CustomQuizId(a) == CustomQuizId(b) {
      assert CustomQuizId(a)[12..] == DecimalString(a);
      assert CustomQuizId(b)[12..] == DecimalString(b);
    }
    assert CustomArticleId(a)[7] == 'a' && CustomQuizId(b)[7] == 'q';
  }

  // ---------------------------------------------------------------------------
  // quiz progress

  datatype Progress = Progress(highScore: int, lastScore: int, attempts: nat)

  type QuizProgress = map<string, Progress>

  function Max(a: int, b: int): int
  {
    if a >= b then a else b
  }

  /**
   * The percentage recorded for `score` right answers out of `totalQuestions`, rounded to the
   * nearest integer with halves rounded up (computed exactly, on integers).
   */
  function Percentage(score: nat, totalQuestions: nat): (p: int)
    requires totalQuestions > 0
    ensures 2 * totalQuestions * p - totalQuestions <= 200 * score < 2 * totalQuestions * p + totalQuestions
    ensures score <= totalQuestions ==> 0 <= p <= 100
  {
    var p := (200 * score + totalQuestions) / (2 * totalQuestions);
    PercentageBounds(score, totalQuestions, p);
    p
  }

  lemma PercentageBounds(score: nat, total: nat, p: int)
    requires total > 0 && p == (200 * score + total) / (2 * total)
    ensures 2 * total * p - total <= 200 * score < 2 * total * p + total
    ensures score <= total ==> 0 <= p <= 100
  {
    var n, d := 200 * score + total, 2 * total;
    assert d * p <= n < d * p + d by {
      assert n == d * (n / d) + n % d && 0 <= n % d < d;
    }
    assert 2 * total * p == d * p;
    MultiplyMonotone(d, p, -1);
    MultiplyMonotone(d, 101, p);
  }

  lemma MultiplyMonotone(a: int, b: int, c: int)
    requires a > 0
    ensures b <= c ==> a * b <= a * c
  {
    if b <= c {
      assert a * c - a * b == a * (c - b);
    }
  }

  /**
   * Completing quiz `quizId` with `percentage`: its entry (a fresh one counts as high score 0
   * and no attempts) gets the better of the old high score and the new percentage, the new
   * percentage as last score, and one more attempt.
   */
  function RecordCompletion(progress: QuizProgress, quizId: string, percentage: int): QuizProgress
  {
    var highScore := if quizId in progress then progress[quizId].highScore else 0;
    var attempts := if quizId in progress then progress[quizId].attempts else 0;
    progress[quizId := Progress(Max(highScore, percentage), percentage, attempts + 1)]
  }

  /**
   * A completion touches only its own quiz; that quiz's high score never goes down and is at
   * least the new last score, which is the percentage just earned, and its attempts go up by
   * exactly one.
   */
  lemma CompletionEffect(progress: QuizProgress, quizId: string, percentage: int)
    ensures var next := RecordCompletion(progress, quizId, percentage);
      && next.Keys == progress.Keys + {quizId}
      && (forall q :: q in progress && q != quizId ==> next[q] == progress[q])
      && next[quizId].lastScore == percentage
      && next[quizId].highScore >= percentage
      && (quizId in progress ==> next[quizId].highScore >= progress[quizId].highScore)
      && (quizId in progress ==> next[quizId].attempts == progress[quizId].attempts + 1)
      && (quizId !in progress ==> next[quizId].attempts == 1 && next[quizId].highScore >= 0)
      && (next[quizId].highScore == percentage
          || (quizId in progress && next[quizId].highScore == progress[quizId].highScore)
          || (quizId !in progress && next[quizId].highScore == 0))
  {
  }

  /** Every entry has been attempted, and its high score is at least 0 and at least its last score. */
  predicate ProgressConsistent(progress: QuizProgress)
  {
    forall q :: q in progress ==>
      progress[q].attempts >= 1 && progress[q].highScore >= 0 && progress[q].highScore >= progress[q].lastScore
  }

  /** Completions keep the record consistent. */
  lemma CompletionKeepsConsistent(progress: QuizProgress, quizId: string, percentage: int)
    requires ProgressConsistent(progress)
    ensures ProgressConsistent(RecordCompletion(progress, quizId, percentage))
  {
  }

  /** One recorded quiz completion. */
  datatype Completion = Completion(quizId: string, percentage: int)

  /** The record after a history of completions, starting from no progress at all. */
  function Replay(history: seq<Completion>): QuizProgress
  {
    if history == [] then map[]
    else
      var last := history[|history| - 1];
      RecordCompletion(Replay(history[..|history| - 1]), last.quizId, last.percentage)
  }

  /** The percentages earned on one quiz, in the order they were earned. */
  function ScoresFor(history: seq<Completion>, quizId: string): seq<int>
  {
    if history == [] then []
    else
      var last := history[|history| - 1];
      ScoresFor(history[..|history| - 1], quizId) + (if last.quizId == quizId then [last.percentage] else [])
  }

  /** The largest of some scores, and never below 0. */
  function MaxOrZero(scores: seq<int>): int
  {
    if scores == [] then 0 else Max(MaxOrZero(scores[..|scores| - 1]), scores[|scores| - 1])
  }

  /**
   * The record summarises the history quiz by quiz: a quiz has an entry exactly when it was
   * completed at least once; its attempts are the number of completions, its last score the
   * latest percentage, and its high score the best percentage (or 0 if all were negative).
   */
  lemma {:induction false} ReplaySummarises(history: seq<Completion>, quizId: string)
    ensures var scores := ScoresFor(history, quizId);
      && (quizId in Replay(history) <==> |scores| > 0)
      && (quizId in Replay(history) ==>
            Replay(history)[quizId] == Progress(MaxOrZero(scores), scores[|scores| - 1], |scores|))
    decreases |history|
  {
    if history != [] {
      var prefix := history[..|history| - 1];
      ReplaySummarises(prefix, quizId);
      var scores := ScoresFor(history, quizId);
      var last := history[|history| - 1];
      if last.quizId == quizId {
        assert scores == ScoresFor(prefix, quizId) + [last.percentage];
        assert scores[..|scores| - 1] == ScoresFor(prefix, quizId);
      } else {
        assert scores == ScoresFor(prefix, quizId);
      }
    }
  }

  // ---------------------------------------------------------------------------
  // the page

  class LearningArenaPage {
    const builtinArticles: seq<Article>
    const builtinQuizzes: seq<Quiz>
    var activeQuiz: Option<Quiz>
    var quizProgress: QuizProgress
    var customArticles: seq<Article>
    var customQuizzes: seq<Quiz>
    var isCreateArticleModalOpen: bool
    var isCreateQuizModalOpen: bool

    /** The articles on show: the built-in ones, then the user's own, in order. */
    function AllArticles(): seq<Article>
      reads this
    {
      builtinArticles + customArticles
    }

    /** The quizzes on show: the built-in ones, then the user's own, in order. */
    function AllQuizzes(): seq<Quiz>
      reads this
    {
      builtinQuizzes + customQuizzes
    }

    /** The page as it opens, with the stored progress and custom content. */
    constructor (articles: seq<Article>, quizzes: seq<Quiz>, storedProgress: QuizProgress,
                 storedArticles: seq<Article>, storedQuizzes: seq<Quiz>)
      ensures builtinArticles == articles && builtinQuizzes == quizzes
      ensures quizProgress == storedProgress
      ensures customArticles == storedArticles && customQuizzes == storedQuizzes
      ensures activeQuiz == None && !isCreateArticleModalOpen && !isCreateQuizModalOpen
    {
      builtinArticles, builtinQuizzes := articles, quizzes;
      quizProgress := storedProgress;
      customArticles, customQuizzes := storedArticles, storedQuizzes;
      activeQuiz := None;
      isCreateArticleModalOpen, isCreateQuizModalOpen := false, false;
    }

    /** "Start Quiz": the quiz runner replaces the lists. */
    method StartQuiz(quiz: Quiz)
      modifies this`activeQuiz
      ensures activeQuiz == Some(quiz)
    {
      activeQuiz := Some(quiz);
    }

    /** Leaving the quiz runner without finishing records nothing. */
    method ExitQuiz()
      modifies this`activeQuiz
      ensures activeQuiz == None
    {
      activeQuiz := None;
    }

    /** The runner reports a finished quiz: record it and return to the lists. */
    method HandleQuizComplete(quizId: string, percentage: int)
      modifies this`quizProgress, this`activeQuiz
      ensures quizProgress == RecordCompletion(old(quizProgress), quizId, percentage)
      ensures activeQuiz == None
    {
      var existing := if quizId in quizProgress then quizProgress[quizId] else Progress(0, 0, 0);
      quizProgress := quizProgress[quizId := Progress(Max(existing.highScore, percentage), percentage, existing.attempts + 1)];
      activeQuiz := None;
    }

    method OpenCreateArticle()
      modifies this`isCreateArticleModalOpen
      ensures isCreateArticleModalOpen
    {
      isCreateArticleModalOpen := true;
    }

    method OpenCreateQuiz()
      modifies this`isCreateQuizModalOpen
      ensures isCreateQuizModalOpen
    {
      isCreateQuizModalOpen := true;
    }

    /** Saves a new article at the end of the user's list and closes the dialog. */
    method HandleSaveArticle(draft: ArticleDraft, now: nat) returns (saved: Article)
      modifies this`customArticles, this`isCreateArticleModalOpen
      ensures saved == Article(CustomArticleId(now), draft.title, draft.summary, draft.imageUrl)
      ensures customArticles == old(customArticles) + [saved]
      ensures AllArticles() == old(AllArticles()) + [saved]
      ensures !isCreateArticleModalOpen
    {
      saved := Article(CustomArticleId(now), draft.title, draft.summary, draft.imageUrl);
      customArticles := customArticles + [saved];
      isCreateArticleModalOpen := false;
    }

    /** Saves a new quiz at the end of the user's list and closes the dialog. */
    method HandleSaveQuiz(draft: QuizDraft, now: nat) returns (saved: Quiz)
      modifies this`customQuizzes, this`isCreateQuizModalOpen
      ensures saved == Quiz(CustomQuizId(now), draft.title, draft.questions)
      ensures customQuizzes == old(customQuizzes) + [saved]
      ensures AllQuizzes() == old(AllQuizzes()) + [saved]
      ensures !isCreateQuizModalOpen
    {
      saved := Quiz(CustomQuizId(now), draft.title, draft.questions);
      customQuizzes := customQuizzes + [saved];
      isCreateQuizModalOpen := false;
    }
  }
}
