/** The single-user play session of the quiz engine (app/main.py).

    One process-wide session holds a fixed queue of question ids, the
    position in it, a running count of correct answers, the mode, the start
    time and time budget, and the log of submitted answers.  The clock is an
    integer number of seconds handed to each operation; the record store,
    the random sample query and the evaluator are inputs. */
module Play {
  import opened Engine

  datatype Mode = Training | Exam

  /** One logged submission: the question it answered and the raw text. */
  datatype Answer = Answer(questionId: int, userAnswer: string)

  /** "Question `current` of `total`", counted from 1. */
  datatype Progress = Progress(current: int, total: int)

  /** What a handler hands back: a redirect, a question page, or the final
      summary of a session. */
  datatype Response =
    | Redirect(location: string)
    | QuestionPage(question: Option<Question>, subcategoryId: int, remainingTime: int,
                   progress: Progress, result: Option<EvalResult>)
    | Summary(attempts: nat, correct: nat, timeout: bool)

  /** Whether the evaluator accepts a logged answer. */
  predicate Scores(store: Store, a: Answer) {
    EvaluateAnswer(store, a.questionId, a.userAnswer).correct
  }

  /** The exam-mode score of a log: how many of its answers are right. */
  function CountCorrect(store: Store, log: seq<Answer>): (r: nat)
    ensures r <= |log|
  {
    if log == [] then 0
    else CountCorrect(store, log[..|log| - 1]) + (if Scores(store, log[|log| - 1]) then 1 else 0)
  }

  /** Logging one more answer raises the score by one exactly when that answer
      is right. */
  lemma CountCorrectAppend(store: Store, log: seq<Answer>, a: Answer)
    ensures CountCorrect(store, log + [a]) == CountCorrect(store, log) + (if Scores(store, a) then 1 else 0)
  {
  }

  /** Every attempt counts as correct exactly when every logged answer is right. */
  lemma {:induction false} CountCorrectAll(store: Store, log: seq<Answer>)
    ensures CountCorrect(store, log) == |log| <==> forall i :: 0 <= i < |log| ==> Scores(store, log[i])
  {
    if log != [] {
      var n := |log| - 1;
      var init := log[..n];
      CountCorrectAll(store, init);
      assert CountCorrect(store, log) == CountCorrect(store, init) + (if Scores(store, log[n]) then 1 else 0);
      assert (forall i :: 0 <= i < |log| ==> Scores(store, log[i])) <==>
             (forall i :: 0 <= i < n ==> Scores(store, init[i])) && Scores(store, log[n]) by {
        assert forall i :: 0 <= i < n ==> init[i] == log[i];
      }
    }
  }

  /** The score depends on each answer only through its canonical form. */
  lemma {:induction false} CountCorrectUpToFormatting(store: Store, log: seq<Answer>, log': seq<Answer>)
    requires |log| == |log'|
    requires forall i :: 0 <= i < |log| ==>
      log[i].questionId == log'[i].questionId && Normalize(log[i].userAnswer) == Normalize(log'[i].userAnswer)
    ensures CountCorrect(store, log) == CountCorrect(store, log')
  {
    if log != [] {
      var n := |log| - 1;
      CountCorrectUpToFormatting(store, log[..n], log'[..n]);
      EvaluateUpToFormatting(store, log[n].questionId, log[n].userAnswer, log'[n].userAnswer);
    }
  }

  /** `limit` is passed to the sample query unless every question is wanted. */
  function SampleLimit(allQuestions: bool, limit: int): (r: Option<int>) {
    if allQuestions then None else Some(limit)
  }

  /** The `SESSION` dictionary.  `started` is false while the dictionary is
      still empty; the other fields are its keys. */
  class PlaySession {
    var started: bool
    var queue: seq<int>
    var current: nat
    var correct: nat
    var startTime: int
    var timeLimit: int
    var mode: Mode
    var answers: seq<Answer>

    /** One log entry per accepted submission; only training scores as it goes. */
    ghost predicate Valid()
      reads this
    {
      |answers| == current &&
      correct <= current &&
      (mode == Exam ==> correct == 0) &&
      (started ==> queue != []) &&
      (!started ==> current == 0)
    }

    /** The training accumulator agrees with a re-count of the log against
        `store`. */
    ghost predicate ScoredAgainst(store: Store)
      reads this
    {
      mode == Training ==> correct == CountCorrect(store, answers)
    }

    /** Seconds left at time `now`. */
    function Remaining(now: int): (r: int)
      reads this
    {
      timeLimit - (now - startTime)
    }

    /** The attempts a summary reports: 0 for an empty session. */
    function Attempts(): (r: nat)
      reads this
    {
      if started then current else 0
    }

    /** The score a summary reports: a re-count of the log in exam mode, the
        accumulator otherwise, 0 for an empty session. */
    function FinalScore(store: Store): (r: nat)
      reads this
    {
      if !started then 0
      else if mode == Exam then CountCorrect(store, answers)
      else correct
    }

    /** The empty session the process starts with. */
    constructor ()
      ensures Valid() && !started
      ensures answers == [] && current == 0 && correct == 0
    {
      started := false;
      queue := [];
      current := 0;
      correct := 0;
      startTime := 0;
      timeLimit := 0;
      mode := Training;
      answers := [];
    }

    /** `play_start`: fetch a sample of the subcategory's questions; with an
        empty sample redirect home and keep the old session, otherwise replace
        the session wholesale and show the first question. */
    method PlayStart(store: Store, fetch: (int, Option<int>) -> seq<int>, subcategoryId: int,
                     limit: int, timeLimitMinutes: int, allQuestions: bool, exam: bool, now: int)
      returns (r: Response)
      requires Valid()
      modifies this
      ensures Valid()
      ensures var sample := fetch(subcategoryId, SampleLimit(allQuestions, limit));
        if sample == [] then
          r == Redirect("/") && unchanged(this)
        else
          started && queue == sample && current == 0 && correct == 0 && answers == [] &&
          startTime == now && timeLimit == timeLimitMinutes * 60 &&
          (mode == Exam <==> exam) &&
          r == QuestionPage(GetQuestion(store, sample[0]), subcategoryId, timeLimit,
                            Progress(1, |sample|), None)
      ensures r.QuestionPage? ==> Remaining(now) == r.remainingTime && ScoredAgainst(store)
    {
      var sample := fetch(subcategoryId, SampleLimit(allQuestions, limit));
      if sample == [] {
        return Redirect("/");
      }
      started := true;
      queue := sample;
      current := 0;
      correct := 0;
      startTime := now;
      timeLimit := timeLimitMinutes * 60;
      mode := if exam then Exam else Training;
      answers := [];
      r := QuestionPage(GetQuestion(store, queue[0]), subcategoryId, timeLimit,
                        Progress(1, |queue|), None);
    }

    /** `play_timeout`: the final summary.  It changes nothing. */
    method PlayTimeout(store: Store) returns (r: Response)
      ensures r == Summary(Attempts(), FinalScore(store), true)
      ensures Valid() && ScoredAgainst(store) ==>
        r.correct == CountCorrect(store, answers) && r.correct <= r.attempts
    {
      var attempts := if started then current else 0;
      var count := 0;
      if started && mode == Exam {
        for i := 0 to |answers|
          invariant count == CountCorrect(store, answers[..i])
        {
          var a := answers[i];
          var e := EvaluateAnswer(store, a.questionId, a.userAnswer);
          assert answers[..i + 1] == answers[..i] + [a];
          CountCorrectAppend(store, answers[..i], a);
          if e.correct {
            count := count + 1;
          }
        }
        assert answers[..|answers|] == answers;
      } else {
        count := if started then correct else 0;
      }
      r := Summary(attempts, count, true);
    }

    /** `play_answer`: past the deadline, summarise without logging; otherwise
        log the answer, score it in training mode, advance, and either
        summarise (queue used up) or show the next question. */
    method PlayAnswer(store: Store, questionId: int, subcategoryId: int, userAnswer: string, now: int)
      returns (r: Response)
      requires started && Valid()
      modifies this
      ensures Valid()
      ensures started && queue == old(queue) && mode == old(mode)
      ensures startTime == old(startTime) && timeLimit == old(timeLimit)
      ensures old(Remaining(now)) <= 0 ==>
        answers == old(answers) && current == old(current) && correct == old(correct) &&
        r == Summary(current, FinalScore(store), true)
      ensures old(Remaining(now)) > 0 ==>
        answers == old(answers) + [Answer(questionId, userAnswer)] &&
        current == old(current) + 1 &&
        correct == old(correct) +
          (if mode == Training && EvaluateAnswer(store, questionId, userAnswer).correct then 1 else 0)
      ensures old(Remaining(now)) > 0 && current >= |queue| ==>
        r == Summary(current, FinalScore(store), true)
      ensures old(Remaining(now)) > 0 && current < |queue| ==>
        r == QuestionPage(GetQuestion(store, queue[current]), subcategoryId, old(Remaining(now)),
                          Progress(current + 1, |queue|),
                          if mode == Training then Some(EvaluateAnswer(store, questionId, userAnswer)) else None)
      ensures old(ScoredAgainst(store)) ==> ScoredAgainst(store)
      ensures old(current) < |queue| ==> current <= |queue|
    {
      var remaining := timeLimit - (now - startTime);
      if remaining <= 0 {
        r := PlayTimeout(store);
        assert Attempts() == current;
        return;
      }
      CountCorrectAppend(store, answers, Answer(questionId, userAnswer));
      answers := answers + [Answer(questionId, userAnswer)];
      var result: Option<EvalResult> := None;
      if mode == Training {
        var e := EvaluateAnswer(store, questionId, userAnswer);
        result := Some(e);
        if e.correct {
          correct := correct + 1;
        }
      }
      current := current + 1;
      if current >= |queue| {
        r := PlayTimeout(store);
        return;
      }
      r := QuestionPage(GetQuestion(store, queue[current]), subcategoryId, remaining,
                        Progress(current + 1, |queue|), result);
    }
  }

  // -----------------------------------------------------------------------
  // Whole sessions, driven through the handlers
  // -----------------------------------------------------------------------

  /** Training over two questions, one answered right and one wrong. */
  method TrainingScenario(store: Store, q1: int, q2: int, right: string, wrong: string)
    returns (middle: Response, r: Response)
    requires q1 in store && q2 in store
    requires Normalize(right) == Normalize(store[q1].answer)
    requires Normalize(wrong) != Normalize(store[q2].answer)
    ensures middle == QuestionPage(Some(store[q2]), 3, 570, Progress(2, 2),
                                   Some(EvalResult(true, Some(store[q1].answer))))
    ensures r == Summary(2, 1, true)
  {
    var session := new PlaySession();
    var page := session.PlayStart(store, (sub: int, n: Option<int>) => [q1, q2], 3, 2, 10, false, false, 1000);
    middle := session.PlayAnswer(store, q1, 3, right, 1030);
    r := session.PlayAnswer(store, q2, 3, wrong, 1100);
  }

  /** The same answers in exam mode: no verdict on the way, and the re-count
      of the log gives the same score. */
  method ExamScenario(store: Store, q1: int, q2: int, right: string, wrong: string)
    returns (middle: Response, r: Response)
    requires q1 in store && q2 in store
    requires Normalize(right) == Normalize(store[q1].answer)
    requires Normalize(wrong) != Normalize(store[q2].answer)
    ensures middle == QuestionPage(Some(store[q2]), 3, 570, Progress(2, 2), None)
    ensures r == Summary(2, 1, true)
  {
    var session := new PlaySession();
    var page := session.PlayStart(store, (sub: int, n: Option<int>) => [q1, q2], 3, 2, 10, false, true, 1000);
    middle := session.PlayAnswer(store, q1, 3, right, 1030);
    r := session.PlayAnswer(store, q2, 3, wrong, 1100);
    assert session.answers == [Answer(q1, right)] + [Answer(q2, wrong)];
    CountCorrectAppend(store, [Answer(q1, right)], Answer(q2, wrong));
    CountCorrectAppend(store, [], Answer(q1, right));
  }

  /** A zero-minute budget: the first submission is already too late and is
      not logged. */
  method TimeoutScenario(store: Store, q: int, answer: string) returns (r: Response, logged: seq<Answer>)
    ensures r == Summary(0, 0, true) && logged == []
  {
    var session := new PlaySession();
    var page := session.PlayStart(store, (sub: int, n: Option<int>) => [q], 3, 1, 0, false, false, 1000);
    r := session.PlayAnswer(store, q, 3, answer, 1000);
    logged := session.answers;
  }
}
