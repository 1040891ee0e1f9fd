/** The safety quiz shown before the first level: two questions answered in
    order with a running score; answering the last one reports the verdict. */
module StartQuizComponent {
  import opened Wrappers
  import opened QuizComponent

  const InitialQuestions: seq<Question> := [
    Question("What is the most important rule of safe driving?",
      ["Always maintain speed", "Stay alert and focused", "Use horn frequently", "Race with others"], 1),
    Question("What should you check before starting to drive?",
      ["Only fuel level", "Nothing, just start driving", "Mirrors, seatbelt, and surroundings", "Radio stations"], 2)
  ]

  /** Index of the last start question. */
  const Last: int := |InitialQuestions| - 1

  /** Both start questions have a valid answer index. */
  lemma StartBankWellFormed()
    ensures |InitialQuestions| == 2
    ensures forall i :: 0 <= i < |InitialQuestions| ==> WellFormed(InitialQuestions[i])
  {
  }

  /** The question the i-th click answers: the clicks walk through the
      questions and then stay on the last one, since the cursor never moves
      past it. */
  function AskedAt(i: nat): (q: nat)
    ensures q <= Last
    ensures i <= Last ==> q == i
  {
    if i <= Last then i else Last
  }

  predicate RightAt(answers: seq<int>, i: nat)
    requires i < |answers|
  {
    answers[i] == InitialQuestions[AskedAt(i)].correct
  }

  /** The number of clicks that chose the right option of the question shown. */
  function RightCount(answers: seq<int>): (n: nat)
    ensures n <= |answers|
    decreases |answers|
  {
    if answers == [] then 0
    else
      var k := |answers| - 1;
      RightCount(answers[..k]) + (if RightAt(answers, k) then 1 else 0)
  }

  /** Every click chose the right option of the question on screen. */
  predicate AllRight(answers: seq<int>) {
    forall i :: 0 <= i < |answers| ==> RightAt(answers, i)
  }

  /** The count reaches the number of clicks exactly when every click was right. */
  lemma {:induction false} RightCountFull(answers: seq<int>)
    ensures RightCount(answers) == |answers| <==> AllRight(answers)
    decreases |answers|
  {
    if answers != [] {
      var k := |answers| - 1;
      var prefix := answers[..k];
      RightCountFull(prefix);
      assert forall i :: 0 <= i < k ==> (RightAt(answers, i) <==> RightAt(prefix, i));
    }
  }

  /** One more click adds one to the count exactly when it chose the right
      option of the question on screen. */
  lemma RightCountSnoc(answers: seq<int>, a: int)
    ensures RightCount(answers + [a]) ==
      RightCount(answers) + (if a == InitialQuestions[AskedAt(|answers|)].correct then 1 else 0)
  {
    var s := answers + [a];
    assert s[..|s| - 1] == answers;
    assert RightAt(s, |s| - 1) <==> a == InitialQuestions[AskedAt(|answers|)].correct;
  }

  /** The state of the start quiz. `attempt` records every click since the
      quiz was mounted (or, in the corrected behaviour, restarted). */
  class StartQuiz {
    var currentQuestion: int
    var score: int
    ghost var attempt: seq<int>

    /** The cursor stays on a question and the score counts the right clicks. */
    ghost predicate Valid()
      reads this
    {
      && currentQuestion == AskedAt(|attempt|)
      && score == RightCount(attempt)
    }

    constructor ()
      ensures Valid()
      ensures currentQuestion == 0 && score == 0 && attempt == []
    {
      currentQuestion := 0;
      score := 0;
      attempt := [];
    }

    /** A click on option `answerIndex`. The result stands for the call of
        onComplete: None when it is not called, Some(passed) when it is.
        Nothing stops further clicks after the verdict: the component stays
        on the last question and every further click reports again. */
    method HandleAnswer(answerIndex: int) returns (report: Option<bool>)
      requires Valid()
      modifies this`currentQuestion, this`score, this`attempt
      ensures Valid()
      ensures attempt == old(attempt) + [answerIndex]
      ensures score == old(score) + (if answerIndex == InitialQuestions[old(currentQuestion)].correct then 1 else 0)
      ensures 0 <= old(score) <= score <= |attempt|
      ensures 0 <= currentQuestion <= Last
      ensures old(currentQuestion) < Last ==> currentQuestion == old(currentQuestion) + 1 && report == None
      ensures old(currentQuestion) == Last ==>
        currentQuestion == Last && report == Some(score == |InitialQuestions|)
      ensures |attempt| == |InitialQuestions| ==>
        report.Some? && (report.value <==> AllRight(attempt))
    {
      var isCorrect := answerIndex == InitialQuestions[currentQuestion].correct;
      var newScore := if isCorrect then score + 1 else score;
      RightCountSnoc(attempt, answerIndex);
      attempt := attempt + [answerIndex];
      score := newScore;
      if currentQuestion < Last {
        currentQuestion := currentQuestion + 1;
        report := None;
      } else {
        report := Some(newScore == |InitialQuestions|);
      }
      RightCountFull(attempt);
    }

    /** The evidently intended behaviour: a failed start quiz starts over
        from the first question with score 0, so every verdict is about one
        complete attempt of exactly one answer per question. */
    method HandleAnswerRestarting(answerIndex: int) returns (report: Option<bool>)
      requires Valid() && |attempt| < |InitialQuestions|
      modifies this`currentQuestion, this`score, this`attempt
      ensures Valid()
      ensures old(currentQuestion) < Last ==>
        && report == None && currentQuestion == old(currentQuestion) + 1
        && attempt == old(attempt) + [answerIndex]
      ensures old(currentQuestion) == Last ==> report.Some?
      ensures report.Some? ==>
        var answered := old(attempt) + [answerIndex];
        && |answered| == |InitialQuestions|
        && (report.value <==> forall i :: 0 <= i < |answered| ==> answered[i] == InitialQuestions[i].correct)
      ensures report == Some(false) ==> currentQuestion == 0 && score == 0 && attempt == []
      ensures |attempt| < |InitialQuestions| || report == Some(true)
    {
      ghost var answered := attempt + [answerIndex];
      report := HandleAnswer(answerIndex);
      assert forall i :: 0 <= i < |answered| ==> AskedAt(i) == i;
      if report == Some(false) {
        currentQuestion := 0;
        score := 0;
        attempt := [];
      }
    }
  }

  /** After a failed verdict the component is not remounted (the game is
      already in its initial phase), so the next click answers the second
      question again: a player who got the first question wrong and the
      second right fails, clicks the right option of the second question
      once more, and is reported as passed. */
  method RetryWithoutFirstQuestion() returns (first: Option<bool>, second: Option<bool>, verdict: Option<bool>)
    ensures first == None && second == Some(false) && verdict == Some(true)
  {
    var q := new StartQuiz();
    first := q.HandleAnswer(0);
    second := q.HandleAnswer(2);
    verdict := q.HandleAnswer(2);
  }

  /** With the corrected behaviour the same clicks do not pass: the third
      click answers the first question again, and wrongly. */
  method RetryRestarting() returns (first: Option<bool>, second: Option<bool>, third: Option<bool>)
    ensures first == None && second == Some(false) && third == None
  {
    var q := new StartQuiz();
    first := q.HandleAnswerRestarting(0);
    second := q.HandleAnswerRestarting(2);
    third := q.HandleAnswerRestarting(2);
  }
}
