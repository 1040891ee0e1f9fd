/** The level quiz: the per-level question banks, the choice of at most five
    questions, the answer cursor, the percentage score and the pass rule. */
module QuizComponent {
  import opened Numbers

  /** A multiple-choice question; `correct` is the index of the right option.
      (The bank's media kind and media URL are presentation only.) */
  datatype Question = Question(text: string, options: seq<string>, correct: int)

  predicate WellFormed(q: Question) {
    0 <= q.correct < |q.options|
  }

  predicate Distinct<T(==)>(s: seq<T>) {
    forall i, j :: 0 <= i < j < |s| ==> s[i] != s[j]
  }

  /** At most this many questions are asked per level. */
  const MaxQuestions: nat := 5

  /** A score of at least this percentage passes. */
  const PassPercent: real := 60.0

  const Level1: seq<Question> := [
    Question("What does a yellow traffic light mean?",
      ["Speed up to get through", "Prepare to stop safely", "Stop immediately", "Ignore it if you're in a hurry"], 1),
    Question("Identify this road sign:",
      ["Stop", "Yield", "Merge", "Speed Limit"], 1),
    Question("What's the proper following distance in good conditions?",
      ["1 second", "2 seconds", "3 seconds", "5 seconds"], 2),
    Question("When should you use your turn signals?",
      ["Only when turning", "Only when changing lanes", "When turning or changing lanes", "Only in heavy traffic"], 2),
    Question("Identify the correct parking technique:",
      ["Parallel parking", "Angle parking", "Perpendicular parking", "Double parking"], 0),
    Question("What's the speed limit in a residential area?",
      ["15 mph", "25 mph", "35 mph", "45 mph"], 1)
  ]

  const Level2: seq<Question> := [
    Question("What does this road marking mean?",
      ["Passing is encouraged", "Crossing is discouraged", "No traffic allowed", "Speed limit zone"], 1),
    Question("When driving in fog, you should use:",
      ["High beams", "Low beams", "Hazard lights", "No lights"], 1),
    Question("Identify the correct tire pressure gauge reading:",
      ["28 PSI", "32 PSI", "36 PSI", "40 PSI"], 1)
  ]

  const Level3: seq<Question> := [
    Question("What should you do if hydroplaning?",
      ["Brake hard", "Turn sharply", "Ease off gas and steer straight", "Accelerate"], 2),
    Question("Identify the correct hand position:",
      ["12 and 6", "10 and 2", "9 and 3", "8 and 4"], 2),
    Question("What's the first thing to do at the scene of an accident?",
      ["Call your insurance", "Take photos", "Ensure safety/call emergency services", "Leave quickly"], 2)
  ]

  /** The question pool of a level (quizData[level]). */
  function Pool(level: int): (pool: seq<Question>)
    requires 1 <= level <= 3
    ensures |pool| == (if level == 1 then 6 else 3)
    ensures forall i :: 0 <= i < |pool| ==> WellFormed(pool[i])
    ensures Distinct(pool)
  {
    if level == 1 then Level1 else if level == 2 then Level2 else Level3
  }

  /** The questions asked: the first min(5, |pool|) of the shuffled pool. */
  function SelectQuestions(pool: seq<Question>, shuffled: seq<Question>): (qs: seq<Question>)
    requires multiset(shuffled) == multiset(pool)
    ensures |shuffled| == |pool|
    ensures |qs| == Min(MaxQuestions, |pool|)
    ensures qs == shuffled[..|qs|]
    ensures multiset(qs) <= multiset(pool)
  {
    assert |shuffled| == |multiset(shuffled)| == |pool|;
    var qs := shuffled[..Min(MaxQuestions, |shuffled|)];
    assert shuffled == qs + shuffled[|qs|..];
    qs
  }

  /** A sequence without repeats holds each value at most once. */
  lemma {:induction false} DistinctCounts<T>(s: seq<T>, x: T)
    requires Distinct(s)
    ensures multiset(s)[x] <= 1
    decreases |s|
  {
    if |s| > 0 {
      var t := s[1..];
      assert s == [s[0]] + t;
      assert Distinct(t) by {
        forall i, j | 0 <= i < j < |t| ensures t[i] != t[j] {
          assert t[i] == s[i + 1] && t[j] == s[j + 1];
        }
      }
      DistinctCounts(t, x);
      assert forall j :: 0 <= j < |t| ==> t[j] == s[j + 1] != s[0];
      assert s[0] !in t;
    }
  }

  /** A sequence holding each value at most once has no repeats. */
  lemma CountsDistinct<T>(s: seq<T>)
    requires forall x :: multiset(s)[x] <= 1
    ensures Distinct(s)
  {
    forall i, j | 0 <= i < j < |s| ensures s[i] != s[j] {
      var x := s[i];
      assert s == s[..i] + [s[i]] + s[i + 1..j] + [s[j]] + s[j + 1..];
      assert multiset(s)[x] >= 1 + (if s[j] == x then 1 else 0);
    }
  }

  /** The asked questions are distinct questions of the pool, each with a
      valid answer index: 5 for level 1, 3 for levels 2 and 3. */
  lemma SelectionFromPool(level: int, shuffled: seq<Question>)
    requires 1 <= level <= 3
    requires multiset(shuffled) == multiset(Pool(level))
    ensures var qs := SelectQuestions(Pool(level), shuffled);
      && |qs| == (if level == 1 then 5 else 3)
      && Distinct(qs)
      && forall i :: 0 <= i < |qs| ==> qs[i] in Pool(level) && WellFormed(qs[i])
  {
    var pool := Pool(level);
    var qs := SelectQuestions(pool, shuffled);
    forall x ensures multiset(qs)[x] <= 1 {
      DistinctCounts(pool, x);
    }
    CountsDistinct(qs);
    forall i | 0 <= i < |qs| ensures qs[i] in pool && WellFormed(qs[i]) {
      assert qs[i] in multiset(qs);
      assert qs[i] in multiset(pool);
      var j :| 0 <= j < |pool| && pool[j] == qs[i];
    }
  }

  /** The number of answers equal to the correct option of the question at
      the same position. */
  function CorrectCount(questions: seq<Question>, answers: seq<int>): (n: nat)
    requires |answers| <= |questions|
    ensures n <= |answers|
    decreases |answers|
  {
    if answers == [] then 0
    else
      var k := |answers| - 1;
      CorrectCount(questions, answers[..k]) + (if answers[k] == questions[k].correct then 1 else 0)
  }

  /** Every answer right gives the full count; every answer wrong gives zero. */
  lemma {:induction false} CorrectCountExtremes(questions: seq<Question>, answers: seq<int>)
    requires |answers| <= |questions|
    ensures (forall i :: 0 <= i < |answers| ==> answers[i] == questions[i].correct) ==>
      CorrectCount(questions, answers) == |answers|
    ensures (forall i :: 0 <= i < |answers| ==> answers[i] != questions[i].correct) ==>
      CorrectCount(questions, answers) == 0
    decreases |answers|
  {
    if answers != [] {
      CorrectCountExtremes(questions, answers[..|answers| - 1]);
    }
  }

  /** c out of n as a percentage, (c / n) * 100. */
  function Percent(c: nat, n: nat): (pct: real)
    requires 0 < n
    ensures c <= n ==> 0.0 <= pct <= 100.0
    ensures c == 0 ==> pct == 0.0
    ensures c == n ==> pct == 100.0
    ensures pct >= PassPercent <==> 5 * c >= 3 * n
  {
    PercentFacts(c, n);
    assert c == n ==> c as real / n as real == 1.0;
    (c as real / n as real) * 100.0
  }

  /** The percentage lies in [0, 100] and reaches 60 exactly when
      5 * c >= 3 * n (60% in whole numbers). */
  lemma PercentFacts(c: nat, n: nat)
    requires 0 < n
    ensures c <= n ==> 0.0 <= (c as real / n as real) * 100.0 <= 100.0
    ensures (c as real / n as real) * 100.0 >= PassPercent <==> 5 * c >= 3 * n
  {
    var cr, nr := c as real, n as real;
    QuotientCompare(cr, nr, 0.0);
    QuotientCompare(cr, nr, 1.0);
    QuotientCompare(cr, nr, 0.6);
  }

  /** Comparing a quotient c / n (n > 0) with t is comparing c with t * n. */
  lemma QuotientCompare(c: real, n: real, t: real)
    requires n > 0.0
    ensures c / n >= t <==> c >= t * n
    ensures c / n <= t <==> c <= t * n
  {
    var q := c / n;
    assert q * n == c;
    ScaleMonotone(q, t, n);
    ScaleMonotone(t, q, n);
  }

  /** Multiplying both sides by a positive factor keeps a comparison. */
  lemma ScaleMonotone(a: real, b: real, k: real)
    requires k > 0.0
    ensures a >= b <==> a * k >= b * k
  {
    if a >= b {
      assert (a - b) * k >= 0.0;
    } else {
      assert (b - a) * k > 0.0;
    }
  }

  /** The percentage score of a quiz: the share of answers that match the
      correct option of their question; it passes at 60%, which in whole
      numbers is 5 * correct >= 3 * questions. */
  function Score(questions: seq<Question>, answers: seq<int>): (pct: real)
    requires 0 < |questions| && |answers| <= |questions|
    ensures 0.0 <= pct <= 100.0
    ensures Passed(pct) <==> 5 * CorrectCount(questions, answers) >= 3 * |questions|
  {
    Percent(CorrectCount(questions, answers), |questions|)
  }

  predicate Passed(pct: real) {
    pct >= PassPercent
  }

  /** Worked cases of the pass rule: 2 of 3 passes, 1 of 3 fails, all right
      passes and all wrong fails. */
  lemma PassExamples(questions: seq<Question>, answers: seq<int>)
    requires 0 < |questions| && |answers| == |questions|
    ensures |questions| == 3 && CorrectCount(questions, answers) == 2 ==> Passed(Score(questions, answers))
    ensures |questions| == 3 && CorrectCount(questions, answers) == 1 ==> !Passed(Score(questions, answers))
    ensures (forall i :: 0 <= i < |answers| ==> answers[i] == questions[i].correct) ==>
      Passed(Score(questions, answers))
    ensures (forall i :: 0 <= i < |answers| ==> answers[i] != questions[i].correct) ==>
      !Passed(Score(questions, answers))
  {
    CorrectCountExtremes(questions, answers);
  }

  /** The state of one level quiz. */
  class Quiz {
    var questions: seq<Question>
    var currentQuestion: int
    var answers: seq<int>
    var showResults: bool

    /** While the results are hidden there is one answer per question before
        the cursor, and the cursor is on a question; once they are shown
        every question has its answer. */
    ghost predicate Valid()
      reads this
    {
      && 0 < |questions| <= MaxQuestions
      && (forall i :: 0 <= i < |questions| ==> WellFormed(questions[i]))
      && 0 <= currentQuestion < |questions|
      && (!showResults ==> |answers| == currentQuestion)
      && (showResults ==> |answers| == |questions| && currentQuestion == |questions| - 1)
    }

    /** Mounting the quiz for a level, with `shuffled` standing for the
        random reordering of the level's pool. */
    constructor (level: int, shuffled: seq<Question>)
      requires 1 <= level <= 3
      requires multiset(shuffled) == multiset(Pool(level))
      ensures Valid()
      ensures questions == SelectQuestions(Pool(level), shuffled)
      ensures currentQuestion == 0 && answers == [] && !showResults
    {
      SelectionFromPool(level, shuffled);
      questions := SelectQuestions(Pool(level), shuffled);
      currentQuestion := 0;
      answers := [];
      showResults := false;
    }

    /** A click on an option: record the answer, then move to the next
        question or, on the last one, show the results. */
    method HandleAnswer(answerIndex: int)
      requires Valid() && !showResults
      modifies this`answers, this`currentQuestion, this`showResults
      ensures Valid()
      ensures answers == old(answers) + [answerIndex]
      ensures old(currentQuestion) < |questions| - 1 ==>
        currentQuestion == old(currentQuestion) + 1 && !showResults
      ensures old(currentQuestion) == |questions| - 1 ==>
        currentQuestion == old(currentQuestion) && showResults
    {
      answers := answers + [answerIndex];
      if currentQuestion < |questions| - 1 {
        currentQuestion := currentQuestion + 1;
      } else {
        showResults := true;
      }
    }

    /** The results screen: the percentage score and the verdict passed to
        the game when the player continues. */
    method Results() returns (pct: real, passed: bool)
      requires Valid() && showResults
      ensures 0.0 <= pct <= 100.0
      ensures pct == Percent(CorrectCount(questions, answers), |questions|)
      ensures passed <==> 5 * CorrectCount(questions, answers) >= 3 * |questions|
    {
      pct := Score(questions, answers);
      passed := Passed(pct);
    }
  }
}
