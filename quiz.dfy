/** The quiz page of `FRONTEND/app/src/pages/Game.tsx`: answers are recorded per
    question id, submitting grades them all at once, the score counts the correct
    ones, and a five-minute countdown opens the results when it runs out. */
module Quiz {
  import opened Wrappers
  import opened Text

  datatype Question = Question(id: int, prompt: string, options: seq<string>, correctAnswer: string)

  /** `mockQuizData`: three questions with ids 1, 2 and 3. */
  const QuizData: seq<Question> := [
    Question(1, "What is the derivative of \\(f(x) = 3x^2 + 5x - 4\\)?", ["6x + 5", "3x + 5", "6x - 5", "5x + 3"], "6x + 5"),
    Question(2, "Solve for \\(x\\): \\(2x + 3 = 7\\).", ["1", "2", "3", "4"], "2"),
    Question(3, "What is the value of \\(\\sin(30°) + \\cos(60°)\\)?", ["0.5", "1", "1.5", "2"], "1")
  ]

  /** Seconds on the clock when the page opens and after a retry. */
  const TimeLimit: nat := 300

  ghost predicate DistinctIds(qs: seq<Question>) {
    forall i, j :: 0 <= i < j < |qs| ==> qs[i].id != qs[j].id
  }

  function Ids(qs: seq<Question>): set<int> {
    set i | 0 <= i < |qs| :: qs[i].id
  }

  /** `quizAnswers[question.id] === question.correctAnswer`: an unanswered question is
      `undefined`, which equals no answer text. */
  predicate Correct(q: Question, answers: map<int, string>) {
    q.id in answers && answers[q.id] == q.correctAnswer
  }

  /** The `reduce` of `handleSubmit`: one result per question id, taken left to right. */
  function Grade(qs: seq<Question>, answers: map<int, string>): (results: map<int, bool>)
    ensures results.Keys == Ids(qs)
    ensures DistinctIds(qs) ==> forall i :: 0 <= i < |qs| ==> results[qs[i].id] == Correct(qs[i], answers)
  {
    if qs == [] then map[]
    else
      var init := qs[..|qs| - 1];
      var last := qs[|qs| - 1];
      var before := Grade(init, answers);
      IdsSnoc(qs);
      assert qs == init + [last];
      GradeStep(init, last, answers, before);
      before[last.id := Correct(last, answers)]
  }

  /** The ids of a non-empty list are those of all but its last question, plus the last one's. */
  lemma IdsSnoc(qs: seq<Question>)
    requires qs != []
    ensures Ids(qs) == Ids(qs[..|qs| - 1]) + {qs[|qs| - 1].id}
  {
    var init := qs[..|qs| - 1];
    forall k | k in Ids(qs) ensures k in Ids(init) + {qs[|qs| - 1].id} {
      var i :| 0 <= i < |qs| && qs[i].id == k;
      if i < |qs| - 1 { assert init[i] == qs[i]; }
    }
  }

  /** Grading the last question on top of correct results for the others gives correct
      results for all, provided the ids are distinct. */
  lemma GradeStep(init: seq<Question>, last: Question, answers: map<int, string>, before: map<int, bool>)
    requires before.Keys == Ids(init)
    requires DistinctIds(init) ==> forall i :: 0 <= i < |init| ==> before[init[i].id] == Correct(init[i], answers)
    ensures DistinctIds(init + [last]) ==>
      forall i :: 0 <= i < |init| + 1 ==>
        before[last.id := Correct(last, answers)][(init + [last])[i].id] == Correct((init + [last])[i], answers)
  {
    var qs := init + [last];
    if DistinctIds(qs) {
      assert DistinctIds(init) by {
        forall i, j | 0 <= i < j < |init| ensures init[i].id != init[j].id {
          assert qs[i] == init[i] && qs[j] == init[j];
        }
      }
      forall i | 0 <= i < |qs|
        ensures before[last.id := Correct(last, answers)][qs[i].id] == Correct(qs[i], answers)
      {
        if i < |init| {
          assert qs[i] == init[i] && qs[|init|] == last;
        }
      }
    }
  }

  /** The ids whose result is `true`. */
  function Passed(results: map<int, bool>): set<int> {
    set k | k in results && results[k]
  }

  /** `Object.values(quizResults).filter((result) => result).length`. */
  function Score(results: map<int, bool>): nat {
    |Passed(results)|
  }

  /** How many questions the answers get right, counted question by question. */
  function CountCorrect(qs: seq<Question>, answers: map<int, string>): (n: nat)
    ensures n <= |qs|
  {
    if qs == [] then 0
    else CountCorrect(qs[..|qs| - 1], answers) + (if Correct(qs[|qs| - 1], answers) then 1 else 0)
  }

  /** Grading one more, previously ungraded id adds one passed id exactly when it is correct. */
  lemma PassedAdd(results: map<int, bool>, id: int, v: bool)
    requires id !in results
    ensures Score(results[id := v]) == Score(results) + (if v then 1 else 0)
  {
    assert Passed(results[id := v]) == Passed(results) + (if v then {id} else {});
  }

  /** With distinct ids, the score shown after submitting is the number of questions
      answered correctly; it therefore lies between 0 and the number of questions. */
  lemma {:induction false} ScoreOfGrade(qs: seq<Question>, answers: map<int, string>)
    requires DistinctIds(qs)
    ensures Score(Grade(qs, answers)) == CountCorrect(qs, answers)
    ensures Score(Grade(qs, answers)) <= |qs|
  {
    if qs != [] {
      var init := qs[..|qs| - 1];
      var last := qs[|qs| - 1];
      assert DistinctIds(init);
      ScoreOfGrade(init, answers);
      var before := Grade(init, answers);
      assert last.id !in before;
      var v := Correct(last, answers);
      assert Grade(qs, answers) == before[last.id := v];
      PassedAdd(before, last.id, v);
    }
  }

  /** `Math.floor(timer / 60)`, a colon, then `(timer % 60).toString().padStart(2, '0')`. */
  function TimerDisplay(timer: nat): string {
    NatToString(timer / 60) + (":" + PadStart2(NatToString(timer % 60)))
  }

  /** The clock reads back: the text before the colon parses to the minutes, and the
      last two characters are digits spelling the seconds. */
  lemma TimerDisplayReadsBack(timer: nat)
    ensures var shown := TimerDisplay(timer);
      && |shown| == |NatToString(timer / 60)| + 3
      && ParseInt(shown) == Some(timer / 60)
      && AllDigits(shown[|shown| - 2..])
      && DigitsValue(shown[|shown| - 2..]) == timer % 60
  {
    var seconds := PadStart2(NatToString(timer % 60));
    PaddedSecondsReadBack(timer % 60);
    ColonReadsBack(timer / 60, seconds);
  }

  /** Minutes, a colon and two characters: the minutes parse back, and the last two
      characters are the ones appended. */
  lemma ColonReadsBack(minutes: nat, seconds: string)
    requires |seconds| == 2
    ensures var shown := NatToString(minutes) + (":" + seconds);
      && |shown| == |NatToString(minutes)| + 3
      && ParseInt(shown) == Some(minutes)
      && shown[|shown| - 2..] == seconds
  {
    var rest := ":" + seconds;
    var shown := NatToString(minutes) + rest;
    assert rest[0] == ':';
    ParseIntOfNatToString(minutes, rest);
    assert shown[|shown| - 2..] == seconds;
  }

  /** The seconds of the clock are two digits spelling their value. */
  lemma PaddedSecondsReadBack(n: nat)
    requires n < 60
    ensures |PadStart2(NatToString(n))| == 2
    ensures AllDigits(PadStart2(NatToString(n)))
    ensures DigitsValue(PadStart2(NatToString(n))) == n
  {
    var s := NatToString(n);
    NatToStringValue(n);
    if |s| == 1 {
      var padded := PadStart2(s);
      assert padded == ['0', s[0]];
      assert padded[..1] == ['0'];
      assert s[..0] == [];
    } else {
      assert PadStart2(s) == s;
    }
  }

  class QuizSession {
    const questions: seq<Question>
    /** `quizAnswers`, keyed by question id. */
    var answers: map<int, string>
    /** `currentQuestionIndex`. */
    var index: nat
    /** `quizResults`, keyed by question id. */
    var results: map<int, bool>
    /** Seconds left. */
    var timer: nat
    var showModal: bool
    var showAnswers: bool

    ghost predicate Valid()
      reads this
    {
      |questions| > 0 && DistinctIds(questions) && index < |questions| && timer <= TimeLimit
    }

    constructor ()
      ensures Valid()
      ensures questions == QuizData && answers == map[] && results == map[]
      ensures index == 0 && timer == TimeLimit && !showModal && !showAnswers
    {
      questions := QuizData;
      answers := map[];
      index := 0;
      results := map[];
      timer := TimeLimit;
      showModal := false;
      showAnswers := false;
    }

    /** `handleAnswerSelect`: records the answer under the current question's id and
        leaves every other recorded answer as it was. */
    method SelectAnswer(answer: string)
      requires Valid()
      modifies this
      ensures Valid()
      ensures answers == old(answers)[questions[index].id := answer]
      ensures forall id :: id != questions[index].id && id in old(answers) ==> id in answers && answers[id] == old(answers)[id]
      ensures index == old(index) && results == old(results) && timer == old(timer)
      ensures showModal == old(showModal) && showAnswers == old(showAnswers)
    {
      answers := answers[questions[index].id := answer];
    }

    /** `handleSubmit`: grades every question and opens the results. */
    method Submit()
      requires Valid()
      modifies this
      ensures Valid()
      ensures results == Grade(questions, answers)
      ensures forall i :: 0 <= i < |questions| ==> results[questions[i].id] == Correct(questions[i], answers)
      ensures showModal
      ensures answers == old(answers) && index == old(index) && timer == old(timer) && showAnswers == old(showAnswers)
    {
      results := Grade(questions, answers);
      showModal := true;
    }

    /** `handleNext`: moves forward unless on the last question. */
    method Next()
      requires Valid()
      modifies this
      ensures Valid()
      ensures index == if old(index) < |questions| - 1 then old(index) + 1 else old(index)
      ensures answers == old(answers) && results == old(results) && timer == old(timer)
      ensures showModal == old(showModal) && showAnswers == old(showAnswers)
    {
      if index < |questions| - 1 {
        index := index + 1;
      }
    }

    /** `handlePrevious`: moves back unless on the first question. */
    method Previous()
      requires Valid()
      modifies this
      ensures Valid()
      ensures index == if old(index) > 0 then old(index) - 1 else old(index)
      ensures answers == old(answers) && results == old(results) && timer == old(timer)
      ensures showModal == old(showModal) && showAnswers == old(showAnswers)
    {
      if index > 0 {
        index := index - 1;
      }
    }

    /** The button under a question: Submit on the last question, Next before it. */
    method PressMainButton()
      requires Valid()
      modifies this
      ensures Valid()
      ensures old(index) == |questions| - 1 ==> results == Grade(questions, answers) && showModal && index == old(index)
      ensures old(index) < |questions| - 1 ==> index == old(index) + 1 && results == old(results) && showModal == old(showModal)
      ensures answers == old(answers) && timer == old(timer) && showAnswers == old(showAnswers)
    {
      if index == |questions| - 1 {
        Submit();
      } else {
        Next();
      }
    }

    /** Clicking entry `i` of the overview list. */
    method Jump(i: nat)
      requires Valid() && i < |questions|
      modifies this
      ensures Valid()
      ensures index == i
      ensures answers == old(answers) && results == old(results) && timer == old(timer)
      ensures showModal == old(showModal) && showAnswers == old(showAnswers)
    {
      index := i;
    }

    /** One second of the countdown: the interval runs only while the results are closed,
        takes one off the timer but never goes below 0, and the results open when the
        timer reaches 0. */
    method Tick()
      requires Valid()
      modifies this
      ensures Valid()
      ensures old(showModal) ==> timer == old(timer) && showModal
      ensures !old(showModal) ==> timer == (if old(timer) > 0 then old(timer) - 1 else 0) && showModal == (timer == 0)
      ensures answers == old(answers) && results == old(results) && index == old(index) && showAnswers == old(showAnswers)
    {
      if !showModal {
        timer := if timer > 0 then timer - 1 else 0;
        showModal := timer == 0;
      }
    }

    /** Closing the results: they reopen at once while the timer stands at 0. */
    method CloseModal()
      requires Valid()
      modifies this
      ensures Valid()
      ensures showModal == (timer == 0)
      ensures answers == old(answers) && results == old(results) && index == old(index)
      ensures timer == old(timer) && showAnswers == old(showAnswers)
    {
      showModal := timer == 0;
    }

    /** `handleShowAnswers`. */
    method ToggleShowAnswers()
      requires Valid()
      modifies this
      ensures Valid()
      ensures showAnswers == !old(showAnswers)
      ensures answers == old(answers) && results == old(results) && index == old(index)
      ensures timer == old(timer) && showModal == old(showModal)
    {
      showAnswers := !showAnswers;
    }

    /** The Retry button: clears answers and results, returns to the first question and
        restarts the clock. */
    method Retry()
      requires Valid()
      modifies this
      ensures Valid()
      ensures answers == map[] && results == map[] && index == 0 && timer == TimeLimit && !showModal
      ensures showAnswers == old(showAnswers)
    {
      showModal := false;
      answers := map[];
      results := map[];
      index := 0;
      timer := TimeLimit;
    }
  }

  /** One second into the quiz the clock shows 4:59. */
  lemma ClockAfterOneSecond()
    ensures TimerDisplay(TimeLimit - 1) == "4:59"
  {
    assert (TimeLimit - 1) / 60 == 4 && (TimeLimit - 1) % 60 == 59;
    assert NatToString(4) == "4";
    assert NatToString(59) == NatToString(5) + [DigitChar(9)] == "59";
    assert PadStart2("59") == "59";
    assert TimerDisplay(TimeLimit - 1) == "4" + ":" + "59";
  }

  /** One right answer, one wrong and one left blank score 1 out of 3. */
  method QuizScenario() returns (score: nat, timer: nat)
    ensures score == 1
    ensures timer == TimeLimit - 1
  {
    var quiz := new QuizSession();
    quiz.SelectAnswer("6x + 5");
    assert quiz.answers == map[1 := "6x + 5"];
    quiz.PressMainButton();
    assert quiz.index == 1;
    quiz.SelectAnswer("3");
    assert quiz.answers == map[1 := "6x + 5", 2 := "3"];
    quiz.PressMainButton();
    assert quiz.index == 2;
    quiz.Tick();
    assert quiz.timer == 299 && !quiz.showModal;
    quiz.PressMainButton();
    assert Correct(QuizData[0], quiz.answers);
    assert !Correct(QuizData[1], quiz.answers);
    assert !Correct(QuizData[2], quiz.answers);
    assert quiz.results[1] && !quiz.results[2] && !quiz.results[3];
    assert quiz.results.Keys == {1, 2, 3};
    assert Passed(quiz.results) == {1};
    score := Score(quiz.results);
    timer := quiz.timer;
  }
}
