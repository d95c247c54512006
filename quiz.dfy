/** The wellbeing quiz: a six-question wizard whose answers are summed and
    classified into a high, medium or low wellbeing result. */
module Quiz {
  import opened Ui

  datatype AnswerOption = AnswerOption(text: string, value: int)

  datatype Question = Question(text: string, options: seq<AnswerOption>)

  /** The questionnaire; every question scores its options 3, 2, 1, 0 from
      the best situation to the worst. */
  const Questions: seq<Question> := [
    Question("How often do you feel overwhelmed by your studies?", [
      AnswerOption("Never", 3), AnswerOption("Sometimes", 2),
      AnswerOption("Often", 1), AnswerOption("Always", 0)]),
    Question("How well do you sleep at night?", [
      AnswerOption("Very well (7-8 hours)", 3), AnswerOption("Pretty well (5-6 hours)", 2),
      AnswerOption("Poorly (3-4 hours)", 1), AnswerOption("Very poorly (less than 3 hours)", 0)]),
    Question("How often do you engage in activities you enjoy?", [
      AnswerOption("Daily", 3), AnswerOption("Several times a week", 2),
      AnswerOption("Once a week", 1), AnswerOption("Rarely or never", 0)]),
    Question("How would you rate your stress levels?", [
      AnswerOption("Very low", 3), AnswerOption("Moderate", 2),
      AnswerOption("High", 1), AnswerOption("Extremely high", 0)]),
    Question("How often do you feel supported by friends and family?", [
      AnswerOption("Always", 3), AnswerOption("Most of the time", 2),
      AnswerOption("Sometimes", 1), AnswerOption("Rarely", 0)]),
    Question("How confident do you feel about your future?", [
      AnswerOption("Very confident", 3), AnswerOption("Somewhat confident", 2),
      AnswerOption("Not very confident", 1), AnswerOption("Not confident at all", 0)])
  ]

  /** The values the radio buttons of question `q` can report. */
  function OptionValues(q: nat): (vs: seq<int>)
    requires q < |Questions|
    ensures vs == [3, 2, 1, 0]
  {
    var opts := Questions[q].options;
    seq(|opts|, i requires 0 <= i < |opts| => opts[i].value)
  }

  /** Every value a radio button can report lies in 0..3. */
  lemma OptionValueRange(q: nat, v: int)
    requires q < |Questions| && v in OptionValues(q)
    ensures 0 <= v <= 3
  {
  }

  const MaxScore: int := |Questions| * 3

  /** `answers.reduce((sum, answer) => sum + answer, 0)`: a left fold, which
      gives the same sum as adding the answers up from the front. */
  function TotalScore(answers: seq<int>): (total: int)
    ensures |answers| > 0 ==> total == answers[0] + TotalScore(answers[1..])
  {
    if |answers| == 0 then 0
    else
      var init := answers[..|answers| - 1];
      assert |init| > 0 ==> init[0] == answers[0] && init[1..] == answers[1..][..|answers| - 2];
      TotalScore(init) + answers[|answers| - 1]
  }

  /** Answers each in 0..3 sum to at most three per answer. */
  lemma {:induction false} TotalScoreBounds(answers: seq<int>)
    requires forall i :: 0 <= i < |answers| ==> 0 <= answers[i] <= 3
    ensures 0 <= TotalScore(answers) <= 3 * |answers|
  {
    if |answers| > 0 {
      TotalScoreBounds(answers[..|answers| - 1]);
    }
  }

  /** `(totalScore / maxScore) * 100`, on exact reals: comparing it with
      70 or 40 is the cross-multiplied integer comparison, and a total in
      0..MaxScore gives a percentage in [0, 100]. */
  function Percentage(total: int): (pct: real)
    ensures pct >= 70.0 <==> total * 100 >= 70 * MaxScore
    ensures pct >= 40.0 <==> total * 100 >= 40 * MaxScore
    ensures 0 <= total <= MaxScore ==> 0.0 <= pct <= 100.0
  {
    (total as real / MaxScore as real) * 100.0
  }

  /** The branch `calculateResults` takes for a percentage: the three
      levels partition the percentages at 40 and 70. */
  function LevelOf(percentage: real): (l: Level)
    ensures l == High <==> 70.0 <= percentage
    ensures l == Medium <==> 40.0 <= percentage < 70.0
    ensures l == Low <==> percentage < 40.0
  {
    if percentage >= 70.0 then High
    else if percentage >= 40.0 then Medium
    else Low
  }

  /** The level a total score falls in, stated as thresholds on the total:
      with a maximum of 18, 70% lies between totals 12 and 13 and 40%
      between 7 and 8, so the percentage test is the cross-multiplied
      integer test `total * 100 >= 70 * MaxScore`. */
  lemma LevelThresholds(total: int)
    ensures LevelOf(Percentage(total)) == High <==> total >= 13
    ensures LevelOf(Percentage(total)) == Medium <==> 8 <= total <= 12
    ensures LevelOf(Percentage(total)) == Low <==> total <= 7
  {
  }

  /** A higher total never gives a lower level. */
  lemma LevelMonotone(t1: int, t2: int)
    requires t1 <= t2
    ensures Rank(LevelOf(Percentage(t1))) <= Rank(LevelOf(Percentage(t2)))
  {
    LevelThresholds(t1);
    LevelThresholds(t2);
  }

  predicate AnswersInRange(answers: seq<int>)
  {
    forall i :: 0 <= i < |answers| ==> 0 <= answers[i] <= 3
  }

  /** For a complete set of in-range answers, the total lies in 0..MaxScore
      and the percentage in [0, 100]. */
  lemma CompletedScoreBounds(answers: seq<int>)
    requires |answers| == |Questions| && AnswersInRange(answers)
    ensures 0 <= TotalScore(answers) <= MaxScore
    ensures 0.0 <= Percentage(TotalScore(answers)) <= 100.0
  {
    TotalScoreBounds(answers);
  }

  datatype ResultIcon = Award | Info | AlertTriangle

  datatype QuizResult = QuizResult(
    level: Level,
    title: string,
    description: string,
    suggestions: seq<string>,
    color: string,
    icon: ResultIcon)

  /** The result record returned for each level. */
  function ResultFor(l: Level): (r: QuizResult)
    ensures r.level == l && |r.suggestions| == 4
  {
    match l
    case High => QuizResult(High, "High Wellbeing",
      "You're doing great! Your mental health appears to be in a good state.",
      ["Continue your healthy habits and routines",
       "Share your positive strategies with others",
       "Take regular study breaks to maintain balance",
       "Practice gratitude and mindfulness regularly"],
      "text-wellness", Award)
    case Medium => QuizResult(Medium, "Medium Wellbeing",
      "You're managing okay, but there's room for improvement.",
      ["Watch wellness and self-care videos",
       "Try meditation or breathing exercises",
       "Establish a better sleep routine",
       "Connect more with friends and family"],
      "text-support", Info)
    case Low => QuizResult(Low, "Low Wellbeing",
      "It seems you might be struggling. Consider seeking professional support.",
      ["Speak with a licensed therapist or counselor",
       "Contact your school's mental health services",
       "Reach out to trusted friends or family members",
       "Consider calling a mental health helpline"],
      "text-destructive", AlertTriangle)
  }

  /** `calculateResults`: sum the answers, take the percentage of the
      maximum score and pick the result for the level it falls in. */
  function CalculateResults(answers: seq<int>): (r: QuizResult)
    ensures r.level == High <==> TotalScore(answers) >= 13
    ensures r.level == Medium <==> 8 <= TotalScore(answers) <= 12
    ensures r.level == Low <==> TotalScore(answers) <= 7
    ensures |r.suggestions| == 4
  {
    var total := TotalScore(answers);
    LevelThresholds(total);
    ResultFor(LevelOf(Percentage(total)))
  }

  datatype ResultAction = FindProfessionalHelp | AccessWellnessResources | ContinueYourJourney | WriteInYourDiary

  /** The buttons of the result card, in order: the three level-conditional
      ones, of which one is rendered, then the diary link. */
  function ResultActions(l: Level): (acts: seq<ResultAction>)
    ensures |acts| == 2 && acts[1] == WriteInYourDiary
    ensures acts[0] == FindProfessionalHelp <==> l == Low
    ensures acts[0] == AccessWellnessResources <==> l == Medium
    ensures acts[0] == ContinueYourJourney <==> l == High
  {
    (if l == Low then [FindProfessionalHelp] else [])
    + (if l == Medium then [AccessWellnessResources] else [])
    + (if l == High then [ContinueYourJourney] else [])
    + [WriteInYourDiary]
  }

  /** What the question screen shows about where the user is. */
  datatype Progress = Progress(number: nat, total: nat, widthPercent: real, buttonLabel: string)

  /** "Question n of 6", the progress bar's width and the button label
      for the question at index `current`. */
  function ProgressFor(current: nat): (p: Progress)
    requires current < |Questions|
    ensures p.number == current + 1 && p.total == |Questions| && 1 <= p.number <= p.total
    ensures p.widthPercent == p.number as real * 100.0 / p.total as real
    ensures 0.0 < p.widthPercent <= 100.0
    ensures p.widthPercent == 100.0 <==> current == |Questions| - 1
    ensures p.buttonLabel == "Complete Assessment" <==> current == |Questions| - 1
    ensures p.buttonLabel == "Next Question" <==> current < |Questions| - 1
  {
    Progress(current + 1, |Questions|,
      ((current + 1) as real / |Questions| as real) * 100.0,
      if current == |Questions| - 1 then "Complete Assessment" else "Next Question")
  }

  /** The progress bar grows with every question. */
  lemma ProgressIncreasing(i: nat, j: nat)
    requires i < j < |Questions|
    ensures ProgressFor(i).widthPercent < ProgressFor(j).widthPercent
  {
  }

  const SelectAnswerToast: Toast :=
    Toast("Please select an answer",
          "Choose the option that best describes your situation.", true)

  /** The quiz page's state: the question on screen, the answers recorded so
      far (a dense array: `answers[i]` is the value chosen for question i)
      and whether the result card is shown. */
  class QuizPage {
    var currentQuestion: nat
    var answers: seq<int>
    var showResults: bool

    /** The states the page can reach: the current question exists, every
        question before it is answered and the current one may be, every
        answer is one of its question's option values, and the result card
        appears only once all questions are answered. */
    ghost predicate Valid()
      reads this
    {
      && currentQuestion < |Questions|
      && currentQuestion <= |answers| <= currentQuestion + 1
      && (forall i :: 0 <= i < |answers| ==> answers[i] in OptionValues(i))
      && (showResults ==> currentQuestion == |Questions| - 1 && |answers| == |Questions|)
    }

    constructor ()
      ensures Valid()
      ensures currentQuestion == 0 && answers == [] && !showResults
    {
      currentQuestion, answers, showResults := 0, [], false;
    }

    /** `answers[currentQuestion] !== undefined`: in a valid state, the
        current question is answered exactly when its slot has been
        written, i.e. the answers reach one past it. */
    predicate Answered()
      reads this
      ensures Valid() ==> (Answered() <==> |answers| == currentQuestion + 1)
    {
      currentQuestion < |answers|
    }

    /** `handleAnswerChange`: record `value` for the current question in a
        copy of `answers`; every other answer stays as it was. */
    method HandleAnswerChange(value: int)
      requires Valid()
      requires value in OptionValues(currentQuestion)
      modifies this
      ensures Valid()
      ensures currentQuestion == old(currentQuestion) && showResults == old(showResults)
      ensures |answers| == if old(Answered()) then |old(answers)| else |old(answers)| + 1
      ensures answers[currentQuestion] == value
      ensures forall i :: 0 <= i < |answers| && i != currentQuestion ==> answers[i] == old(answers)[i]
    {
      var newAnswers := answers;
      if currentQuestion < |newAnswers| {
        newAnswers := newAnswers[currentQuestion := value];
      } else {
        newAnswers := newAnswers + [value];
      }
      answers := newAnswers;
    }

    /** `handleNext`: without an answer for the current question, raise the
        "Please select an answer" toast and change nothing; otherwise move to
        the next question, or, on the last one, show the results. */
    method HandleNext() returns (toast: Option<Toast>)
      requires Valid()
      modifies this
      ensures Valid()
      ensures answers == old(answers)
      ensures !old(Answered()) ==>
        toast == Some(SelectAnswerToast)
        && currentQuestion == old(currentQuestion) && showResults == old(showResults)
      ensures old(Answered()) && old(currentQuestion) < |Questions| - 1 ==>
        toast == None
        && currentQuestion == old(currentQuestion) + 1 && showResults == old(showResults)
      ensures old(Answered()) && old(currentQuestion) == |Questions| - 1 ==>
        toast == None && currentQuestion == old(currentQuestion) && showResults
      ensures showResults ==> |answers| == |Questions| && AnswersInRange(answers)
    {
      if !(currentQuestion < |answers|) {
        toast := Some(SelectAnswerToast);
        return;
      }
      toast := None;
      if currentQuestion < |Questions| - 1 {
        currentQuestion := currentQuestion + 1;
      } else {
        showResults := true;
      }
      forall i | 0 <= i < |answers| ensures 0 <= answers[i] <= 3 {
        OptionValueRange(i, answers[i]);
      }
    }

    /** `results`: the result card's content, present exactly when it is
        shown; the score it is computed from is then a complete, in-range
        one. */
    function Results(): (r: Option<QuizResult>)
      reads this
      requires Valid()
      ensures r.Some? <==> showResults
      ensures r.Some? ==>
        && r.value == CalculateResults(answers)
        && 0 <= TotalScore(answers) <= MaxScore
        && 0.0 <= Percentage(TotalScore(answers)) <= 100.0
    {
      if showResults then
        CompletedAnswers(answers);
        Some(CalculateResults(answers))
      else None
    }
  }

  /** The answers of a page whose results are shown lie in 0..3. */
  lemma CompletedAnswers(answers: seq<int>)
    requires |answers| == |Questions|
    requires forall i :: 0 <= i < |answers| ==> answers[i] in OptionValues(i)
    ensures 0 <= TotalScore(answers) <= MaxScore
    ensures 0.0 <= Percentage(TotalScore(answers)) <= 100.0
  {
    forall i | 0 <= i < |answers| ensures 0 <= answers[i] <= 3 {
      OptionValueRange(i, answers[i]);
    }
    CompletedScoreBounds(answers);
  }
}
