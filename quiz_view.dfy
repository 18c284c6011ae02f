/**
 * `QuizView`: taking a generated quiz one question at a time. Its state is
 * the current question's index, the selected option, whether the current
 * question has been answered, and the score.
 *
 * The transitions are stated once as functions on a `Progress` value; the
 * `QuizView` class holds the four state fields and its handlers are proved
 * to perform exactly those transitions.
 */
module QuizView {

  import opened Wrappers
  import opened Types

  /** The four state fields of the component. */
  datatype Progress = Progress(index: nat, selected: Option<string>, answered: bool, score: nat)

  /** `useState(0)`, `useState(null)`, `useState(false)`, `useState(0)`. */
  const Initial := Progress(0, None, false, 0)

  /** `selectedAnswer` is truthy: an option was chosen and it is not the empty string. */
  predicate HasSelection(p: Progress) {
    p.selected.Some? && p.selected.value != ""
  }

  /** `currentQuestionIndex >= questions.length`. */
  predicate IsQuizOver(questions: seq<QuizQuestion>, p: Progress) {
    p.index >= |questions|
  }

  /** The questions submitted so far: all before the current one, and the current one once answered. */
  function AnsweredCount(p: Progress): nat {
    p.index + (if p.answered then 1 else 0)
  }

  /**
   * The invariant the handlers keep: the index never passes the end, an
   * answered question is a real question with a selection, and the score
   * never exceeds the number of questions answered.
   */
  predicate Consistent(questions: seq<QuizQuestion>, p: Progress) {
    && p.index <= |questions|
    && (p.answered ==> HasSelection(p) && p.index < |questions|)
    && p.score <= AnsweredCount(p)
  }

  /** `handleAnswerSelect`: ignored once answered, otherwise the option becomes the selection. */
  function Select(p: Progress, option: string): Progress {
    if p.answered then p else p.(selected := Some(option))
  }

  /**
   * `handleSubmit`: a no-op without a (truthy) selection; otherwise the
   * question is answered and the score rises by one iff the selection is
   * exactly the correct answer.
   */
  function Submit(questions: seq<QuizQuestion>, p: Progress): Progress
    requires HasSelection(p) ==> p.index < |questions|
  {
    if !HasSelection(p) then p
    else
      var correct := p.selected.value == questions[p.index].correctAnswer;
      p.(answered := true, score := if correct then p.score + 1 else p.score)
  }

  /** `handleNext`: clears the selection and the answered flag and moves to the next question. */
  function Next(p: Progress): Progress {
    p.(selected := None, answered := false, index := p.index + 1)
  }

  /** The things a student can press, while the quiz is on screen. */
  datatype Action = Choose(option: string) | PressSubmit | PressNext

  /**
   * Which controls exist: option buttons and Submit are shown while the
   * current question is unanswered, Next only after it is answered, and none
   * of them once the quiz is over.
   */
  predicate Offered(questions: seq<QuizQuestion>, p: Progress, a: Action) {
    !IsQuizOver(questions, p) &&
    match a
    case Choose(_) => !p.answered
    case PressSubmit => !p.answered
    case PressNext => p.answered
  }

  function Perform(questions: seq<QuizQuestion>, p: Progress, a: Action): Progress
    requires Offered(questions, p, a)
  {
    match a
    case Choose(option) => Select(p, option)
    case PressSubmit => Submit(questions, p)
    case PressNext => Next(p)
  }

  /** A session of presses; a press on a control that is not offered does nothing. */
  function Run(questions: seq<QuizQuestion>, p: Progress, actions: seq<Action>): Progress
    decreases |actions|
  {
    if actions == [] then p
    else
      var p' := if Offered(questions, p, actions[0]) then Perform(questions, p, actions[0]) else p;
      Run(questions, p', actions[1..])
  }

  // ----- properties -----

  /** A fresh quiz is consistent; an empty quiz is over at once with score 0 of 0. */
  lemma InitialState(questions: seq<QuizQuestion>)
    ensures Consistent(questions, Initial)
    ensures IsQuizOver(questions, Initial) <==> questions == []
    ensures Initial.score == 0
  {
  }

  /** Every offered press keeps the invariant. */
  lemma PerformConsistent(questions: seq<QuizQuestion>, p: Progress, a: Action)
    requires Consistent(questions, p) && Offered(questions, p, a)
    ensures Consistent(questions, Perform(questions, p, a))
  {
  }

  /** The exact effect of Submit and Next on the score and the index. */
  lemma SubmitAndNextEffect(questions: seq<QuizQuestion>, p: Progress)
    requires Consistent(questions, p) && !IsQuizOver(questions, p) && !p.answered
    ensures HasSelection(p) ==> Submit(questions, p).answered
    ensures HasSelection(p) ==>
      (Submit(questions, p).score == p.score + 1 <==> p.selected.value == questions[p.index].correctAnswer)
    ensures HasSelection(p) ==>
      (Submit(questions, p).score == p.score <==> p.selected.value != questions[p.index].correctAnswer)
    ensures !HasSelection(p) ==> Submit(questions, p) == p
    ensures Next(p).index == p.index + 1 && Next(p).selected.None? && !Next(p).answered
  {
  }

  /**
   * Whatever the student presses, the state stays consistent, so the score
   * never exceeds the number of questions answered, nor the quiz's length.
   */
  lemma {:induction false} RunConsistent(questions: seq<QuizQuestion>, p: Progress, actions: seq<Action>)
    requires Consistent(questions, p)
    ensures Consistent(questions, Run(questions, p, actions))
    ensures Run(questions, p, actions).score <= AnsweredCount(Run(questions, p, actions)) <= |questions|
    decreases |actions|
  {
    if actions != [] {
      var p' := if Offered(questions, p, actions[0]) then Perform(questions, p, actions[0]) else p;
      if Offered(questions, p, actions[0]) {
        PerformConsistent(questions, p, actions[0]);
      }
      RunConsistent(questions, p', actions[1..]);
    }
  }

  /** Presses never move backwards: the index and the score only grow. */
  lemma {:induction false} RunMonotone(questions: seq<QuizQuestion>, p: Progress, actions: seq<Action>)
    ensures Run(questions, p, actions).index >= p.index
    ensures Run(questions, p, actions).score >= p.score
    decreases |actions|
  {
    if actions != [] {
      var p' := if Offered(questions, p, actions[0]) then Perform(questions, p, actions[0]) else p;
      RunMonotone(questions, p', actions[1..]);
    }
  }

  /** How an option button is drawn (`getButtonClass`). */
  datatype ButtonStyle = Highlighted | Plain | MarkedCorrect | MarkedWrong | Dimmed

  /**
   * Before answering only the selected option is highlighted; after
   * answering the correct option is marked correct, a wrong selection is
   * marked wrong, and every other option is dimmed.
   */
  function ButtonClass(questions: seq<QuizQuestion>, p: Progress, option: string): (style: ButtonStyle)
    requires p.answered ==> p.index < |questions|
    ensures !p.answered ==> (style == Highlighted <==> p.selected == Some(option))
    ensures !p.answered ==> style in {Highlighted, Plain}
    ensures p.answered ==> (style == MarkedCorrect <==> option == questions[p.index].correctAnswer)
    ensures p.answered ==>
      (style == MarkedWrong <==> p.selected == Some(option) && option != questions[p.index].correctAnswer)
    ensures p.answered ==>
      (style == Dimmed <==> p.selected != Some(option) && option != questions[p.index].correctAnswer)
  {
    if !p.answered then
      (if p.selected == Some(option) then Highlighted else Plain)
    else if option == questions[p.index].correctAnswer then MarkedCorrect
    else if p.selected == Some(option) then MarkedWrong
    else Dimmed
  }

  /** The component: `questions` is its prop, the other four are its state. */
  class QuizView {
    const questions: seq<QuizQuestion>
    var currentQuestionIndex: nat
    var selectedAnswer: Option<string>
    var isAnswered: bool
    var score: nat

    function State(): Progress
      reads this
    {
      Progress(currentQuestionIndex, selectedAnswer, isAnswered, score)
    }

    ghost predicate Valid()
      reads this
    {
      Consistent(questions, State())
    }

    constructor (questions: seq<QuizQuestion>)
      ensures this.questions == questions
      ensures State() == Initial && Valid()
    {
      this.questions := questions;
      currentQuestionIndex := 0;
      selectedAnswer := None;
      isAnswered := false;
      score := 0;
    }

    /** `isQuizOver`. */
    predicate IsOver()
      reads this
    {
      IsQuizOver(questions, State())
    }

    /** Called from an option button of the current question. */
    method HandleAnswerSelect(option: string)
      requires Valid() && !IsOver()
      modifies this
      ensures Valid()
      ensures State() == Select(old(State()), option)
    {
      if isAnswered {
        return;
      }
      selectedAnswer := Some(option);
    }

    /** Called from the Submit button, which is shown only while unanswered. */
    method HandleSubmit()
      requires Valid() && !IsOver() && !isAnswered
      modifies this
      ensures Valid()
      ensures State() == Submit(questions, old(State()))
    {
      if selectedAnswer.None? || selectedAnswer.value == "" {
        return;
      }
      isAnswered := true;
      if selectedAnswer.value == questions[currentQuestionIndex].correctAnswer {
        score := score + 1;
      }
    }

    /** Called from the Next button, which is shown only once answered. */
    method HandleNext()
      requires Valid() && isAnswered
      modifies this
      ensures Valid()
      ensures State() == Next(old(State()))
    {
      selectedAnswer := None;
      isAnswered := false;
      currentQuestionIndex := currentQuestionIndex + 1;
    }

    /** `getButtonClass(option)` for an option of the current question. */
    function GetButtonClass(option: string): (style: ButtonStyle)
      requires Valid() && !IsOver()
      reads this
      ensures !isAnswered ==> style in {Highlighted, Plain}
      ensures !isAnswered ==> (style == Highlighted <==> selectedAnswer == Some(option))
      ensures isAnswered ==>
        (style == MarkedCorrect <==> option == questions[currentQuestionIndex].correctAnswer)
      ensures isAnswered ==> (style == MarkedWrong <==>
        selectedAnswer == Some(option) && option != questions[currentQuestionIndex].correctAnswer)
      ensures isAnswered ==> (style == Dimmed <==>
        selectedAnswer != Some(option) && option != questions[currentQuestionIndex].correctAnswer)
    {
      ButtonClass(questions, State(), option)
    }

    /** The final screen's `score / questions.length`, shown once the quiz is over. */
    function FinalScore(): (result: (nat, nat))
      requires Valid() && IsOver()
      reads this
      ensures result.0 == score && result.1 == |questions|
      ensures result.0 <= result.1
    {
      (score, |questions|)
    }
  }
}
