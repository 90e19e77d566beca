/** The question overlay (`QuestionOverlay`): its four state cells, the
    submit rule that judges the answer, and which of its controls are live. */
module QuestionOverlay {
  import opened Wrappers
  import opened Text
  import opened QuestionBank

  /** The feedback box under the question. */
  datatype Notice = Notice(correct: bool, message: string)

  /** What `handleSubmit` makes of the current answer. */
  datatype Verdict = NoAnswer | Right | Wrong

  /** The callback the overlay hands back to the engine, if any. */
  datatype Callback = NoCallback | OnCorrect

  const WrongAnswerMessage := "\U{2717} Wrong answer. Try again."

  /** The success message: a check mark, "Correct!" and the explanation. */
  function CorrectMessage(explanation: string): string {
    "\U{2713} Correct! " + explanation
  }

  /** `answer`: the selected option for a multiple-choice question, the typed
      input without surrounding whitespace for the other kind. */
  function Answer(q: Question, selected: Option<string>, input: string): Option<string> {
    match q.kind
    case Mcq => selected
    case Input => Some(Trim(input))
  }

  /** JavaScript truthiness of a string that may be `null`: neither `null`
      nor the empty string. */
  predicate Truthy(a: Option<string>) {
    a.Some? && a.value != []
  }

  /** `handleSubmit`'s reading of the answer: none given (it returns at
      once), the correct answer character for character, or another one. */
  function Judge(q: Question, selected: Option<string>, input: string): Verdict {
    var a := Answer(q, selected, input);
    if !Truthy(a) then NoAnswer
    else if a.value == q.correctAnswer then Right
    else Wrong
  }

  /** The submit button's enabling rule: a selection for a multiple-choice
      question, a non-blank input for a typed one. */
  predicate SubmitEnabled(q: Question, selected: Option<string>, input: string) {
    match q.kind
    case Mcq => Truthy(selected)
    case Input => Trim(input) != []
  }

  /** The button is enabled exactly when submitting would judge an answer:
      the disabled rule and the early return of `handleSubmit` agree. */
  lemma SubmitEnabledIffAnswerGiven(q: Question, selected: Option<string>, input: string)
    ensures SubmitEnabled(q, selected, input) <==> Judge(q, selected, input) != NoAnswer
  {
  }

  /** An answer is right exactly when it equals the correct answer, which
      must not be empty. */
  lemma RightIffExactMatch(q: Question, selected: Option<string>, input: string)
    ensures Judge(q, selected, input) == Right <==>
      Answer(q, selected, input) == Some(q.correctAnswer) && q.correctAnswer != []
  {
  }

  /** Only the trimmed input counts: padding the answer with whitespace, or
      removing it, does not change the verdict. */
  lemma JudgeSeesTrimmedInput(q: Question, selected: Option<string>, input: string)
    ensures Judge(q, selected, input) == Judge(q, selected, Trim(input))
  {
    TrimIdempotent(input);
  }

  /** On a catalog multiple-choice question every option can be submitted,
      and exactly one of them, the correct answer, is judged right. */
  lemma McqOptionVerdicts(q: Question, input: string)
    requires q in Questions && q.kind == Mcq
    ensures q.options.Some? && |q.options.value| == 4
    ensures forall k :: 0 <= k < 4 ==>
      Judge(q, Some(q.options.value[k]), input) != NoAnswer &&
      (Judge(q, Some(q.options.value[k]), input) == Right <==> q.options.value[k] == q.correctAnswer)
    ensures exists k ::
      && 0 <= k < 4 && Judge(q, Some(q.options.value[k]), input) == Right
      && forall m :: 0 <= m < 4 && m != k ==> Judge(q, Some(q.options.value[m]), input) == Wrong
  {
    CatalogWellFormed();
    assert McqWellFormed(q);
    var k :| 0 <= k < 4 && q.options.value[k] == q.correctAnswer;
    assert Judge(q, Some(q.options.value[k]), input) == Right;
  }

  /** On a catalog typed-answer question the verdict is right exactly when
      the trimmed input is the answer, so typing the answer is right. */
  lemma InputVerdicts(q: Question, selected: Option<string>)
    requires q in Questions && q.kind == Input
    ensures forall input :: Judge(q, selected, input) == Right <==> Trim(input) == q.correctAnswer
    ensures Judge(q, selected, q.correctAnswer) == Right
  {
    InputAnswersTrimmed();
  }

  /** The overlay's state cells; the question and its explanation come from
      the engine and do not change. */
  class Overlay {
    const question: Question
    const explanation: string
    var selectedOption: Option<string>
    var inputValue: string
    var feedback: Option<Notice>
    var answered: bool
    /** How many times `onCorrect` has been called back. */
    ghost var correctCalls: nat

    /** A selection is one of the question's options; `onCorrect` is called
        once and only once the question is answered; an answered question
        keeps the right answer and the success message; a failure notice
        carries the wrong-answer message. */
    ghost predicate Valid()
      reads this
    {
      && (selectedOption.Some? ==>
            question.kind == Mcq && question.options.Some? && selectedOption.value in question.options.value)
      && correctCalls == (if answered then 1 else 0)
      && (answered ==> Judge(question, selectedOption, inputValue) == Right)
      && (answered ==> feedback == Some(Notice(true, CorrectMessage(explanation))))
      && (feedback.Some? && feedback.value.correct ==> answered)
      && (feedback.Some? && !feedback.value.correct ==> feedback.value.message == WrongAnswerMessage)
    }

    /** The option buttons: shown for a multiple-choice question, disabled
        once answered. */
    predicate OptionsEnabled()
      reads this
    {
      question.kind == Mcq && question.options.Some? && !answered
    }

    /** The text field: shown for a typed-answer question, disabled once
        answered. */
    predicate InputEnabled()
      reads this
    {
      question.kind == Input && !answered
    }

    /** Submitting is possible while unanswered: by the button when it is
        enabled, or by Enter in the text field, which skips the button's
        rule. */
    predicate SubmitOffered()
      reads this
    {
      !answered && (SubmitEnabled(question, selectedOption, inputValue) || question.kind == Input)
    }

    /** The timer that clears a failure notice is pending while one shows. */
    predicate ExpiryPending()
      reads this
    {
      feedback.Some? && !feedback.value.correct
    }

    constructor (question: Question, explanation: string)
      ensures Valid()
      ensures this.question == question && this.explanation == explanation
      ensures selectedOption == None && inputValue == [] && feedback == None && !answered
    {
      this.question := question;
      this.explanation := explanation;
      selectedOption := None;
      inputValue := [];
      feedback := None;
      answered := false;
      correctCalls := 0;
    }

    /** A click on an option selects it. */
    method SelectOption(option: string)
      requires Valid() && OptionsEnabled() && option in question.options.value
      modifies this
      ensures Valid()
      ensures selectedOption == Some(option)
      ensures inputValue == old(inputValue) && feedback == old(feedback) && answered == old(answered)
      ensures correctCalls == old(correctCalls)
    {
      selectedOption := Some(option);
    }

    /** A change of the text field stores its value as typed. */
    method TypeInput(value: string)
      requires Valid() && InputEnabled()
      modifies this
      ensures Valid()
      ensures inputValue == value
      ensures selectedOption == old(selectedOption) && feedback == old(feedback) && answered == old(answered)
      ensures correctCalls == old(correctCalls)
    {
      inputValue := value;
    }

    /** `handleSubmit`: nothing without an answer; a right answer latches
        `answered`, shows the success message and calls `onCorrect` (its
        delay is not modelled); a wrong one shows the failure message and
        leaves the question open. */
    method Submit() returns (cb: Callback)
      requires Valid() && SubmitOffered()
      modifies this
      ensures Valid()
      ensures selectedOption == old(selectedOption) && inputValue == old(inputValue)
      ensures var v := Judge(question, selectedOption, inputValue);
        && (v == NoAnswer ==> feedback == old(feedback) && !answered && cb == NoCallback)
        && (v == Wrong ==> feedback == Some(Notice(false, WrongAnswerMessage)) && !answered && cb == NoCallback)
        && (v == Right ==> feedback == Some(Notice(true, CorrectMessage(explanation))) && answered && cb == OnCorrect)
      ensures correctCalls == old(correctCalls) + (if cb == OnCorrect then 1 else 0)
    {
      var answer := if question.kind == Mcq then selectedOption else Some(Trim(inputValue));
      if answer.None? || answer.value == [] {
        return NoCallback;
      }
      var isCorrect := answer.value == question.correctAnswer;
      feedback := Some(Notice(isCorrect,
        if isCorrect then CorrectMessage(explanation) else WrongAnswerMessage));
      if isCorrect {
        answered := true;
        correctCalls := correctCalls + 1;
        cb := OnCorrect;
      } else {
        cb := NoCallback;
      }
    }

    /** The delayed clearing of a failure notice, so the player can retry. */
    method ExpireFeedback()
      requires Valid() && ExpiryPending()
      modifies this
      ensures Valid()
      ensures feedback == None && !answered
      ensures selectedOption == old(selectedOption) && inputValue == old(inputValue)
      ensures correctCalls == old(correctCalls)
    {
      feedback := None;
    }
  }

  /** Once the question is answered nothing is live: no option, no input, no
      submission and no pending expiry, so `onCorrect` stays called once. */
  lemma AnsweredFreezes(o: Overlay)
    requires o.Valid() && o.answered
    ensures !o.OptionsEnabled() && !o.InputEnabled() && !o.SubmitOffered() && !o.ExpiryPending()
    ensures o.correctCalls == 1
  {
  }

  /** While the question is open, a wrong submission never calls `onCorrect`
      and submitting is possible again once its notice is cleared. */
  lemma UnansweredCanRetry(o: Overlay)
    requires o.Valid() && !o.answered
    ensures o.correctCalls == 0
    ensures o.question.kind == Input ==> o.SubmitOffered()
    ensures o.question.kind == Mcq && Truthy(o.selectedOption) ==> o.SubmitOffered()
  {
  }
}
