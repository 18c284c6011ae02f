/**
 * `QuizScreen`: the form that asks for a quiz on a topic or a photo; once
 * a non-empty quiz arrives it hands over to `QuizView` until the student
 * finishes.
 *
 * The signed-in user and the language come from the application context
 * and are parameters of the handler; so are the service and the JSON parser
 * that `generateQuiz` uses.
 */
module QuizScreen {

  import opened Wrappers
  import opened JsString
  import opened Types
  import opened GeminiService
  import opened ScreenInputs

  const QuizError := "Failed to generate quiz. Please try a different topic."

  class QuizScreen {
    var topic: string
    var image: Option<string>
    var showCamera: bool
    var questions: seq<QuizQuestion>
    var isLoading: bool
    var error: string
    var quizStarted: bool

    /** A started quiz always has questions to show and no error beside it. */
    ghost predicate Valid()
      reads this
    {
      quizStarted ==> questions != [] && error == ""
    }

    constructor ()
      ensures topic == "" && image == None && !showCamera
      ensures questions == [] && !isLoading && error == "" && !quizStarted
      ensures Valid()
    {
      topic := "";
      image := None;
      showCamera := false;
      questions := [];
      isLoading := false;
      error := "";
      quizStarted := false;
    }

    /**
     * `handleGenerateQuiz`, reachable from the form, which is shown only
     * while no quiz is running. Refused without text or image, or without a
     * user; otherwise a non-empty result starts the quiz with exactly those
     * questions, and an empty one (which is also what every failure gives)
     * shows the fixed error and leaves the quiz not started.
     */
    method HandleGenerateQuiz(user: Option<User>, language: Language,
                              service: seq<Part> -> Reply, parse: string -> Option<QuizDoc>)
      returns (ghost request: seq<Part>)
      requires Valid() && !quizStarted
      modifies this
      ensures Valid()
      ensures Refused(old(topic), old(image), user) ==>
        && questions == old(questions) && error == old(error)
        && isLoading == old(isLoading) && !quizStarted
      ensures !Refused(old(topic), old(image), user) ==>
        var result := NormalizeQuiz(service(request), parse);
        && IsRequest(request, QuizPrompt(old(topic), language.Code(), user.value.standard), old(image))
        && !isLoading
        && (result != [] ==> quizStarted && questions == result && error == "")
        && (result == [] ==> !quizStarted && questions == [] && error == QuizError)
      ensures topic == old(topic) && image == old(image) && showCamera == old(showCamera)
    {
      request := [];
      if Refused(topic, image, user) {
        return;
      }
      StartRequest();
      var generatedQuestions;
      generatedQuestions, request := GenerateQuiz(topic, image, language.Code(), user.value.standard, service, parse);
      FinishRequest(generatedQuestions);
    }

    /** Before the await: loading on, no error, no questions. */
    method StartRequest()
      requires !quizStarted
      modifies this
      ensures isLoading && error == "" && questions == [] && !quizStarted
      ensures topic == old(topic) && image == old(image) && showCamera == old(showCamera)
    {
      isLoading := true;
      error := "";
      questions := [];
    }

    /** After the await: loading off, then the quiz starts or the error is shown. */
    method FinishRequest(generatedQuestions: seq<QuizQuestion>)
      requires !quizStarted && error == "" && questions == []
      modifies this
      ensures Valid() && !isLoading
      ensures generatedQuestions != [] ==> quizStarted && questions == generatedQuestions && error == ""
      ensures generatedQuestions == [] ==> !quizStarted && questions == [] && error == QuizError
      ensures topic == old(topic) && image == old(image) && showCamera == old(showCamera)
    {
      isLoading := false;
      if |generatedQuestions| > 0 {
        questions := generatedQuestions;
        quizStarted := true;
      } else {
        error := QuizError;
      }
    }

    /** `handleFinishQuiz`: back to an empty form. */
    method HandleFinishQuiz()
      modifies this
      ensures Valid()
      ensures !quizStarted && questions == [] && topic == "" && image == None
      ensures error == old(error) && isLoading == old(isLoading) && showCamera == old(showCamera)
    {
      quizStarted := false;
      questions := [];
      topic := "";
      image := None;
    }

    /** `handleCapture`: the photo becomes the attachment and the camera closes. */
    method HandleCapture(base64: string)
      modifies this
      ensures image == Some(base64) && !showCamera
      ensures topic == old(topic) && questions == old(questions) && error == old(error)
      ensures isLoading == old(isLoading) && quizStarted == old(quizStarted)
    {
      image := Some(base64);
      showCamera := false;
    }

    /** The topic line `QuizView` shows: the typed topic, or `'your image'`. */
    function QuizTopic(): (shown: string)
      reads this
      ensures shown != "" && (topic != "" ==> shown == topic)
      ensures topic == "" ==> shown == ImageTopic
    {
      TopicLabel(topic)
    }
  }

  /**
   * A request starts a quiz exactly when the reply arrived, its trimmed text
   * parsed, and the document's `questions` is a non-empty list; in every
   * other case the error is shown.
   */
  lemma QuizRequestOutcome(reply: Reply, parse: string -> Option<QuizDoc>)
    ensures NormalizeQuiz(reply, parse) != [] <==>
      && reply.Answered?
      && parse(Trim(reply.text)).Some?
      && parse(Trim(reply.text)).value.questions.Some?
      && parse(Trim(reply.text)).value.questions.value != []
  {
    if reply.Answered? {
      var parsed := parse(Trim(reply.text));
      if parsed.Some? && parsed.value.questions.Some? {
        assert NormalizeQuiz(reply, parse) == parsed.value.questions.value;
      } else {
        assert NormalizeQuiz(reply, parse) == [];
      }
    }
  }
}
