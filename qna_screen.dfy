/**
 * `QnAScreen`: a typed question or a photo of one, answered step by step
 * and shown rendered by `SimpleMarkdown`.
 *
 * The signed-in user and the language come from the application context
 * and are parameters of the handler, as is the service.
 */
module QnAScreen {

  import opened Wrappers
  import opened JsString
  import opened Types
  import opened GeminiService
  import opened ScreenInputs
  import opened SimpleMarkdown

  class QnAScreen {
    var question: string
    var image: Option<string>
    var showCamera: bool
    var solution: string
    var isLoading: bool

    constructor ()
      ensures question == "" && image == None && !showCamera
      ensures solution == "" && !isLoading
    {
      question := "";
      image := None;
      showCamera := false;
      solution := "";
      isLoading := false;
    }

    /**
     * `handleGetSolution`. Refused without text or image, or without a user;
     * otherwise the solution becomes the reply text, or the fixed fallback
     * when the request failed.
     */
    method HandleGetSolution(user: Option<User>, language: Language, service: seq<Part> -> Reply)
      returns (ghost request: seq<Part>)
      modifies this
      ensures Refused(old(question), old(image), user) ==>
        solution == old(solution) && isLoading == old(isLoading)
      ensures !Refused(old(question), old(image), user) ==>
        && IsRequest(request, QnAPrompt(old(question), language.Code(), user.value.standard), old(image))
        && !isLoading
        && (service(request).Answered? ==> solution == service(request).text)
        && (service(request).Failed? ==> solution == AnswerFallback)
      ensures question == old(question) && image == old(image) && showCamera == old(showCamera)
    {
      request := [];
      if Refused(question, image, user) {
        return;
      }
      StartRequest();
      var generatedSolution;
      generatedSolution, request := GetAnswerForQnA(question, image, language.Code(), user.value.standard, service);
      solution := generatedSolution;
      isLoading := false;
    }

    /** Before the await: loading on and the old solution hidden. */
    method StartRequest()
      modifies this
      ensures isLoading && solution == ""
      ensures question == old(question) && image == old(image) && showCamera == old(showCamera)
    {
      isLoading := true;
      solution := "";
    }

    /** `handleCapture`: the photo becomes the attachment and the camera closes. */
    method HandleCapture(base64: string)
      modifies this
      ensures image == Some(base64) && !showCamera
      ensures question == old(question) && solution == old(solution) && isLoading == old(isLoading)
    {
      image := Some(base64);
      showCamera := false;
    }

    /** The solution panel: absent while the solution is empty, otherwise its rendered lines. */
    function Panel(): (panel: Option<seq<Block>>)
      reads this
      ensures panel.Some? <==> solution != ""
      ensures panel.Some? ==> |panel.value| == |Split(solution, '\n')|
      ensures panel.Some? ==> forall i :: 0 <= i < |panel.value| ==>
        panel.value[i] == ClassifyLine(Split(solution, '\n')[i])
    {
      if solution == "" then None else Some(Render(solution))
    }
  }
}
