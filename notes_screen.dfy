/**
 * `NotesScreen`: asks for notes on a typed topic or a photo and shows the
 * reply rendered by `SimpleMarkdown`, under a header naming the topic.
 *
 * The signed-in user and the language come from the application context
 * and are parameters of the handler, as is the service.
 */
module NotesScreen {

  import opened Wrappers
  import opened JsString
  import opened Types
  import opened GeminiService
  import opened ScreenInputs
  import opened SimpleMarkdown

  class NotesScreen {
    var topic: string
    var image: Option<string>
    var showCamera: bool
    var notes: string
    var isLoading: bool
    /** The topic the shown notes were requested for. */
    var currentTopic: string

    constructor ()
      ensures topic == "" && image == None && !showCamera
      ensures notes == "" && !isLoading && currentTopic == ""
    {
      topic := "";
      image := None;
      showCamera := false;
      notes := "";
      isLoading := false;
      currentTopic := "";
    }

    /**
     * `handleGenerateNotes`. Refused without text or image, or without a
     * user; otherwise the topic is recorded and the notes become the reply
     * text, or the fixed fallback when the request failed.
     */
    method HandleGenerateNotes(user: Option<User>, language: Language, service: seq<Part> -> Reply)
      returns (ghost request: seq<Part>)
      modifies this
      ensures Refused(old(topic), old(image), user) ==>
        notes == old(notes) && currentTopic == old(currentTopic) && isLoading == old(isLoading)
      ensures !Refused(old(topic), old(image), user) ==>
        && IsRequest(request, NotesPrompt(old(topic), language.Code(), user.value.standard), old(image))
        && currentTopic == old(topic) && !isLoading
        && (service(request).Answered? ==> notes == service(request).text)
        && (service(request).Failed? ==> notes == NotesFallback)
      ensures topic == old(topic) && image == old(image) && showCamera == old(showCamera)
    {
      request := [];
      if Refused(topic, image, user) {
        return;
      }
      StartRequest();
      var generatedNotes;
      generatedNotes, request := GenerateNotes(topic, image, language.Code(), user.value.standard, service);
      notes := generatedNotes;
      isLoading := false;
    }

    /** Before the await: loading on, the old notes hidden, the topic recorded. */
    method StartRequest()
      modifies this
      ensures isLoading && notes == "" && currentTopic == old(topic)
      ensures topic == old(topic) && image == old(image) && showCamera == old(showCamera)
    {
      isLoading := true;
      notes := "";
      currentTopic := topic;
    }

    /** `handleCapture`: the photo becomes the attachment and the camera closes. */
    method HandleCapture(base64: string)
      modifies this
      ensures image == Some(base64) && !showCamera
      ensures topic == old(topic) && notes == old(notes) && currentTopic == old(currentTopic)
      ensures isLoading == old(isLoading)
    {
      image := Some(base64);
      showCamera := false;
    }

    /**
     * The notes panel: absent while the notes are empty, otherwise the header
     * topic (the recorded topic, or `'your image'`) and the rendered lines.
     */
    function Panel(): (panel: Option<(string, seq<Block>)>)
      reads this
      ensures panel.Some? <==> notes != ""
      ensures panel.Some? ==> panel.value.0 != "" && |panel.value.1| == |Split(notes, '\n')|
      ensures panel.Some? && currentTopic != "" ==> panel.value.0 == currentTopic
      ensures panel.Some? && currentTopic == "" ==> panel.value.0 == ImageTopic
      ensures panel.Some? ==> forall i :: 0 <= i < |panel.value.1| ==>
        panel.value.1[i] == ClassifyLine(Split(notes, '\n')[i])
    {
      if notes == "" then None
      else
        RenderCoversContent(notes);
        Some((TopicLabel(currentTopic), Render(notes)))
    }
  }
}
