/**
 * `ChatScreen`: the doubt-solver conversation. A send appends the student's
 * message, then an AI bubble that shows `...` until the first streamed chunk
 * arrives and afterwards the concatenation of all chunks received so far;
 * any error appends a fixed apology.
 *
 * What `sendMessageStream` yields for one message is given to the handler
 * as a `StreamReply`: the stream could not be opened, or it yielded a
 * finite list of chunk texts and then either ended or threw.
 */
module ChatScreen {

  import opened Wrappers
  import opened JsString
  import opened Types
  import opened GeminiService
  import opened ScreenInputs

  datatype StreamReply = OpenFailed | Opened(chunks: seq<string>, failsAfter: bool)

  const Placeholder := "..."
  const ChatApology := "Sorry, something went wrong."

  /** `chunks` joined in arrival order: the running `aiResponseText`. */
  function Concat(chunks: seq<string>): string
    decreases |chunks|
  {
    if chunks == [] then "" else Concat(chunks[..|chunks| - 1]) + chunks[|chunks| - 1]
  }

  /** The student's bubble: the untrimmed input, and the image only when it is truthy. */
  function UserMessage(text: string, image: Option<string>): (m: ChatMessage)
    ensures m.sender == FromUser && m.text == text
    ensures Truthy(m.image) <==> Truthy(image)
    ensures m.image.Some? ==> m.image == image
    ensures !Truthy(image) ==> m.image == None
  {
    ChatMessage(FromUser, text, if Truthy(image) then image else None)
  }

  /** What the AI bubble shows after `received` chunks. */
  function AiBubble(received: seq<string>): ChatMessage {
    ChatMessage(FromAi, if received == [] then Placeholder else Concat(received), None)
  }

  /** The messages one send appends after the student's own. */
  function Outcome(reply: StreamReply): seq<ChatMessage> {
    match reply
    case OpenFailed => [ChatMessage(FromAi, ChatApology, None)]
    case Opened(chunks, failsAfter) =>
      [AiBubble(chunks)] + (if failsAfter then [ChatMessage(FromAi, ChatApology, None)] else [])
  }

  /** The transcript after one send. */
  function AfterSend(before: seq<ChatMessage>, text: string, image: Option<string>, reply: StreamReply): seq<ChatMessage> {
    before + [UserMessage(text, image)] + Outcome(reply)
  }

  // ----- properties of the transcript -----

  /** One more chunk extends the running text by that chunk. */
  lemma ConcatSnoc(s: seq<string>, x: string)
    ensures Concat(s + [x]) == Concat(s) + x
  {
    var t := s + [x];
    assert t[..|t| - 1] == s;
  }

  lemma {:induction false} ConcatAppend(a: seq<string>, b: seq<string>)
    ensures Concat(a + b) == Concat(a) + Concat(b)
    decreases |b|
  {
    if b == [] {
      assert a + b == a;
    } else {
      var b', x := b[..|b| - 1], b[|b| - 1];
      assert b == b' + [x];
      assert a + b == (a + b') + [x];
      ConcatSnoc(a + b', x);
      ConcatSnoc(b', x);
      ConcatAppend(a, b');
    }
  }

  /** What the bubble shows while streaming is always a prefix of what it finally shows. */
  lemma StreamingShowsPrefix(chunks: seq<string>, i: nat)
    requires i <= |chunks|
    ensures Concat(chunks[..i]) <= Concat(chunks)
  {
    assert chunks == chunks[..i] + chunks[i..];
    ConcatAppend(chunks[..i], chunks[i..]);
  }

  /**
   * A send keeps every earlier message, adds the student's message next,
   * and then either the apology alone (the stream never opened), or the AI
   * bubble holding the whole reply, followed by the apology exactly when the
   * stream threw part-way.
   */
  lemma SendTranscript(before: seq<ChatMessage>, text: string, image: Option<string>, reply: StreamReply)
    ensures var after := AfterSend(before, text, image, reply);
      && after[..|before|] == before
      && after[|before|] == UserMessage(text, image)
      && (reply.OpenFailed? ==> |after| == |before| + 2 && after[|before| + 1].text == ChatApology)
      && (reply.Opened? ==>
            && |after| == |before| + (if reply.failsAfter then 3 else 2)
            && after[|before| + 1].sender == FromAi
            && after[|before| + 1].text == (if reply.chunks == [] then Placeholder else Concat(reply.chunks))
            && (reply.failsAfter ==> after[|before| + 2].text == ChatApology))
  {
  }

  /** A stream that ends normally leaves the AI bubble as the last message. */
  lemma CompletedStreamEndsWithReply(before: seq<ChatMessage>, text: string, image: Option<string>, chunks: seq<string>)
    requires chunks != []
    ensures var after := AfterSend(before, text, image, Opened(chunks, false));
      after[|after| - 1] == ChatMessage(FromAi, Concat(chunks), None)
  {
  }

  /**
   * The send button and the Enter key refuse while a reply is loading;
   * the button also refuses with nothing to send, which the handler's own
   * guard refuses in any case.
   */
  predicate SendOffered(isLoading: bool, input: string, image: Option<string>) {
    !isLoading && !NothingToSend(input, image)
  }

  lemma SendOfferedIff(isLoading: bool, input: string, image: Option<string>)
    ensures SendOffered(isLoading, input, image) <==> !isLoading && (Truthy(image) || !AllWhitespace(input))
  {
    NothingToSendIff(input, image);
  }

  class ChatScreen {
    var messages: seq<ChatMessage>
    var input: string
    var image: Option<string>
    var showCamera: bool
    var isLoading: bool
    /** `chatSessionRef.current`. */
    var session: Option<ChatSession>

    constructor ()
      ensures messages == [] && input == "" && image == None
      ensures !showCamera && !isLoading && session == None
    {
      messages := [];
      input := "";
      image := None;
      showCamera := false;
      isLoading := false;
      session := None;
    }

    /**
     * The effect on `[language, user]`: with a user, a new session for the
     * user's standard and language replaces the old one and the transcript
     * is cleared; without one nothing changes.
     */
    method OnContextChange(language: Language, user: Option<User>)
      modifies this
      ensures user.Some? ==> session == Some(CreateChatSession(language.Code(), user.value.standard)) && messages == []
      ensures user.None? ==> session == old(session) && messages == old(messages)
      ensures input == old(input) && image == old(image)
      ensures showCamera == old(showCamera) && isLoading == old(isLoading)
    {
      if user.Some? {
        session := Some(CreateChatSession(language.Code(), user.value.standard));
        messages := [];
      }
    }

    /**
     * `handleSend`. With nothing to send, or no session, nothing changes.
     * Otherwise the input and image are cleared, the request is the text
     * with the image, and the transcript grows as `AfterSend` says; loading
     * is over at the end.
     */
    method HandleSend(reply: StreamReply) returns (ghost request: seq<Part>)
      modifies this
      ensures NothingToSend(old(input), old(image)) || old(session).None? ==>
        messages == old(messages) && input == old(input) && image == old(image) && isLoading == old(isLoading)
      ensures !(NothingToSend(old(input), old(image)) || old(session).None?) ==>
        && IsRequest(request, old(input), old(image))
        && messages == AfterSend(old(messages), old(input), old(image), reply)
        && input == "" && image == None && !isLoading
      ensures session == old(session) && showCamera == old(showCamera)
    {
      request := [];
      if NothingToSend(input, image) || session.None? {
        return;
      }
      var messageToSend := input;
      var imageToSend := image;
      PostUserMessage();
      request := AssembleParts(messageToSend, imageToSend);
      ReceiveReply(reply);
    }

    /** The synchronous part of a send: the student's bubble, cleared inputs, loading on. */
    method PostUserMessage()
      modifies this
      ensures messages == old(messages) + [UserMessage(old(input), old(image))]
      ensures input == "" && image == None && isLoading
      ensures session == old(session) && showCamera == old(showCamera)
    {
      messages := messages + [UserMessage(input, image)];
      input := "";
      image := None;
      isLoading := true;
    }

    /**
     * The `try`/`catch`/`finally` around the stream: the AI bubble, or the
     * apology, or both, and loading off at the end.
     */
    method ReceiveReply(reply: StreamReply)
      modifies this
      ensures messages == old(messages) + Outcome(reply)
      ensures !isLoading
      ensures input == old(input) && image == old(image)
      ensures session == old(session) && showCamera == old(showCamera)
    {
      var prefix := messages;
      match reply {
      case OpenFailed =>
        messages := messages + [ChatMessage(FromAi, ChatApology, None)];
      case Opened(chunks, failsAfter) =>
        messages := messages + [AiBubble([])];
        ShowStream(prefix, chunks);
        if failsAfter {
          messages := messages + [ChatMessage(FromAi, ChatApology, None)];
        }
      }
      isLoading := false;
    }

    /**
     * The `for await` loop: each chunk is appended to the running text, and
     * the last bubble is rewritten to show it.
     */
    method ShowStream(prefix: seq<ChatMessage>, chunks: seq<string>)
      requires messages == prefix + [AiBubble([])]
      modifies this
      ensures messages == prefix + [AiBubble(chunks)]
      ensures input == old(input) && image == old(image) && isLoading == old(isLoading)
      ensures session == old(session) && showCamera == old(showCamera)
    {
      var aiResponseText := "";
      var i := 0;
      while i < |chunks|
        invariant 0 <= i <= |chunks|
        invariant aiResponseText == Concat(chunks[..i])
        invariant messages == prefix + [AiBubble(chunks[..i])]
        invariant input == old(input) && image == old(image) && isLoading == old(isLoading)
        invariant session == old(session) && showCamera == old(showCamera)
      {
        assert chunks[..i + 1][..i] == chunks[..i];
        aiResponseText := aiResponseText + chunks[i];
        var last := messages[|messages| - 1];
        messages := messages[..|messages| - 1] + [last.(text := aiResponseText)];
        i := i + 1;
      }
      assert chunks[..i] == chunks;
    }

    /** `handleCapture`: the photo becomes the attachment and the camera closes. */
    method HandleCapture(base64: string)
      modifies this
      ensures image == Some(base64) && !showCamera
      ensures messages == old(messages) && input == old(input)
      ensures isLoading == old(isLoading) && session == old(session)
    {
      image := Some(base64);
      showCamera := false;
    }
  }
}
