/**
 * The request side of the study helper: prompt templates, the content-part
 * list sent with each request, the fixed fallback strings, and the
 * normalisation of the quiz reply.
 *
 * The remote model is a parameter. A non-streaming call is a function from
 * the content parts to a `Reply` (its `response.text`, or a thrown error),
 * and JSON parsing is a function from text to an optional `QuizDoc`.
 */
module GeminiService {

  import opened Wrappers
  import opened JsString
  import opened Types

  /** One content part: a text part or an inline image. */
  datatype Part = TextPart(text: string) | InlineData(mimeType: string, data: string)

  /** What a `generateContent` call produced: the response text, or a thrown error. */
  datatype Reply = Answered(text: string) | Failed

  /**
   * What `JSON.parse` produced, as far as `parsedData.questions || []` can
   * see: `questions` is `None` when the field is missing or falsy.
   * A parse error, and a document on which reading `.questions` throws
   * (JSON `null`), are both `None` from the parse function.
   */
  datatype QuizDoc = QuizDoc(questions: Option<seq<QuizQuestion>>)

  const JpegMimeType := "image/jpeg"
  const NotesFallback := "Sorry, I couldn't generate notes at the moment. Please try again."
  const AnswerFallback := "Sorry, I couldn't process your question at the moment. Please try again."

  /** `imageToPart`: base64 JPEG data as an inline part. */
  function ImageToPart(base64Data: string): (p: Part)
    ensures p.InlineData? && p.mimeType == JpegMimeType && p.data == base64Data
  {
    InlineData(JpegMimeType, base64Data)
  }

  /** The number of image parts in a part list. */
  function ImageCount(parts: seq<Part>): nat
    decreases |parts|
  {
    if parts == [] then 0
    else (if parts[|parts| - 1].InlineData? then 1 else 0) + ImageCount(parts[..|parts| - 1])
  }

  /**
   * The shape of every request: the text first, then one JPEG part holding
   * the image exactly when the image is truthy.
   */
  ghost predicate IsRequest(parts: seq<Part>, text: string, image: Option<string>) {
    && |parts| == (if Truthy(image) then 2 else 1)
    && parts[0] == TextPart(text)
    && (Truthy(image) ==> parts[1] == ImageToPart(image.value))
  }

  /** `[{ text: prompt }]`, then `parts.push(imageToPart(image))` when the image is truthy. */
  method AssembleParts(text: string, image: Option<string>) returns (parts: seq<Part>)
    ensures IsRequest(parts, text, image)
  {
    parts := [TextPart(text)];
    if Truthy(image) {
      parts := parts + [ImageToPart(image.value)];
    }
  }

  /** A request never carries more than one image, and carries one exactly when the image is truthy. */
  lemma RequestImages(parts: seq<Part>, text: string, image: Option<string>)
    requires IsRequest(parts, text, image)
    ensures parts[0].TextPart? && parts[0].text == text
    ensures ImageCount(parts) <= 1
    ensures ImageCount(parts) == 1 <==> Truthy(image)
    ensures forall i :: 0 < i < |parts| ==> parts[i] == InlineData(JpegMimeType, image.value)
  {
    if Truthy(image) {
      assert parts[..1] == [parts[0]];
      assert ImageCount(parts[..1]) == 0;
    } else {
      assert ImageCount(parts[..0]) == 0;
    }
  }

  // ----- prompt templates -----
  // Each template is held as its fixed pieces, so that the interpolated
  // values stand between named constants.

  const NotesHead := "Generate concise, easy-to-understand notes for a "
  const NotesAfterStandard := " student on the topic: \""
  const NotesAfterTopic := "\". \n    If an image is provided, use it as the primary context for generating the notes."
    + "\n    The notes should include key definitions, important points in a list, and a brief explanation."
    + "\n    The response must be in "
  const NotesTail := " language.\n    Format the response in Markdown, using headings, bold text, and bullet points."

  function NotesPrompt(topic: string, language: string, standard: string): string {
    NotesHead + standard + NotesAfterStandard + topic + NotesAfterTopic + language + NotesTail
  }

  const QuizCountRequest := "5-question"
  const QuizNoMarkdown := "should not contain any markdown"
  const QuizOpening := "Generate a "
  const QuizKind := " multiple-choice quiz on the topic '"
  const QuizHead := QuizOpening + QuizCountRequest + QuizKind
  const QuizAfterTopic := "' for a "
  const QuizAfterStandard := " student."
    + "\n            If an image is provided, use it as the primary context for generating the quiz."
    + "\n            The questions and options should be in "
  const QuizJsonClause := ".\n            The JSON structure "
  const QuizTail := QuizJsonClause + QuizNoMarkdown + "."

  function QuizPrompt(topic: string, language: string, standard: string): string {
    QuizHead + topic + QuizAfterTopic + standard + QuizAfterStandard + language + QuizTail
  }

  const QnAHead := "You are an expert AI tutor for a "
  const QnAAfterStandard := " student. A student has asked the following question: \""
  const QnAAfterQuestion := "\"."
    + "\n        If an image is provided with the question, analyze it carefully as it's the main part of the question."
    + "\n        Provide a clear, accurate, and step-by-step solution. "
    + "\n        For numerical problems, show the calculations. For theoretical questions, explain the concept clearly."
    + "\n        The response must be in the "
  const QnATail := " language.\n        Format the entire response in Markdown."

  function QnAPrompt(question: string, language: string, standard: string): string {
    QnAHead + standard + QnAAfterStandard + question + QnAAfterQuestion + language + QnATail
  }

  const ChatHead := "You are 'EduSarthi AI', a friendly and patient AI tutor for Indian school students in "
  const ChatAfterStandard := ". "
    + "\n      Your goal is to help them understand their doubts about academic subjects. "
    + "\n      You can also analyze images sent by the student."
    + "\n      Explain concepts clearly and simply. Respond in "
  const ChatTail := ". "
    + "\n      If a user asks something unrelated to academics, politely steer the conversation back to studies."

  function ChatSystemInstruction(language: string, standard: string): string {
    ChatHead + standard + ChatAfterStandard + language + ChatTail
  }

  /** Each of three values interpolated into a template can be found in the result. */
  lemma TemplateMentions(a: string, x: string, b: string, y: string, c: string, z: string, d: string)
    ensures var p := a + x + b + y + c + z + d;
      Includes(p, x) && Includes(p, y) && Includes(p, z)
  {
    var p := a + x + b + y + c + z + d;
    assert p == a + x + (b + y + c + z + d);
    IncludesMiddle(a, x, b + y + c + z + d);
    assert p == (a + x + b) + y + (c + z + d);
    IncludesMiddle(a + x + b, y, c + z + d);
    IncludesMiddle(a + x + b + y + c, z, d);
  }

  /** The notes prompt names the standard, the topic and the language. */
  lemma NotesPromptMentions(topic: string, language: string, standard: string)
    ensures var p := NotesPrompt(topic, language, standard);
      Includes(p, standard) && Includes(p, topic) && Includes(p, language)
  {
    TemplateMentions(NotesHead, standard, NotesAfterStandard, topic, NotesAfterTopic, language, NotesTail);
  }

  /** The quiz prompt names the topic, the standard and the language. */
  lemma QuizPromptMentions(topic: string, language: string, standard: string)
    ensures var p := QuizPrompt(topic, language, standard);
      Includes(p, topic) && Includes(p, standard) && Includes(p, language)
  {
    TemplateMentions(QuizHead, topic, QuizAfterTopic, standard, QuizAfterStandard, language, QuizTail);
  }

  /**
   * What the first and the last fixed piece of a seven-piece template
   * contain, the template contains.
   */
  lemma TemplateEnds(a: string, x: string, b: string, y: string, c: string, z: string, d: string,
                     first: string, last: string)
    requires Includes(a, first) && Includes(d, last)
    ensures Includes(a + x + b + y + c + z + d, first)
    ensures Includes(a + x + b + y + c + z + d, last)
  {
    var p := a + x + b + y + c + z + d;
    var k :| 0 <= k <= |a| && OccursAt(a, first, k);
    assert p[k..k + |first|] == a[k..k + |first|];
    assert OccursAt(p, first, k);
    var j :| 0 <= j <= |d| && OccursAt(d, last, j);
    var off := |p| - |d|;
    assert p[off..] == d;
    assert p[off + j..off + j + |last|] == d[j..j + |last|];
    assert OccursAt(p, last, off + j);
  }

  /**
   * The quiz prompt asks for five questions and forbids markdown; the count
   * is only requested, never checked.
   */
  lemma QuizPromptRequests(topic: string, language: string, standard: string)
    ensures Includes(QuizPrompt(topic, language, standard), QuizCountRequest)
    ensures Includes(QuizPrompt(topic, language, standard), QuizNoMarkdown)
  {
    IncludesMiddle(QuizOpening, QuizCountRequest, QuizKind);
    IncludesMiddle(QuizJsonClause, QuizNoMarkdown, ".");
    TemplateEnds(QuizHead, topic, QuizAfterTopic, standard, QuizAfterStandard, language, QuizTail,
                 QuizCountRequest, QuizNoMarkdown);
  }

  /** The Q&A prompt names the standard, the question and the language. */
  lemma QnAPromptMentions(question: string, language: string, standard: string)
    ensures var p := QnAPrompt(question, language, standard);
      Includes(p, standard) && Includes(p, question) && Includes(p, language)
  {
    TemplateMentions(QnAHead, standard, QnAAfterStandard, question, QnAAfterQuestion, language, QnATail);
  }

  /** The tutor persona is bound to the standard and the language. */
  lemma ChatInstructionMentions(language: string, standard: string)
    ensures var p := ChatSystemInstruction(language, standard);
      Includes(p, standard) && Includes(p, language)
  {
    TemplateMentions(ChatHead, standard, ChatAfterStandard, language, ChatTail, [], []);
    assert ChatHead + standard + ChatAfterStandard + language + ChatTail + [] + [] == ChatSystemInstruction(language, standard);
  }

  /** A chat session: the persona it was created with; its history lives in the remote service. */
  datatype ChatSession = ChatSession(systemInstruction: string)

  /** `createChatSession`: a session whose system instruction names the standard and the language. */
  function CreateChatSession(language: string, standard: string): (session: ChatSession)
    ensures Includes(session.systemInstruction, standard) && Includes(session.systemInstruction, language)
  {
    ChatInstructionMentions(language, standard);
    ChatSession(ChatSystemInstruction(language, standard))
  }

  // ----- the three one-shot generators -----

  /** `generateNotes`: the reply text, or the fixed notes fallback on any error. */
  method GenerateNotes(topic: string, image: Option<string>, language: string, standard: string,
                       service: seq<Part> -> Reply)
    returns (notes: string, ghost request: seq<Part>)
    ensures IsRequest(request, NotesPrompt(topic, language, standard), image)
    ensures service(request).Answered? ==> notes == service(request).text
    ensures service(request).Failed? ==> notes == NotesFallback
  {
    var prompt := NotesPrompt(topic, language, standard);
    var parts := AssembleParts(prompt, image);
    request := parts;
    match service(parts)
    case Answered(text) =>
      notes := text;
    case Failed =>
      notes := NotesFallback;
  }

  /** `getAnswerForQnA`: the reply text, or the fixed answer fallback on any error. */
  method GetAnswerForQnA(question: string, image: Option<string>, language: string, standard: string,
                         service: seq<Part> -> Reply)
    returns (answer: string, ghost request: seq<Part>)
    ensures IsRequest(request, QnAPrompt(question, language, standard), image)
    ensures service(request).Answered? ==> answer == service(request).text
    ensures service(request).Failed? ==> answer == AnswerFallback
  {
    var prompt := QnAPrompt(question, language, standard);
    var parts := AssembleParts(prompt, image);
    request := parts;
    match service(parts)
    case Answered(text) =>
      answer := text;
    case Failed =>
      answer := AnswerFallback;
  }

  /**
   * The quiz result: the trimmed reply text is parsed and its `questions`
   * returned, or `[]` when the request failed, the text did not parse or
   * the field is missing.
   */
  function NormalizeQuiz(reply: Reply, parse: string -> Option<QuizDoc>): seq<QuizQuestion> {
    match reply
    case Failed => []
    case Answered(raw) =>
      match parse(Trim(raw))
      case None => []
      case Some(doc) => doc.questions.GetOr([])
  }

  /** `generateQuiz`: never throws; every failure becomes the empty list. */
  method GenerateQuiz(topic: string, image: Option<string>, language: string, standard: string,
                      service: seq<Part> -> Reply, parse: string -> Option<QuizDoc>)
    returns (questions: seq<QuizQuestion>, ghost request: seq<Part>)
    ensures IsRequest(request, QuizPrompt(topic, language, standard), image)
    ensures questions == NormalizeQuiz(service(request), parse)
  {
    var prompt := QuizPrompt(topic, language, standard);
    var parts := AssembleParts(prompt, image);
    request := parts;
    questions := [];
    var response := service(parts);
    if response.Answered? {
      var jsonText := Trim(response.text);
      var parsed := parse(jsonText);
      if parsed.Some? && parsed.value.questions.Some? {
        questions := parsed.value.questions.value;
      }
    }
  }

  /**
   * The quiz result is either empty or exactly the parsed `questions`;
   * a failed request, a parse failure and a missing field all give `[]`.
   */
  lemma QuizOutcomes(reply: Reply, parse: string -> Option<QuizDoc>)
    ensures reply.Failed? ==> NormalizeQuiz(reply, parse) == []
    ensures reply.Answered? && parse(Trim(reply.text)).None? ==> NormalizeQuiz(reply, parse) == []
    ensures reply.Answered? && parse(Trim(reply.text)).Some? ==>
      NormalizeQuiz(reply, parse) == parse(Trim(reply.text)).value.questions.GetOr([])
  {
  }

  /** Trimming comes before parsing: surrounding whitespace never changes the quiz. */
  lemma QuizIgnoresPadding(lead: string, raw: string, trail: string, parse: string -> Option<QuizDoc>)
    requires AllWhitespace(lead) && AllWhitespace(trail)
    ensures NormalizeQuiz(Answered(lead + raw + trail), parse) == NormalizeQuiz(Answered(raw), parse)
  {
    TrimPadded(lead, raw, trail);
  }

  /**
   * No entry is validated: whatever `questions` holds is returned as it is,
   * whatever its length and whether or not each `correctAnswer` is one of
   * its options.
   */
  lemma QuizPassesQuestionsThrough(raw: string, parse: string -> Option<QuizDoc>, qs: seq<QuizQuestion>)
    requires parse(Trim(raw)) == Some(QuizDoc(Some(qs)))
    ensures NormalizeQuiz(Answered(raw), parse) == qs
  {
  }
}
