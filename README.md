# EduSarthi AI — a verified model of the study helper's client logic

EduSarthi AI is a React client for a generative-AI study helper for school
students. A signed-in student (a name and a class, "Class 8" to "Class 12")
can do four things:

- ask for notes on a topic or a photo;
- take a generated quiz (the prompt asks for five questions);
- chat with a tutor persona whose reply is streamed;
- ask a question and get a step-by-step solution.

Notes and solutions are rendered by a small line-oriented Markdown
classifier.

This project models that logic in Dafny and proves its properties.

- **Types** (`types.dfy`) holds the shared records: user, quiz question, chat message, language and screen.
- **JsString** (`js_string.dfy`) models the JavaScript string operations the code relies on.
  - `trim` uses the ECMAScript whitespace set, and is proved idempotent and unaffected by padding.
  - `startsWith` and `includes`.
  - `replace` with a string pattern changes only the first occurrence.
  - `split` on one character, with `join`. Both split/join round trips are proved.
- **GeminiService** (`gemini_service.dfy`) covers everything sent to and received from the remote model.
  - The four prompt templates, held as their fixed pieces, with the interpolated values between them.
  - The content-part list built for each request, and `imageToPart`.
  - The fixed fallback strings, the quiz normalisation and the chat session.
  - The remote model is a function parameter from the part list to a reply or a failure. `JSON.parse` is a parameter too.
- **ChatScreen** (`chat_screen.dfy`) is a class with the screen's state fields.
  - `handleSend` is split at its awaits into guard, user message, and the `try`/`catch`/`finally` around the stream.
  - The `for await` loop overwrites the last bubble with the running concatenation of the chunks.
  - The `...` placeholder bubble is overwritten only when a chunk arrives. A stream that opens and ends with no chunk leaves the typing indicator as the last message, with loading off.
  - The stream is given as a finite list of chunks that either ends or throws.
- **QuizView** (`quiz_view.dfy`) is the quiz-taking state machine.
  - Its select, submit and next transitions are functions on a state value.
  - The class's handlers are proved to perform them.
  - An invariant bounds the score by the number of questions answered, for any sequence of presses.
- **QuizScreen**, **NotesScreen** and **QnAScreen** are the request screens, each a class with two parts.
  - The guard runs first. Then comes the state set before the await, the call, and the state set after it.
  - They also hold the camera capture and the result panels.
- **ScreenInputs** holds the guard shared by the request screens and the `'your image'` fallback.
- **SimpleMarkdown** is the classifier. NotesScreen.tsx and QnAScreen.tsx hold identical copies of it, so it is one module.
  - The lazy global bold regex is specified by a scanner.
  - On a line without `<`, turning each `<strong>` and `</strong>` tag back into `**` restores the line.
- **App** is the shell.
  - The splash → login → main state machine, proved never to move back and never to lose the user.
  - The translation lookup with its fallback to the key, the screen switch, and the `useApp` guard.
- **LoginScreen** covers the trimmed-name check, the default class and the class list.

For a quiz, the code returns `parsedData.questions || []` unchanged. It
does not check an entry's `correctAnswer` against its options, and it
drops no entries. `GeminiService.QuizPassesQuestionsThrough` states that
every parsed entry is passed through.

## Model

| member | source | states |
|---|---|---|
| GeminiService.ImageToPart | services/geminiService.ts:10-17 | the part is inline data with mime type `image/jpeg` and the base64 data unchanged |
| GeminiService.AssembleParts | services/geminiService.ts:27-30 | the parts are the prompt text, then one JPEG part with the image exactly when the image is truthy (non-null, non-empty) |
| GeminiService.RequestImages | services/geminiService.ts:51-54 | a request has its text first, never more than one image, and one image exactly when the image is truthy |
| GeminiService.NotesPromptMentions | services/geminiService.ts:21-25 | the notes prompt contains the standard, the topic and the language |
| GeminiService.QuizPromptMentions | services/geminiService.ts:46-49 | the quiz prompt contains the topic, the standard and the language |
| GeminiService.QuizPromptRequests | services/geminiService.ts:46-49 | the quiz prompt asks for a `5-question` quiz whose JSON `should not contain any markdown`; nothing checks the count |
| GeminiService.QnAPromptMentions | services/geminiService.ts:96-101 | the Q&A prompt contains the standard, the question and the language |
| GeminiService.ChatInstructionMentions | services/geminiService.ts:121-132 | the chat system instruction contains the standard and the language |
| GeminiService.CreateChatSession | services/geminiService.ts:121-132 | the new session's system instruction names the standard and the language |
| GeminiService.GenerateNotes | services/geminiService.ts:19-42 | sends the notes prompt with the image; returns the reply text on success and exactly the notes fallback on any failure |
| GeminiService.GetAnswerForQnA | services/geminiService.ts:94-118 | sends the Q&A prompt with the image; returns the reply text on success and exactly the answer fallback on any failure |
| GeminiService.GenerateQuiz | services/geminiService.ts:44-92 | sends the quiz prompt with the image; the result is the normalised reply, so it never fails |
| GeminiService.NormalizeQuiz | services/geminiService.ts:84-91 | definition: the trimmed reply parsed, then `questions || []`, and `[]` on a failed request or a parse error; its properties are the next three rows |
| GeminiService.QuizOutcomes | services/geminiService.ts:84-91 | a failed request gives `[]`; an unparsable trimmed text gives `[]`; otherwise the parsed `questions`, or `[]` when that is missing |
| GeminiService.QuizIgnoresPadding | services/geminiService.ts:84-85 | whitespace around the reply text never changes the quiz, because the text is trimmed before parsing |
| GeminiService.QuizPassesQuestionsThrough | services/geminiService.ts:86 | the parsed questions are returned as they are, with no check of their number or of `correctAnswer` against the options |
| JsString.TrimEmptyIff | screens/NotesScreen.tsx:25 | a trimmed string is empty exactly when the original is whitespace only |
| JsString.TrimTrimmed | screens/LoginScreen.tsx:11-12 | a non-empty trimmed string neither starts nor ends with whitespace |
| JsString.TrimIdempotent | screens/LoginScreen.tsx:11-12 | trimming twice is trimming once |
| JsString.TrimPadded | services/geminiService.ts:84 | whitespace padding on either side does not change the result of `trim` |
| JsString.TrimStart | screens/LoginScreen.tsx:11 | the result is a suffix of the input, the removed prefix is all whitespace, and the result is empty or starts with non-whitespace |
| JsString.TrimEnd | screens/LoginScreen.tsx:11 | the result is a prefix of the input, the removed suffix is all whitespace, and the result is empty or ends with non-whitespace |
| JsString.IndexOf | screens/NotesScreen.tsx:14 | finds the first occurrence at or after the start position, or none when there is none |
| JsString.RemoveLeadingMarker | screens/NotesScreen.tsx:14-23 | removing the first occurrence of a marker the line starts with removes that prefix |
| JsString.Split | screens/NotesScreen.tsx:9 | there is always at least one piece, and no piece contains the separator |
| JsString.JoinSplit | screens/NotesScreen.tsx:9 | joining the pieces of a split with the separator gives back the content |
| JsString.SplitJoin | screens/NotesScreen.tsx:9 | splitting the join of separator-free pieces gives back exactly those pieces |
| JsString.SplitNoSeparator | screens/NotesScreen.tsx:9 | a string without the separator splits into itself alone |
| SimpleMarkdown.Render | screens/NotesScreen.tsx:8-11 | definition: the content split on new lines, one classified block per line; its properties are `RenderJoinedLines`, `RenderCoversContent` and `SingleLineRender` |
| SimpleMarkdown.ClassifyLine | screens/NotesScreen.tsx:12-29 | definition: the marker tests in the source's order; its properties are the heading, list, line-break and paragraph rows |
| SimpleMarkdown.Emphasize | screens/NotesScreen.tsx:28 | definition: the global lazy bold rewrite, scanning left to right; its properties are the `Emphasize…` rows |
| SimpleMarkdown.CloseAt | screens/NotesScreen.tsx:28 | the lazy `(.*?)\*\*` ends at the first `**` after the opening, and fails when a line terminator comes first |
| SimpleMarkdown.Heading3Line | screens/NotesScreen.tsx:13-15 | a line starting `###` is a level-3 heading of the rest of the line, trimmed |
| SimpleMarkdown.Heading2Line | screens/NotesScreen.tsx:16-18 | a line starting `##` but not `###` is a level-2 heading of the rest, trimmed |
| SimpleMarkdown.Heading1Line | screens/NotesScreen.tsx:19-21 | a line starting `#` but not `##` is a level-1 heading of the rest, trimmed, with or without a space |
| SimpleMarkdown.ListItemLine | screens/NotesScreen.tsx:22-24 | a line starting `* ` is a list item of the rest, trimmed |
| SimpleMarkdown.BoldStartIsParagraph | screens/NotesScreen.tsx:22-29 | a line starting `**` is a paragraph, never a list item |
| SimpleMarkdown.LineBreakIff | screens/NotesScreen.tsx:25-27 | a line is a line break exactly when it is whitespace only |
| SimpleMarkdown.PlainStartIsParagraph | screens/NotesScreen.tsx:28-29 | a line whose first character is neither `#`, `*` nor whitespace is a paragraph |
| SimpleMarkdown.EmphasizeNoMarker | screens/NotesScreen.tsx:28 | text without `**` passes through the bold rewrite unchanged |
| SimpleMarkdown.EmphasizeMatch | screens/NotesScreen.tsx:28 | a shortest `**x**` at the start, with no line terminator in `x`, becomes `<strong>x</strong>` and the rest is rewritten on its own |
| SimpleMarkdown.EmphasizeRoundTrip | screens/NotesScreen.tsx:28 | on a line without `<`, turning the strong tags back into `**` gives back the line: the rewrite only wraps text |
| SimpleMarkdown.RenderJoinedLines | screens/NotesScreen.tsx:9-12 | content of separator-free lines joined by new lines renders one block per line, in order |
| SimpleMarkdown.RenderCoversContent | screens/QnAScreen.tsx:9-12 | there are as many blocks as lines, and the lines put back together are the content |
| SimpleMarkdown.SingleLineRender | screens/QnAScreen.tsx:9-12 | content without a new line renders as exactly one block |
| ScreenInputs.NothingToSendIff | screens/QuizScreen.tsx:20 | there is nothing to send exactly when there is no truthy image and the text is whitespace only |
| ScreenInputs.TopicLabel | screens/QuizScreen.tsx:47 | the label is the topic, or `'your image'` when the topic is empty, and never empty |
| ChatScreen.UserMessage | screens/ChatScreen.tsx:32 | the student's bubble holds the untrimmed input and carries the image only when it was truthy; a falsy image is dropped |
| ChatScreen.ConcatAppend | screens/ChatScreen.tsx:54-58 | the running text of two chunk runs is the concatenation of their texts |
| ChatScreen.StreamingShowsPrefix | screens/ChatScreen.tsx:57-64 | the running reply text `aiResponseText` after any number of chunks is a prefix of the final reply text |
| ChatScreen.SendTranscript | screens/ChatScreen.tsx:29-72 | a send keeps every earlier message, then adds the student's message, then either the apology alone, or the AI bubble followed by the apology exactly when the stream threw; the bubble holds the chunks received, concatenated, or keeps `...` when no chunk arrived |
| ChatScreen.CompletedStreamEndsWithReply | screens/ChatScreen.tsx:57-64 | a stream that ends normally after at least one chunk leaves the concatenated reply as the last message |
| ChatScreen.SendOfferedIff | screens/ChatScreen.tsx:130-135 | sending is offered exactly when not loading and there is a truthy image or a non-blank input |
| ChatScreen.ChatScreen.constructor | screens/ChatScreen.tsx:10-15 | no messages, empty input, no image, camera closed, not loading, no session |
| ChatScreen.ChatScreen.OnContextChange | screens/ChatScreen.tsx:18-23 | with a user, a new session for the user's standard and the language, and the transcript emptied; without one, nothing changes |
| ChatScreen.ChatScreen.HandleSend | screens/ChatScreen.tsx:29-72 | refused with nothing to send or no session, changing nothing; otherwise the request is the input with the image, the transcript is as `SendTranscript` describes, input and image are cleared and loading is off |
| ChatScreen.ChatScreen.PostUserMessage | screens/ChatScreen.tsx:32-38 | appends the student's bubble, clears input and image, and turns loading on |
| ChatScreen.ChatScreen.ReceiveReply | screens/ChatScreen.tsx:40-71 | appends the apology when the stream does not open; otherwise the placeholder filled by the stream, then the apology when it threw; loading off at the end |
| ChatScreen.ChatScreen.ShowStream | screens/ChatScreen.tsx:54-64 | after the loop, the last bubble holds every chunk concatenated in order, or keeps `...` when there was no chunk, and no earlier message changed |
| ChatScreen.ChatScreen.HandleCapture | screens/ChatScreen.tsx:74-77 | the photo becomes the attachment and the camera closes |
| QuizView.InitialState | components/QuizView.tsx:13-19 | the initial state is consistent with score 0, and it is already over exactly for an empty quiz |
| QuizView.PerformConsistent | components/QuizView.tsx:76-116 | every press the screen offers keeps the state consistent |
| QuizView.SubmitAndNextEffect | components/QuizView.tsx:26-38 | submit without a selection does nothing; otherwise it answers, and the score grows by one exactly when the selection is the correct answer; next clears the selection and the answer flag and advances by one |
| QuizView.RunConsistent | components/QuizView.tsx:100-116 | after any sequence of presses the state is consistent, and the score never exceeds the questions answered nor the quiz's length |
| QuizView.RunMonotone | components/QuizView.tsx:34-38 | the question index and the score never decrease |
| QuizView.ButtonClass | components/QuizView.tsx:40-51 | before answering only the selected option is highlighted; after answering the correct option is marked correct, a wrong selection wrong, and every other option dimmed |
| QuizView.QuizView.constructor | components/QuizView.tsx:13-16 | index 0, no selection, not answered, score 0 |
| QuizView.QuizView.HandleAnswerSelect | components/QuizView.tsx:21-24 | performs the select transition: ignored once answered, otherwise the option becomes the selection |
| QuizView.QuizView.HandleSubmit | components/QuizView.tsx:26-32 | performs the submit transition and keeps the invariant |
| QuizView.QuizView.HandleNext | components/QuizView.tsx:34-38 | performs the next transition and keeps the invariant |
| QuizView.QuizView.IsOver | components/QuizView.tsx:19 | definition: the index has passed the last question, as `IsQuizOver` of the current state |
| QuizView.QuizView.GetButtonClass | components/QuizView.tsx:40-51 | for an option of the current question: before answering it is highlighted exactly when selected; after answering it is marked correct exactly when it is the correct answer, marked wrong exactly when it is a wrong selection, and dimmed otherwise |
| QuizView.QuizView.FinalScore | components/QuizView.tsx:53-57 | the pair shown is the score and the number of questions, and the score is at most that number |
| QuizScreen.QuizScreen.constructor | screens/QuizScreen.tsx:11-17 | empty topic, no image, camera closed, no questions, not loading, no error, no quiz started; the started-quiz invariant holds |
| QuizScreen.QuizScreen.HandleGenerateQuiz | screens/QuizScreen.tsx:19-32 | refused with nothing to send or no user; otherwise a non-empty result starts the quiz with exactly those questions, and an empty one shows the fixed error with the quiz not started; loading off at the end |
| QuizScreen.QuizScreen.StartRequest | screens/QuizScreen.tsx:21-23 | loading on, no error, no questions |
| QuizScreen.QuizScreen.FinishRequest | screens/QuizScreen.tsx:25-31 | loading off; a non-empty result starts the quiz, an empty one sets the error |
| QuizScreen.QuizScreen.HandleFinishQuiz | screens/QuizScreen.tsx:34-39 | not started, no questions, empty topic, no image |
| QuizScreen.QuizScreen.HandleCapture | screens/QuizScreen.tsx:41-44 | the photo becomes the attachment and the camera closes |
| QuizScreen.QuizScreen.QuizTopic | screens/QuizScreen.tsx:47 | the topic shown to the quiz is the typed topic, or `your image` when none was typed; never empty |
| QuizScreen.QuizRequestOutcome | screens/QuizScreen.tsx:26-31 | a quiz starts exactly when the reply arrived, parsed, and has a non-empty `questions` list |
| NotesScreen.NotesScreen.constructor | screens/NotesScreen.tsx:37-42 | empty topic, no image, camera closed, no notes, not loading, no recorded topic |
| NotesScreen.NotesScreen.HandleGenerateNotes | screens/NotesScreen.tsx:44-52 | refused with nothing to send or no user; otherwise the topic is recorded, the notes are the reply text or the notes fallback, and loading is off |
| NotesScreen.NotesScreen.StartRequest | screens/NotesScreen.tsx:46-48 | loading on, notes cleared, topic recorded |
| NotesScreen.NotesScreen.HandleCapture | screens/NotesScreen.tsx:54-57 | the photo becomes the attachment and the camera closes |
| NotesScreen.NotesScreen.Panel | screens/NotesScreen.tsx:98-103 | the panel is shown exactly when the notes are non-empty; the header is the recorded topic, or `your image` when none was recorded; block i is line i of the notes, classified |
| QnAScreen.QnAScreen.constructor | screens/QnAScreen.tsx:37-41 | empty question, no image, camera closed, no solution, not loading |
| QnAScreen.QnAScreen.HandleGetSolution | screens/QnAScreen.tsx:43-50 | refused with nothing to send or no user; otherwise the solution is the reply text or the answer fallback, and loading is off |
| QnAScreen.QnAScreen.StartRequest | screens/QnAScreen.tsx:45-46 | loading on and the solution cleared |
| QnAScreen.QnAScreen.HandleCapture | screens/QnAScreen.tsx:52-55 | the photo becomes the attachment and the camera closes |
| QnAScreen.QnAScreen.Panel | screens/QnAScreen.tsx:95-100 | the panel is shown exactly when the solution is non-empty, with each line classified in order |
| App.UseApp | App.tsx:24-30 | the provided context when there is one; without a provider, the error `useApp must be used within an AppProvider` |
| App.TranslateFallback | App.tsx:51-53 | a non-empty entry is shown; a missing key or an empty entry shows the key; a non-empty key never shows blank |
| App.ScreenFor | App.tsx:63-80 | an id naming a screen renders that screen; any other id renders Home |
| App.ScreenForId | App.tsx:63-80 | every screen renders itself when it is the active one |
| App.RenderAppContent | App.tsx:82-100 | the splash state shows the splash screen, the login state the login form, and the main view, with the bottom navigation and the active screen, appears exactly in the main state |
| App.BottomNavOnlyInMain | App.tsx:89-95 | the bottom navigation is present exactly in the main state |
| App.StepForward | App.tsx:38-49 | an offered event never moves the state back, keeps a user in the main view, and does not change the user once there |
| App.RunForward | App.tsx:38-49 | after any sequence of events the state has not moved back, the main view has a user, and that user is the one who signed in |
| App.InitialShellState | App.tsx:33-36 | the shell starts in the splash state, with nobody signed in, on Home, in English |
| App.App.T | App.tsx:51-53 | definition: the current language's entry for the key, or the key; its properties are `TranslateFallback` |
| App.App.constructor | App.tsx:33-36 | splash, no user, `home`, English |
| App.App.HandleAnimationEnd | App.tsx:43-45 | performs the animation-end step: splash to login |
| App.App.HandleLogin | App.tsx:38-41 | performs the sign-in step: stores the user and moves to main |
| App.App.SetActiveScreen | App.tsx:63-66 | performs the navigation step, keeping the invariant |
| App.App.HandleSetLanguage | App.tsx:47-49 | performs the language step, keeping the invariant |
| LoginScreen.ClassListExact | screens/LoginScreen.tsx:16 | the classes are exactly `Class 8` to `Class 12`, in order, and the first is the default |
| LoginScreen.SignInName | screens/LoginScreen.tsx:11-12 | sign-in is refused exactly for a whitespace-only name; a signed-in name is non-empty, has no surrounding whitespace, and is already trimmed |
| LoginScreen.LoginScreen.constructor | screens/LoginScreen.tsx:6-7 | empty name and the default class `Class 8`, which is one the list offers |
| LoginScreen.LoginScreen.SetName | screens/LoginScreen.tsx:31 | typing replaces the name and leaves the class unchanged |
| LoginScreen.LoginScreen.SetStandard | screens/LoginScreen.tsx:39-46 | the picked option becomes the class, and the class stays one the list offers |
| LoginScreen.LoginScreen.SubmitDisabled | screens/LoginScreen.tsx:51 | definition: the trimmed name is empty; `SignInName` states when that holds |
| LoginScreen.LoginScreen.HandleSubmit | screens/LoginScreen.tsx:9-14 | a user exactly when the submit button is enabled (the trimmed name is not empty), carrying the trimmed name and the selected class |

## Left out

- The load-time `API_KEY` check: it reads the process environment.
- The SDK calls (`generateContent`, `chats.create`, `sendMessageStream`), the model names and the response schema.
  - They are replaced by a reply parameter, or by a given stream of chunks.
  - The chat reply is given to `HandleSend` directly, because the session's history lives in the remote service; the request it returns is not related to that reply.
- `JSON.parse`: a parameter from text to an optional question document.
  - A document whose `questions` is truthy but is not a list of questions is not distinguished.
- `console.error` logging.
- Asynchrony. Each handler is one sequential step, with no other handler in between.
  - The Enter key of the notes and quiz forms does not check loading: a second request can start and finish out of order. This is not modelled.
  - A change of language or user in the middle of a chat stream empties the transcript under the loop. This is not modelled either.
- Reading `chunk.text` when a chunk has no text appends the string `undefined` in the source; chunks are plain strings here.
- Strings are sequences of Unicode scalar values, not UTF-16 code units. No operation modelled inspects a surrogate.
- CameraView, SplashScreen, ProgressBar, Loader, BottomNav, HomeScreen and ProfileScreen: media, timers and presentation.
- Layout and CSS: button styles are an enumeration, and HTML rendering is left out.
- The `translations` table: its content is defined outside the core, so it is a parameter.
- The `default` branch of `renderAppContent`, which the state's type makes unreachable.
- Trivial setters are not modelled, except the login form's: the topic and question fields, removing the attached image, and opening or closing the camera.
- Scrolling the chat to the newest message.
- QuizScreen.QuizScreen.HandleGenerateQuiz: requires that no quiz is running, because the form that calls it is rendered only then.
- LoginScreen.LoginScreen.SetStandard: requires one of the listed classes, because the select offers only those.
- App.App.HandleAnimationEnd: requires the splash state, because only the splash screen calls it.
- App.App.HandleLogin: requires the login state, because only the login form calls it.
- App.App.SetActiveScreen: requires the main state, because only the home screen and the bottom navigation call it.
- App.App.HandleSetLanguage: requires the main state, because only the profile screen calls it.
- The notes and answer fallback strings: no lemma states what they render as. The solver sees a long literal's length but not its characters.
