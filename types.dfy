/** The records shared by the screens and the service layer. */
module Types {

  import opened Wrappers

  /** A signed-in student: a display name and an academic standard such as "Class 8". */
  datatype User = User(name: string, standard: string)

  /**
   * One generated multiple-choice question. Nothing in the application
   * checks that `correctAnswer` is one of `options`.
   */
  datatype QuizQuestion = QuizQuestion(question: string, options: seq<string>, correctAnswer: string)

  datatype Sender = FromUser | FromAi

  /** One bubble of the chat transcript; `image` is base64 JPEG data when attached. */
  datatype ChatMessage = ChatMessage(sender: Sender, text: string, image: Option<string>)

  datatype Language = En | Hi | Hn {
    /** The language code that is interpolated into prompts. */
    function Code(): string {
      match this
      case En => "en"
      case Hi => "hi"
      case Hn => "hn"
    }
  }

  /** The screens of the main view, as the navigation bar names them. */
  datatype Screen = Home | Notes | Quiz | Chat | QnA | Profile {
    function Id(): string {
      match this
      case Home => "home"
      case Notes => "notes"
      case Quiz => "quiz"
      case Chat => "chat"
      case QnA => "qna"
      case Profile => "profile"
    }
  }

  /**
   * JavaScript truthiness of an optional base64 image: `null` and the
   * empty string are both falsy.
   */
  predicate Truthy(image: Option<string>) {
    image.Some? && image.value != ""
  }
}
