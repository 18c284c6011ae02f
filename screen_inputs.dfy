/**
 * The checks every request screen makes before calling the service: there
 * must be non-blank text or a (truthy) image, and a signed-in user; and the
 * topic label that falls back to `'your image'` when no topic was typed.
 */
module ScreenInputs {

  import opened Wrappers
  import opened JsString
  import opened Types

  /** `!text.trim() && !image`: neither text nor an image to send. */
  predicate NothingToSend(text: string, image: Option<string>) {
    Trim(text) == "" && !Truthy(image)
  }

  /** The full guard `!text.trim() && !image || !user`. */
  predicate Refused(text: string, image: Option<string>, user: Option<User>) {
    NothingToSend(text, image) || user.None?
  }

  /** An image alone is enough to send; without one, the text must not be whitespace only. */
  lemma NothingToSendIff(text: string, image: Option<string>)
    ensures NothingToSend(text, image) <==> !Truthy(image) && AllWhitespace(text)
  {
    TrimEmptyIff(text);
  }

  const ImageTopic := "your image"

  /** `topic || 'your image'`: the topic, or the fallback when it is empty. Never empty. */
  function TopicLabel(topic: string): (shown: string)
    ensures shown != ""
    ensures topic != "" ==> shown == topic
    ensures topic == "" ==> shown == ImageTopic
  {
    if topic != "" then topic else ImageTopic
  }
}
