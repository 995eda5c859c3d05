/** The conversation history shared by the page's handlers; the card code only ever
    touches its first entry, the system message. */
module Conversation {
  import opened JsValue

  const DEFAULT_SYSTEM_PROMPT: string := "You are a helpful assistant."

  /** `conversationHistory[0]`, a single object that every handler holding the
      history array writes through. Its content is whatever value was assigned. */
  class SystemMessage {
    var content: Json

    constructor ()
      ensures content == JString(DEFAULT_SYSTEM_PROMPT)
    {
      content := JString(DEFAULT_SYSTEM_PROMPT);
    }
  }
}
