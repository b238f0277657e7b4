/** The OpenAI variant of the bot: `ask_openai` and `handle_message` in app.py.
    The chat-completions call is the parameter `llm`, a function from the
    request sent to what the call yields. */
module OpenAIBot {
  import opened PyStr
  import opened HistoryStore
  import opened Prompt
  import opened Backend
  import Relay

  /** The reply `ask_openai` gives when the call raises. (Written in two pieces:
      the verifier does not look inside a single literal this long.) */
  const ERROR_REPLY: string := "Sorry, I encountered an error." + " Try again later."

  /** The two chat messages `ask_openai` sends: the system instructions, then
      the prompt as the user's message. */
  datatype ChatRequest = ChatRequest(system: string, user: string)

  /** How the content is read off the message object of a completion. */
  datatype ContentAccess = ItemAccess | AttributeAccess

  /** Reading the content of the message object the asynchronous v1 client
      returns: the attribute yields it, while item access (`message['content']`)
      raises, since that object does not support subscripting. */
  function ReadContent(access: ContentAccess, content: string): Outcome {
    match access
    case AttributeAccess => Success(content)
    case ItemAccess => Failure
  }

  /** `ask_openai` with the content read by `access`: any exception, from the
      call or from reading its result, becomes ERROR_REPLY; otherwise the reply
      is the content stripped of surrounding whitespace. */
  function AskWith(access: ContentAccess, llm: ChatRequest -> Outcome, instructions: string, prompt: string): string {
    match llm(ChatRequest(instructions, prompt))
    case Failure => ERROR_REPLY
    case Success(content) =>
      match ReadContent(access, content)
      case Failure => ERROR_REPLY
      case Success(text) => Strip(text)
  }

  /** `ask_openai` as written, reading `message['content']`: whatever the model
      answers, the caller gets ERROR_REPLY. */
  function AskOpenAIAsWritten(llm: ChatRequest -> Outcome, instructions: string, prompt: string): (reply: string)
    ensures reply == ERROR_REPLY
  {
    AskWith(ItemAccess, llm, instructions, prompt)
  }

  /** `ask_openai` reading `message.content`: the backend is sent the
      instructions and the prompt unchanged; a failed call gives ERROR_REPLY and
      a successful one the stripped content. Either way the reply never starts
      or ends with whitespace. */
  function AskOpenAI(llm: ChatRequest -> Outcome, instructions: string, prompt: string): (reply: string)
    ensures llm(ChatRequest(instructions, prompt)).Failure? ==> reply == ERROR_REPLY
    ensures llm(ChatRequest(instructions, prompt)).Success? ==>
      reply == Strip(llm(ChatRequest(instructions, prompt)).text)
    ensures Trimmed(reply)
  {
    AskWith(AttributeAccess, llm, instructions, prompt)
  }

  /** The code as written loses every answer the model gives: whenever the call
      succeeds with content that does not strip to ERROR_REPLY itself, the user
      gets ERROR_REPLY instead of that content. */
  lemma AsWrittenLosesAnswers(llm: ChatRequest -> Outcome, instructions: string, prompt: string)
    requires llm(ChatRequest(instructions, prompt)).Success?
    requires Strip(llm(ChatRequest(instructions, prompt)).text) != ERROR_REPLY
    ensures AskOpenAIAsWritten(llm, instructions, prompt) == ERROR_REPLY
    ensures AskOpenAI(llm, instructions, prompt) == Strip(llm(ChatRequest(instructions, prompt)).text)
    ensures AskOpenAIAsWritten(llm, instructions, prompt) != AskOpenAI(llm, instructions, prompt)
  {
  }

  /** `handle_message` of app.py with the corrected `ask_openai` (AskOpenAI,
      which reads `message.content`). When the model call fails the user is sent
      ERROR_REPLY and the stored row pairs the user's own text with that same
      ERROR_REPLY; when it succeeds, reply and stored response are the stripped
      answer to the prompt built from the user's last five turns. */
  method HandleMessage(table: MessageTable, userId: int, userText: string, instructions: string,
                       llm: ChatRequest -> Outcome)
    returns (reply: string)
    requires table.Valid() && table.tableExists
    modifies table
    ensures table.Valid() && table.tableExists
    ensures var request := ChatRequest(instructions, PromptFor(old(table.rows), userId, userText));
      (llm(request).Failure? ==> reply == ERROR_REPLY)
      && (llm(request).Success? ==> reply == Strip(llm(request).text))
    ensures table.lastId == old(table.lastId) + 1
    ensures table.rows == old(table.rows) + [Row(table.lastId, userId, userText, reply)]
    ensures UserHistory(table.rows, userId) == UserHistory(old(table.rows), userId) + [Turn(userText, reply)]
  {
    reply := Relay.HandleMessage(table, userId, userText, prompt => AskOpenAI(llm, instructions, prompt));
  }

  /** `handle_message` of app.py with `ask_openai` as written: whatever the model
      answers, the user is sent ERROR_REPLY, and every row stored pairs the
      user's text with ERROR_REPLY, so the history the next prompt is built from
      holds no answer of the model. */
  method HandleMessageAsWritten(table: MessageTable, userId: int, userText: string, instructions: string,
                                llm: ChatRequest -> Outcome)
    returns (reply: string)
    requires table.Valid() && table.tableExists
    modifies table
    ensures table.Valid() && table.tableExists
    ensures reply == ERROR_REPLY
    ensures table.lastId == old(table.lastId) + 1
    ensures table.rows == old(table.rows) + [Row(table.lastId, userId, userText, ERROR_REPLY)]
    ensures UserHistory(table.rows, userId) == UserHistory(old(table.rows), userId) + [Turn(userText, ERROR_REPLY)]
  {
    reply := Relay.HandleMessage(table, userId, userText, prompt => AskOpenAIAsWritten(llm, instructions, prompt));
  }
}
