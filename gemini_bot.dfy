/** The Gemini variant of the bot: `handle_text_message` and `handle_message`
    in app2.py. Each call starts a fresh chat session with an empty history, so
    the model call is the parameter `llm`, a function from the one message sent
    to what the call yields. */
module GeminiBot {
  import opened HistoryStore
  import opened Prompt
  import opened Backend
  import Relay

  /** The reply `handle_text_message` gives when anything in it raises. */
  const ERROR_REPLY: string := "\U{1F614} Sorry, I encountered an error"

  /** What stands between the instructions and the prompt in the message sent. */
  const HUMAN_TAG: string := "\n\nHuman: "

  /** `f"{SYSTEM_INSTRUCTIONS}\n\nHuman: {user_message}"`: the instructions, the
      `Human:` tag and the prompt, each whole and in that order. */
  function WrapInstructions(instructions: string, message: string): (request: string)
    ensures |request| == |instructions| + |HUMAN_TAG| + |message|
    ensures request[..|instructions|] == instructions
    ensures request[|instructions|..|instructions| + |HUMAN_TAG|] == HUMAN_TAG
    ensures request[|instructions| + |HUMAN_TAG|..] == message
  {
    instructions + HUMAN_TAG + message
  }

  /** The prompt can be read back from the message sent: under the same
      instructions, two prompts give the same message only if they are equal. */
  lemma WrapInstructionsInjective(instructions: string, m1: string, m2: string)
    requires WrapInstructions(instructions, m1) == WrapInstructions(instructions, m2)
    ensures m1 == m2
  {
    var cut := |instructions| + |HUMAN_TAG|;
    assert m1 == WrapInstructions(instructions, m1)[cut..];
  }

  /** `handle_text_message`: the model is sent the instructions wrapped around
      the prompt; a failure gives ERROR_REPLY, a success the model's text
      unchanged. */
  function HandleTextMessage(llm: string -> Outcome, instructions: string, prompt: string): (reply: string)
    ensures llm(WrapInstructions(instructions, prompt)).Failure? ==> reply == ERROR_REPLY
    ensures llm(WrapInstructions(instructions, prompt)).Success? ==>
      reply == llm(WrapInstructions(instructions, prompt)).text
  {
    match llm(WrapInstructions(instructions, prompt))
    case Failure => ERROR_REPLY
    case Success(text) => text
  }

  /** `handle_message` of app2.py. The model receives the instructions wrapped
      around the prompt built from the user's last five turns; the reply is
      ERROR_REPLY when that call fails and the model's text otherwise, and the
      stored row pairs the user's own text with that same reply. */
  method HandleMessage(table: MessageTable, userId: int, userText: string, instructions: string,
                       llm: string -> Outcome)
    returns (reply: string)
    requires table.Valid() && table.tableExists
    modifies table
    ensures table.Valid() && table.tableExists
    ensures var request := WrapInstructions(instructions, PromptFor(old(table.rows), userId, userText));
      (llm(request).Failure? ==> reply == ERROR_REPLY)
      && (llm(request).Success? ==> reply == llm(request).text)
    ensures table.lastId == old(table.lastId) + 1
    ensures table.rows == old(table.rows) + [Row(table.lastId, userId, userText, reply)]
    ensures UserHistory(table.rows, userId) == UserHistory(old(table.rows), userId) + [Turn(userText, reply)]
  {
    reply := Relay.HandleMessage(table, userId, userText, prompt => HandleTextMessage(llm, instructions, prompt));
  }
}
