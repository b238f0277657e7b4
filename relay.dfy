/** What a model call yields once the provider's client library is abstracted. */
module Backend {

  /** The generated text, or an exception raised anywhere in the call (network
      error, rate limiting, a malformed or blocked response). */
  datatype Outcome = Success(text: string) | Failure
}

/** The body of `handle_message`, shared by both bots: read the user's history,
    build the prompt from its last five turns, ask the backend, store the
    exchange, reply. The bot's backend adapter is passed in as `generate`; it
    never fails, because each adapter turns a failure into a fixed reply. */
module Relay {
  import opened HistoryStore
  import opened Prompt

  /** One inbound message handled to the end. The reply is what the adapter
      makes of the prompt built from the user's earlier turns; exactly one row
      is appended, holding the user's own text (not the prompt) and that same
      reply, so the user's history now ends with this exchange. */
  method HandleMessage(table: MessageTable, userId: int, userText: string, generate: string -> string)
    returns (reply: string)
    requires table.Valid() && table.tableExists
    modifies table
    ensures table.Valid() && table.tableExists
    ensures reply == generate(PromptFor(old(table.rows), userId, userText))
    ensures table.lastId == old(table.lastId) + 1
    ensures table.rows == old(table.rows) + [Row(table.lastId, userId, userText, reply)]
    ensures UserHistory(table.rows, userId) == UserHistory(old(table.rows), userId) + [Turn(userText, reply)]
  {
    var history := Window(table.GetUserHistory(userId));
    var fullPrompt := BuildPrompt(history, userText);
    reply := generate(fullPrompt);
    table.SaveMessage(userId, userText, reply);
  }
}
