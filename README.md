# Telegram LLM relay bot — message pipeline in Dafny

The bot answers every Telegram text message by asking a large language model.
Before the call it reads the user's earlier exchanges from an SQLite table and
builds a prompt from the last five of them. It then stores the new exchange and
replies. Two near-identical scripts exist. `app.py` asks OpenAI's chat
completions with the system instructions as a separate message and strips the
answer. `app2.py` asks Gemini with the instructions pasted in front of the
prompt and uses the answer unchanged. Each script has its own fixed error reply.

The model covers:

- `pystr.dfy` (module `PyStr`): Python's `str.isspace`, `str.strip` and
  `str.join`, which the pipeline relies on.
- `history_store.dfy` (module `HistoryStore`): the `messages` table. It is a class
  holding a sequence of rows and the AUTOINCREMENT counter. `init_db` and
  `save_message` are methods that change it. The `get_user_history` query is the
  function `UserHistory`.
- `prompt.dfy` (module `Prompt`): the `[-5:]` window and the prompt text built
  from it.
- `relay.dfy` (modules `Backend` and `Relay`): the outcome of a model call, and
  the read–build–ask–store–reply sequence shared by both scripts.
- `openai_bot.dfy` (module `OpenAIBot`): `ask_openai` and `handle_message` of
  `app.py`.
- `gemini_bot.dfy` (module `GeminiBot`): `handle_text_message` and
  `handle_message` of `app2.py`.

Modelling choices:

- The model call is a function parameter `llm`. It maps the exact request sent
  to `Success(text)` or `Failure`. A `Failure` stands for any exception the call
  raises.
- The system-instruction text is a parameter `instructions`. Its wording plays
  no part in the pipeline's logic.
- The history query has no `ORDER BY`. The model assumes SQLite returns rows in
  rowid order, which is insertion order for this append-only table.
- `app.py` and `app2.py` share the same store, window and prompt code
  (`app2.py:75-103` and `app2.py:150-152` repeat `app.py:70-98` and
  `app.py:132-134`). That code is modelled once.

What the code does and does not do, which the model follows:

- The two scripts use two different error replies.
- No instance lock exists.
- The code sets no timeout of its own on the model call. The OpenAI client keeps
  its library defaults.
- A failing database read or write is not caught. It ends the handler before any
  reply is sent.

## Model

| member | source | states |
|---|---|---|
| `PyStr.IsSpace` | app.py:110 | the whitespace `.strip()` removes includes space, tab, newline and carriage return, and no printable ASCII character other than space is whitespace |
| `PyStr.Strip` | app.py:110 | `.strip()` returns a slice of its input with no whitespace at either end, and everything cut off before and after it is whitespace |
| `PyStr.StripEmpty` | app.py:110 | the stripped text is empty exactly when the input is all whitespace |
| `PyStr.StripFixpoint` | app.py:110 | stripping leaves a string unchanged exactly when it has no edge whitespace, so stripping twice is the same as once |
| `PyStr.Join` | app.py:133 | `"\n".join` of no parts is empty; otherwise its length is the parts' total length plus one separator between each pair of neighbours |
| `PyStr.JoinAt` | app.py:133 | every part appears whole in the joined string, at the offset after all earlier parts and separators |
| `PyStr.JoinGap` | app.py:133 | between neighbouring parts stands exactly one separator, so the parts come out once each and in order |
| `HistoryStore.UserHistory` | app.py:94-98 | the history query yields at most one pair per row (same query at app2.py:99-103) |
| `HistoryStore.UserHistoryMembers` | app.py:97 | each pair returned comes from a row of that user, and every row of that user contributes its pair |
| `HistoryStore.UserHistoryEmpty` | app.py:94-98 | the history is empty exactly when no row has that user_id, so an unseen user gets the empty history (also app2.py:99-103) |
| `HistoryStore.UserHistoryConcat` | app.py:97-98 | the query splits over older and newer rows with the older turns first, which is insertion order |
| `HistoryStore.UserHistoryAppendOwn` | app.py:86-98 | after a row of user u is inserted, u's history is the old history followed by that row's `(message, response)` |
| `HistoryStore.UserHistoryAppendOther` | app.py:86-98 | inserting a row of one user leaves every other user's history unchanged |
| `HistoryStore.MessageTable.GetUserHistory` | app.py:94-98 | `get_user_history` returns the user's pairs in insertion order; every row of that user contributes its pair, and the result is empty exactly when the user has no row (same code at app2.py:99-103) |
| `HistoryStore.MessageTable.InitDb` | app.py:70-81 | `CREATE TABLE IF NOT EXISTS`: afterwards the table exists, and its rows and id counter are unchanged, so it is idempotent (same code at app2.py:75-86) |
| `HistoryStore.MessageTable.SaveMessage` | app.py:86-91 | appends exactly one row `(id, user_id, message, response)` whose id exceeds every earlier id. Earlier rows are untouched, the user's history ends with `(message, response)`, and other users' histories are unchanged (same code at app2.py:91-96) |
| `Prompt.Window` | app.py:132 | `[-5:]` has at most five entries and is a suffix of the history. It is the whole history when there are at most five turns (same code at app2.py:150) |
| `Prompt.WindowSlides` | app.py:132 | the next message's window is the current window plus the new turn, trimmed to five |
| `Prompt.WindowForgetsOlder` | app.py:132 | once five newer turns exist, the window is exactly the last five of them, oldest first |
| `Prompt.WindowForgetsOlderRows` | app.py:132 | the same at table level: rows before a user's last five turns never reach the prompt |
| `Prompt.FormatTurn` | app.py:133 | `f"User: {m}\nBot: {r}"` holds `User: `, the message, `\nBot: ` and the response, each whole and in that order (same code at app2.py:151) |
| `Prompt.Blocks` | app.py:133 | the comprehension yields one `User: m\nBot: r` block per window turn, in window order |
| `Prompt.BuildPrompt` | app.py:133-134 | an empty window gives `user_text` verbatim. A non-empty one gives a prompt that opens with the oldest turn's block and ends with `\nUser: <user_text>\nBot:`, and its length is the blocks plus separators plus that cue (same code at app2.py:151-152) |
| `Prompt.PromptShowsTurn` | app.py:133-134 | every window turn appears in the prompt as its whole block, at its own offset |
| `Prompt.PromptTurnsInOrder` | app.py:133 | consecutive blocks are separated by exactly one newline, so each turn appears once and in order |
| `Prompt.PromptFor` | app.py:132-134 | the prompt for a user without history is their message verbatim; with history it ends with `\nUser: <user_text>\nBot:` (same code at app2.py:150-152) |
| `Prompt.FirstPromptIsMessage` | app.py:132-134 | a user with no stored rows is sent their message with no framing |
| `Prompt.OneTurnPrompt` | app.py:133-134 | one prior turn `("hi", "yo")` and message `"next"` give `"User: hi\nBot: yo\nUser: next\nBot:"` |
| `Relay.HandleMessage` | app.py:126-140 | the reply is the adapter's answer to the prompt built from the user's last five turns. Exactly one row `(user_id, user_text, reply)` is appended, holding the user's text rather than the prompt, and the stored response equals the reply (same sequence at app2.py:144-158) |
| `OpenAIBot.AskOpenAIAsWritten` | app.py:101-113 | as written, reading `message['content']` raises on every completion, so every call yields the error reply |
| `OpenAIBot.AskOpenAI` | app.py:101-113 | the backend gets the instructions and the prompt unchanged. A failure gives exactly `"Sorry, I encountered an error. Try again later."` and a success gives the stripped content. The reply never has edge whitespace |
| `OpenAIBot.AsWrittenLosesAnswers` | app.py:110-113 | for any successful completion whose stripped text is not the error reply, the as-written code answers differently from the corrected code |
| `OpenAIBot.HandleMessage` | app.py:126-140 | with the corrected `ask_openai`: a failed call makes the reply and the stored response exactly the error reply, stored next to `user_text`. A successful call makes both the stripped answer |
| `OpenAIBot.HandleMessageAsWritten` | app.py:126-140 | with `ask_openai` as written: the reply is always `"Sorry, I encountered an error. Try again later."`, and the row stored pairs `user_text` with that same error reply, so the user's history gains only error replies |
| `GeminiBot.WrapInstructions` | app2.py:128 | the message sent is the instructions, then `\n\nHuman: `, then the prompt, each whole and in that order |
| `GeminiBot.WrapInstructionsInjective` | app2.py:128 | under fixed instructions, different prompts give different messages, so the prompt reaches the model intact |
| `GeminiBot.HandleTextMessage` | app2.py:120-133 | the model gets exactly `instructions + "\n\nHuman: " + prompt`. A failure gives exactly `"😔 Sorry, I encountered an error"` and a success gives the model's text unchanged |
| `GeminiBot.HandleMessage` | app2.py:144-158 | the model gets the instructions wrapped around the five-turn prompt. The reply is the error reply on failure and the text otherwise, and the row stored is `(user_id, user_text, reply)` |

## Left out

- Telegram plumbing is not modelled: the bot and dispatcher objects, the `/start` greeting, `start_polling`, and sending the reply. It is platform I/O, and the model returns the reply instead.
- The Flask health endpoint and the thread that runs it are not modelled. They are networking and concurrency.
- Logging (loguru and the logging middleware) and `.env` loading are not modelled. They are I/O only.
- The OpenAI and Gemini client objects are not modelled: `AsyncOpenAI(...)`, `initialize_text_model`, `start_chat` and the generation settings (floats). These are foreign libraries. A call is the `llm` parameter.
- The model's answer is not random in this model. `llm` is a fixed function, so two identical requests get identical outcomes. A real model may answer differently each time.
- A completion whose content is `None`, or a Gemini response whose `.text` raises (for example a blocked answer), is folded into `Failure`. Both lead to the same error reply in the code.
- SQLite connections, commits and file handling are not modelled. The table is an in-memory sequence.
- Store failures are not modelled. A failed write (disk full, locked database) raises out of `handle_message` in the source, and the model has no such path.
- `GetUserHistory` and `SaveMessage` require the table to exist. In the source `init_db()` runs at import (app.py:83, app2.py:88), before any handler.
- Integer limits are not modelled: `user_id` and the row ids are unbounded integers. SQLite's 64-bit ids and the point where AUTOINCREMENT runs out are not captured.
- Concurrency is not modelled. Two messages from the same user can interleave their read-then-write, and the code has no lock. The model runs one handler at a time.
- There is no instance lock in these files, so the model has none.
- The OpenAI client's default timeout (600 s) and its automatic retries (2, on connection errors, 429 and 5xx answers) are not modelled separately. They are folded into `llm`, whose outcome is the result after any retries. app2.py sets no timeout on the Gemini call either; whatever that client does by default is likewise part of `llm`.

## Findings

| source | as written | input that shows it | evidently intended | confidence | as-written member | corrected member |
|---|---|---|---|---|---|---|
| app.py:110 | `chat_completion.choices[0].message['content']` subscripts the message object of the `AsyncOpenAI` client (openai ≥ 1.0), which supports attribute access only. The `TypeError` is caught at app.py:111, so every successful call answers `"Sorry, I encountered an error. Try again later."` | any successful completion, e.g. content `"Hello"` | `chat_completion.choices[0].message.content.strip()`, so the user receives the model's answer | medium, not executed (depends on the openai v1 message type, which is not part of this model) | `OpenAIBot.AskOpenAIAsWritten`, `OpenAIBot.AsWrittenLosesAnswers`, `OpenAIBot.HandleMessageAsWritten` | `OpenAIBot.AskOpenAI`, `OpenAIBot.HandleMessage` |
