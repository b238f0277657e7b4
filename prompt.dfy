/** The prompt both bots build in `handle_message` before calling their model:
    the user's last five turns rendered as `User:`/`Bot:` blocks, then the new
    message; a user without history sends the message alone. */
module Prompt {
  import opened PyStr
  import opened HistoryStore

  /** How many of the latest turns go into a prompt (`history[-5:]`). */
  const WINDOW_SIZE: nat := 5

  /** `history[-5:]`: the last five turns, or all of them when there are fewer.
      The window is a suffix of the history, as long as the history allows and
      never longer than five. */
  function Window(history: seq<Turn>): (w: seq<Turn>)
    ensures |w| == if |history| < WINDOW_SIZE then |history| else WINDOW_SIZE
    ensures w == history[|history| - |w|..]
  {
    if |history| <= WINDOW_SIZE then history else history[|history| - WINDOW_SIZE..]
  }

  /** The window slides: after one more turn, the window is the previous window
      with the new turn added and, once full, its oldest turn dropped. */
  lemma WindowSlides(history: seq<Turn>, t: Turn)
    ensures Window(history + [t]) == Window(Window(history) + [t])
  {
    var h := history + [t];
    if |history| >= WINDOW_SIZE {
      assert h[|h| - WINDOW_SIZE..] == (Window(history) + [t])[1..];
    }
  }

  /** Only the last five turns matter: once a user has five turns newer than some
      point, what came before that point never reaches the prompt. */
  lemma WindowForgetsOlder(older: seq<Turn>, recent: seq<Turn>)
    requires |recent| >= WINDOW_SIZE
    ensures Window(older + recent) == recent[|recent| - WINDOW_SIZE..]
  {
    var h := older + recent;
    assert h[|h| - WINDOW_SIZE..] == recent[|recent| - WINDOW_SIZE..];
  }

  /** `f"User: {m}\nBot: {r}"`: one turn as a two-line block. The block holds
      the `User: ` tag, the message, the `Bot: ` line start and the response,
      each whole and in that order. */
  function FormatTurn(t: Turn): (block: string)
    ensures |block| == 12 + |t.message| + |t.response|
    ensures block[..6] == "User: " && block[6..6 + |t.message|] == t.message
    ensures block[6 + |t.message|..12 + |t.message|] == "\nBot: "
    ensures block[12 + |t.message|..] == t.response
  {
    "User: " + t.message + "\nBot: " + t.response
  }

  /** The list comprehension over the window: one block per turn, in order. */
  function Blocks(window: seq<Turn>): (blocks: seq<string>)
    ensures |blocks| == |window|
    ensures forall i :: 0 <= i < |window| ==> blocks[i] == FormatTurn(window[i])
  {
    seq(|window|, i requires 0 <= i < |window| => FormatTurn(window[i]))
  }

  /** What follows the history blocks: the new message and the cue for the reply. */
  function Cue(userText: string): string {
    "\nUser: " + userText + "\nBot:"
  }

  /** `full_prompt`: with an empty window the message verbatim, with no framing;
      otherwise the blocks joined by newlines, then the new message as a `User:`
      line and a bare `Bot:` cue. The prompt then opens with the oldest turn's
      block, ends with the cue, and is exactly as long as its pieces. */
  function BuildPrompt(window: seq<Turn>, userText: string): (p: string)
    ensures window == [] ==> p == userText
    ensures window != [] ==>
      |p| == SumLengths(Blocks(window)) + |window| - 1 + |Cue(userText)|
      && p[|p| - |Cue(userText)|..] == Cue(userText)
      && |FormatTurn(window[0])| <= |p| && p[..|FormatTurn(window[0])|] == FormatTurn(window[0])
  {
    if window == [] then userText
    else
      var joined := Join("\n", Blocks(window));
      JoinAt("\n", Blocks(window), 0);
      assert joined[..|FormatTurn(window[0])|] == FormatTurn(window[0]);
      joined + Cue(userText)
  }

  lemma SliceOfPrefix(x: string, y: string, lo: nat, hi: nat)
    requires lo <= hi <= |x|
    ensures (x + y)[lo..hi] == x[lo..hi]
  {
  }

  /** Turn `i` of the window appears in the prompt as its whole block, at its own
      offset. */
  lemma PromptShowsTurn(window: seq<Turn>, userText: string, i: nat)
    requires i < |window|
    ensures var o, b := PartStart("\n", Blocks(window), i), FormatTurn(window[i]);
      o + |b| <= |BuildPrompt(window, userText)| && BuildPrompt(window, userText)[o..o + |b|] == b
  {
    var blocks := Blocks(window);
    var o := PartStart("\n", blocks, i);
    JoinAt("\n", blocks, i);
    SliceOfPrefix(Join("\n", blocks), Cue(userText), o, o + |blocks[i]|);
  }

  /** Between the blocks of turns `i` and `i + 1` the prompt holds exactly one
      newline: with PromptShowsTurn, every turn of the window is shown once,
      oldest first. */
  lemma PromptTurnsInOrder(window: seq<Turn>, userText: string, i: nat)
    requires i + 1 < |window|
    ensures var o, b := PartStart("\n", Blocks(window), i), FormatTurn(window[i]);
      PartStart("\n", Blocks(window), i + 1) == o + |b| + 1
      && o + |b| + 1 <= |BuildPrompt(window, userText)|
      && BuildPrompt(window, userText)[o + |b|..o + |b| + 1] == "\n"
  {
    var blocks := Blocks(window);
    var o := PartStart("\n", blocks, i);
    JoinGap("\n", blocks, i);
    SliceOfPrefix(Join("\n", blocks), Cue(userText), o + |blocks[i]|, o + |blocks[i]| + 1);
  }

  /** The prompt `handle_message` sends for `userText`, given the table's rows:
      the message alone for a user without history, and otherwise a prompt that
      ends with the message as a `User:` line and the `Bot:` cue. */
  function PromptFor(rows: seq<Row>, userId: int, userText: string): (p: string)
    ensures UserHistory(rows, userId) == [] ==> p == userText
    ensures UserHistory(rows, userId) != [] ==>
      |Cue(userText)| <= |p| && p[|p| - |Cue(userText)|..] == Cue(userText)
  {
    BuildPrompt(Window(UserHistory(rows, userId)), userText)
  }

  /** A user with no row in the table is sent their message verbatim. */
  lemma FirstPromptIsMessage(rows: seq<Row>, userId: int, userText: string)
    requires forall row :: row in rows ==> row.userId != userId
    ensures PromptFor(rows, userId, userText) == userText
  {
    UserHistoryEmpty(rows, userId);
  }

  /** Once a user has five or more turns after some point of the table, the
      window `handle_message` builds its prompt from is the last five of those
      alone: nothing older reaches the prompt. */
  lemma WindowForgetsOlderRows(older: seq<Row>, newer: seq<Row>, userId: int)
    requires |UserHistory(newer, userId)| >= WINDOW_SIZE
    ensures var recent := UserHistory(newer, userId);
      Window(UserHistory(older + newer, userId)) == recent[|recent| - WINDOW_SIZE..]
  {
    UserHistoryConcat(older, newer, userId);
    WindowForgetsOlder(UserHistory(older, userId), UserHistory(newer, userId));
  }

  /** The two-turn example: one earlier exchange, then the new message. */
  lemma OneTurnPrompt()
    ensures BuildPrompt([Turn("hi", "yo")], "next") == "User: hi\nBot: yo\nUser: next\nBot:"
  {
    var blocks := Blocks([Turn("hi", "yo")]);
    assert |blocks| == 1 && blocks[0] == "User: hi\nBot: yo";
    assert Join("\n", blocks) == "User: hi\nBot: yo";
  }
}
