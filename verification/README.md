# Role-play chat client: conversation logs and session loop

This project models, in Dafny, the core of `main.py` in a command-line
role-play client. The client holds a fixed set of named characters. Each
character has a persona and a conversation history. The user talks to one
character at a time. `quit` ends the session. `switch` chooses another
character. Any other line is sent to a chat-completion service, and the line
and the reply are stored in the current character's history.

The model is functional. Characters and sessions are immutable datatypes. The
histories are `seq<Message>`, and the character table is `map<string, Character>`.
The console input is a sequence of lines. The completion service is an opaque
oracle, `seq<Message> -> string`: it receives the request and returns the
reply text.

Modules, one per concern of `main.py`:

- `Optional` (optional.dfy): `Option`, used for "the input ran out".
- `Conversation` (conversation.dfy): `Role`, `Message` and `Character`. It
  covers the constructor, `add_to_conversation`, the request built at line 32,
  and the two appends that end a turn. `WellFormed` is the shape every log
  keeps: the persona as a system message first, then user/assistant pairs.
- `Commands` (commands.dfy): `user_input.lower()` and the quit/switch/other
  dispatch.
- `Selection` (selection.dfy): `select_character`. It is written once as a
  function and once as the loop from the source; the two are proved equal.
- `Session` (session.dfy): the `main` loop as a state machine. The states are
  `Chatting(current)` and `Terminated`. The module also holds the lemmas about
  whole runs.

This version of `main.py` keeps no emotion state and adds nothing to the
outgoing prompt: the request is the stored history plus the raw input. A
failed completion call returns the exception's text, and that text is
recorded as the reply like any other. The model does the same: the oracle is
total and its result is always recorded.

## Model

| member | source | states |
|---|---|---|
| Conversation.NewCharacter | main.py:5-9 | a new character has exactly one message, a system message holding its persona, and its log is well formed |
| Conversation.AddToConversation | main.py:11-12 | appending adds exactly one message at the end, equal to the given role and content; the earlier history is a prefix of the new one; name and persona are unchanged |
| Conversation.BuildRequest | main.py:32 | the request is one longer than the stored history, has it as a prefix, and ends with a user message holding the raw input |
| Conversation.RequestIsRecordedUserMessage | main.py:32 | the request equals the history the character would have after recording the user message, and recording the user message yields the character whose history is the request |
| Conversation.RecordTurn | main.py:79-80 | a turn appends exactly two messages, the raw user input then the assistant reply, keeps the old history as a prefix, leaves the log ending on a reply, and preserves well-formedness |
| Conversation.WellFormedEndsOnReply | main.py:79-80 | a log of persona plus user/assistant pairs never stops between a user message and its reply |
| Conversation.TurnExtendsRequest | main.py:77-80 | after a turn the stored log is the request that was sent plus the reply alone, so the raw input is what is stored |
| Commands.Lower | main.py:70 | lower-casing keeps the length and folds each character on its own |
| Commands.LowerMatchesWord | main.py:70-72 | a line lower-cases to a lower-case word exactly when it spells that word with each letter in either case |
| Commands.LowerIdempotent | main.py:70 | lower-casing twice equals lower-casing once |
| Commands.Parse | main.py:70-77 | a line is quit iff it lower-cases to `quit`, switch iff it lower-cases to `switch`, and otherwise an ordinary message carrying the line unchanged |
| Commands.ParseQuit | main.py:70-71 | the quit command is exactly `quit` typed in any mix of cases |
| Commands.ParseSwitch | main.py:72 | the switch command is exactly `switch` typed in any mix of cases |
| Selection.FirstMember | main.py:47-50 | finds the first attempt that names a character, with every earlier attempt rejected; reports none exactly when no attempt is a name |
| Selection.Select | main.py:46-52 | the chosen name is always a key; it is the last line read, and every earlier line was rejected; the empty name is chosen without reading when it is a key; the result is absent exactly when no line read is a key |
| Selection.SelectCharacter | main.py:46-52 | the validation loop returns the same result as `Select`, so it only returns a key |
| Session.Roster | main.py:56-61 | the table holds one character per persona, filed under its own name, each with only its persona in the log |
| Session.Turn | main.py:77-80 | an ordinary turn appends the raw input and the oracle's reply to the current character, leaves every other character and the state unchanged, and keeps the session invariant |
| Session.Step | main.py:69-80 | a line ends the session iff it lower-cases to `quit`; quit and switch change no history; switch makes the selected name current and leaves exactly the lines after the chosen name unread; any other line is a turn; other characters never change; the character names are fixed |
| Session.Run | main.py:68-80 | the current name remains a key of the table throughout the loop |
| Session.Start | main.py:63-64 | the first selection yields a valid session over the freshly built roster, chatting with exactly the name the selection returned, with exactly the lines after that name left unread; it fails only when no typed line is a name |
| Session.Play | main.py:54-80 | a whole session keeps the same character names and ends in a valid state |
| Session.RunInvariants | main.py:63-80 | over any input the set of names is fixed and the session invariant is preserved |
| Session.RunAppendOnly | main.py:68-80 | every stored history is a prefix of the history at the end of the run; names and personas never change |
| Session.RunEndsOnReply | main.py:77-80 | after any run over a valid session, every log is the persona alone or ends with a user message followed by the assistant's reply: no turn is half recorded |
| Session.QuitStopsRun | main.py:70-71 | a `quit` line ends the run with every history unchanged, whatever input follows it |
| Session.OrdinaryTurnsTouchOnlyCurrent | main.py:77-80 | a run of ordinary lines extends the current character's log, in order, by each raw line as a user message followed by an assistant reply, and leaves every other character unchanged |

## Left out

- `load_api_key` (main.py:17-27) is left out: it reads and parses a credentials file.
- The completion call and the reply extraction (main.py:29-39) are left out. Both are the oracle, a total function from the request to the reply text. Error text returned by the `except` branch is just another reply.
- The `model` argument of the completion call (main.py:29) is left out. The oracle does not see it.
- A reply whose content is `None` is left out. The oracle always returns a string.
- The prompts and messages printed to the console (main.py:42-44, 50, 66, 78) are left out. Reading from the console is modelled as a sequence of lines.
- End of input is not an exception here. `input()` raises `EOFError` when the console has no more lines, and the program stops. Here `Start` returns `None` in that case. A `switch` whose reselection runs out of input leaves the session unchanged with no input left, and `Run` stops when the input is empty.
- The persona texts (main.py:57-60) are left out. They are configuration data; `Roster` takes them as a map from name to persona.
- Commands.Lower: models ASCII case folding only, where Python's `str.lower()` folds all of Unicode. For the two comparisons the loop makes, with `quit` and `switch`, the answers are the same: no non-ASCII character lower-cases to one of the single letters q, u, i, t, s, w, c or h. U+0130 lower-cases to the two code points `i` plus a combining dot, and U+212A lower-cases to `k`.
- `get_conversation_history` (main.py:14-15) is the `history` field itself. It returns the live list, but Python's `+` on line 32 builds a new list. Value semantics in the model make the no-aliasing property automatic.
