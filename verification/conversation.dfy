/**
 * The per-character conversation log of main.py: a `Character` owns an
 * ordered list of role-tagged messages, seeded with one system message that
 * holds the persona, and only ever grown by appending at the end.
 */
module Conversation {

  /** The three roles a message may carry in the chat-completion format. */
  datatype Role = System | User | Assistant

  /** One entry of a conversation: the `{"role": ..., "content": ...}` dictionary. */
  datatype Message = Message(role: Role, content: string)

  /** A character: its name, its persona text and its conversation history. */
  datatype Character = Character(name: string, personality: string, history: seq<Message>)

  /** The role the message at position `i >= 1` of a well-formed log carries:
      user inputs sit at odd positions, model replies at even ones. */
  function TurnRole(i: nat): Role
  {
    if i % 2 == 1 then User else Assistant
  }

  /** The shape every log built by the session loop has: the persona as the
      single system message at the head, then complete user/assistant pairs. */
  ghost predicate WellFormed(c: Character)
  {
    && |c.history| % 2 == 1
    && c.history[0] == Message(System, c.personality)
    && forall i :: 1 <= i < |c.history| ==> c.history[i].role == TurnRole(i)
  }

  /** The log is the persona alone, or its last two messages are a user
      message and the assistant's reply to it. */
  predicate EndsOnReply(c: Character)
  {
    |c.history| > 1 ==>
      c.history[|c.history| - 2].role == User && c.history[|c.history| - 1].role == Assistant
  }

  /** A well-formed log never stops between a user message and its reply. */
  lemma WellFormedEndsOnReply(c: Character)
    requires WellFormed(c)
    ensures EndsOnReply(c)
  {
  }

  /** `add_to_conversation`: appends one message at the end of the history. */
  function AddToConversation(c: Character, role: Role, content: string): (r: Character)
    ensures r.name == c.name && r.personality == c.personality
    ensures |r.history| == |c.history| + 1
    ensures c.history <= r.history
    ensures r.history[|c.history|] == Message(role, content)
  {
    c.(history := c.history + [Message(role, content)])
  }

  /** `Character.__init__`: starts from an empty history and records the
      persona as a system message. */
  function NewCharacter(name: string, personality: string): (c: Character)
    ensures c.name == name && c.personality == personality
    ensures |c.history| == 1
    ensures c.history[0].role == System && c.history[0].content == personality
    ensures WellFormed(c)
  {
    AddToConversation(Character(name, personality, []), System, personality)
  }

  /** The request sent on an ordinary turn: a new sequence made of the stored
      history followed by one user message holding the raw input. */
  function BuildRequest(c: Character, userMessage: string): (req: seq<Message>)
    ensures |req| == |c.history| + 1
    ensures c.history <= req
    ensures req[|c.history|].role == User && req[|c.history|].content == userMessage
  {
    c.history + [Message(User, userMessage)]
  }

  /** The request is exactly the history the character would have after
      recording the user message, and building it changes no character. */
  lemma RequestIsRecordedUserMessage(c: Character, userMessage: string)
    ensures BuildRequest(c, userMessage) == AddToConversation(c, User, userMessage).history
    ensures AddToConversation(c, User, userMessage) == c.(history := BuildRequest(c, userMessage))
  {
  }

  /** The two appends that close an ordinary turn: the raw user input, then
      the reply, in that order. */
  function RecordTurn(c: Character, userInput: string, response: string): (r: Character)
    ensures r.name == c.name && r.personality == c.personality
    ensures |r.history| == |c.history| + 2
    ensures c.history <= r.history
    ensures r.history[|c.history|] == Message(User, userInput)
    ensures r.history[|c.history| + 1] == Message(Assistant, response)
    ensures EndsOnReply(r)
    ensures WellFormed(c) ==> WellFormed(r)
  {
    AddToConversation(AddToConversation(c, User, userInput), Assistant, response)
  }

  /** After a turn the stored log is the request that was sent, extended by
      the reply alone: the log keeps the raw input, not a rewritten one. */
  lemma TurnExtendsRequest(c: Character, userInput: string, response: string)
    ensures RecordTurn(c, userInput, response).history
         == BuildRequest(c, userInput) + [Message(Assistant, response)]
  {
  }
}
