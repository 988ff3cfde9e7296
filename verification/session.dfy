/**
 * The session loop of `main`: a fixed map of characters, the name of the one
 * being talked to, and the quit / switch / ordinary-turn dispatch over a
 * stream of input lines. The completion service is an opaque oracle.
 */
module Session {
  import opened Optional
  import opened Conversation
  import opened Commands
  import opened Selection

  /** Either talking to the named character, or past `quit`. */
  datatype State = Chatting(current: string) | Terminated

  /** The characters, keyed by name, and where the loop stands. */
  datatype Session = Session(cast: map<string, Character>, state: State)

  /** The completion service: the reply text for a request. A failed call
      also yields text (the exception's message), so the oracle is total. */
  type Oracle = seq<Message> -> string

  /** The loop may only talk to a character that the map holds. */
  predicate CurrentKnown(s: Session)
  {
    s.state.Chatting? ==> s.state.current in s.cast
  }

  /** The invariant the loop keeps: the current name is a key, every entry
      is filed under its own name, and every log is well formed. */
  ghost predicate Valid(s: Session)
  {
    && CurrentKnown(s)
    && forall k :: k in s.cast ==> s.cast[k].name == k && WellFormed(s.cast[k])
  }

  /** The characters built from persona texts, one per name, as `main` does. */
  function Roster(personas: map<string, string>): (cast: map<string, Character>)
    ensures cast.Keys == personas.Keys
    ensures forall k :: k in cast ==>
      cast[k].name == k && cast[k].history == [Message(System, personas[k])]
    ensures forall k :: k in cast ==> WellFormed(cast[k])
  {
    map k | k in personas :: NewCharacter(k, personas[k])
  }

  /** An ordinary turn: the reply to the request, then the raw input and the
      reply appended to the current character, and to nobody else. */
  function Turn(s: Session, line: string, oracle: Oracle): (r: Session)
    requires s.state.Chatting? && s.state.current in s.cast
    ensures r.state == s.state
    ensures r.cast.Keys == s.cast.Keys
    ensures forall k :: k in s.cast && k != s.state.current ==> r.cast[k] == s.cast[k]
    ensures var before := s.cast[s.state.current].history;
            var reply := oracle(BuildRequest(s.cast[s.state.current], line));
            r.cast[s.state.current].history == before + [Message(User, line), Message(Assistant, reply)]
    ensures Valid(s) ==> Valid(r)
  {
    var name := s.state.current;
    var c := s.cast[name];
    var response := oracle(BuildRequest(c, line));
    var c' := RecordTurn(c, line, response);
    assert c'.history == c.history + [Message(User, line), Message(Assistant, response)];
    s.(cast := s.cast[name := c'])
  }

  /** What a step leaves: the new session and the input not yet read. */
  datatype Outcome = Outcome(session: Session, rest: seq<string>)

  /** One pass of the loop body on the next line. `switch` reads further lines
      to choose the next character; if the input ends first the session is
      left as it was with nothing left to read. */
  function Step(s: Session, inputs: seq<string>, oracle: Oracle): (o: Outcome)
    requires s.state.Chatting? && s.state.current in s.cast
    requires |inputs| > 0
    ensures |o.rest| < |inputs| && o.rest == inputs[|inputs| - |o.rest|..]
    ensures o.session.cast.Keys == s.cast.Keys
    ensures CurrentKnown(o.session)
    ensures Valid(s) ==> Valid(o.session)
    ensures o.session.state.Terminated? <==> Lower(inputs[0]) == "quit"
    ensures Lower(inputs[0]) == "quit" ==> o.session.cast == s.cast
    ensures Lower(inputs[0]) == "switch" ==> o.session.cast == s.cast
    ensures Lower(inputs[0]) == "switch" ==>
      match Select(s.cast.Keys, inputs[1..])
      case Some(ch) => o.session.state == Chatting(ch.name) && o.rest == inputs[1 + ch.consumed..]
      case None => o.session.state == s.state && o.rest == []
    ensures Lower(inputs[0]) != "quit" && Lower(inputs[0]) != "switch" ==>
      o.session == Turn(s, inputs[0], oracle) && o.rest == inputs[1..]
    ensures forall k :: k in s.cast && k != s.state.current ==> o.session.cast[k] == s.cast[k]
  {
    match Parse(inputs[0])
    case Quit => Outcome(s.(state := Terminated), inputs[1..])
    case Switch =>
      (match Select(s.cast.Keys, inputs[1..])
       case Some(ch) => Outcome(s.(state := Chatting(ch.name)), inputs[1 + ch.consumed..])
       case None => Outcome(s, []))
    case Say(text) => Outcome(Turn(s, text, oracle), inputs[1..])
  }

  /** The whole loop: steps until `quit` or the end of the input. */
  function Run(s: Session, inputs: seq<string>, oracle: Oracle): (r: Session)
    requires CurrentKnown(s)
    ensures CurrentKnown(r)
    decreases |inputs|
  {
    if s.state.Terminated? || |inputs| == 0 then s
    else
      var o := Step(s, inputs, oracle);
      Run(o.session, o.rest, oracle)
  }

  /** The session `main` starts: the first selection over the whole input,
      or `None` when the input ends before a valid name is typed. */
  function Start(personas: map<string, string>, inputs: seq<string>): (r: Option<Outcome>)
    ensures r.None? <==> Select(personas.Keys, inputs).None?
    ensures r.Some? ==> r.value.session.state.Chatting?
    ensures r.Some? ==> r.value.session.state.current in personas
    ensures r.Some? ==> Valid(r.value.session)
    ensures r.Some? ==> |r.value.rest| <= |inputs| && r.value.rest == inputs[|inputs| - |r.value.rest|..]
    ensures r.Some? ==>
      && r.value.session.cast == Roster(personas)
      && r.value.session.state == Chatting(Select(personas.Keys, inputs).value.name)
      && r.value.rest == inputs[Select(personas.Keys, inputs).value.consumed..]
  {
    var cast := Roster(personas);
    match Select(cast.Keys, inputs)
    case None => None
    case Some(ch) => Some(Outcome(Session(cast, Chatting(ch.name)), inputs[ch.consumed..]))
  }

  /** `main` from start to finish, over one stream of input lines. */
  function Play(personas: map<string, string>, inputs: seq<string>, oracle: Oracle): (r: Option<Session>)
    ensures r.Some? ==> r.value.cast.Keys == personas.Keys && Valid(r.value)
    ensures r.None? <==> Select(personas.Keys, inputs).None?
  {
    match Start(personas, inputs)
    case None => None
    case Some(o) =>
      RunInvariants(o.session, o.rest, oracle);
      Some(Run(o.session, o.rest, oracle))
  }

  /** The loop never adds or removes a character and keeps the invariant. */
  lemma {:induction false} RunInvariants(s: Session, inputs: seq<string>, oracle: Oracle)
    requires CurrentKnown(s)
    ensures Run(s, inputs, oracle).cast.Keys == s.cast.Keys
    ensures Valid(s) ==> Valid(Run(s, inputs, oracle))
    decreases |inputs|
  {
    if s.state.Terminated? || |inputs| == 0 {
    } else {
      var o := Step(s, inputs, oracle);
      RunInvariants(o.session, o.rest, oracle);
    }
  }

  /** Histories are append-only over a whole session: every stored log is a
      prefix of the log at the end, and names and personas never change. */
  lemma {:induction false} RunAppendOnly(s: Session, inputs: seq<string>, oracle: Oracle)
    requires CurrentKnown(s)
    ensures var r := Run(s, inputs, oracle);
      forall k :: k in s.cast ==>
        && k in r.cast
        && r.cast[k].name == s.cast[k].name
        && r.cast[k].personality == s.cast[k].personality
        && s.cast[k].history <= r.cast[k].history
    decreases |inputs|
  {
    if s.state.Terminated? || |inputs| == 0 {
    } else {
      var o := Step(s, inputs, oracle);
      RunAppendOnly(o.session, o.rest, oracle);
      RunInvariants(o.session, o.rest, oracle);
      var r := Run(s, inputs, oracle);
      forall k | k in s.cast
        ensures s.cast[k].history <= r.cast[k].history
      {
        assert s.cast[k].history <= o.session.cast[k].history;
      }
    }
  }

  /** No turn is ever half recorded: after any run over a valid session,
      every log is the persona alone or ends with a user message followed by
      the assistant's reply. */
  lemma RunEndsOnReply(s: Session, inputs: seq<string>, oracle: Oracle, name: string)
    requires Valid(s) && name in s.cast
    ensures name in Run(s, inputs, oracle).cast
    ensures EndsOnReply(Run(s, inputs, oracle).cast[name])
  {
    RunInvariants(s, inputs, oracle);
    var r := Run(s, inputs, oracle);
    WellFormedEndsOnReply(r.cast[name]);
  }

  /** `quit` ends the loop at once: nothing already stored changes, and every
      line after it is ignored. */
  lemma QuitStopsRun(s: Session, inputs: seq<string>, oracle: Oracle)
    requires s.state.Chatting? && s.state.current in s.cast
    requires |inputs| > 0 && SpellsIgnoringCase(inputs[0], "quit")
    ensures Run(s, inputs, oracle) == Session(s.cast, Terminated)
  {
    ParseQuit(inputs[0]);
    var o := Step(s, inputs, oracle);
    assert o.session == Session(s.cast, Terminated);
  }

  /** `h` is `h0` followed, for each line in order, by that raw line as a
      user message and then an assistant reply. */
  ghost predicate RecordsLines(h0: seq<Message>, h: seq<Message>, lines: seq<string>)
  {
    && h0 <= h
    && |h| == |h0| + 2 * |lines|
    && forall i :: 0 <= i < |lines| ==>
         h[|h0| + 2 * i] == Message(User, lines[i]) && h[|h0| + 2 * i + 1].role == Assistant
  }

  /** One recorded turn followed by the turns for the remaining lines is the
      record of all the lines. */
  lemma RecordsLinesCons(h0: seq<Message>, reply: string, h: seq<Message>, lines: seq<string>)
    requires |lines| > 0
    requires RecordsLines(h0 + [Message(User, lines[0]), Message(Assistant, reply)], h, lines[1..])
    ensures RecordsLines(h0, h, lines)
  {
  }

  /** A run of ordinary lines talks to one character only: its log gains,
      in order, each raw line followed by a reply, and every other log stays
      as it was. */
  lemma {:induction false} OrdinaryTurnsTouchOnlyCurrent(s: Session, inputs: seq<string>, oracle: Oracle)
    requires s.state.Chatting? && s.state.current in s.cast
    requires forall i :: 0 <= i < |inputs| ==> Parse(inputs[i]).Say?
    ensures var r := Run(s, inputs, oracle);
      && r.state == s.state
      && r.cast.Keys == s.cast.Keys
      && RecordsLines(s.cast[s.state.current].history, r.cast[s.state.current].history, inputs)
      && forall k :: k in s.cast && k != s.state.current ==> r.cast[k] == s.cast[k]
    decreases |inputs|
  {
    if |inputs| == 0 {
    } else {
      var o := Step(s, inputs, oracle);
      assert o.rest == inputs[1..];
      OrdinaryTurnsTouchOnlyCurrent(o.session, o.rest, oracle);
      var name := s.state.current;
      var reply := oracle(BuildRequest(s.cast[name], inputs[0]));
      assert o.session.cast[name].history
          == s.cast[name].history + [Message(User, inputs[0]), Message(Assistant, reply)];
      RecordsLinesCons(s.cast[name].history, reply, Run(s, inputs, oracle).cast[name].history, inputs);
    }
  }
}
