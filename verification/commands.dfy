/**
 * The session loop's reading of an input line: `user_input.lower()` compared
 * with `'quit'` and `'switch'`. Lower-casing is modelled as ASCII case folding.
 */
module Commands {

  /** ASCII lower-casing of one character; every other character is kept. */
  function LowerChar(ch: char): (r: char)
    ensures 'A' <= ch <= 'Z' ==> r as int == ch as int + 32
    ensures !('A' <= ch <= 'Z') ==> r == ch
  {
    if 'A' <= ch <= 'Z' then (ch as int + 32) as char else ch
  }

  /** The character a lower-case ASCII letter folds from in upper case. */
  function UpperChar(ch: char): char
    requires 'a' <= ch <= 'z'
  {
    (ch as int - 32) as char
  }

  /** `str.lower()`, one character at a time. */
  function Lower(s: string): (r: string)
    ensures |r| == |s|
    ensures forall i :: 0 <= i < |s| ==> r[i] == LowerChar(s[i])
  {
    if s == [] then [] else [LowerChar(s[0])] + Lower(s[1..])
  }

  /** A word made of lower-case ASCII letters only, like `quit` and `switch`. */
  predicate LowerWord(w: string)
  {
    forall i :: 0 <= i < |w| ==> 'a' <= w[i] <= 'z'
  }

  /** `line` spells `w` with each letter in either case. */
  predicate SpellsIgnoringCase(line: string, w: string)
    requires LowerWord(w)
  {
    && |line| == |w|
    && forall i :: 0 <= i < |w| ==> line[i] == w[i] || line[i] == UpperChar(w[i])
  }

  /** Lower-casing a line gives a lower-case word exactly when the line spells
      that word letter by letter in any mix of cases. */
  lemma LowerMatchesWord(line: string, w: string)
    requires LowerWord(w)
    ensures Lower(line) == w <==> SpellsIgnoringCase(line, w)
  {
  }

  /** Lower-casing twice is lower-casing once. */
  lemma LowerIdempotent(s: string)
    ensures Lower(Lower(s)) == Lower(s)
  {
  }

  /** What one line typed at the `You: ` prompt asks the session to do. */
  datatype Command = Quit | Switch | Say(text: string)

  /** Dispatch of main.py's loop: `quit` first, then `switch`, and any other
      line is an ordinary message kept verbatim. */
  function Parse(line: string): (cmd: Command)
    ensures cmd == Quit <==> Lower(line) == "quit"
    ensures cmd == Switch <==> Lower(line) == "switch"
    ensures cmd.Say? <==> Lower(line) != "quit" && Lower(line) != "switch"
    ensures cmd.Say? ==> cmd.text == line
  {
    if Lower(line) == "quit" then Quit
    else if Lower(line) == "switch" then Switch
    else Say(line)
  }

  /** The quit command is typed as `quit` in any mix of cases, and nothing else. */
  lemma ParseQuit(line: string)
    ensures Parse(line) == Quit <==> SpellsIgnoringCase(line, "quit")
  {
  }

  /** The switch command is typed as `switch` in any mix of cases, and nothing else. */
  lemma ParseSwitch(line: string)
    ensures Parse(line) == Switch <==> SpellsIgnoringCase(line, "switch")
  {
  }
}
