/**
 * The one-letter REPL commands of src/command.rs: a closed table read two ways,
 * as a parser and as a membership test.
 */
module Commands {
  import opened Wrappers

  datatype Command = Stack | Clear | Print | Help

  /** `Command::parse` */
  function Parse(s: string): Result<Command, string>
  {
    if s == "s" then Ok(Stack)
    else if s == "c" then Ok(Clear)
    else if s == "p" then Ok(Print)
    else if s == "h" then Ok(Help)
    else Err("unknown command")
  }

  /** `is_command` */
  predicate IsCommand(s: string)
  {
    s == "s" || s == "c" || s == "p" || s == "h"
  }

  /** The letter that names a command. */
  function Letter(c: Command): string
  {
    match c
    case Stack => "s"
    case Clear => "c"
    case Print => "p"
    case Help => "h"
  }

  /** The four letters and what they mean. */
  lemma ParseLetters()
    ensures Parse("s") == Ok(Stack) && Parse("c") == Ok(Clear)
    ensures Parse("p") == Ok(Print) && Parse("h") == Ok(Help)
  {
  }

  /** Anything else, the empty string and longer strings included, is an unknown command. */
  lemma ParseRejects(s: string)
    requires s !in {"s", "c", "p", "h"}
    ensures Parse(s) == Err("unknown command")
  {
  }

  /** `is_command` and `Command::parse` accept the same strings. */
  lemma IsCommandIffParses(s: string)
    ensures IsCommand(s) <==> Parse(s).Ok?
  {
  }

  /** Parsing reads back each command's letter, and only that letter. */
  lemma ParseLetterRoundTrip(c: Command, s: string)
    ensures Parse(Letter(c)) == Ok(c)
    ensures Parse(s) == Ok(c) ==> s == Letter(c)
  {
  }

  /** Distinct accepted strings parse to distinct commands. */
  lemma ParseInjective(s: string, t: string)
    requires Parse(s).Ok? && Parse(s) == Parse(t)
    ensures s == t
  {
    ParseLetterRoundTrip(Parse(s).value, s);
    ParseLetterRoundTrip(Parse(s).value, t);
  }
}
