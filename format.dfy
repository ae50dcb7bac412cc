/** Building the chat line of one ad, before the host's color-tag translation. */
module MessageFormat {
  import opened Wrappers

  /** The line for `message` under `prefix`: the message alone when the prefix is empty,
      otherwise the prefix, one space and the message. */
  function FormatMessage(prefix: string, message: string): (r: string)
    ensures prefix == [] ==> r == message
    ensures prefix != [] ==> |r| == |prefix| + 1 + |message|
    ensures prefix != [] ==> r[..|prefix|] == prefix && r[|prefix|] == ' ' && r[|prefix| + 1..] == message
  {
    if prefix == [] then message else prefix + " " + message
  }

  /** The message a chat line carries under `prefix`, or None when the line does not
      have the shape FormatMessage gives it. */
  function RecoverMessage(prefix: string, line: string): (m: Option<string>)
    ensures m.Some? ==> FormatMessage(prefix, m.value) == line
  {
    if prefix == [] then Some(line)
    else if |line| > |prefix| && line[..|prefix|] == prefix && line[|prefix|] == ' ' then Some(line[|prefix| + 1..])
    else None
  }

  /** Formatting loses nothing: the message can be read back from the line. */
  lemma RecoverFormatted(prefix: string, message: string)
    ensures RecoverMessage(prefix, FormatMessage(prefix, message)) == Some(message)
  {
  }

  /** Under one prefix, different messages give different lines. */
  lemma FormatInjective(prefix: string, m1: string, m2: string)
    requires FormatMessage(prefix, m1) == FormatMessage(prefix, m2)
    ensures m1 == m2
  {
    RecoverFormatted(prefix, m1);
    RecoverFormatted(prefix, m2);
  }

  /** An empty prefix leaves "hello" as it is; the prefix "[P]" gives "[P] hello". */
  lemma FormatExamples()
    ensures FormatMessage("", "hello") == "hello"
    ensures FormatMessage("[P]", "hello") == "[P] hello"
  {
  }
}
