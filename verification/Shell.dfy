/** Rendering a command for the shell, and reading it back as the shell does. */
module Shell {
  import opened Wrappers

  datatype CommandSpec = CommandSpec(program: string, args: seq<string>)

  // ---------------------------------------------------------------- rendering

  predicate Safe(c: char) {
    || 'A' <= c <= 'Z' || 'a' <= c <= 'z' || '0' <= c <= '9'
    || c == '/' || c == '.' || c == '_' || c == '-' || c == ':' || c == '=' || c == '+'
  }

  /** A word of safe characters, rendered as it is. */
  predicate Plain(word: string) {
    word != "" && forall i :: 0 <= i < |word| ==> Safe(word[i])
  }

  /** `value.replace('\'', "'\\''")`. */
  function Escaped(value: string): string {
    if value == "" then ""
    else (if value[0] == '\'' then "'\\''" else [value[0]]) + Escaped(value[1..])
  }

  function ShellQuote(value: string): string {
    if Plain(value) then value
    else "'" + Escaped(value) + "'"
  }

  /** `.map(shell_quote).collect().join(" ")`. */
  function Joined(words: seq<string>): string {
    if words == [] then ""
    else if |words| == 1 then ShellQuote(words[0])
    else ShellQuote(words[0]) + " " + Joined(words[1..])
  }

  function RenderShell(command: CommandSpec): string {
    Joined([command.program] + command.args)
  }

  // ---------------------------------------------------------------- reading

  /** Unquoted characters that end a word, start an expansion or are an operator (POSIX.1-2017 XCU,
      sections 2.2, 2.3 and 2.13): a line that contains one is more than a list of words. */
  predicate Special(c: char) {
    || c == '|' || c == '&' || c == ';' || c == '<' || c == '>' || c == '(' || c == ')' || c == '$' || c == '`'
    || c == '"' || c == '*' || c == '?' || c == '[' || c == '~' || c == '\n'
  }

  function Extended(word: Option<string>, c: char): Option<string> {
    Some((if word.Some? then word.value else "") + [c])
  }

  /** Token recognition and quote removal over blanks, backslashes (2.2.1) and single quotes (2.2.2).
      `word` is the token in progress with its quotes removed; the result is the list of fields. */
  function Fields(line: string, word: Option<string>): Option<seq<string>>
    decreases |line|
  {
    if line == "" then Some(if word.Some? then [word.value] else [])
    else
      var c := line[0];
      if c == ' ' || c == '\t' then
        var rest := Fields(line[1..], None);
        if word.Some? && rest.Some? then Some([word.value] + rest.value) else rest
      else if c == '\'' then Quoted(line[1..], if word.Some? then word.value else "")
      else if c == '\\' then
        if |line| < 2 then None
        else if line[1] == '\n' then Fields(line[2..], word)
        else Fields(line[2..], Extended(word, line[1]))
      else if Special(c) || (c == '#' && word.None?) then None
      else Fields(line[1..], Extended(word, c))
  }

  /** Inside single quotes every character stands for itself. */
  function Quoted(line: string, word: string): Option<seq<string>>
    decreases |line|
  {
    if line == "" then None
    else if line[0] == '\'' then Fields(line[1..], Some(word))
    else Quoted(line[1..], word + [line[0]])
  }

  // ---------------------------------------------------------------- the round trip

  lemma {:induction false} SafeReads(value: string, word: string, rest: string)
    requires forall i :: 0 <= i < |value| ==> Safe(value[i])
    ensures Fields(value + rest, Some(word)) == Fields(rest, Some(word + value))
  {
    if value == "" {
      assert value + rest == rest && word + value == word;
    } else {
      assert (value + rest)[1..] == value[1..] + rest;
      assert Safe(value[0]);
      SafeReads(value[1..], word + [value[0]], rest);
      assert word + [value[0]] + value[1..] == word + value;
    }
  }

  lemma {:induction false} EscapedReads(value: string, word: string, rest: string)
    ensures Quoted(Escaped(value) + "'" + rest, word) == Fields(rest, Some(word + value))
  {
    if value == "" {
      assert Escaped(value) + "'" + rest == "'" + rest;
      assert ("'" + rest)[1..] == rest;
      assert word + value == word;
    } else {
      EscapedReads(value[1..], word + [value[0]], rest);
      assert word + [value[0]] + value[1..] == word + value;
      var tail := Escaped(value[1..]) + "'" + rest;
      if value[0] == '\'' {
        QuoteReads(tail, word);
        assert Escaped(value) + "'" + rest == "'\\''" + tail;
      } else {
        assert Escaped(value) + "'" + rest == [value[0]] + tail;
        assert ([value[0]] + tail)[1..] == tail;
      }
    }
  }

  /** Leaving the quotes, an escaped quote, and entering them again. */
  lemma QuoteReads(tail: string, word: string)
    ensures Quoted("'\\''" + tail, word) == Quoted(tail, word + "'")
  {
    var line := "'\\''" + tail;
    assert line[0] == '\'' && line[1..] == "\\''" + tail;
    var a := "\\''" + tail;
    assert a[0] == '\\' && a[1] == '\'' && a[2..] == "'" + tail;
    var b := "'" + tail;
    assert b[0] == '\'' && b[1..] == tail;
    assert Fields(a, Some(word)) == Fields(b, Some(word + ['\'']));
  }

  /** A quoted word followed by the end of the line or a blank reads as one field. */
  lemma WordReads(value: string, rest: string)
    ensures Fields(ShellQuote(value) + rest, None) == Fields(rest, Some(value))
  {
    if Plain(value) { PlainReads(value, rest); } else { QuotedReads(value, rest); }
  }

  lemma ExtendNothing(c: char)
    ensures Extended(None, c) == Some([c])
  {
    assert "" + [c] == [c];
  }

  lemma PlainStart(line: string)
    requires line != "" && Safe(line[0])
    ensures Fields(line, None) == Fields(line[1..], Extended(None, line[0]))
  {}

  lemma PlainReads(value: string, rest: string)
    requires Plain(value)
    ensures Fields(value + rest, None) == Fields(rest, Some(value))
  {
    var line := value + rest;
    assert Safe(value[0]) && line[0] == value[0] && line[1..] == value[1..] + rest;
    ExtendNothing(value[0]);
    PlainStart(line);
    SafeReads(value[1..], [value[0]], rest);
    assert [value[0]] + value[1..] == value;
  }

  lemma QuotedReads(value: string, rest: string)
    ensures Fields("'" + Escaped(value) + "'" + rest, None) == Fields(rest, Some(value))
  {
    var line := "'" + Escaped(value) + "'" + rest;
    assert line[0] == '\'' && line[1..] == Escaped(value) + "'" + rest;
    EscapedReads(value, "", rest);
    assert "" + value == value;
  }

  lemma {:induction false} JoinedReads(words: seq<string>)
    requires words != []
    ensures Fields(Joined(words), None) == Some(words)
  {
    if |words| == 1 {
      WordReads(words[0], "");
      assert ShellQuote(words[0]) + "" == ShellQuote(words[0]);
      assert words == [words[0]];
    } else {
      JoinedReads(words[1..]);
      var rest := " " + Joined(words[1..]);
      WordReads(words[0], rest);
      assert ShellQuote(words[0]) + rest == Joined(words);
      assert rest[0] == ' ' && rest[1..] == Joined(words[1..]);
      assert [words[0]] + words[1..] == words;
    }
  }

  /** Shell round trip: reading a rendered command yields exactly its program and arguments, whatever
      characters they contain, empty ones included. */
  lemma RenderRoundTrip(command: CommandSpec)
    ensures Fields(RenderShell(command), None) == Some([command.program] + command.args)
  {
    JoinedReads([command.program] + command.args);
  }

  /** Hence different commands are rendered differently. */
  lemma RenderInjective(a: CommandSpec, b: CommandSpec)
    requires RenderShell(a) == RenderShell(b)
    ensures a == b
  {
    RenderRoundTrip(a);
    RenderRoundTrip(b);
    assert ([a.program] + a.args)[0] == ([b.program] + b.args)[0];
    assert ([a.program] + a.args)[1..] == a.args && ([b.program] + b.args)[1..] == b.args;
  }

  lemma PlainPrefix(word: string, words: seq<string>)
    requires Plain(word) && words != []
    ensures Joined([word] + words) == word + " " + Joined(words)
  {
    assert ([word] + words)[1..] == words;
  }

  lemma PlainCommand(program: string, verb: string, flag: string, value: string)
    requires Plain(program) && Plain(verb) && Plain(flag)
    ensures Fields(program + " " + (verb + " " + (flag + " " + ShellQuote(value))), None) == Some([program, verb, flag, value])
  {
    PlainPrefix(flag, [value]);
    PlainPrefix(verb, [flag] + [value]);
    PlainPrefix(program, [verb] + ([flag] + [value]));
    JoinedReads([program] + ([verb] + ([flag] + [value])));
    assert [program] + ([verb] + ([flag] + [value])) == [program, verb, flag, value];
  }

  /** A word of letters, digits and "/._-:=+" is printed as it is, any other between single quotes; words
      are separated by single blanks. */
  lemma QuotedIfNeeded(word: string)
    ensures ShellQuote(word) == word <==>
            word != "" && forall i :: 0 <= i < |word| ==>
              || 'A' <= word[i] <= 'Z' || 'a' <= word[i] <= 'z' || '0' <= word[i] <= '9' || word[i] in "/._-:=+"
    ensures ShellQuote(word) != word ==>
              |ShellQuote(word)| >= 2 && ShellQuote(word)[0] == '\'' && ShellQuote(word)[|ShellQuote(word)| - 1] == '\''
    ensures RenderShell(CommandSpec(word, [])) == ShellQuote(word)
  {
    assert "/._-:=+"[0] == '/' && "/._-:=+"[1] == '.' && "/._-:=+"[2] == '_' && "/._-:=+"[3] == '-';
    assert "/._-:=+"[4] == ':' && "/._-:=+"[5] == '=' && "/._-:=+"[6] == '+';
    if !Plain(word) {
      assert ShellQuote(word)[0] == '\'';
      if word != "" && word[0] == '\'' { assert !Safe(word[0]); }
      EscapedGrows(word);
    }
    assert [word] + [] == [word];
  }

  /** Quoting makes a word longer. */
  lemma {:induction false} EscapedGrows(word: string)
    ensures |Escaped(word)| >= |word|
  {
    if word != "" { EscapedGrows(word[1..]); }
  }

  /** `cleanup_command`. */
  function CleanupCommand(database: string): string {
    "singleton" + " " + ("stop" + " " + ("--database" + " " + ShellQuote(database)))
  }

  /** The advice printed for stale files reads as the command it means, for every path. */
  lemma CleanupRoundTrip(database: string)
    ensures Fields(CleanupCommand(database), None) == Some(["singleton", "stop", "--database", database])
  {
    PlainCommand("singleton", "stop", "--database", database);
  }
}
