/** Quoting words for a shell, and the tokenizer that takes a command line apart. */
module ShellWords {
  import opened Wrappers
  import opened Text

  // ---------------------------------------------------------------- printing

  /** Inside single quotes, a quote is written by leaving them, escaping it, and entering them again. */
  function Piece(c: char): string {
    if c == '\'' then "'\\''" else [c]
  }

  function Escape(value: string): string {
    if value == [] then [] else Piece(value[0]) + Escape(value[1..])
  }

  function ShellQuote(value: string): string {
    "'" + Escape(value) + "'"
  }

  function Command(words: seq<string>): string {
    if words == [] then []
    else if |words| == 1 then ShellQuote(words[0])
    else Command(words[..|words| - 1]) + " " + ShellQuote(words[|words| - 1])
  }

  // ---------------------------------------------------------------- parsing

  datatype Scan = Scan(parts: seq<string>, current: string, quote: Option<char>, escaped: bool)

  const START := Scan([], [], None, false)

  function Step(s: Scan, c: char): Scan {
    if s.escaped then s.(current := s.current + [c], escaped := false)
    else if c == '\\' && s.quote != Some('\'') then s.(escaped := true)
    else if s.quote.Some? then
      if c == s.quote.value then s.(quote := None) else s.(current := s.current + [c])
    else if c == '\'' || c == '"' then s.(quote := Some(c))
    else if IsSpace(c) then
      if s.current != [] then s.(parts := s.parts + [s.current], current := []) else s
    else s.(current := s.current + [c])
  }

  function Run(s: Scan, text: string): Scan {
    if text == [] then s else Step(Run(s, text[..|text| - 1]), text[|text| - 1])
  }

  datatype Failure = UnclosedQuote

  function Close(s: Scan): Result<seq<string>, Failure> {
    var current := if s.escaped then s.current + ['\\'] else s.current;
    if s.quote.Some? then Err(UnclosedQuote)
    else if current != [] then Ok(s.parts + [current])
    else Ok(s.parts)
  }

  function Tokens(args: string): Result<seq<string>, Failure> {
    Close(Run(START, Trim(args)))
  }

  method Tokenize(args: string) returns (result: Result<seq<string>, Failure>)
    ensures result == Tokens(args)
  {
    var text := Trim(args);
    var parts: seq<string>, current: string, quote: Option<char>, escaped := [], [], None, false;
    for k := 0 to |text|
      invariant Scan(parts, current, quote, escaped) == Run(START, text[..k])
    {
      assert text[..k + 1][..k] == text[..k];
      var character := text[k];
      if escaped {
        current := current + [character];
        escaped := false;
        continue;
      }
      if character == '\\' && quote != Some('\'') {
        escaped := true;
        continue;
      }
      if quote.Some? {
        if character == quote.value { quote := None; } else { current := current + [character]; }
        continue;
      }
      if character == '\'' || character == '"' {
        quote := Some(character);
        continue;
      }
      if IsSpace(character) {
        if current != [] {
          parts := parts + [current];
          current := [];
        }
        continue;
      }
      current := current + [character];
    }
    assert text[..|text|] == text;
    if escaped { current := current + ['\\']; }
    if quote.Some? { return Err(UnclosedQuote); }
    if current != [] { parts := parts + [current]; }
    return Ok(parts);
  }

  // ---------------------------------------------------------------- one undoes the other

  lemma {:induction false} RunAppend(s: Scan, a: string, b: string)
    ensures Run(s, a + b) == Run(Run(s, a), b)
  {
    if b == [] {
      assert a + b == a;
    } else {
      assert (a + b)[..|a + b| - 1] == a + b[..|b| - 1];
      RunAppend(s, a, b[..|b| - 1]);
      hide Step;
    }
  }

  lemma RunOne(s: Scan, c: char)
    ensures Run(s, [c]) == Step(s, c)
  {
    hide Step;
    assert [c][..0] == [];
    assert Run(s, []) == s;
  }

  /** Inside single quotes an escaped character adds itself before what follows is read. */
  lemma RunPiece(s: Scan, c: char, more: string)
    requires s.quote == Some('\'') && !s.escaped
    ensures Run(s, Piece(c) + more) == Run(s.(current := s.current + [c]), more)
  {
    hide Run, Step, Piece;
    RunAppend(s, Piece(c), more);
    EscapedChar(s, c);
  }

  /** Inside single quotes an escaped text adds just that text. */
  lemma {:induction false} RunEscaped(s: Scan, value: string)
    requires s.quote == Some('\'') && !s.escaped
    ensures Run(s, Escape(value)) == s.(current := s.current + value)
    decreases |value|
  {
    if value == [] {
      assert s.current + value == s.current;
    } else {
      var added := s.(current := s.current + [value[0]]);
      EscapeMore(value);
      hide Run, Step, Escape, Piece;
      RunPiece(s, value[0], Escape(value[1..]));
      RunEscaped(added, value[1..]);
      FirstAndRest(s.current, value);
    }
  }

  lemma FirstAndRest(a: string, b: string)
    requires b != []
    ensures a + [b[0]] + b[1..] == a + b
  {
  }

  lemma EscapeMore(value: string)
    requires value != []
    ensures Escape(value) == Piece(value[0]) + Escape(value[1..])
  {
  }

  lemma EscapedChar(s: Scan, c: char)
    requires s.quote == Some('\'') && !s.escaped
    ensures Run(s, Piece(c)) == s.(current := s.current + [c])
  {
    if c == '\'' {
      assert "'\\''" == ['\''] + (['\\'] + (['\''] + ['\'']));
      RunAppend(s, ['\''], ['\\'] + (['\''] + ['\'']));
      RunOne(s, '\'');
      var outside := s.(quote := None);
      RunAppend(outside, ['\\'], ['\''] + ['\'']);
      RunOne(outside, '\\');
      var escaped := outside.(escaped := true);
      RunAppend(escaped, ['\''], ['\'']);
      RunOne(escaped, '\'');
      var added := outside.(current := s.current + ['\'']);
      RunOne(added, '\'');
      hide Run;
    } else {
      RunOne(s, c);
      hide Run;
    }
  }

  /** A quoted word adds just that word to the current one. */
  lemma RunQuoted(s: Scan, value: string)
    requires s.quote == None && !s.escaped
    ensures Run(s, ShellQuote(value)) == s.(current := s.current + value)
  {
    assert ShellQuote(value) == ['\''] + (Escape(value) + ['\'']);
    RunAppend(s, ['\''], Escape(value) + ['\'']);
    RunOne(s, '\'');
    var inside := s.(quote := Some('\''));
    RunAppend(inside, Escape(value), ['\'']);
    RunEscaped(inside, value);
    RunOne(inside.(current := s.current + value), '\'');
    hide Run, Escape, ShellQuote;
  }

  function NonEmpty(words: seq<string>): seq<string> {
    if words == [] then []
    else
      NonEmpty(words[..|words| - 1]) + (if words[|words| - 1] == [] then [] else [words[|words| - 1]])
  }

  /** After a command the scan holds its last word, and the others that are not empty are parts. */
  lemma {:induction false} RunCommand(words: seq<string>)
    requires words != []
    ensures Run(START, Command(words)) == Scan(NonEmpty(words[..|words| - 1]), words[|words| - 1], None, false)
  {
    var n := |words| - 1;
    if n == 0 {
      RunQuoted(START, words[0]);
      hide Run, ShellQuote;
      assert [] + words[0] == words[0] && words[..0] == [];
    } else {
      RunCommand(words[..n]);
      NextWord(words);
    }
  }

  /** A space outside quotes ends the current word, unless it is empty. */
  lemma SpaceEnds(words: seq<string>)
    requires words != []
    ensures
      var n := |words| - 1;
      Step(Scan(NonEmpty(words[..n]), words[n], None, false), ' ') == Scan(NonEmpty(words), [], None, false)
  {
    var n := |words| - 1;
    assert NonEmpty(words[..n]) + [] == NonEmpty(words[..n]);
  }

  lemma NextWord(words: seq<string>)
    requires |words| > 1
    requires
      var before := words[..|words| - 1];
      Run(START, Command(before)) == Scan(NonEmpty(before[..|before| - 1]), before[|before| - 1], None, false)
    ensures Run(START, Command(words)) == Scan(NonEmpty(words[..|words| - 1]), words[|words| - 1], None, false)
  {
    var before, last := words[..|words| - 1], words[|words| - 1];
    CommandMore(words);
    SpaceEnds(before);
    hide Step, Command, ShellQuote, NonEmpty;
    RunAppend(START, Command(before), [' '] + ShellQuote(last));
    var held := Run(START, Command(before));
    RunAppend(held, [' '], ShellQuote(last));
    RunOne(held, ' ');
    var spaced := Step(held, ' ');
    hide Run;
    RunQuoted(spaced, last);
    assert [] + last == last;
  }

  lemma CommandMore(words: seq<string>)
    requires |words| > 1
    ensures Command(words) == Command(words[..|words| - 1]) + ([' '] + ShellQuote(words[|words| - 1]))
  {
    hide ShellQuote;
  }

  lemma QuoteIsTrimmed(value: string)
    ensures ShellQuote(value)[0] == '\'' && ShellQuote(value)[|ShellQuote(value)| - 1] == '\''
  {
  }

  lemma {:induction false} CommandIsTrimmed(words: seq<string>)
    requires words != []
    ensures Command(words) != [] && Command(words)[0] == '\'' && Command(words)[|Command(words)| - 1] == '\''
  {
    var n := |words| - 1;
    QuoteIsTrimmed(words[n]);
    if n > 0 {
      CommandIsTrimmed(words[..n]);
      hide ShellQuote;
    }
  }

  /** Tokenizing a quoted command gives back its words that are not empty, whatever characters they contain. */
  lemma TokensOfCommand(words: seq<string>)
    ensures Tokens(Command(words)) == Ok(NonEmpty(words))
  {
    if words == [] {
      assert Trim("") == "";
      assert Run(START, "") == START;
    } else {
      CommandIsTrimmed(words);
      TrimIsTrimmed(Command(words));
      RunCommand(words);
      hide Run, Command, Trim;
      assert NonEmpty(words[..|words| - 1]) + [] == NonEmpty(words[..|words| - 1]);
    }
  }

  lemma {:induction false} NonEmptyKeepsAllIff(words: seq<string>)
    ensures |NonEmpty(words)| <= |words|
    ensures NonEmpty(words) == words <==> forall k | 0 <= k < |words| :: words[k] != []
  {
    if words != [] {
      var n := |words| - 1;
      NonEmptyKeepsAllIff(words[..n]);
      assert words == words[..n] + [words[n]];
      if NonEmpty(words) == words {
        assert words[n] != [];
        assert NonEmpty(words)[..n] == NonEmpty(words[..n]);
      }
    }
  }

  /** So quoting and tokenizing undo each other exactly for commands without empty words. */
  lemma QuotingRoundTripsIff(words: seq<string>)
    ensures Tokens(Command(words)) == Ok(words) <==> forall k | 0 <= k < |words| :: words[k] != []
  {
    TokensOfCommand(words);
    NonEmptyKeepsAllIff(words);
    hide Tokens, Command, NonEmpty;
  }
}
