/**
 * The command lines the tokenizer takes apart, told by how they are written: characters that
 * stand for themselves, escaped ones, quoted texts and gaps, and what may be left open at the end.
 */
module ShellGrammar {
  import opened Wrappers
  import opened Text
  import opened ShellWords

  /** A character in double quotes: as it is, or behind a backslash. */
  datatype Inner = Plain(c: char) | Guarded(c: char)

  datatype Part = Bare(c: char) | Escaped(c: char) | Single(text: string) | Double(inner: seq<Inner>) | Gap(c: char)

  /** How a line ends: properly, on a backslash, or within quotes, there perhaps on a backslash. */
  datatype Tail = Done | Backslash | InSingle(text: string) | InDouble(inner: seq<Inner>, hanging: bool)

  predicate ProperInner(inner: seq<Inner>) {
    forall k | 0 <= k < |inner| && inner[k].Plain? :: inner[k].c != '"' && inner[k].c != '\\'
  }

  predicate Proper(p: Part) {
    match p
    case Bare(c) => !IsSpace(c) && c != '\'' && c != '"' && c != '\\'
    case Escaped(_) => true
    case Single(text) => '\'' !in text
    case Double(inner) => ProperInner(inner)
    case Gap(c) => IsSpace(c)
  }

  predicate ProperTail(tail: Tail) {
    match tail
    case InSingle(text) => '\'' !in text
    case InDouble(inner, _) => ProperInner(inner)
    case _ => true
  }

  predicate AllProper(line: seq<Part>) {
    forall k | 0 <= k < |line| :: Proper(line[k])
  }

  // ---------------------------------------------------------------- written, and meant

  function WrittenInner(inner: seq<Inner>): string {
    if inner == [] then []
    else
      var last := inner[|inner| - 1];
      WrittenInner(inner[..|inner| - 1]) + (if last.Plain? then [last.c] else ['\\', last.c])
  }

  function MeantInner(inner: seq<Inner>): string {
    if inner == [] then [] else MeantInner(inner[..|inner| - 1]) + [inner[|inner| - 1].c]
  }

  function WrittenPart(p: Part): string {
    match p
    case Bare(c) => [c]
    case Escaped(c) => ['\\', c]
    case Single(text) => ['\''] + text + ['\'']
    case Double(inner) => ['"'] + WrittenInner(inner) + ['"']
    case Gap(c) => [c]
  }

  function Written(line: seq<Part>): string {
    if line == [] then [] else Written(line[..|line| - 1]) + WrittenPart(line[|line| - 1])
  }

  function WrittenTail(tail: Tail): string {
    match tail
    case Done => []
    case Backslash => ['\\']
    case InSingle(text) => ['\''] + text
    case InDouble(inner, hanging) => ['"'] + WrittenInner(inner) + (if hanging then ['\\'] else [])
  }

  function MeantPart(p: Part): string {
    match p
    case Bare(c) => [c]
    case Escaped(c) => [c]
    case Single(text) => text
    case Double(inner) => MeantInner(inner)
    case Gap(_) => []
  }

  /** The last word begun, which ends with the line. */
  function LastWord(line: seq<Part>): string {
    if line == [] || line[|line| - 1].Gap? then [] else LastWord(line[..|line| - 1]) + MeantPart(line[|line| - 1])
  }

  /** The words that end at a gap; two gaps, or a gap behind an empty quotation, end none. */
  function Words(line: seq<Part>): seq<string> {
    if line == [] then []
    else
      var before := line[..|line| - 1];
      Words(before) + (if line[|line| - 1].Gap? && LastWord(before) != [] then [LastWord(before)] else [])
  }

  /** What a line amounts to. */
  function Meant(line: seq<Part>, tail: Tail): Result<seq<string>, Failure> {
    match tail
    case InSingle(_) => Err(UnclosedQuote)
    case InDouble(_, _) => Err(UnclosedQuote)
    case Done => Ok(Words(line) + (if LastWord(line) != [] then [LastWord(line)] else []))
    case Backslash => Ok(Words(line) + [LastWord(line) + ['\\']])
  }

  // ---------------------------------------------------------------- the tokenizer reads what is meant

  lemma RunLast(s: Scan, text: string, c: char)
    ensures Run(s, text + [c]) == Step(Run(s, text), c)
  {
    hide Step;
    assert (text + [c])[..|text|] == text;
  }

  lemma {:induction false} SingleReads(s: Scan, text: string)
    requires s.quote == Some('\'') && !s.escaped && '\'' !in text
    ensures Run(s, text) == s.(current := s.current + text)
  {
    if text == [] {
      assert s.current + text == s.current;
    } else {
      var n := |text| - 1;
      SingleReads(s, text[..n]);
      assert text[..n] + [text[n]] == text;
      assert s.current + text[..n] + [text[n]] == s.current + text;
    }
  }

  lemma {:induction false} InnerReads(s: Scan, inner: seq<Inner>)
    requires s.quote == Some('"') && !s.escaped && ProperInner(inner)
    ensures Run(s, WrittenInner(inner)) == s.(current := s.current + MeantInner(inner))
  {
    if inner == [] {
      assert s.current + [] == s.current;
    } else {
      var n := |inner| - 1;
      var last := inner[n];
      InnerReads(s, inner[..n]);
      var read := s.(current := s.current + MeantInner(inner[..n]));
      assert s.current + MeantInner(inner[..n]) + [last.c] == s.current + MeantInner(inner);
      hide Run, ProperInner, MeantInner;
      if last.Plain? {
        RunLast(s, WrittenInner(inner[..n]), last.c);
      } else {
        assert WrittenInner(inner[..n]) + ['\\', last.c] == WrittenInner(inner[..n]) + ['\\'] + [last.c];
        RunLast(s, WrittenInner(inner[..n]), '\\');
        RunLast(s, WrittenInner(inner[..n]) + ['\\'], last.c);
      }
    }
  }

  lemma QuotedReads(s: Scan, p: Part)
    requires s.quote == None && !s.escaped && (p.Single? || p.Double?) && Proper(p)
    ensures Run(s, WrittenPart(p)) == s.(current := s.current + MeantPart(p))
  {
    hide Run, WrittenInner, MeantInner, ProperInner;
    var mark := if p.Single? then '\'' else '"';
    var text := if p.Single? then p.text else WrittenInner(p.inner);
    var inside := s.(quote := Some(mark));
    RunOne(s, mark);
    RunAppend(s, [mark], text);
    RunLast(s, [mark] + text, mark);
    if p.Single? { SingleReads(inside, text); } else { InnerReads(inside, p.inner); }
  }

  lemma PartReads(s: Scan, p: Part)
    requires s.quote == None && !s.escaped && Proper(p)
    ensures Run(s, WrittenPart(p)) ==
      if !p.Gap? then s.(current := s.current + MeantPart(p))
      else if s.current != [] then s.(parts := s.parts + [s.current], current := [])
      else s
  {
    hide Run;
    match p {
      case Escaped(c) =>
        assert WrittenPart(p) == ['\\'] + [c];
        RunOne(s, '\\');
        RunLast(s, ['\\'], c);
      case Single(_) => QuotedReads(s, p);
      case Double(_) => QuotedReads(s, p);
      case _ => RunOne(s, p.c);
    }
  }

  lemma {:induction false} LineReads(line: seq<Part>)
    requires AllProper(line)
    ensures Run(START, Written(line)) == Scan(Words(line), LastWord(line), None, false)
  {
    hide Step, Proper, MeantPart, WrittenPart;
    if line != [] {
      var n := |line| - 1;
      assert AllProper(line[..n]) && Proper(line[n]);
      LineReads(line[..n]);
      RunAppend(START, Written(line[..n]), WrittenPart(line[n]));
      PartReads(Run(START, Written(line[..n])), line[n]);
      hide Run, Written;
      assert Words(line[..n]) + [] == Words(line[..n]);
    }
  }

  lemma TailReads(s: Scan, tail: Tail)
    requires s.quote == None && !s.escaped && ProperTail(tail)
    ensures Close(Run(s, WrittenTail(tail))) ==
      if tail.InSingle? || tail.InDouble? then Err(UnclosedQuote)
      else if tail.Backslash? then Ok(s.parts + [s.current + ['\\']])
      else if s.current != [] then Ok(s.parts + [s.current])
      else Ok(s.parts)
  {
    hide Run, WrittenInner, MeantInner, ProperInner;
    match tail {
      case Done =>
        assert Run(s, []) == s by { NothingReads(s); }
      case Backslash => RunOne(s, '\\');
      case InSingle(text) =>
        RunOne(s, '\'');
        RunAppend(s, ['\''], text);
        SingleReads(s.(quote := Some('\'')), text);
      case InDouble(inner, hanging) =>
        RunOne(s, '"');
        RunAppend(s, ['"'], WrittenInner(inner));
        InnerReads(s.(quote := Some('"')), inner);
        if hanging {
          RunLast(s, ['"'] + WrittenInner(inner), '\\');
        } else {
          assert ['"'] + WrittenInner(inner) + [] == ['"'] + WrittenInner(inner);
        }
    }
  }

  lemma NothingReads(s: Scan)
    ensures Run(s, []) == s
  {
  }

  /** A line however written is tokenized as it is meant. */
  lemma LinesAreRead(args: string, line: seq<Part>, tail: Tail)
    requires Trim(args) == Written(line) + WrittenTail(tail) && AllProper(line) && ProperTail(tail)
    ensures Tokens(args) == Meant(line, tail)
  {
    hide Run, Trim, Close, AllProper, Words, LastWord, Written, WrittenTail;
    LineReads(line);
    RunAppend(START, Written(line), WrittenTail(tail));
    TailReads(Scan(Words(line), LastWord(line), None, false), tail);
    assert Words(line) + [] == Words(line);
  }

  // ---------------------------------------------------------------- and every text is such a line

  lemma Longer(line: seq<Part>, p: Part)
    requires AllProper(line) && Proper(p)
    ensures AllProper(line + [p]) && Written(line + [p]) == Written(line) + WrittenPart(p)
  {
    assert (line + [p])[..|line|] == line;
  }

  lemma LongerInner(inner: seq<Inner>, i: Inner)
    requires ProperInner(inner) && (i.Plain? ==> i.c != '"' && i.c != '\\')
    ensures ProperInner(inner + [i])
    ensures WrittenInner(inner + [i]) == WrittenInner(inner) + (if i.Plain? then [i.c] else ['\\', i.c])
  {
    assert (inner + [i])[..|inner|] == inner;
  }

  /** How one more character goes on with a line. */
  lemma OneMore(line: seq<Part>, tail: Tail, c: char) returns (line': seq<Part>, tail': Tail)
    requires AllProper(line) && ProperTail(tail)
    ensures AllProper(line') && ProperTail(tail')
    ensures Written(line') + WrittenTail(tail') == Written(line) + WrittenTail(tail) + [c]
  {
    hide AllProper, Written, ProperInner, WrittenInner;
    line', tail' := line, tail;
    match tail {
      case Done =>
        if c == '\\' {
          tail' := Backslash;
        } else if c == '\'' {
          tail' := InSingle([]);
        } else if c == '"' {
          assert ProperInner([]) && WrittenInner([]) == [] by { NoInner(); }
          tail' := InDouble([], false);
        } else {
          line' := line + [if IsSpace(c) then Gap(c) else Bare(c)];
          Longer(line, line'[|line|]);
        }
      case Backslash =>
        line', tail' := line + [Escaped(c)], Done;
        Longer(line, Escaped(c));
        assert Written(line) + ['\\'] + [c] == Written(line) + ['\\', c];
      case InSingle(text) =>
        if c == '\'' {
          line', tail' := line + [Single(text)], Done;
          Longer(line, Single(text));
          assert Written(line) + (['\''] + text) + ['\''] == Written(line) + (['\''] + text + ['\'']);
        } else {
          tail' := InSingle(text + [c]);
          assert Written(line) + (['\''] + text) + [c] == Written(line) + (['\''] + (text + [c]));
        }
      case InDouble(inner, hanging) =>
        var head := ['"'] + WrittenInner(inner);
        assert head + [] == head;
        if hanging {
          tail' := InDouble(inner + [Guarded(c)], false);
          LongerInner(inner, Guarded(c));
          assert ['"'] + (WrittenInner(inner) + ['\\', c]) + [] == head + ['\\'] + [c];
        } else if c == '"' {
          line', tail' := line + [Double(inner)], Done;
          Longer(line, Double(inner));
          assert Written(line) + head + ['"'] == Written(line) + (head + ['"']);
        } else if c == '\\' {
          tail' := InDouble(inner, true);
          assert Written(line) + head + ['\\'] == Written(line) + (head + ['\\']);
        } else {
          tail' := InDouble(inner + [Plain(c)], false);
          LongerInner(inner, Plain(c));
          assert ['"'] + (WrittenInner(inner) + [c]) + [] == head + [c];
        }
    }
  }

  lemma NoInner()
    ensures ProperInner([]) && WrittenInner([]) == []
  {
  }

  lemma {:induction false} EveryTextIsALine(text: string) returns (line: seq<Part>, tail: Tail)
    ensures AllProper(line) && ProperTail(tail) && text == Written(line) + WrittenTail(tail)
  {
    if text == [] {
      line, tail := [], Done;
    } else {
      hide AllProper, ProperTail, Written, WrittenTail;
      var n := |text| - 1;
      line, tail := EveryTextIsALine(text[..n]);
      line, tail := OneMore(line, tail, text[n]);
    }
  }

  /** So whatever is typed, the tokenizer gives what the line means. */
  lemma TokensAreMeant(args: string) returns (line: seq<Part>, tail: Tail)
    ensures AllProper(line) && ProperTail(tail) && Trim(args) == Written(line) + WrittenTail(tail)
    ensures Tokens(args) == Meant(line, tail)
  {
    hide AllProper, ProperTail, Written, WrittenTail, Trim, Tokens, Meant;
    line, tail := EveryTextIsALine(Trim(args));
    LinesAreRead(args, line, tail);
  }
}
