/** Newline framing of a character stream that arrives in chunks. */
module LineFraming {
  import opened Wrappers
  import opened Text

  const NEWLINE := '\n'

  /** The text up to each newline, as it stands. */
  function RawLines(s: string): seq<string> {
    var i := IndexOf(s, NEWLINE);
    if i.None? then [] else [s[..i.value]] + RawLines(s[i.value + 1..])
  }

  /** What follows the last newline. */
  function Rest(s: string): string {
    var i := IndexOf(s, NEWLINE);
    if i.None? then s else Rest(s[i.value + 1..])
  }

  /** Lines are trimmed, and those that are empty then are skipped. */
  function Clean(raw: seq<string>): seq<string> {
    if raw == [] then []
    else (if Trim(raw[0]) == [] then [] else [Trim(raw[0])]) + Clean(raw[1..])
  }

  function Lines(s: string): seq<string> {
    Clean(RawLines(s))
  }

  // ---------------------------------------------------------------- the stream as a whole

  predicate OneLine(s: string) {
    NEWLINE !in s
  }

  predicate AllOneLine(raw: seq<string>) {
    forall k | 0 <= k < |raw| :: OneLine(raw[k])
  }

  function Joined(raw: seq<string>): string {
    if raw == [] then [] else raw[0] + [NEWLINE] + Joined(raw[1..])
  }

  function Flatten(chunks: seq<string>): string {
    if chunks == [] then [] else Flatten(chunks[..|chunks| - 1]) + chunks[|chunks| - 1]
  }

  /** The first line of a stream, apart from the others. */
  lemma FirstLine(s: string)
    requires IndexOf(s, NEWLINE).Some?
    ensures
      var i := IndexOf(s, NEWLINE).value;
      var line, rest := s[..i], s[i + 1..];
      && s == line + [NEWLINE] + rest && OneLine(line)
      && RawLines(s) == [line] + RawLines(rest) && Rest(s) == Rest(rest)
      && Lines(s) == (if Trim(line) == [] then [] else [Trim(line)]) + Lines(rest)
  {
    hide Trim;
    var i := IndexOf(s, NEWLINE).value;
    assert RawLines(s)[1..] == RawLines(s[i + 1..]);
  }

  /** Splitting is the inverse of joining lines that contain no newline. */
  lemma {:induction false} SplitUndoesJoin(raw: seq<string>, tail: string)
    requires OneLine(tail) && AllOneLine(raw)
    ensures RawLines(Joined(raw) + tail) == raw && Rest(Joined(raw) + tail) == tail
  {
    var s := Joined(raw) + tail;
    if raw == [] {
      assert s == tail;
    } else {
      var rest := Joined(raw[1..]) + tail;
      assert s == raw[0] + [NEWLINE] + rest;
      assert s[..|raw[0]|] == raw[0] && s[|raw[0]| + 1..] == rest;
      IndexIsFirst(s, NEWLINE, |raw[0]|);
      SplitUndoesJoin(raw[1..], tail);
    }
  }

  /** And joining that of splitting: nothing of the stream is lost or added. */
  lemma {:induction false} JoinUndoesSplit(s: string)
    ensures Joined(RawLines(s)) + Rest(s) == s
    ensures OneLine(Rest(s)) && AllOneLine(RawLines(s))
    decreases |s|
  {
    if IndexOf(s, NEWLINE).Some? {
      FirstLine(s);
      hide RawLines, Rest, Lines, IndexOf, OneLine, Joined, AllOneLine;
      var i := IndexOf(s, NEWLINE).value;
      var line, rest := s[..i], s[i + 1..];
      JoinUndoesSplit(rest);
      JoinOneMore(line, RawLines(rest), Rest(rest));
    } else {
      NoLineLeft(s);
      hide RawLines, Rest, IndexOf;
    }
  }

  lemma JoinOneMore(line: string, raw: seq<string>, tail: string)
    requires OneLine(line) && AllOneLine(raw)
    ensures Joined([line] + raw) + tail == line + [NEWLINE] + (Joined(raw) + tail) && AllOneLine([line] + raw)
  {
    hide OneLine;
    assert ([line] + raw)[1..] == raw;
  }

  /** The lines of a longer stream are those of its beginning and then those its unfinished tail goes on to. */
  lemma {:induction false} AppendLines(a: string, b: string)
    ensures RawLines(a + b) == RawLines(a) + RawLines(Rest(a) + b)
    ensures Rest(a + b) == Rest(Rest(a) + b)
    decreases |a|
  {
    hide IndexOf;
    var i := IndexOf(a, NEWLINE);
    if i.Some? {
      assert (a + b)[..i.value] == a[..i.value] && (a + b)[i.value + 1..] == a[i.value + 1..] + b;
      IndexIsFirst(a + b, NEWLINE, i.value);
      AppendLines(a[i.value + 1..], b);
    }
  }

  lemma {:induction false} CleanAppend(a: seq<string>, b: seq<string>)
    ensures Clean(a + b) == Clean(a) + Clean(b)
  {
    if a == [] {
      assert a + b == b;
    } else {
      assert (a + b)[1..] == a[1..] + b;
      CleanAppend(a[1..], b);
    }
  }

  /** Every line handed on is trimmed and not empty. */
  lemma {:induction false} CleanLines(raw: seq<string>)
    ensures forall k | 0 <= k < |Clean(raw)| :: Clean(raw)[k] != [] && Trimmed(Clean(raw)[k])
  {
    if raw != [] {
      TrimIsTrimmed(raw[0]);
      CleanLines(raw[1..]);
    }
  }

  // ---------------------------------------------------------------- chunk by chunk

  /** What the handler keeps and has handed on after a chunk. */
  function Feed(buffer: string, chunk: string): (string, seq<string>) {
    (Rest(buffer + chunk), Lines(buffer + chunk))
  }

  function FeedAll(chunks: seq<string>): (string, seq<string>) {
    if chunks == [] then ("", [])
    else
      var before := FeedAll(chunks[..|chunks| - 1]);
      var after := Feed(before.0, chunks[|chunks| - 1]);
      (after.0, before.1 + after.1)
  }

  /** However the stream is cut into chunks, the same lines come out and the same tail is kept. */
  lemma {:induction false} FramingIgnoresChunks(chunks: seq<string>)
    ensures FeedAll(chunks) == (Rest(Flatten(chunks)), Lines(Flatten(chunks)))
  {
    if chunks != [] {
      var before, last := chunks[..|chunks| - 1], chunks[|chunks| - 1];
      FramingIgnoresChunks(before);
      MoreStream(Flatten(before), last);
    }
  }

  lemma MoreStream(stream: string, chunk: string)
    ensures Lines(stream + chunk) == Lines(stream) + Lines(Rest(stream) + chunk) && Rest(stream + chunk) == Rest(Rest(stream) + chunk)
  {
    AppendLines(stream, chunk);
    CleanAppend(RawLines(stream), RawLines(Rest(stream) + chunk));
  }

  lemma NoLineLeft(s: string)
    requires IndexOf(s, NEWLINE).None?
    ensures RawLines(s) == [] && Lines(s) == [] && Rest(s) == s && OneLine(s)
  {
  }

  /** The `data` handler of the server: hand on each complete line, keep the rest. */
  class LineReader {
    var buffer: string
    ghost var stream: string
    ghost var handed: seq<string>

    ghost predicate Valid()
      reads this
    {
      buffer == Rest(stream) && handed == Lines(stream)
    }

    constructor ()
      ensures Valid() && stream == "" && buffer == ""
    {
      buffer, stream, handed := "", "", [];
    }

    method OnData(chunk: string) returns (lines: seq<string>)
      requires Valid()
      modifies this
      ensures Valid() && stream == old(stream) + chunk
      ensures handed == old(handed) + lines
    {
      hide Lines, Rest, Trim, IndexOf;
      MoreStream(stream, chunk);
      stream := stream + chunk;
      buffer := buffer + chunk;
      ghost var start := buffer;
      lines := [];
      var newline := IndexOf(buffer, NEWLINE);
      while newline.Some?
        invariant newline == IndexOf(buffer, NEWLINE)
        invariant Lines(start) == lines + Lines(buffer) && Rest(start) == Rest(buffer)
        invariant stream == old(stream) + chunk && handed == old(handed)
        decreases |buffer|
      {
        FirstLine(buffer);
        var line := Trim(buffer[..newline.value]);
        buffer := buffer[newline.value + 1..];
        newline := IndexOf(buffer, NEWLINE);
        if line == [] { continue; }
        lines := lines + [line];
      }
      assert Lines(buffer) == [] && Rest(buffer) == buffer by { NoLineLeft(buffer); }
      handed := handed + lines;
    }
  }
}
