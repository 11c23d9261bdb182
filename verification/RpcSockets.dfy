/**
 * The handlers of the two clients as objects that update their variables chunk by chunk. Each
 * remembers the chunks it got as a ghost, so that what it holds is known from the stream.
 */
module RpcSockets {
  import opened Wrappers
  import opened Text
  import opened LineFraming
  import opened Spec = RpcClient
  import opened CommandOutcomes

  /** A call that got these chunks is where their lines take it. */
  predicate CallAfter(call: Call, read: string -> Message, c: Client, chunks: seq<string>) {
    var spec := OnChunks(call, read, OPENED, chunks);
    c.(buffer := "") == spec.(buffer := "") && (c.settled.None? ==> c.buffer == spec.buffer)
  }

  lemma NextCall(call: Call, read: string -> Message, c: Client, chunks: seq<string>, chunk: string, c': Client)
    requires CallAfter(call, read, c, chunks)
    requires
      var after := Spec.OnData(call, read, c, chunk);
      c'.(buffer := "") == after.(buffer := "") && (c'.settled.None? ==> c'.buffer == after.buffer)
    ensures CallAfter(call, read, c', chunks + [chunk])
  {
    hide OnLines, Lines, Rest;
    assert (chunks + [chunk])[..|chunks|] == chunks;
  }

  lemma SucceedsBy(call: Call, read: string -> Message, c: Client, chunks: seq<string>)
    requires CallAfter(call, read, c, chunks)
    ensures c.settled == OnLines(call, read, OPENED, Lines(Flatten(chunks))).settled
    ensures Succeeds(c) <==> Succeeds(OnLines(call, read, OPENED, Lines(Flatten(chunks))))
    ensures !call.waits ==>
      (Succeeds(c) <==> Lines(Flatten(chunks)) != [] && Answers(call, read(Lines(Flatten(chunks))[0])))
  {
    OutcomeIgnoresChunks(call, read, chunks);
    hide OnChunks, OnLines, Lines, Answers;
    if !call.waits { PlainCallSucceedsIff(call, read, Lines(Flatten(chunks))); }
  }

  class CommandCall {
    const call: Call
    const read: string -> Message
    var buffer: string
    var primary: bool
    var acknowledged: bool
    var dispatched: bool
    var seen: set<string>
    var settled: Option<Wrappers.Result<bool, Failure>>
    ghost var chunks: seq<string>

    ghost predicate Valid()
      reads this
    {
      CallAfter(call, read, View(), chunks)
    }

    function View(): Client
      reads this
    {
      Client(buffer, primary, acknowledged, dispatched, seen, settled)
    }

    constructor (theCall: Call, theReader: string -> Message)
      ensures Valid() && View() == OPENED && call == theCall && read == theReader && chunks == []
    {
      call, read := theCall, theReader;
      buffer, primary, acknowledged, dispatched, seen, settled := "", false, false, false, {}, None;
      chunks := [];
    }

    /** The first outcome counts. */
    method Settle(r: Wrappers.Result<bool, Failure>)
      modifies `settled
      ensures View() == Spec.Settle(old(View()), r)
    {
      if settled.Some? { return; }
      settled := Some(r);
    }

    method OnReply(id: Option<string>, body: Body)
      requires settled.None?
      modifies `settled, `seen, `primary, `acknowledged
      ensures View() == Spec.OnReply(call, old(View()), id, body)
    {
      if id.None? || (id.value != call.requestId && (!call.waits || id.value != call.subscriptionId)) {
        Settle(Err(MismatchedId));
        return;
      }
      if id.value in seen {
        Settle(Err(DuplicateId));
        return;
      }
      seen := seen + {id.value};
      var isPrimary := id.value == call.requestId;
      if body.Error? {
        Settle(Err(RemoteError));
        return;
      }
      if !(if isPrimary then body.fitsRequest else body.fitsSubscribe) {
        Settle(Err(InvalidResult));
        return;
      }
      if isPrimary {
        primary := true;
        if !call.waits { Settle(Ok(false)); }
        return;
      }
      if body.subscribed != call.subscriptionId {
        Settle(Err(MismatchedSubscriptionId));
        return;
      }
      acknowledged := true;
    }

    method OnMessage(m: Message)
      requires settled.None?
      modifies `settled, `seen, `primary, `acknowledged
      ensures View() == Spec.OnMessage(call, old(View()), m)
    {
      hide Spec.OnReply;
      match m {
        case NotJson => Settle(Err(MalformedResponse));
        case NotResponse => Settle(Err(MalformedResponse));
        case TurnEnd(subscriptionId) =>
          if !call.waits || subscriptionId != call.subscriptionId {
            Settle(Err(UnexpectedNotification));
          } else if !acknowledged {
            Settle(Err(OutOfOrderAck));
          } else if !primary {
            Settle(Err(OutOfOrderResponse));
          } else {
            Settle(Ok(true));
          }
        case Reply(id, body) => OnReply(id, body);
      }
    }

    /** One more chunk: whether the call has succeeded depends on the lines of the whole stream alone. */
    method OnData(chunk: string)
      requires Valid()
      modifies this
      ensures Valid() && chunks == old(chunks) + [chunk]
      ensures Succeeds(View()) <==> Succeeds(OnLines(call, read, OPENED, Lines(Flatten(chunks))))
      ensures
        var lines := Lines(Flatten(chunks));
        call.waits
        || settled == (if lines == [] then None
                       else if Answers(call, read(lines[0])) then Some(Ok(false))
                       else Some(Verdict(call, false, false, read(lines[0]))))
      ensures !call.waits ==>
        (Succeeds(View()) <==> Lines(Flatten(chunks)) != [] && Answers(call, read(Lines(Flatten(chunks))[0])))
    {
      hide CallAfter, Succeeds, OnLines, Lines, Answers, Spec.OnData, Verdict, Flatten;
      ghost var before := View();
      Consume(chunk);
      NextCall(call, read, before, chunks, chunk, View());
      chunks := chunks + [chunk];
      SucceedsBy(call, read, View(), chunks);
      if !call.waits { FirstLineDecides(call, read, Lines(Flatten(chunks))); }
    }

    /** The `data` handler: it stops at the line that settles the call, and then nobody reads the buffer. */
    method Consume(chunk: string)
      modifies `buffer, `settled, `seen, `primary, `acknowledged
      ensures
        var after := Spec.OnData(call, read, old(View()), chunk);
        View().(buffer := "") == after.(buffer := "") && (settled.None? ==> buffer == after.buffer)
    {
      hide Spec.OnMessage, Lines, Rest, Trim, IndexOf;
      if settled.Some? { return; }
      buffer := buffer + chunk;
      ghost var start := View();
      var newline := IndexOf(buffer, NEWLINE);
      while newline.Some?
        invariant newline == IndexOf(buffer, NEWLINE) && settled.None?
        invariant Rest(buffer) == Rest(start.buffer)
        invariant OnLines(call, read, View().(buffer := ""), Lines(buffer)) == OnLines(call, read, start.(buffer := ""), Lines(start.buffer))
        decreases |buffer|
      {
        FirstLine(buffer);
        var line := Trim(buffer[..newline.value]);
        ghost var rest := Lines(buffer[newline.value + 1..]);
        buffer := buffer[newline.value + 1..];
        newline := IndexOf(buffer, NEWLINE);
        if line == [] {
          assert [] + rest == rest;
          continue;
        }
        assert ([line] + rest)[0] == line && ([line] + rest)[1..] == rest;
        ghost var before := View();
        OnMessage(read(line));
        OneMessageApart(call, before, read(line), "");
        if settled.Some? {
          SettledIgnoresLines(call, read, View().(buffer := ""), rest);
          BufferIsApart(call, read, start, Lines(start.buffer), "");
          EndsAlike(call, read, old(View()), chunk, start);
          return;
        }
      }
      NoLineLeft(buffer);
      BufferIsApart(call, read, start, Lines(start.buffer), "");
      EndsAlike(call, read, old(View()), chunk, start);
    }
  }

  lemma EndsAlike(call: Call, read: string -> Message, c: Client, chunk: string, start: Client)
    requires c.settled.None? && start == c.(buffer := c.buffer + chunk)
    ensures OnLines(call, read, start, Lines(start.buffer)).(buffer := "") == Spec.OnData(call, read, c, chunk).(buffer := "")
    ensures Spec.OnData(call, read, c, chunk).buffer == Rest(start.buffer)
  {
    hide Lines, Rest, Spec.OnMessage;
    BufferIsApart(call, read, c, Lines(start.buffer), start.buffer);
  }

  lemma NextRequest(read: string -> Note, chunks: seq<string>, chunk: string)
    ensures OnAllChunks(read, WAITING, chunks + [chunk]) == OnChunk(read, OnAllChunks(read, WAITING, chunks), chunk)
  {
    hide OnChunk;
    assert (chunks + [chunk])[..|chunks|] == chunks;
  }

  class RequestChannel {
    const read: string -> Note
    var buffer: string
    var settled: Option<Wrappers.Result<(), Failure>>
    var accepted: bool
    var closed: bool
    /** The updates handed to the owner of the channel. */
    var updates: seq<string>
    ghost var chunks: seq<string>

    ghost predicate Valid()
      reads this
    {
      View() == OnAllChunks(read, WAITING, chunks)
    }

    function View(): Channel
      reads this
    {
      Channel(buffer, settled, accepted, closed, updates)
    }

    constructor (theReader: string -> Note)
      ensures Valid() && View() == WAITING && read == theReader && chunks == []
    {
      read := theReader;
      buffer, settled, accepted, closed, updates := "", None, false, false, [];
      chunks := [];
    }

    method FinishBeforeAccept(code: Failure)
      modifies `settled
      ensures View() == Spec.FinishBeforeAccept(old(View()), code)
    {
      if settled.None? { settled := Some(Err(code)); }
    }

    method OnNote(note: Note) returns (stops: bool)
      modifies `settled, `accepted, `updates
      ensures (View(), stops) == Spec.OnNote(old(View()), note)
    {
      stops := true;
      match note {
        case Garbage => FinishBeforeAccept(MalformedResponse);
        case Update(update) =>
          if !accepted {
            FinishBeforeAccept(OutOfOrderUpdate);
          } else {
            updates := updates + [update];
            stops := false;
          }
        case Response(mine, failed, valid) =>
          if !mine {
            FinishBeforeAccept(MismatchedId);
          } else if failed {
            FinishBeforeAccept(RemoteError);
          } else if !valid {
            FinishBeforeAccept(InvalidResult);
          } else if settled.Some? {
            FinishBeforeAccept(DuplicateId);
          } else {
            settled, accepted := Some(Ok(())), true;
            stops := false;
          }
      }
    }

    /**
     * One more chunk: unless an update stands behind a bad line, the updates handed on are those
     * behind the acceptance in the whole stream.
     */
    method OnData(chunk: string)
      requires Valid()
      modifies this
      ensures Valid() && chunks == old(chunks) + [chunk]
      ensures
        var lines := Lines(Flatten(chunks));
        (lines != [] && AcceptsRequest(read(lines[0])) ==> NoneBehind(read, lines[1..])) ==> updates == Told(read, lines)
      ensures
        var lines := Lines(Flatten(chunks));
        settled ==
          if lines == [] then None
          else if AcceptsRequest(read(lines[0])) then Some(Ok(()))
          else Some(Err(RefusalOf(read(lines[0]))))
    {
      hide Lines, OnChunk, NoneBehind, Told, AcceptsRequest, OnAllChunks, RefusalOf;
      NextRequest(read, chunks, chunk);
      Consume(chunk);
      chunks := chunks + [chunk];
      FirstLineSettles(read, chunks);
      ghost var lines := Lines(Flatten(chunks));
      if lines != [] && AcceptsRequest(read(lines[0])) ==> NoneBehind(read, lines[1..]) { EveryCutTells(read, chunks); }
    }

    /** The `data` handler: a line it does not accept makes it return, with the rest still in the buffer. */
    method Consume(chunk: string)
      modifies `buffer, `settled, `accepted, `updates
      ensures View() == OnChunk(read, old(View()), chunk)
    {
      hide Spec.OnNote, Trim, IndexOf;
      if closed || (settled.Some? && settled.value.Err?) { return; }
      buffer := buffer + chunk;
      ghost var start := Process(read, old(View()), buffer);
      BufferIsIrrelevant(read, old(View()), buffer, buffer);
      var newline := IndexOf(buffer, NEWLINE);
      while newline.Some?
        invariant newline == IndexOf(buffer, NEWLINE)
        invariant Process(read, View(), buffer) == start
        decreases |buffer|
      {
        ProcessFirst(read, View(), buffer);
        var line := Trim(buffer[..newline.value]);
        ghost var before := View();
        buffer := buffer[newline.value + 1..];
        newline := IndexOf(buffer, NEWLINE);
        if line == [] {
          BufferIsIrrelevant(read, before, buffer, buffer);
          continue;
        }
        NoteApart(before, read(line), buffer);
        var stops := OnNote(read(line));
        if stops { return; }
        BufferIsIrrelevant(read, Spec.OnNote(before, read(line)).0, buffer, buffer);
      }
    }
  }

  lemma NoteApart(c: Channel, note: Note, buffer: string)
    ensures Spec.OnNote(c.(buffer := buffer), note) == (Spec.OnNote(c, note).0.(buffer := buffer), Spec.OnNote(c, note).1)
  {
  }

  lemma {:induction false} BufferIsIrrelevant(read: string -> Note, c: Channel, s: string, buffer: string)
    ensures Process(read, c.(buffer := buffer), s) == Process(read, c, s)
    decreases |s|
  {
    if IndexOf(s, NEWLINE).Some? {
      ProcessFirst(read, c, s);
      ProcessFirst(read, c.(buffer := buffer), s);
      var i := IndexOf(s, NEWLINE).value;
      var line, rest := Trim(s[..i]), s[i + 1..];
      hide Process, Trim, IndexOf, Spec.OnNote;
      if line == [] {
        BufferIsIrrelevant(read, c, rest, buffer);
      } else {
        NoteApart(c, read(line), buffer);
        if !Spec.OnNote(c, read(line)).1 {
          BufferIsIrrelevant(read, Spec.OnNote(c, read(line)).0, rest, buffer);
        }
      }
    }
  }
}
