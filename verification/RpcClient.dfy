/**
 * The two clients that read framed replies: a command call that settles once, and a member
 * request whose channel stays open for updates after its acceptance. What a line says is a
 * parameter; parsing and validation are not part of this model.
 */
module RpcClient {
  import opened Wrappers
  import opened Text
  import opened LineFraming

  datatype Failure =
    | MalformedResponse | UnexpectedNotification | OutOfOrderAck | OutOfOrderResponse | OutOfOrderUpdate | MismatchedId
    | DuplicateId | RemoteError | InvalidResult | MismatchedSubscriptionId | OutcomeUnknown | Aborted | TimedOut
    | SocketError | SocketEnded | SocketClosed

  datatype Body = Error | Result(fitsRequest: bool, fitsSubscribe: bool, subscribed: string)

  /** What one line says to the caller of a command. */
  datatype Message = NotJson | TurnEnd(subscriptionId: string) | NotResponse | Reply(id: Option<string>, body: Body)

  datatype Call = Call(requestId: string, subscriptionId: string, waits: bool, classifyLostAck: bool)

  /** The variables of one call; a success tells whether it came with an event. */
  datatype Client = Client(
    buffer: string, primary: bool, acknowledged: bool, dispatched: bool, seen: set<string>,
    settled: Option<Wrappers.Result<bool, Failure>>)

  const OPENED := Client("", false, false, false, {}, None)

  function Settle(c: Client, r: Wrappers.Result<bool, Failure>): Client {
    if c.settled.Some? then c else c.(settled := Some(r))
  }

  function OnReply(call: Call, c: Client, id: Option<string>, body: Body): Client {
    if id.None? || (id.value != call.requestId && (!call.waits || id.value != call.subscriptionId)) then Settle(c, Err(MismatchedId))
    else if id.value in c.seen then Settle(c, Err(DuplicateId))
    else
      var seen := c.(seen := c.seen + {id.value});
      var isPrimary := id.value == call.requestId;
      if body.Error? then Settle(seen, Err(RemoteError))
      else if (isPrimary && !body.fitsRequest) || (!isPrimary && !body.fitsSubscribe) then Settle(seen, Err(InvalidResult))
      else if isPrimary then
        var answered := seen.(primary := true);
        if call.waits then answered else Settle(answered, Ok(false))
      else if body.subscribed != call.subscriptionId then Settle(seen, Err(MismatchedSubscriptionId))
      else seen.(acknowledged := true)
  }

  function OnMessage(call: Call, c: Client, m: Message): Client {
    if c.settled.Some? then c
    else
      match m
      case NotJson => Settle(c, Err(MalformedResponse))
      case NotResponse => Settle(c, Err(MalformedResponse))
      case TurnEnd(subscriptionId) =>
        if !call.waits || subscriptionId != call.subscriptionId then Settle(c, Err(UnexpectedNotification))
        else if !c.acknowledged then Settle(c, Err(OutOfOrderAck))
        else if !c.primary then Settle(c, Err(OutOfOrderResponse))
        else Settle(c, Ok(true))
      case Reply(id, body) => OnReply(call, c, id, body)
  }

  function OnLines(call: Call, read: string -> Message, c: Client, lines: seq<string>): Client
    decreases |lines|
  {
    if lines == [] then c else OnLines(call, read, OnMessage(call, c, read(lines[0])), lines[1..])
  }

  /** One chunk of the socket's data; a settled call listens no more. */
  function OnData(call: Call, read: string -> Message, c: Client, chunk: string): Client {
    if c.settled.Some? then c
    else OnLines(call, read, c, Lines(c.buffer + chunk)).(buffer := Rest(c.buffer + chunk))
  }

  function OnChunks(call: Call, read: string -> Message, c: Client, chunks: seq<string>): Client {
    if chunks == [] then c else OnData(call, read, OnChunks(call, read, c, chunks[..|chunks| - 1]), chunks[|chunks| - 1])
  }

  datatype Event = Connected | Data(chunk: string) | AbortSignal | Deadline | Broken | End | Close

  /** The request was written and its answer will not come: that is not a plain failure. */
  function Lost(call: Call, c: Client, plain: Failure): Client {
    Settle(c, Err(if call.classifyLostAck && c.dispatched then OutcomeUnknown else plain))
  }

  function OnEvent(call: Call, read: string -> Message, c: Client, e: Event): Client {
    match e
    case Connected => if c.settled.Some? then c else c.(dispatched := true)
    case Data(chunk) => OnData(call, read, c, chunk)
    case AbortSignal => Lost(call, c, Aborted)
    case Deadline => Lost(call, c, TimedOut)
    case Broken => Lost(call, c, SocketError)
    case End => Lost(call, c, SocketEnded)
    case Close => Lost(call, c, SocketClosed)
  }

  // ---------------------------------------------------------------- settled once, by the lines alone

  lemma {:induction false} SettledIgnoresLines(call: Call, read: string -> Message, c: Client, lines: seq<string>)
    requires c.settled.Some?
    ensures OnLines(call, read, c, lines) == c
    decreases |lines|
  {
    if lines != [] {
      SettledIgnoresLines(call, read, c, lines[1..]);
    }
  }

  /** Whatever happens after a call settled, its outcome stays. */
  lemma SettlesOnce(call: Call, read: string -> Message, c: Client, e: Event)
    requires c.settled.Some?
    ensures OnEvent(call, read, c, e) == c
  {
  }

  lemma {:induction false} LinesAppend(call: Call, read: string -> Message, c: Client, a: seq<string>, b: seq<string>)
    ensures OnLines(call, read, c, a + b) == OnLines(call, read, OnLines(call, read, c, a), b)
    decreases |a|
  {
    hide OnMessage;
    if a == [] {
      assert a + b == b;
    } else {
      assert (a + b)[1..] == a[1..] + b;
      LinesAppend(call, read, OnMessage(call, c, read(a[0])), a[1..], b);
    }
  }

  lemma {:induction false} BufferIsApart(call: Call, read: string -> Message, c: Client, lines: seq<string>, buffer: string)
    ensures OnLines(call, read, c.(buffer := buffer), lines) == OnLines(call, read, c, lines).(buffer := buffer)
    decreases |lines|
  {
    if lines != [] {
      var m := read(lines[0]);
      BufferIsApart(call, read, OnMessage(call, c, m), lines[1..], buffer);
      OneMessageApart(call, c, m, buffer);
      hide OnMessage;
    }
  }

  lemma OneMessageApart(call: Call, c: Client, m: Message, buffer: string)
    ensures OnMessage(call, c.(buffer := buffer), m) == OnMessage(call, c, m).(buffer := buffer)
  {
    hide OnReply;
    if m.Reply? {
      ReplyApart(call, c, m.id, m.body, buffer);
    }
  }

  lemma ReplyApart(call: Call, c: Client, id: Option<string>, body: Body, buffer: string)
    ensures OnReply(call, c.(buffer := buffer), id, body) == OnReply(call, c, id, body).(buffer := buffer)
  {
  }

  /** However the stream is cut, a call is where the lines of the whole stream take it; an unsettled one keeps the unfinished tail. */
  lemma {:induction false} OutcomeIgnoresChunks(call: Call, read: string -> Message, chunks: seq<string>)
    ensures
      var c, whole := OnChunks(call, read, OPENED, chunks), OnLines(call, read, OPENED, Lines(Flatten(chunks)));
      && c.(buffer := "") == whole.(buffer := "")
      && (c.settled.None? ==> c.buffer == Rest(Flatten(chunks)))
  {
    hide OnMessage, Lines, Rest;
    if chunks == [] {
      NoLineLeft("");
    } else {
      var before, last := chunks[..|chunks| - 1], chunks[|chunks| - 1];
      var c, stream := OnChunks(call, read, OPENED, before), Flatten(before);
      OutcomeIgnoresChunks(call, read, before);
      MoreStream(stream, last);
      LinesAppend(call, read, OPENED, Lines(stream), Lines(Rest(stream) + last));
      var whole := OnLines(call, read, OPENED, Lines(stream));
      if c.settled.Some? {
        SettledIgnoresLines(call, read, whole, Lines(Rest(stream) + last));
      } else {
        BufferIsApart(call, read, whole, Lines(Rest(stream) + last), c.buffer);
        assert c == whole.(buffer := c.buffer);
      }
    }
  }

  // ---------------------------------------------------------------- when a call succeeds

  predicate Answers(call: Call, m: Message) {
    m.Reply? && m.id == Some(call.requestId) && m.body.Result? && m.body.fitsRequest
  }

  predicate Acknowledges(call: Call, m: Message) {
    && m.Reply? && m.id == Some(call.subscriptionId) && m.body.Result? && m.body.fitsSubscribe
    && m.body.subscribed == call.subscriptionId
  }

  predicate Succeeds(c: Client) {
    c.settled.Some? && c.settled.value.Ok?
  }

  /** A plain call succeeds exactly if the first line answers it. */
  lemma PlainCallSucceedsIff(call: Call, read: string -> Message, lines: seq<string>)
    requires !call.waits
    ensures Succeeds(OnLines(call, read, OPENED, lines)) <==> lines != [] && Answers(call, read(lines[0]))
  {
    if lines != [] {
      var c := OnMessage(call, OPENED, read(lines[0]));
      SettledIgnoresLines(call, read, c, lines[1..]);
    }
  }

  /** The answer and the acknowledgement, in either order, and then the event: nothing else makes an awaited call succeed. */
  lemma AwaitedCallSucceedsIff(call: Call, read: string -> Message, lines: seq<string>)
    requires call.waits && call.requestId != call.subscriptionId
    ensures Succeeds(OnLines(call, read, OPENED, lines))
      <==> |lines| >= 3
           && ((Answers(call, read(lines[0])) && Acknowledges(call, read(lines[1])))
               || (Acknowledges(call, read(lines[0])) && Answers(call, read(lines[1]))))
           && read(lines[2]) == TurnEnd(call.subscriptionId)
  {
    if |lines| >= 1 {
      var c1 := OnMessage(call, OPENED, read(lines[0]));
      FirstOfTwo(call, read(lines[0]));
      hide OnMessage;
      assert OnLines(call, read, OPENED, lines) == OnLines(call, read, c1, lines[1..]);
      if c1.settled.Some? {
        SettledIgnoresLines(call, read, c1, lines[1..]);
      } else if |lines| >= 2 {
        var c2 := OnMessage(call, c1, read(lines[1]));
        SecondOfTwo(call, c1, read(lines[1]));
        assert lines[1..][1..] == lines[2..];
        assert OnLines(call, read, c1, lines[1..]) == OnLines(call, read, c2, lines[2..]);
        if c2.settled.Some? {
          SettledIgnoresLines(call, read, c2, lines[2..]);
        } else if |lines| >= 3 {
          var c3 := OnMessage(call, c2, read(lines[2]));
          ThirdEnds(call, c2, read(lines[2]));
          assert lines[2..][1..] == lines[3..];
          assert OnLines(call, read, c2, lines[2..]) == OnLines(call, read, c3, lines[3..]);
          SettledIgnoresLines(call, read, c3, lines[3..]);
        }
      }
    }
  }

  lemma FirstOfTwo(call: Call, m: Message)
    requires call.waits && call.requestId != call.subscriptionId
    ensures
      var c := OnMessage(call, OPENED, m);
      if Answers(call, m) then c == OPENED.(primary := true, seen := {call.requestId})
      else if Acknowledges(call, m) then c == OPENED.(acknowledged := true, seen := {call.subscriptionId})
      else c.settled.Some? && c.settled.value.Err?
    ensures !(Answers(call, m) && Acknowledges(call, m))
  {
  }

  lemma SecondOfTwo(call: Call, c: Client, m: Message)
    requires call.waits && call.requestId != call.subscriptionId
    requires c == OPENED.(primary := true, seen := {call.requestId}) || c == OPENED.(acknowledged := true, seen := {call.subscriptionId})
    ensures
      var c' := OnMessage(call, c, m);
      if (c.primary && Acknowledges(call, m)) || (c.acknowledged && Answers(call, m))
      then c' == OPENED.(primary := true, acknowledged := true, seen := {call.requestId, call.subscriptionId})
      else c'.settled.Some? && c'.settled.value.Err?
    ensures !(Answers(call, m) && Acknowledges(call, m))
  {
  }

  lemma ThirdEnds(call: Call, c: Client, m: Message)
    requires call.waits && c == OPENED.(primary := true, acknowledged := true, seen := {call.requestId, call.subscriptionId})
    ensures OnMessage(call, c, m).settled.Some?
    ensures Succeeds(OnMessage(call, c, m)) <==> m == TurnEnd(call.subscriptionId)
  {
  }

  /** What a loss is called where the outcome is not in doubt. */
  function PlainLoss(e: Event): Failure {
    match e
    case Deadline => TimedOut
    case Broken => SocketError
    case End => SocketEnded
    case Close => SocketClosed
    case _ => Aborted
  }

  /** An outcome is reported as unknown exactly when the request had been written and the call asked for that distinction; else by what happened. */
  lemma LossIsUnknownIff(call: Call, read: string -> Message, c: Client, e: Event)
    requires c.settled.None? && !e.Data? && !e.Connected?
    ensures OnEvent(call, read, c, e).settled == Some(Err(OutcomeUnknown)) <==> call.classifyLostAck && c.dispatched
    ensures !(call.classifyLostAck && c.dispatched) ==> OnEvent(call, read, c, e).settled == Some(Err(PlainLoss(e)))
    ensures OnEvent(call, read, c, Connected).dispatched && OnEvent(call, read, c, Connected).settled.None?
  {
  }

  // ---------------------------------------------------------------- the channel of a member request

  /** What one line says on a member request's channel. */
  datatype Note = Garbage | Update(update: string) | Response(mine: bool, failed: bool, valid: bool)

  /** The variables of one channel; `updates` are those handed to its owner. */
  datatype Channel = Channel(
    buffer: string, settled: Option<Wrappers.Result<(), Failure>>, accepted: bool, closed: bool, updates: seq<string>)

  const WAITING := Channel("", None, false, false, [])

  function FinishBeforeAccept(c: Channel, code: Failure): Channel {
    if c.settled.Some? then c else c.(settled := Some(Err(code)))
  }

  /** The channel after one line, and whether its handler returns without looking at the next. */
  function OnNote(c: Channel, note: Note): (Channel, bool) {
    match note
    case Garbage => (FinishBeforeAccept(c, MalformedResponse), true)
    case Update(update) => if c.accepted then (c.(updates := c.updates + [update]), false) else (FinishBeforeAccept(c, OutOfOrderUpdate), true)
    case Response(mine, failed, valid) =>
      if !mine then (FinishBeforeAccept(c, MismatchedId), true)
      else if failed then (FinishBeforeAccept(c, RemoteError), true)
      else if !valid then (FinishBeforeAccept(c, InvalidResult), true)
      else if c.settled.Some? then (FinishBeforeAccept(c, DuplicateId), true)
      else (c.(settled := Some(Ok(())), accepted := true), false)
  }

  /** Nobody listens to the socket any more. */
  predicate Over(c: Channel) {
    c.closed || (c.settled.Some? && c.settled.value.Err?)
  }

  /** The handler's loop over `s`, which becomes the buffer where it returns. */
  function Process(read: string -> Note, c: Channel, s: string): Channel
    decreases |s|
  {
    var i := IndexOf(s, NEWLINE);
    if i.None? then c.(buffer := s)
    else
      var line, rest := Trim(s[..i.value]), s[i.value + 1..];
      if line == [] then Process(read, c, rest)
      else
        var (c', stops) := OnNote(c, read(line));
        if stops then c'.(buffer := rest) else Process(read, c', rest)
  }

  function OnChunk(read: string -> Note, c: Channel, chunk: string): Channel {
    if Over(c) then c else Process(read, c, c.buffer + chunk)
  }

  function UpdatesOf(read: string -> Note, lines: seq<string>): seq<string> {
    if lines == [] then []
    else UpdateIn(read(lines[0])) + UpdatesOf(read, lines[1..])
  }

  lemma Associative<T>(a: seq<T>, b: seq<T>, c: seq<T>)
    ensures a + b + c == a + (b + c)
  {
  }

  function UpdateIn(note: Note): seq<string> {
    if note.Update? then [note.update] else []
  }

  lemma {:induction false} UpdatesAppend(read: string -> Note, a: seq<string>, b: seq<string>)
    ensures UpdatesOf(read, a + b) == UpdatesOf(read, a) + UpdatesOf(read, b)
    decreases |a|
  {
    if a == [] {
      assert a + b == b;
    } else {
      assert (a + b)[1..] == a[1..] + b && (a + b)[0] == a[0];
      UpdatesAppend(read, a[1..], b);
      Associative(UpdateIn(read(a[0])), UpdatesOf(read, a[1..]), UpdatesOf(read, b));
      hide UpdateIn;
    }
  }

  predicate Open(c: Channel) {
    c.accepted && !c.closed && c.settled == Some(Ok(()))
  }

  lemma NoteWhenOpen(c: Channel, note: Note)
    requires Open(c)
    ensures OnNote(c, note).0 == c.(updates := c.updates + UpdateIn(note))
    ensures OnNote(c, note).1 <==> !note.Update?
  {
    assert c.updates + [] == c.updates;
  }

  /** The handler on lines instead of text: the channel, and the lines it did not get to. */
  function Walk(read: string -> Note, c: Channel, lines: seq<string>): (Channel, seq<string>)
    decreases |lines|
  {
    if lines == [] then (c, [])
    else
      var (c', stops) := OnNote(c, read(lines[0]));
      if stops then (c', lines[1..]) else Walk(read, c', lines[1..])
  }

  predicate Walked(walked: (Channel, seq<string>), processed: Channel, s: string) {
    && processed == walked.0.(buffer := processed.buffer)
    && Lines(processed.buffer) == walked.1 && Rest(processed.buffer) == Rest(s)
  }

  /** The loop over the text does just that, and leaves the lines it did not get to in the buffer. */
  lemma {:induction false} ProcessWalks(read: string -> Note, c: Channel, s: string)
    ensures Walked(Walk(read, c, Lines(s)), Process(read, c, s), s)
    decreases |s|
  {
    if IndexOf(s, NEWLINE).None? {
      NoLineLeft(s);
    } else {
      FirstLine(s);
      var i := IndexOf(s, NEWLINE).value;
      var line, rest := Trim(s[..i]), s[i + 1..];
      hide Lines, Rest, Trim, IndexOf, OnNote;
      ProcessFirst(read, c, s);
      if line == [] {
        assert [] + Lines(rest) == Lines(rest);
        ProcessWalks(read, c, rest);
        hide Process, Walk;
      } else {
        assert Lines(s)[0] == line && Lines(s)[1..] == Lines(rest);
        if !OnNote(c, read(line)).1 {
          ProcessWalks(read, OnNote(c, read(line)).0, rest);
        }
        hide Process;
      }
    }
  }

  lemma ProcessFirst(read: string -> Note, c: Channel, s: string)
    requires IndexOf(s, NEWLINE).Some?
    ensures
      var i := IndexOf(s, NEWLINE).value;
      var line, rest := Trim(s[..i]), s[i + 1..];
      Process(read, c, s) ==
        if line == [] then Process(read, c, rest)
        else if OnNote(c, read(line)).1 then OnNote(c, read(line)).0.(buffer := rest)
        else Process(read, OnNote(c, read(line)).0, rest)
  {
    hide OnNote, Trim;
  }

  lemma {:induction false} WalkConserves(read: string -> Note, c: Channel, lines: seq<string>)
    requires Open(c)
    ensures
      var (c', left) := Walk(read, c, lines);
      Open(c') && c'.updates + UpdatesOf(read, left) == c.updates + UpdatesOf(read, lines)
    decreases |lines|
  {
    if lines != [] {
      NoteWhenOpen(c, read(lines[0]));
      hide OnNote;
      if read(lines[0]).Update? {
        WalkConserves(read, OnNote(c, read(lines[0])).0, lines[1..]);
        Associative(c.updates, UpdateIn(read(lines[0])), UpdatesOf(read, lines[1..]));
      } else {
        assert c.updates + [] == c.updates && [] + UpdatesOf(read, lines[1..]) == UpdatesOf(read, lines[1..]);
      }
    }
  }

  /**
   * On an accepted channel no update is lost or made up: each was handed on or is in a line
   * still in the buffer. So all were handed on exactly if no complete line left in the buffer
   * is an update.
   */
  lemma UpdatesAreConserved(read: string -> Note, c: Channel, s: string)
    requires Open(c)
    ensures
      var c' := Process(read, c, s);
      && Open(c') && c'.updates + UpdatesOf(read, Lines(c'.buffer)) == c.updates + UpdatesOf(read, Lines(s))
      && Rest(c'.buffer) == Rest(s)
      && (c'.updates == c.updates + UpdatesOf(read, Lines(s)) <==> UpdatesOf(read, Lines(c'.buffer)) == [])
  {
    ProcessWalks(read, c, s);
    WalkConserves(read, c, Lines(s));
    hide Process, Walk, Lines, Rest, UpdatesOf;
    var c' := Process(read, c, s);
    var left, whole := UpdatesOf(read, Lines(c'.buffer)), c.updates + UpdatesOf(read, Lines(s));
    assert c'.updates + left == whole && |c'.updates| + |left| == |whole|;
    if left == [] { assert c'.updates + [] == c'.updates; }
  }

  /** No update stands behind a line that is not one. */
  predicate NoneBehind(read: string -> Note, lines: seq<string>) {
    forall i, j | 0 <= i < j < |lines| && read(lines[j]).Update? :: read(lines[i]).Update?
  }

  lemma {:induction false} NoUpdatesIff(read: string -> Note, lines: seq<string>)
    ensures UpdatesOf(read, lines) == [] <==> forall k | 0 <= k < |lines| :: !read(lines[k]).Update?
    decreases |lines|
  {
    if lines != [] {
      NoUpdatesIff(read, lines[1..]);
      assert UpdateIn(read(lines[0])) == [] <==> !read(lines[0]).Update?;
      hide UpdateIn;
      if UpdatesOf(read, lines) == [] {
        assert |UpdatesOf(read, lines)| == |UpdateIn(read(lines[0]))| + |UpdatesOf(read, lines[1..])|;
        forall k | 0 <= k < |lines| ensures !read(lines[k]).Update? {
          if k > 0 { assert lines[k] == lines[1..][k - 1]; }
        }
      } else if UpdateIn(read(lines[0])) == [] {
        assert UpdatesOf(read, lines[1..]) != [];
        var k :| 0 <= k < |lines[1..]| && read(lines[1..][k]).Update?;
        assert lines[k + 1] == lines[1..][k];
      }
    }
  }

  lemma NoneBehindUpdate(read: string -> Note, lines: seq<string>)
    requires lines != []
    ensures NoneBehind(read, lines) <==>
      if read(lines[0]).Update? then NoneBehind(read, lines[1..]) else UpdatesOf(read, lines[1..]) == []
  {
    NoUpdatesIff(read, lines[1..]);
    hide UpdatesOf;
    var rest := lines[1..];
    assert forall k | 0 <= k < |rest| :: rest[k] == lines[k + 1];
    if read(lines[0]).Update? && NoneBehind(read, rest) {
      forall i, j | 0 <= i < j < |lines| && read(lines[j]).Update? ensures read(lines[i]).Update? {
        if i > 0 { assert lines[i] == rest[i - 1] && lines[j] == rest[j - 1]; }
      }
    }
    assert forall j | 0 < j < |lines| :: lines[j] == rest[j - 1];
  }

  /** The lines not got to hold no update exactly if none stood behind a line that is not one; they are the last ones. */
  lemma {:induction false} WalkLeaves(read: string -> Note, c: Channel, lines: seq<string>)
    requires Open(c)
    ensures
      var left := Walk(read, c, lines).1;
      |left| <= |lines| && left == lines[|lines| - |left|..] && (UpdatesOf(read, left) == [] <==> NoneBehind(read, lines))
    decreases |lines|
  {
    if lines != [] {
      NoteWhenOpen(c, read(lines[0]));
      NoneBehindUpdate(read, lines);
      hide OnNote, NoneBehind, UpdatesOf;
      if read(lines[0]).Update? {
        WalkLeaves(read, OnNote(c, read(lines[0])).0, lines[1..]);
      }
    }
  }

  /** The condition on the lines read under which one run of the handler hands on all their updates. */
  lemma AllAreHandedOnIff(read: string -> Note, c: Channel, s: string)
    requires Open(c)
    ensures Process(read, c, s).updates == c.updates + UpdatesOf(read, Lines(s)) <==> NoneBehind(read, Lines(s))
  {
    UpdatesAreConserved(read, c, s);
    ProcessWalks(read, c, s);
    WalkLeaves(read, c, Lines(s));
    hide Process, Walk, Lines, Rest, UpdatesOf, NoneBehind;
  }

  // ---------------------------------------------------------------- a channel chunk by chunk

  function OnAllChunks(read: string -> Note, c: Channel, chunks: seq<string>): Channel {
    if chunks == [] then c else OnChunk(read, OnAllChunks(read, c, chunks[..|chunks| - 1]), chunks[|chunks| - 1])
  }

  /** Where an open channel is after a stream, however it was cut: `left` are the lines it did not get to. */
  predicate Through(read: string -> Note, c: Channel, c': Channel, stream: seq<string>, left: seq<string>) {
    && Open(c') && c'.updates + UpdatesOf(read, left) == c.updates + UpdatesOf(read, stream)
    && |left| <= |stream| && left == stream[|stream| - |left|..]
    && (NoneBehind(read, stream) ==> UpdatesOf(read, left) == [])
  }

  lemma {:induction false} BehindLess(read: string -> Note, a: seq<string>, k: nat, b: seq<string>)
    requires k <= |a| && NoneBehind(read, a + b)
    ensures NoneBehind(read, a) && NoneBehind(read, a[k..] + b)
  {
    assert forall i | 0 <= i < |a| :: (a + b)[i] == a[i];
    assert forall i | 0 <= i < |a[k..] + b| :: (a[k..] + b)[i] == (a + b)[k + i];
  }

  lemma LastOnes(a: seq<string>, k: nat, b: seq<string>, left: seq<string>)
    requires k <= |a| && |left| <= |a[k..] + b| && left == (a[k..] + b)[|a[k..] + b| - |left|..]
    ensures |left| <= |a + b| && left == (a + b)[|a + b| - |left|..]
  {
    assert a[k..] + b == (a + b)[k..];
  }

  /** One more run of the handler, on the lines left before and those that came since. */
  lemma WalksOn(read: string -> Note, c: Channel, c': Channel, stream: seq<string>, left: seq<string>, more: seq<string>)
    requires Through(read, c, c', stream, left)
    ensures
      var (c'', left') := Walk(read, c', left + more);
      Through(read, c, c'', stream + more, left')
  {
    hide Walk, UpdatesOf, NoneBehind, Open;
    WalkConserves(read, c', left + more);
    WalkLeaves(read, c', left + more);
    UpdatesAppend(read, left, more);
    UpdatesAppend(read, stream, more);
    LastOnes(stream, |stream| - |left|, more, Walk(read, c', left + more).1);
    if NoneBehind(read, stream + more) {
      BehindLess(read, stream, |stream| - |left|, more);
    }
    Associative(c'.updates, UpdatesOf(read, left), UpdatesOf(read, more));
    Associative(c.updates, UpdatesOf(read, stream), UpdatesOf(read, more));
  }

  /** However the stream is cut, no update is lost or made up, and where none stands behind a bad line, none is held back. */
  lemma {:induction false} UpdatesGoThrough(read: string -> Note, c: Channel, chunks: seq<string>)
    requires Open(c) && c.buffer == ""
    ensures
      var c', stream := OnAllChunks(read, c, chunks), Flatten(chunks);
      Through(read, c, c', Lines(stream), Lines(c'.buffer)) && Rest(c'.buffer) == Rest(stream)
  {
    if chunks == [] {
      NoLineLeft("");
    } else {
      var before, last := chunks[..|chunks| - 1], chunks[|chunks| - 1];
      var c', stream := OnAllChunks(read, c, before), Flatten(before);
      UpdatesGoThrough(read, c, before);
      MoreStream(stream, last);
      MoreStream(c'.buffer, last);
      ProcessWalks(read, c', c'.buffer + last);
      ThroughIsOpen(read, c, c', Lines(stream), Lines(c'.buffer));
      hide Lines, Rest, Through, Process, Walk;
      WalksOn(read, c, c', Lines(stream), Lines(c'.buffer), Lines(Rest(stream) + last));
      BufferIsElsewhere(read, c, Walk(read, c', Lines(c'.buffer + last)), OnChunk(read, c', last), Lines(stream + last));
    }
  }

  lemma ThroughIsOpen(read: string -> Note, c: Channel, c': Channel, stream: seq<string>, left: seq<string>)
    requires Through(read, c, c', stream, left)
    ensures Open(c') && !Over(c')
  {
  }

  lemma BufferIsElsewhere(read: string -> Note, c: Channel, walked: (Channel, seq<string>), c': Channel, stream: seq<string>)
    requires Through(read, c, walked.0, stream, walked.1) && c' == walked.0.(buffer := c'.buffer)
    ensures Through(read, c, c', stream, walked.1)
  {
  }

  // ---------------------------------------------------------------- a channel from the beginning

  const ACCEPTED := WAITING.(settled := Some(Ok(())), accepted := true)

  predicate AcceptsRequest(note: Note) {
    note == Response(true, false, true)
  }

  /** What a request is refused with by a first line that does not accept it. */
  function RefusalOf(note: Note): Failure {
    match note
    case Garbage => MalformedResponse
    case Update(_) => OutOfOrderUpdate
    case Response(mine, failed, _) => if !mine then MismatchedId else if failed then RemoteError else InvalidResult
  }

  /** Where a new channel is after the lines of a stream, however it was cut: `left` are the lines it did not get to. */
  predicate Began(read: string -> Note, c: Channel, lines: seq<string>, left: seq<string>) {
    if lines == [] then c.settled.None? && !c.accepted && !c.closed && c.updates == [] && left == []
    else if AcceptsRequest(read(lines[0])) then Through(read, ACCEPTED, c, lines[1..], left)
    else c.settled == Some(Err(RefusalOf(read(lines[0])))) && !c.accepted && c.updates == []
  }

  lemma FirstNote(read: string -> Note, c: Channel, lines: seq<string>)
    requires c.settled.None? && !c.accepted && !c.closed && c.updates == [] && lines != []
    ensures
      var (c', left) := Walk(read, c, lines);
      Began(read, c', lines, left)
  {
    var note, first := read(lines[0]), OnNote(c, read(lines[0])).0;
    if AcceptsRequest(note) {
      assert first == ACCEPTED.(buffer := c.buffer) && !OnNote(c, note).1;
      assert Through(read, ACCEPTED, first, [], []) by { assert NoneBehind(read, []); }
      hide OnNote, Through;
      WalksOn(read, ACCEPTED, first, [], [], lines[1..]);
      assert [] + lines[1..] == lines[1..];
    }
  }

  lemma NextNotes(read: string -> Note, c: Channel, lines: seq<string>, left: seq<string>, more: seq<string>)
    requires Began(read, c, lines, left) && !Over(c)
    ensures
      var (c', left') := Walk(read, c, left + more);
      Began(read, c', lines + more, left')
  {
    if lines == [] {
      assert [] + more == more;
      if more != [] {
        hide Walk, Began;
        FirstNote(read, c, more);
      }
    } else {
      assert (lines + more)[0] == lines[0] && (lines + more)[1..] == lines[1..] + more;
      hide Walk, Through;
      WalksOn(read, ACCEPTED, c, lines[1..], left, more);
    }
  }

  lemma OverStays(read: string -> Note, c: Channel, lines: seq<string>, left: seq<string>, more: seq<string>)
    requires Began(read, c, lines, left) && Over(c)
    ensures Began(read, c, lines + more, left) && lines != [] && !AcceptsRequest(read(lines[0]))
  {
    assert lines != [] ==> (lines + more)[0] == lines[0];
  }

  lemma BufferElsewhere(read: string -> Note, c: Channel, buffer: string, lines: seq<string>, left: seq<string>)
    requires Began(read, c, lines, left)
    ensures Began(read, c.(buffer := buffer), lines, left)
  {
  }

  /**
   * However a stream is cut: before its first line the channel waits; a first line that does not
   * accept the request ends it without an update; behind one that does, no update is lost or made
   * up, and where none stands behind a bad line all are handed on.
   */
  lemma {:induction false} RequestGoesThrough(read: string -> Note, chunks: seq<string>)
    ensures
      var c, stream := OnAllChunks(read, WAITING, chunks), Flatten(chunks);
      && (Over(c) || Rest(c.buffer) == Rest(stream))
      && (Over(c) ==> Lines(stream) != [] && !AcceptsRequest(read(Lines(stream)[0])))
      && Began(read, c, Lines(stream), Lines(c.buffer))
  {
    if chunks == [] {
      NoLineLeft("");
    } else {
      var before, last := chunks[..|chunks| - 1], chunks[|chunks| - 1];
      var c, stream := OnAllChunks(read, WAITING, before), Flatten(before);
      RequestGoesThrough(read, before);
      MoreStream(stream, last);
      hide Lines, Rest, Began, Process, Walk;
      if Over(c) {
        OverStays(read, c, Lines(stream), Lines(c.buffer), Lines(Rest(stream) + last));
      } else {
        MoreStream(c.buffer, last);
        ProcessWalks(read, c, c.buffer + last);
        var walked := Walk(read, c, Lines(c.buffer + last));
        NextNotes(read, c, Lines(stream), Lines(c.buffer), Lines(Rest(stream) + last));
        BufferElsewhere(read, walked.0, OnChunk(read, c, last).buffer, Lines(stream + last), walked.1);
        OverByFirstLine(read, OnChunk(read, c, last), Lines(stream + last), walked.1);
      }
    }
  }

  /** Whether a request was accepted, and what it was refused with, depends on the first line of its stream alone. */
  lemma FirstLineSettles(read: string -> Note, chunks: seq<string>)
    ensures
      var lines := Lines(Flatten(chunks));
      OnAllChunks(read, WAITING, chunks).settled ==
        if lines == [] then None
        else if AcceptsRequest(read(lines[0])) then Some(Ok(()))
        else Some(Err(RefusalOf(read(lines[0]))))
  {
    hide OnAllChunks, Lines, Flatten, AcceptsRequest, RefusalOf;
    RequestGoesThrough(read, chunks);
  }

  lemma OverByFirstLine(read: string -> Note, c: Channel, lines: seq<string>, left: seq<string>)
    requires Began(read, c, lines, left)
    ensures Over(c) ==> lines != [] && !AcceptsRequest(read(lines[0]))
  {
  }

  // ---------------------------------------------------------------- chunks that make a difference

  /** The cut with one line in each chunk. */
  function LineByLine(s: string): seq<string> {
    var i := IndexOf(s, NEWLINE);
    if i.None? then [s] else [s[..i.value + 1]] + LineByLine(s[i.value + 1..])
  }

  lemma {:induction false} FlattenFirst(first: string, chunks: seq<string>)
    ensures Flatten([first] + chunks) == first + Flatten(chunks)
  {
    if chunks == [] {
      assert ([first] + chunks)[..0] == [];
    } else {
      var n := |chunks|;
      assert ([first] + chunks)[..n] == [first] + chunks[..n - 1] && ([first] + chunks)[n] == chunks[n - 1];
      FlattenFirst(first, chunks[..n - 1]);
    }
  }

  lemma {:induction false} FirstChunk(read: string -> Note, c: Channel, first: string, chunks: seq<string>)
    ensures OnAllChunks(read, c, [first] + chunks) == OnAllChunks(read, OnChunk(read, c, first), chunks)
  {
    hide OnChunk;
    if chunks == [] {
      assert ([first] + chunks)[..0] == [];
      assert OnAllChunks(read, c, []) == c;
    } else {
      var n := |chunks|;
      assert ([first] + chunks)[..n] == [first] + chunks[..n - 1] && ([first] + chunks)[n] == chunks[n - 1];
      FirstChunk(read, c, first, chunks[..n - 1]);
    }
  }

  lemma {:induction false} LineByLineIsACut(s: string)
    ensures Flatten(LineByLine(s)) == s
    decreases |s|
  {
    hide IndexOf;
    var i := IndexOf(s, NEWLINE);
    if i.None? {
      assert [s][..0] == [] && Flatten([s]) == Flatten([]) + s;
    } else {
      var first, rest := s[..i.value + 1], s[i.value + 1..];
      assert s == first + rest && LineByLine(s) == [first] + LineByLine(rest);
      hide LineByLine, Flatten;
      LineByLineIsACut(rest);
      FlattenFirst(first, LineByLine(rest));
    }
  }

  lemma AtMostOneIsHandedOn(read: string -> Note, c: Channel, s: string)
    requires Open(c) && |Lines(s)| <= 1
    ensures Process(read, c, s).updates == c.updates + UpdatesOf(read, Lines(s))
  {
    hide Lines, Process;
    AllAreHandedOnIff(read, c, s);
  }

  lemma OneLineConsumed(read: string -> Note, c: Channel, s: string)
    requires IndexOf(s, NEWLINE) == Some(|s| - 1)
    ensures Process(read, c, s).buffer == ""
  {
    assert s[|s| - 1 + 1..] == "" && IndexOf("", NEWLINE).None?;
    hide OnNote, Trim, IndexOf;
    assert forall d: Channel :: Process(read, d, "") == d.(buffer := "");
  }

  /** Line by line, no line is left in the buffer of a channel somebody listens to. */
  lemma {:induction false} LineByLineLeavesNothing(read: string -> Note, c: Channel, s: string)
    requires c.buffer == ""
    ensures
      var c' := OnAllChunks(read, c, LineByLine(s));
      Over(c') || Lines(c'.buffer) == []
    decreases |s|
  {
    var i := IndexOf(s, NEWLINE);
    if i.None? {
      NoLineLeft(s);
      assert c.buffer + s == s;
      assert OnAllChunks(read, c, [s]) == OnChunk(read, OnAllChunks(read, c, [s][..0]), s) && [s][..0] == [];
    } else {
      var line, rest := s[..i.value + 1], s[i.value + 1..];
      FirstLine(s);
      assert line[..i.value] == s[..i.value] && c.buffer + line == line;
      IndexIsFirst(line, NEWLINE, i.value);
      OneLineConsumed(read, c, line);
      hide Lines, Rest, Process, IndexOf, Trim;
      LineByLineLeavesNothing(read, OnChunk(read, c, line), rest);
      FirstChunk(read, c, line, LineByLine(rest));
    }
  }

  /** All cuts of the stream hand on the same updates. */
  ghost predicate CutsAgree(read: string -> Note, c: Channel, stream: string) {
    forall a, b | Flatten(a) == stream && Flatten(b) == stream ::
      OnAllChunks(read, c, a).updates == OnAllChunks(read, c, b).updates
  }

  lemma OneChunk(read: string -> Note, c: Channel, s: string)
    ensures Flatten([s]) == s && OnAllChunks(read, c, [s]) == OnChunk(read, c, s)
  {
    hide OnChunk;
    assert [s][..0] == [] && Flatten([s]) == Flatten([]) + s;
    assert OnAllChunks(read, c, [s]) == OnChunk(read, OnAllChunks(read, c, [s][..0]), s);
  }

  /** An open channel has handed on everything exactly if nothing of it is left. */
  lemma NothingLeft(read: string -> Note, c: Channel, c': Channel, stream: seq<string>, left: seq<string>)
    requires Through(read, c, c', stream, left)
    ensures UpdatesOf(read, left) == [] <==> c'.updates == c.updates + UpdatesOf(read, stream)
  {
    var held, whole := UpdatesOf(read, left), c.updates + UpdatesOf(read, stream);
    hide UpdatesOf, NoneBehind;
    assert c'.updates + held == whole && |c'.updates| + |held| == |whole|;
    if held == [] { assert c'.updates + [] == c'.updates; }
  }

  /** The chunks make no difference to an open channel exactly if no update stands behind a line that is not one. */
  lemma UpdatesIgnoreChunksIff(read: string -> Note, c: Channel, stream: string)
    requires Open(c) && c.buffer == ""
    ensures CutsAgree(read, c, stream) <==> NoneBehind(read, Lines(stream))
  {
    hide Lines, Process, UpdatesOf, NoneBehind, Through;
    if NoneBehind(read, Lines(stream)) {
      forall a, b | Flatten(a) == stream && Flatten(b) == stream
        ensures OnAllChunks(read, c, a).updates == OnAllChunks(read, c, b).updates
      {
        EveryCutHandsOn(read, c, a);
        EveryCutHandsOn(read, c, b);
      }
    }
    if CutsAgree(read, c, stream) {
      LineByLineHandsOn(read, c, stream);
      OneChunk(read, c, stream);
      assert c.buffer + stream == stream;
      AllAreHandedOnIff(read, c, stream);
    }
  }

  lemma EveryCutHandsOn(read: string -> Note, c: Channel, chunks: seq<string>)
    requires Open(c) && c.buffer == "" && NoneBehind(read, Lines(Flatten(chunks)))
    ensures OnAllChunks(read, c, chunks).updates == c.updates + UpdatesOf(read, Lines(Flatten(chunks)))
  {
    UpdatesGoThrough(read, c, chunks);
    hide Lines, Rest, UpdatesOf, NoneBehind;
    NothingLeft(read, c, OnAllChunks(read, c, chunks), Lines(Flatten(chunks)), Lines(OnAllChunks(read, c, chunks).buffer));
  }

  lemma LineByLineHandsOn(read: string -> Note, c: Channel, s: string)
    requires Open(c) && c.buffer == ""
    ensures Flatten(LineByLine(s)) == s && OnAllChunks(read, c, LineByLine(s)).updates == c.updates + UpdatesOf(read, Lines(s))
  {
    var c' := OnAllChunks(read, c, LineByLine(s));
    LineByLineIsACut(s);
    UpdatesGoThrough(read, c, LineByLine(s));
    LineByLineLeavesNothing(read, c, s);
    hide Lines, Rest, NoneBehind, Through;
    ThroughIsOpen(read, c, c', Lines(s), Lines(c'.buffer));
    NothingLeft(read, c, c', Lines(s), Lines(c'.buffer));
  }

  /**
   * From the beginning: the chunks make no difference to a member request exactly if its first
   * line does not accept it, or no update behind that stands behind a line that is not one.
   */
  lemma RequestIgnoresChunksIff(read: string -> Note, stream: string)
    ensures CutsAgree(read, WAITING, stream) <==>
      (Lines(stream) != [] && AcceptsRequest(read(Lines(stream)[0])) ==> NoneBehind(read, Lines(stream)[1..]))
  {
    hide Lines, Process, UpdatesOf, NoneBehind, Rest, Began;
    var lines := Lines(stream);
    if lines != [] && AcceptsRequest(read(lines[0])) && !NoneBehind(read, lines[1..]) {
      WholeHoldsBack(read, stream);
      LineByLineTellsAll(read, stream);
    } else {
      forall a, b | Flatten(a) == stream && Flatten(b) == stream
        ensures OnAllChunks(read, WAITING, a).updates == OnAllChunks(read, WAITING, b).updates
      {
        EveryCutTells(read, a);
        EveryCutTells(read, b);
      }
    }
  }

  /** The updates of a request whose acceptance is its first line. */
  function Told(read: string -> Note, lines: seq<string>): seq<string> {
    if lines != [] && AcceptsRequest(read(lines[0])) then UpdatesOf(read, lines[1..]) else []
  }

  lemma BeganTells(read: string -> Note, c: Channel, lines: seq<string>, left: seq<string>)
    requires Began(read, c, lines, left)
    requires lines != [] && AcceptsRequest(read(lines[0])) ==> UpdatesOf(read, left) == []
    ensures c.updates == Told(read, lines)
  {
    if lines != [] && AcceptsRequest(read(lines[0])) {
      NothingLeft(read, ACCEPTED, c, lines[1..], left);
    }
  }

  lemma EveryCutTells(read: string -> Note, chunks: seq<string>)
    requires
      var lines := Lines(Flatten(chunks));
      lines != [] && AcceptsRequest(read(lines[0])) ==> NoneBehind(read, lines[1..])
    ensures OnAllChunks(read, WAITING, chunks).updates == Told(read, Lines(Flatten(chunks)))
  {
    RequestGoesThrough(read, chunks);
    var c := OnAllChunks(read, WAITING, chunks);
    hide Lines, Rest, NoneBehind, Told, UpdatesOf;
    BeganTells(read, c, Lines(Flatten(chunks)), Lines(c.buffer));
  }

  lemma LineByLineTellsAll(read: string -> Note, stream: string)
    requires Lines(stream) != [] && AcceptsRequest(read(Lines(stream)[0]))
    ensures Flatten(LineByLine(stream)) == stream
    ensures OnAllChunks(read, WAITING, LineByLine(stream)).updates == UpdatesOf(read, Lines(stream)[1..])
  {
    var c := OnAllChunks(read, WAITING, LineByLine(stream));
    LineByLineIsACut(stream);
    RequestGoesThrough(read, LineByLine(stream));
    LineByLineLeavesNothing(read, WAITING, stream);
    hide Lines, Rest, Began, Over, AcceptsRequest;
    assert Lines(c.buffer) == [];
    BeganTells(read, c, Lines(stream), []);
  }

  lemma WholeHoldsBack(read: string -> Note, stream: string)
    requires
      var lines := Lines(stream);
      lines != [] && AcceptsRequest(read(lines[0])) && !NoneBehind(read, lines[1..])
    ensures Flatten([stream]) == stream
    ensures OnAllChunks(read, WAITING, [stream]).updates != UpdatesOf(read, Lines(stream)[1..])
  {
    OneChunk(read, WAITING, stream);
    ProcessWalks(read, WAITING, stream);
    assert WAITING.buffer + stream == stream;
    hide Lines, Rest, Process, NoneBehind, UpdatesOf;
    var lines := Lines(stream);
    assert Walk(read, WAITING, lines) == Walk(read, ACCEPTED, lines[1..]);
    WalkLeaves(read, ACCEPTED, lines[1..]);
    WalkConserves(read, ACCEPTED, lines[1..]);
    var (c, left) := Walk(read, ACCEPTED, lines[1..]);
    hide Walk;
    assert |c.updates| + |UpdatesOf(read, left)| == |c.updates + UpdatesOf(read, left)|;
    assert [] + UpdatesOf(read, lines[1..]) == UpdatesOf(read, lines[1..]);
  }

  lemma LinesOfOne(line: string)
    requires Says(line)
    ensures Lines(line + [NEWLINE]) == [line] && Rest(line + [NEWLINE]) == ""
  {
    TrimIsTrimmed(line);
    SplitUndoesJoin([line], "");
    assert Joined([line]) + "" == line + [NEWLINE];
    hide Trim, RawLines;
    assert Clean([line]) == [line] + Clean([line][1..]);
  }

  lemma BadLineStops(read: string -> Note, c: Channel, bad: string, left: seq<string>)
    requires Open(c) && !read(bad).Update?
    ensures Walk(read, c, [bad] + left) == (c, left)
  {
    NoteWhenOpen(c, read(bad));
    hide OnNote;
    assert c.updates + [] == c.updates && ([bad] + left)[1..] == left;
  }

  lemma StoppedByBadLine(read: string -> Note, c: Channel, bad: string, s: string, left: seq<string>)
    requires Open(c) && c.buffer == "" && !read(bad).Update? && Lines(s) == [bad] + left
    ensures
      var c' := OnChunk(read, c, s);
      Open(c') && c'.updates == c.updates && Lines(c'.buffer) == left && Rest(c'.buffer) == Rest(s)
  {
    hide Lines, Rest, Process, Walk;
    assert c.buffer + s == s;
    BadLineStops(read, c, bad, left);
    ProcessWalks(read, c, s);
  }

  predicate Says(line: string) {
    OneLine(line) && Trimmed(line) && line != []
  }

  lemma TwoLines(bad: string, good: string)
    requires Says(bad) && Says(good)
    ensures Lines(bad + [NEWLINE] + (good + [NEWLINE])) == [bad] + [good]
    ensures Lines(bad + [NEWLINE]) == [bad] + [] && Rest(bad + [NEWLINE]) == ""
  {
    LinesOfOne(bad);
    LinesOfOne(good);
    MoreStream(bad + [NEWLINE], good + [NEWLINE]);
    assert "" + (good + [NEWLINE]) == good + [NEWLINE] && [bad] + [] == [bad];
    hide Lines, Rest, Says;
  }

  /** With a bad line it does: an update behind it in the same chunk waits for the next chunk, which may never come. */
  lemma BadLineHoldsUpdatesBack(read: string -> Note, c: Channel, bad: string, good: string)
    requires Open(c) && c.buffer == "" && Says(bad) && !read(bad).Update? && Says(good) && read(good).Update?
    ensures
      var first, second := bad + [NEWLINE], good + [NEWLINE];
      && OnChunk(read, c, first + second).updates == c.updates
      && OnChunk(read, OnChunk(read, c, first), second).updates == c.updates + [read(good).update]
  {
    TwoLines(bad, good);
    hide Lines, Rest, Says, OnChunk;
    StoppedByBadLine(read, c, bad, bad + [NEWLINE] + (good + [NEWLINE]), [good]);
    StoppedByBadLine(read, c, bad, bad + [NEWLINE], []);
    HeldUpdateComes(read, c, OnChunk(read, c, bad + [NEWLINE]), good);
  }

  lemma HeldUpdateComes(read: string -> Note, c: Channel, c': Channel, good: string)
    requires Open(c') && c'.updates == c.updates && Lines(c'.buffer) == [] && Rest(c'.buffer) == ""
    requires Says(good) && read(good).Update?
    ensures OnChunk(read, c', good + [NEWLINE]).updates == c.updates + [read(good).update]
  {
    LinesOfOne(good);
    MoreStream(c'.buffer, good + [NEWLINE]);
    assert "" + (good + [NEWLINE]) == good + [NEWLINE] && [] + [good] == [good];
    hide Lines, Rest, Says, Process;
    AtMostOneIsHandedOn(read, c', c'.buffer + (good + [NEWLINE]));
    assert UpdatesOf(read, [good]) == UpdateIn(read(good)) + UpdatesOf(read, [good][1..]);
  }
}
