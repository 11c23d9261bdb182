/** How a command call ends, told from the lines of its stream: which line settles it, and as what. */
module CommandOutcomes {
  import opened Wrappers
  import opened LineFraming
  import opened RpcClient

  /** One of the earlier lines was the answer, or the acknowledgement. */
  predicate Answered(call: Call, read: string -> Message, lines: seq<string>, k: nat)
    requires k <= |lines|
  {
    exists j :: 0 <= j < k && Answers(call, read(lines[j]))
  }

  predicate Subscribed(call: Call, read: string -> Message, lines: seq<string>, k: nat)
    requires k <= |lines|
  {
    exists j :: 0 <= j < k && Acknowledges(call, read(lines[j]))
  }

  /** The line is awaited: the answer if it is still to come, or the acknowledgement. */
  predicate Fits(call: Call, read: string -> Message, lines: seq<string>, k: nat)
    requires k < |lines|
  {
    || (Answers(call, read(lines[k])) && !Answered(call, read, lines, k))
    || (call.waits && Acknowledges(call, read(lines[k])) && !Subscribed(call, read, lines, k))
  }

  predicate IsOurs(call: Call, id: Option<string>) {
    id == Some(call.requestId) || (call.waits && id == Some(call.subscriptionId))
  }

  /** What a line settles a call as that does not await it. */
  function Verdict(call: Call, answered: bool, subscribed: bool, m: Message): Wrappers.Result<bool, Failure> {
    match m
    case NotJson => Err(MalformedResponse)
    case NotResponse => Err(MalformedResponse)
    case TurnEnd(subscriptionId) =>
      if call.waits && subscriptionId == call.subscriptionId then
        if answered && subscribed then Ok(true) else Err(if subscribed then OutOfOrderResponse else OutOfOrderAck)
      else Err(UnexpectedNotification)
    case Reply(id, body) =>
      if !IsOurs(call, id) then Err(MismatchedId)
      else if (if id.value == call.requestId then answered else subscribed) then Err(DuplicateId)
      else if body.Error? then Err(RemoteError)
      else if !(if id.value == call.requestId then body.fitsRequest else body.fitsSubscribe) then Err(InvalidResult)
      else Err(MismatchedSubscriptionId)
  }

  /** A call that got what it awaited so far. */
  function Underway(call: Call, answered: bool, subscribed: bool): Client {
    OPENED.(primary := answered, acknowledged := subscribed,
            seen := (if answered then {call.requestId} else {}) + (if subscribed then {call.subscriptionId} else {}))
  }

  /** Whether the line is awaited, by what came before. */
  predicate Awaited(call: Call, answered: bool, subscribed: bool, m: Message) {
    (Answers(call, m) && !answered) || (call.waits && Acknowledges(call, m) && !subscribed)
  }

  lemma NextLine(call: Call, answered: bool, subscribed: bool, m: Message)
    requires call.waits && call.requestId != call.subscriptionId
    ensures
      var c := OnMessage(call, Underway(call, answered, subscribed), m);
      if Awaited(call, answered, subscribed, m) then
        c == Underway(call, answered || Answers(call, m), subscribed || Acknowledges(call, m))
      else c.settled == Some(Verdict(call, answered, subscribed, m))
  {
  }

  /** After `k` lines all of which were awaited. */
  predicate AllFit(call: Call, read: string -> Message, lines: seq<string>, k: nat)
    requires k <= |lines|
  {
    forall j | 0 <= j < k :: Fits(call, read, lines, j)
  }

  lemma OneMore(call: Call, read: string -> Message, lines: seq<string>, k: nat)
    requires k < |lines|
    ensures Answered(call, read, lines, k + 1) <==> Answered(call, read, lines, k) || Answers(call, read(lines[k]))
    ensures Subscribed(call, read, lines, k + 1) <==> Subscribed(call, read, lines, k) || Acknowledges(call, read(lines[k]))
    ensures AllFit(call, read, lines, k + 1) <==> AllFit(call, read, lines, k) && Fits(call, read, lines, k)
    ensures Fits(call, read, lines, k) <==>
      Awaited(call, Answered(call, read, lines, k), Subscribed(call, read, lines, k), read(lines[k]))
  {
    hide Answers, Acknowledges;
  }

  /** While every line is awaited, the call holds just what came. */
  lemma {:induction false} AwaitedSoFar(call: Call, read: string -> Message, lines: seq<string>, k: nat)
    requires call.waits && call.requestId != call.subscriptionId && k <= |lines| && AllFit(call, read, lines, k)
    ensures
      OnLines(call, read, OPENED, lines[..k]) == Underway(call, Answered(call, read, lines, k), Subscribed(call, read, lines, k))
  {
    hide OnMessage, Answers, Acknowledges, AllFit;
    if k == 0 {
      assert OnLines(call, read, OPENED, []) == OPENED;
    } else {
      OneMore(call, read, lines, k - 1);
      AwaitedSoFar(call, read, lines, k - 1);
      NextLine(call, Answered(call, read, lines, k - 1), Subscribed(call, read, lines, k - 1), read(lines[k - 1]));
      LastLine(call, read, lines, k - 1);
    }
  }

  lemma LastLine(call: Call, read: string -> Message, lines: seq<string>, k: nat)
    requires k < |lines|
    ensures OnLines(call, read, OPENED, lines[..k + 1]) == OnMessage(call, OnLines(call, read, OPENED, lines[..k]), read(lines[k]))
  {
    hide OnMessage;
    assert lines[..k + 1] == lines[..k] + [lines[k]];
    LinesAppend(call, read, OPENED, lines[..k], [lines[k]]);
    var c := OnLines(call, read, OPENED, lines[..k]);
    assert OnLines(call, read, OnMessage(call, c, read(lines[k])), [lines[k]][1..]) == OnMessage(call, c, read(lines[k]));
  }

  /**
   * The first line a waiting call does not await settles it, as the verdict on that line; until then
   * it is not settled.
   */
  lemma FirstMisfitDecides(call: Call, read: string -> Message, lines: seq<string>, k: nat)
    requires call.waits && call.requestId != call.subscriptionId && k <= |lines| && AllFit(call, read, lines, k)
    ensures k == |lines| ==> OnLines(call, read, OPENED, lines).settled.None?
    ensures k < |lines| && !Fits(call, read, lines, k) ==>
      OnLines(call, read, OPENED, lines).settled ==
        Some(Verdict(call, Answered(call, read, lines, k), Subscribed(call, read, lines, k), read(lines[k])))
  {
    hide OnMessage, Verdict, Answers, Acknowledges, AllFit;
    AwaitedSoFar(call, read, lines, k);
    if k == |lines| {
      assert lines[..k] == lines;
    } else if !Fits(call, read, lines, k) {
      OneMore(call, read, lines, k);
      NextLine(call, Answered(call, read, lines, k), Subscribed(call, read, lines, k), read(lines[k]));
      LastLine(call, read, lines, k);
      assert lines == lines[..k + 1] + lines[k + 1..];
      LinesAppend(call, read, OPENED, lines[..k + 1], lines[k + 1..]);
      SettledIgnoresLines(call, read, OnLines(call, read, OPENED, lines[..k + 1]), lines[k + 1..]);
    }
  }

  /** A plain call is settled by its first line, whatever that is. */
  lemma FirstLineDecides(call: Call, read: string -> Message, lines: seq<string>)
    requires !call.waits
    ensures OnLines(call, read, OPENED, lines).settled ==
      if lines == [] then None
      else if Answers(call, read(lines[0])) then Some(Ok(false))
      else Some(Verdict(call, false, false, read(lines[0])))
  {
    if lines != [] {
      var c := OnMessage(call, OPENED, read(lines[0]));
      SettledIgnoresLines(call, read, c, lines[1..]);
    }
  }
}
