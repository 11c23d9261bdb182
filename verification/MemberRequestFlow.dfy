/**
 * Orchestration around the registry: channels, the hard and grace timers, the
 * responder side and its one reminder. A flow step is the code between two awaits;
 * an asynchronous send is two steps with the opening of its channel in between.
 */
module MemberRequestFlow {
  import opened Wrappers
  import opened MemberRequest

  /** What the peer sends back over a request's channel. */
  datatype ChannelUpdate =
    | IdleUpdate
    | ResponseUpdate(member: Member, message: string, instructions: seq<string>)
    | OfflineUpdate
    | TimeoutUpdate

  datatype TimerAction = Hard(id: RequestId) | Grace(id: RequestId)
  datatype Timer = Timer(due: int, action: TimerAction)

  /** The entry kept for a request's channel: a placeholder on the sending side, the peer's channel on the other. */
  datatype Channel = Placeholder | Peer

  /** A send suspended until its channel opens, with the waits its closure holds. */
  datatype Opening = Opening(timeoutSeconds: nat, maxWaitSeconds: nat)

  /**
   * The flow's fields, the clock, and a record of the calls it makes on the outside:
   * grace timers armed, reminders queued, updates sent and channels closed.
   */
  datatype Flow = Flow(
    reg: Registry,
    channels: map<RequestId, Channel>,
    closes: set<RequestId>,
    completed: set<RequestId>,
    timers: map<string, Timer>,
    idleNotified: set<RequestId>,
    opening: map<RequestId, Opening>,
    now: int,
    graceArmed: seq<RequestId>,
    reminders: seq<RequestId>,
    sent: seq<(RequestId, ChannelUpdate)>,
    closed: seq<RequestId>)

  function HardKey(id: RequestId): string { "hard:" + id }

  function GraceKey(id: RequestId): string { "grace:" + id }

  function Initial(now: int): Flow {
    Flow(EMPTY, map[], {}, {}, map[], {}, map[], now, [], [], [], [])
  }

  /** The timer keys `finishRequest` clears. */
  function KeysOf(id: RequestId): set<string> {
    {id, HardKey(id), GraceKey(id)}
  }

  function FinishRequest(f: Flow, id: RequestId): Flow {
    f.(timers := f.timers - KeysOf(id),
       channels := f.channels - {id},
       closes := f.closes - {id},
       closed := f.closed + (if id in f.channels && f.channels[id].Peer? then [id] else [])
                          + (if id in f.closes then [id] else []))
  }

  // ---------------------------------------------------------------- requester side

  /** Register and start opening the channel; a refused registration throws. */
  function SendStart(f: Flow, id: RequestId, member: Member, timeout: Option<real>, maxWait: Option<real>): Flow {
    var answer := RegisterOutbound(f.reg, id, member, f.now, timeout, maxWait);
    if answer.result.Err? then f
    else
      f.(reg := answer.reg,
         opening := f.opening[id := Opening(answer.result.value.timeoutSeconds, answer.result.value.maxWaitSeconds)])
  }

  function StartHard(timers: map<string, Timer>, id: RequestId, now: int, maxWaitSeconds: nat): map<string, Timer> {
    timers[HardKey(id) := Timer(now + maxWaitSeconds * 1000, Hard(id))]
  }

  function StartGrace(timers: map<string, Timer>, id: RequestId, now: int, timeoutSeconds: nat): map<string, Timer> {
    timers[GraceKey(id) := Timer(now + timeoutSeconds * 1000, Grace(id))]
  }

  /** The channel opened: keep it, unless an update completed the request meanwhile. */
  function Linked(f: Flow, id: RequestId): Flow {
    var linked := f.(opening := f.opening - {id}, closes := f.closes + {id}, channels := f.channels[id := Placeholder]);
    if id in f.completed then FinishRequest(linked.(completed := f.completed - {id}), id) else linked
  }

  /** Then accept the request and start its hard timer. */
  function OpenDone(f: Flow, id: RequestId): Flow
    requires id in f.opening
  {
    var settled := Linked(f, id);
    var answer := AcceptOutbound(settled.reg, id, Some(f.now));
    if answer.result.Ok? then
      settled.(reg := answer.reg,
               timers := StartHard(settled.timers, id, f.now, f.opening[id].maxWaitSeconds))
    else
      settled.(reg := FailBeforeAcceptance(settled.reg, id).reg, timers := settled.timers - {GraceKey(id)})
  }

  /** The channel did not open, or its acknowledgement was lost. */
  function OpenFailed(f: Flow, id: RequestId, outcomeUnknown: bool): Flow
    requires id in f.opening
  {
    f.(opening := f.opening - {id},
       timers := f.timers - {GraceKey(id)},
       reg := if outcomeUnknown then CloseOutcomeUnknown(f.reg, id).reg else FailBeforeAcceptance(f.reg, id).reg)
  }

  /** The first idle of an accepted request arms its grace timer. */
  function IdleArrives(f: Flow, id: RequestId): Flow {
    var answer := ArmOutboundIdle(f.reg, id, Some(f.now));
    if answer.result.Ok? && !answer.result.value.pendingPublished && GraceKey(id) !in f.timers then
      f.(reg := answer.reg,
         timers := StartGrace(f.timers, id, f.now, answer.result.value.timeoutSeconds),
         graceArmed := f.graceArmed + [id])
    else f.(reg := answer.reg)
  }

  /** A terminal update is settled by the registry; whatever it said, the request's channel and timers go. */
  function Settle(f: Flow, id: RequestId, reg: Registry): Flow {
    FinishRequest(f.(reg := reg, completed := f.completed + {id}), id)
  }

  function UpdateArrives(f: Flow, id: RequestId, u: ChannelUpdate): (Flow, Emission) {
    match u
    case IdleUpdate => (IdleArrives(f, id), SILENT)
    case ResponseUpdate(member, message, instructions) =>
      var answer := ResolveResponse(f.reg, id, member, message, instructions, Some(f.now));
      (Settle(f, id, answer.reg), answer.out)
    case OfflineUpdate =>
      var answer := ResolveOffline(f.reg, id);
      (Settle(f, id, answer.reg), answer.out)
    case TimeoutUpdate =>
      var answer := ResolveTimeout(f.reg, id);
      (Settle(f, id, answer.reg), answer.out)
  }

  /** A timer runs the closure it was given. */
  function TimerFires(f: Flow, key: string): (Flow, Emission)
    requires key in f.timers
  {
    match f.timers[key].action
    case Grace(id) =>
      var answer := ResolvePendingAfterIdle(f.reg, id);
      (f.(reg := answer.reg, timers := f.timers - {GraceKey(id)}), answer.out)
    case Hard(id) =>
      var answer := ResolveTimeout(f.reg, id);
      (if answer.result.Ok? then Settle(f, id, answer.reg) else f, answer.out)
  }

  function CancelRequest(f: Flow, id: RequestId): (Flow, Emission) {
    var answer := ResolveOffline(f.reg, id);
    (FinishRequest(f.(reg := answer.reg), id), answer.out)
  }

  // ---------------------------------------------------------------- responder side

  function RegisterInboundRequest(f: Flow, id: RequestId, requester: Member, message: string, instructions: seq<string>): Flow {
    var answer := RegisterInbound(f.reg, id, requester, message, instructions);
    if answer.result.Err? then f else f.(reg := answer.reg, channels := f.channels[id := Peer])
  }

  function AcceptInboundRequest(f: Flow, id: RequestId): Flow {
    f.(reg := AcceptInbound(f.reg, id).reg)
  }

  /** Choose the inbound request, close it, and start sending the response. */
  function RespondStart(
    f: Flow, id: Option<RequestId>, member: Member, message: string, instructions: seq<string>): (Flow, Result<RequestId, FailureCode>)
  {
    var selected := SelectInbound(f.reg, id);
    if selected.Err? then (f, selected)
    else
      var answer := ResolveInboundResponse(f.reg, selected.value);
      if answer.result.Err? then (f, Err(answer.result.error))
      else
        (f.(reg := answer.reg,
            sent := f.sent + (if selected.value in f.channels
                              then [(selected.value, ResponseUpdate(member, message, instructions))] else [])),
         selected)
  }

  /** The response was written: forget and close the channel. */
  function RespondDone(f: Flow, id: RequestId): Flow {
    f.(channels := f.channels - {id},
       closed := f.closed + (if id in f.channels && f.channels[id].Peer? then [id] else []))
  }

  function RemoveInboundRequest(f: Flow, id: RequestId): Flow {
    RespondDone(f.(reg := ResolveInboundExpired(f.reg, id).reg), id)
  }

  /** The responder went idle: remind it and tell the requester, once per request. */
  function SettleInboundIdle(f: Flow, id: RequestId): Flow {
    var answer := ArmInboundIdle(f.reg, id, Some(f.now));
    if answer.result.Err? then f
    else if id in f.idleNotified then f.(reg := answer.reg)
    else
      f.(reg := answer.reg, idleNotified := f.idleNotified + {id}, reminders := f.reminders + [id],
         sent := f.sent + (if id in f.channels then [(id, IdleUpdate)] else []))
  }

  // ---------------------------------------------------------------- steps as data

  datatype Step =
    | StartSend(id: RequestId, member: Member, timeout: Option<real>, maxWait: Option<real>)
    | Opened(id: RequestId)
    | OpeningFailed(id: RequestId, outcomeUnknown: bool)
    | Updated(id: RequestId, update: ChannelUpdate)
    | Fired(key: string)
    | Cancelled(id: RequestId)
    | WithdrawnEarly(id: RequestId)
    | InboundRegistered(id: RequestId, requester: Member, message: string, instructions: seq<string>)
    | InboundAccepted(id: RequestId)
    | ResponseStarted(select: Option<RequestId>, member: Member, message: string, instructions: seq<string>)
    | ResponseSent(id: RequestId)
    | InboundRemoved(id: RequestId)
    | InboundIdle(id: RequestId)
    | Waited(op: Op)
    | Tick(elapsed: nat)

  predicate IsWait(op: Op) {
    op.DoWaitForRequest? || op.DoWaitForUpdate? || op.DoCancelGeneralWait? || op.DoCancelExactWait?
  }

  predicate Possible(f: Flow, step: Step) {
    match step
    case Opened(id) => id in f.opening
    case OpeningFailed(id, _) => id in f.opening
    case Fired(key) => key in f.timers && f.timers[key].due <= f.now
    case Waited(op) => IsWait(op)
    case _ => true
  }

  function Next(f: Flow, step: Step): (Flow, Emission)
    requires Possible(f, step)
  {
    match step
    case StartSend(id, member, timeout, maxWait) => (SendStart(f, id, member, timeout, maxWait), SILENT)
    case Opened(id) => (OpenDone(f, id), SILENT)
    case OpeningFailed(id, outcomeUnknown) => (OpenFailed(f, id, outcomeUnknown), SILENT)
    case Updated(id, update) => UpdateArrives(f, id, update)
    case Fired(key) => TimerFires(f, key)
    case Cancelled(id) => CancelRequest(f, id)
    case WithdrawnEarly(id) => (f.(reg := FailBeforeAcceptance(f.reg, id).reg), SILENT)
    case InboundRegistered(id, requester, message, instructions) => (RegisterInboundRequest(f, id, requester, message, instructions), SILENT)
    case InboundAccepted(id) => (AcceptInboundRequest(f, id), SILENT)
    case ResponseStarted(select, member, message, instructions) => (RespondStart(f, select, member, message, instructions).0, SILENT)
    case ResponseSent(id) => (RespondDone(f, id), SILENT)
    case InboundRemoved(id) => (RemoveInboundRequest(f, id), SILENT)
    case InboundIdle(id) => (SettleInboundIdle(f, id), SILENT)
    case Waited(op) =>
      var (reg, out) := Apply(f.reg, op);
      (f.(reg := reg), out)
    case Tick(elapsed) => (f.(now := f.now + elapsed), SILENT)
  }
}
