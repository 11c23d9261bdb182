/**
 * What each step of the flow does, field by field: which registry operations it performs, which
 * outcome it publishes, what it sends, reminds of and closes, and which entries come and go.
 */
module FlowSteps {
  import opened Wrappers
  import opened MemberRequest
  import opened RegistryInvariant
  import opened RegistryHistory
  import opened IdealRegistry
  import opened RegistryRefinement
  import opened RegistryEndings
  import opened MemberRequestFlow
  import opened FlowInvariant

  // ---------------------------------------------------------------- the registry

  /** The operations a step performs on the registry, in order. */
  function OpsOf(f: Flow, step: Step): seq<Op>
    requires Possible(f, step)
  {
    match step
    case StartSend(id, member, timeout, maxWait) => [DoRegisterOutbound(id, member, f.now, timeout, maxWait)]
    case Opened(id) => if id in f.reg.outbound then [DoAcceptOutbound(id, Some(f.now))] else [DoFailBeforeAcceptance(id)]
    case OpeningFailed(id, unknown) => if unknown then [DoCloseOutcomeUnknown(id)] else [DoFailBeforeAcceptance(id)]
    case Updated(id, u) =>
      (match u
       case IdleUpdate => [DoArmOutboundIdle(id, Some(f.now))]
       case ResponseUpdate(member, message, instructions) => [DoResolveResponse(id, member, message, instructions, Some(f.now))]
       case OfflineUpdate => [DoResolveOffline(id)]
       case TimeoutUpdate => [DoResolveTimeout(id)])
    case Fired(key) =>
      (match f.timers[key].action
       case Hard(id) => [DoResolveTimeout(id)]
       case Grace(id) => [DoResolvePending(id)])
    case Cancelled(id) => [DoResolveOffline(id)]
    case WithdrawnEarly(id) => [DoFailBeforeAcceptance(id)]
    case InboundRegistered(id, requester, message, instructions) => [DoRegisterInbound(id, requester, message, instructions)]
    case InboundAccepted(id) => [DoAcceptInbound(id)]
    case ResponseStarted(select, _, _, _) =>
      var chosen := Chosen(f, select);
      if chosen.Some? then [DoResolveInboundResponse(chosen.value)] else []
    case ResponseSent(_) => []
    case InboundRemoved(id) => [DoResolveInboundExpired(id)]
    case InboundIdle(id) => [DoArmInboundIdle(id, Some(f.now))]
    case Waited(op) => [op]
    case Tick(_) => []
  }

  /** The inbound request a respond is about: the named one if it is live, or the only one. */
  function Chosen(f: Flow, select: Option<RequestId>): Option<RequestId> {
    if select.Some? then if select.value in f.reg.inbound then select else None
    else if |f.reg.inbound| == 1 then
      OneKeyIsTheOnlyKey(f.reg.inbound);
      var only :| only in f.reg.inbound;
      Some(only)
    else None
  }

  function ApplyOne(r: Registry, ops: seq<Op>): (Registry, Emission)
    requires |ops| <= 1
  {
    if ops == [] then (r, SILENT) else Apply(r, ops[0])
  }

  /** The registry after a step and what it gave out are those of the step's operations. */
  predicate Performs(f: Flow, step: Step)
    requires Possible(f, step)
  {
    |OpsOf(f, step)| <= 1 && ApplyOne(f.reg, OpsOf(f, step)) == (Next(f, step).0.reg, Next(f, step).1)
  }

  lemma RegistersSilently(r: Registry, id: RequestId, member: Member, now: int, timeout: Option<real>, maxWait: Option<real>)
    ensures RegisterOutbound(r, id, member, now, timeout, maxWait).out == SILENT
    ensures RegisterOutbound(r, id, member, now, timeout, maxWait).result.Err? ==> RegisterOutbound(r, id, member, now, timeout, maxWait).reg == r
  {
    hide ValidRequestId, ValidTimeout, ValidMaxWait;
  }

  lemma InboundSilently(r: Registry, id: RequestId, requester: Member, message: string, instructions: seq<string>)
    ensures RegisterInbound(r, id, requester, message, instructions).out == SILENT
    ensures RegisterInbound(r, id, requester, message, instructions).result.Err? ==> RegisterInbound(r, id, requester, message, instructions).reg == r
    ensures AcceptInbound(r, id).out == SILENT && ResolveInboundResponse(r, id).out == SILENT && ResolveInboundExpired(r, id).out == SILENT
  {
    hide ValidRequestId, LastN;
  }

  lemma OutboundSilently(r: Registry, id: RequestId, at: Option<int>)
    ensures AcceptOutbound(r, id, at).out == SILENT && (AcceptOutbound(r, id, at).result.Ok? <==> id in r.outbound)
    ensures AcceptOutbound(r, id, at).result.Err? ==> AcceptOutbound(r, id, at).reg == r
    ensures FailBeforeAcceptance(r, id).out == SILENT && CloseOutcomeUnknown(r, id).out == SILENT
    ensures ArmOutboundIdle(r, id, at).out == SILENT && ArmInboundIdle(r, id, at).out == SILENT
    ensures ArmInboundIdle(r, id, at).result.Err? ==> ArmInboundIdle(r, id, at).reg == r
  {
  }

  lemma ResolveTimeoutRefused(r: Registry, id: RequestId)
    ensures ResolveTimeout(r, id).result.Err? ==> ResolveTimeout(r, id).reg == r
  {
    hide Publish, SetTerminal;
  }

  lemma SendPerforms(f: Flow, step: Step)
    requires step.StartSend?
    ensures Performs(f, step)
  {
    hide RegisterOutbound;
    RegistersSilently(f.reg, step.id, step.member, f.now, step.timeout, step.maxWait);
  }

  lemma OpenPerforms(f: Flow, step: Step)
    requires step.Opened? && Possible(f, step)
    ensures Performs(f, step)
  {
    hide AcceptOutbound, FailBeforeAcceptance, StartHard, GraceKey, KeysOf;
    OutboundSilently(f.reg, step.id, Some(f.now));
  }

  lemma FailPerforms(f: Flow, step: Step)
    requires (step.OpeningFailed? || step.WithdrawnEarly?) && Possible(f, step)
    ensures Performs(f, step)
  {
    hide FailBeforeAcceptance, CloseOutcomeUnknown, GraceKey;
    OutboundSilently(f.reg, step.id, None);
  }

  lemma IdlePerforms(f: Flow, step: Step)
    requires step.Updated? && step.update.IdleUpdate?
    ensures Performs(f, step)
  {
    hide ResolveResponse, ResolveOffline, ResolveTimeout, ArmOutboundIdle, FinishRequest, StartGrace, GraceKey;
    OutboundSilently(f.reg, step.id, Some(f.now));
  }

  lemma UpdatePerforms(f: Flow, step: Step)
    requires step.Updated? && !step.update.IdleUpdate?
    ensures Performs(f, step)
  {
    hide ResolveResponse, ResolveOffline, ResolveTimeout, IdleArrives, KeysOf;
  }

  lemma FirePerforms(f: Flow, step: Step)
    requires step.Fired? && Possible(f, step)
    ensures Performs(f, step)
  {
    hide ResolveTimeout, ResolvePendingAfterIdle, KeysOf, GraceKey;
    ResolveTimeoutRefused(f.reg, f.timers[step.key].action.id);
  }

  lemma CancelPerforms(f: Flow, step: Step)
    requires step.Cancelled?
    ensures Performs(f, step)
  {
    hide ResolveOffline, KeysOf;
  }

  lemma InboundPerforms(f: Flow, step: Step)
    requires step.InboundRegistered? || step.InboundAccepted? || step.InboundRemoved? || step.InboundIdle?
    ensures Performs(f, step)
  {
    hide RegisterInbound, AcceptInbound, ResolveInboundExpired, ArmInboundIdle, ResolveInboundResponse, ArmOutboundIdle;
    match step {
      case InboundRegistered(id, requester, message, instructions) => InboundSilently(f.reg, id, requester, message, instructions);
      case InboundAccepted(id) => InboundSilently(f.reg, id, Member("", ""), "", []);
      case InboundRemoved(id) => InboundSilently(f.reg, id, Member("", ""), "", []);
      case InboundIdle(id) => OutboundSilently(f.reg, id, Some(f.now));
    }
  }

  lemma ChosenIs(f: Flow, select: Option<RequestId>)
    ensures Chosen(f, select).Some? <==> SelectInbound(f.reg, select).Ok?
    ensures Chosen(f, select).Some? ==> SelectInbound(f.reg, select) == Ok(Chosen(f, select).value) && Chosen(f, select).value in f.reg.inbound
  {
    SelectsIff(f.reg, select);
    NoneLive(f.reg.inbound);
    if select.None? && |f.reg.inbound| == 1 { OneKeyIsTheOnlyKey(f.reg.inbound); }
  }

  lemma ClosesInbound(r: Registry, id: RequestId)
    requires id in r.inbound
    ensures ResolveInboundResponse(r, id).result.Ok?
  {
    hide LastN;
  }

  lemma RespondPerforms(f: Flow, step: Step)
    requires step.ResponseStarted? || step.ResponseSent?
    ensures Performs(f, step)
  {
    hide SelectInbound, ResolveInboundResponse, Chosen;
    if step.ResponseStarted? {
      ChosenIs(f, step.select);
      var chosen := Chosen(f, step.select);
      if chosen.Some? {
        InboundSilently(f.reg, chosen.value, Member("", ""), "", []);
        ClosesInbound(f.reg, chosen.value);
      }
    }
  }

  lemma WaitPerforms(f: Flow, step: Step)
    requires (step.Waited? || step.Tick?) && Possible(f, step)
    ensures Performs(f, step)
  {
    hide Apply;
  }

  /** Every step performs just its operations on the registry. */
  lemma StepPerforms(f: Flow, step: Step)
    requires Possible(f, step)
    ensures Performs(f, step)
  {
    hide Performs;
    match step
    case StartSend(_, _, _, _) => SendPerforms(f, step);
    case Opened(_) => OpenPerforms(f, step);
    case OpeningFailed(_, _) => FailPerforms(f, step);
    case WithdrawnEarly(_) => FailPerforms(f, step);
    case Updated(_, update) => if update.IdleUpdate? { IdlePerforms(f, step); } else { UpdatePerforms(f, step); }
    case Fired(_) => FirePerforms(f, step);
    case Cancelled(_) => CancelPerforms(f, step);
    case ResponseStarted(_, _, _, _) => RespondPerforms(f, step);
    case ResponseSent(_) => RespondPerforms(f, step);
    case Waited(_) => WaitPerforms(f, step);
    case Tick(_) => WaitPerforms(f, step);
    case _ => InboundPerforms(f, step);
  }

  // ---------------------------------------------------------------- everything but the registry

  /** Whether a registration, acceptance or arming in this step succeeds. */
  predicate Succeeds(f: Flow, step: Step)
    requires Possible(f, step)
  {
    |OpsOf(f, step)| == 1 && Refused(Abstract(f.reg), OpsOf(f, step)[0]).None?
  }

  /** The request whose timers, channel and close handle go in this step, if any. */
  function Ending(f: Flow, step: Step): Option<RequestId>
    requires Possible(f, step)
  {
    match step
    case Opened(id) => if id in f.completed then Some(id) else None
    case Updated(id, update) => if update.IdleUpdate? then None else Some(id)
    case Fired(key) => if f.timers[key].action.Hard? && f.timers[key].action.id in f.reg.outbound then Some(f.timers[key].action.id) else None
    case Cancelled(id) => Some(id)
    case _ => None
  }

  function IfThere(there: bool, id: RequestId): seq<RequestId> {
    if there then [id] else []
  }

  /** A channel is kept as a placeholder when it opens for a request still wanted, and as the peer's when one registers. */
  predicate ChannelsAre(f: Flow, step: Step, f': Flow)
    requires Possible(f, step)
  {
    f'.channels ==
      match step
      case Opened(id) => if id in f.completed then f.channels - {id} else f.channels[id := Placeholder]
      case InboundRegistered(id, _, _, _) => if Succeeds(f, step) then f.channels[id := Peer] else f.channels
      case ResponseSent(id) => f.channels - {id}
      case InboundRemoved(id) => f.channels - {id}
      case _ => if Ending(f, step).Some? then f.channels - {Ending(f, step).value} else f.channels
  }

  predicate ClosesAre(f: Flow, step: Step, f': Flow)
    requires Possible(f, step)
  {
    && f'.closes == (match step
                     case Opened(id) => if id in f.completed then f.closes - {id} else f.closes + {id}
                     case _ => if Ending(f, step).Some? then f.closes - {Ending(f, step).value} else f.closes)
    && f'.completed == (match step
                        case Opened(id) => f.completed - {id}
                        case Updated(id, u) => if u.IdleUpdate? then f.completed else f.completed + {id}
                        case Fired(_) => if Ending(f, step).Some? then f.completed + {Ending(f, step).value} else f.completed
                        case _ => f.completed)
  }

  /** What is closed: an opened channel that is not wanted any more, a finished request's, and a responder's once answered or removed. */
  predicate ClosedAre(f: Flow, step: Step, f': Flow)
    requires Possible(f, step)
  {
    f'.closed == f.closed +
      match step
      case Opened(id) => IfThere(id in f.completed, id)
      case ResponseSent(id) => IfThere(id in f.channels && f.channels[id].Peer?, id)
      case InboundRemoved(id) => IfThere(id in f.channels && f.channels[id].Peer?, id)
      case _ =>
        if Ending(f, step).Some? then
          var id := Ending(f, step).value;
          IfThere(id in f.channels && f.channels[id].Peer?, id) + IfThere(id in f.closes, id)
        else []
  }

  /** A responder is reminded, and its requester told, at its first idle for an accepted request; an answer goes to the channel of the request chosen. */
  predicate MessagesAre(f: Flow, step: Step, f': Flow)
    requires Possible(f, step)
  {
    match step
    case InboundIdle(id) =>
      var first := id in f.reg.inbound && f.reg.inbound[id].accepted && id !in f.idleNotified;
      && f'.reminders == f.reminders + IfThere(first, id)
      && f'.idleNotified == (if first then f.idleNotified + {id} else f.idleNotified)
      && f'.sent == f.sent + (if first && id in f.channels then [(id, IdleUpdate)] else [])
    case ResponseStarted(select, member, message, instructions) =>
      var chosen := Chosen(f, select);
      && f'.reminders == f.reminders && f'.idleNotified == f.idleNotified
      && f'.sent == f.sent + (if chosen.Some? && chosen.value in f.channels then [(chosen.value, ResponseUpdate(member, message, instructions))] else [])
    case _ => f'.reminders == f.reminders && f'.idleNotified == f.idleNotified && f'.sent == f.sent
  }

  /** A send is suspended from its registration until its channel opened or did not. */
  predicate OpeningsAre(f: Flow, step: Step, f': Flow)
    requires Possible(f, step)
  {
    && f'.now == (if step.Tick? then f.now + step.elapsed else f.now)
    && match step
       case StartSend(id, _, timeout, maxWait) =>
         if Succeeds(f, step) then
           && id in f'.opening && f'.opening[id].timeoutSeconds as real == timeout.GetOr(120.0)
           && f'.opening[id].maxWaitSeconds as real == maxWait.GetOr(1800.0)
           && f'.opening - {id} == f.opening - {id}
         else f'.opening == f.opening
       case Opened(id) => f'.opening == f.opening - {id}
       case OpeningFailed(id, _) => f'.opening == f.opening - {id}
       case _ => f'.opening == f.opening
  }

  predicate Touches(f: Flow, step: Step, f': Flow)
    requires Possible(f, step)
  {
    && ChannelsAre(f, step, f') && ClosesAre(f, step, f') && ClosedAre(f, step, f') && MessagesAre(f, step, f') && OpeningsAre(f, step, f')
  }

  lemma NothingMore<T>(s: seq<T>)
    ensures s + [] == s
  {
  }

  lemma SucceedsIff(r: Registry, op: Op)
    requires Valid(r) && Disciplined(r, op)
    ensures Refused(Abstract(r), op) == CodeOf(r, op)
  {
    hide Valid, Disciplined, Act, Apply;
    Refines(r, op);
    RefusalIsTold(Abstract(r), op);
  }

  lemma RefusalIsTold(i: Ideal, op: Op)
    ensures Act(i, op).1.refused == Refused(i, op)
  {
    hide Refused, Outgoing, Noted, Give, Awaiting;
  }

  lemma RegistrationSucceeds(r: Registry, id: RequestId, member: Member, now: int, timeout: Option<real>, maxWait: Option<real>)
    requires Valid(r)
    ensures Refused(Abstract(r), DoRegisterOutbound(id, member, now, timeout, maxWait)).None? <==>
      RegisterOutbound(r, id, member, now, timeout, maxWait).result.Ok?
    ensures
      var result := RegisterOutbound(r, id, member, now, timeout, maxWait).result;
      result.Ok? ==> result.value.timeoutSeconds as real == timeout.GetOr(120.0) && result.value.maxWaitSeconds as real == maxWait.GetOr(1800.0)
  {
    hide Valid, Abstract, Refused, ValidRequestId;
    SucceedsIff(r, DoRegisterOutbound(id, member, now, timeout, maxWait));
    hide AcceptOutbound, AcceptInbound, ArmOutboundIdle, ArmInboundIdle, FailBeforeAcceptance, CloseOutcomeUnknown, ResolveResponse;
    hide ResolveOffline, ResolveTimeout, ResolvePendingAfterIdle, ResolveInboundResponse, ResolveInboundExpired, WaitForRequest, WaitForUpdate;
    hide RegisterInbound;
  }

  lemma InboundSucceeds(r: Registry, id: RequestId, requester: Member, message: string, instructions: seq<string>)
    requires Valid(r)
    ensures Refused(Abstract(r), DoRegisterInbound(id, requester, message, instructions)).None? <==>
      RegisterInbound(r, id, requester, message, instructions).result.Ok?
  {
    hide Valid, Abstract, Refused, ValidRequestId;
    SucceedsIff(r, DoRegisterInbound(id, requester, message, instructions));
    hide AcceptOutbound, AcceptInbound, ArmOutboundIdle, ArmInboundIdle, FailBeforeAcceptance, CloseOutcomeUnknown, ResolveResponse;
    hide ResolveOffline, ResolveTimeout, ResolvePendingAfterIdle, ResolveInboundResponse, ResolveInboundExpired, WaitForRequest, WaitForUpdate;
    hide RegisterOutbound, RegisterInbound;
  }

  lemma SendTouches(f: Flow, step: Step)
    requires Valid(f.reg) && step.StartSend?
    ensures Touches(f, step, Next(f, step).0)
  {
    hide Valid, RegisterOutbound, Refused, Abstract;
    RegistrationSucceeds(f.reg, step.id, step.member, f.now, step.timeout, step.maxWait);
    NothingMore(f.closed);
    NothingMore(f.sent);
  }

  lemma OpenTouches(f: Flow, step: Step)
    requires step.Opened? && Possible(f, step)
    ensures Touches(f, step, Next(f, step).0)
  {
    hide AcceptOutbound, FailBeforeAcceptance, StartHard, GraceKey, KeysOf, Succeeds, OpsOf;
    NothingMore(f.closed);
    NothingMore(f.sent);
  }

  lemma FailTouches(f: Flow, step: Step)
    requires (step.OpeningFailed? || step.WithdrawnEarly?) && Possible(f, step)
    ensures Touches(f, step, Next(f, step).0)
  {
    hide FailBeforeAcceptance, CloseOutcomeUnknown, GraceKey, Succeeds, OpsOf;
    NothingMore(f.closed);
  }

  lemma IdleUpdateTouches(f: Flow, step: Step)
    requires step.Updated? && step.update.IdleUpdate?
    ensures Touches(f, step, Next(f, step).0)
  {
    hide ResolveResponse, ResolveOffline, ResolveTimeout, FinishRequest, ArmOutboundIdle, StartGrace, GraceKey, Succeeds, OpsOf;
    NothingMore(f.closed);
  }

  lemma UpdateTouches(f: Flow, step: Step)
    requires step.Updated? && !step.update.IdleUpdate?
    ensures Touches(f, step, Next(f, step).0)
  {
    hide ResolveResponse, ResolveOffline, ResolveTimeout, KeysOf, IdleArrives, Succeeds, OpsOf;
    Regroup(f.closed, IfThere(step.id in f.channels && f.channels[step.id].Peer?, step.id), IfThere(step.id in f.closes, step.id));
  }

  lemma Regroup<T>(a: seq<T>, b: seq<T>, c: seq<T>)
    ensures a + b + c == a + (b + c)
  {
  }

  lemma HardEndsIff(r: Registry, id: RequestId)
    ensures ResolveTimeout(r, id).result.Ok? <==> id in r.outbound
  {
    hide Publish, SetTerminal;
  }

  lemma FireTouches(f: Flow, step: Step)
    requires step.Fired? && Possible(f, step)
    ensures Touches(f, step, Next(f, step).0)
  {
    hide ResolveTimeout, ResolvePendingAfterIdle, KeysOf, GraceKey, Succeeds, OpsOf;
    var id := f.timers[step.key].action.id;
    HardEndsIff(f.reg, id);
    NothingMore(f.closed);
    Regroup(f.closed, IfThere(id in f.channels && f.channels[id].Peer?, id), IfThere(id in f.closes, id));
  }

  lemma CancelTouches(f: Flow, step: Step)
    requires step.Cancelled?
    ensures Touches(f, step, Next(f, step).0)
  {
    hide ResolveOffline, KeysOf, Succeeds, OpsOf;
    Regroup(f.closed, IfThere(step.id in f.channels && f.channels[step.id].Peer?, step.id), IfThere(step.id in f.closes, step.id));
  }

  lemma InboundTouches(f: Flow, step: Step)
    requires Valid(f.reg) && (step.InboundRegistered? || step.InboundAccepted? || step.InboundRemoved? || step.ResponseSent?)
    ensures Touches(f, step, Next(f, step).0)
  {
    hide Valid, RegisterInbound, AcceptInbound, ResolveInboundExpired, Refused, Abstract;
    if step.InboundRegistered? { InboundSucceeds(f.reg, step.id, step.requester, step.message, step.instructions); }
    NothingMore(f.closed);
  }

  lemma ArmsInbound(r: Registry, id: RequestId, at: Option<int>)
    ensures ArmInboundIdle(r, id, at).result.Ok? <==> id in r.inbound && r.inbound[id].accepted
  {
  }

  lemma IdleTouches(f: Flow, step: Step)
    requires step.InboundIdle?
    ensures Touches(f, step, Next(f, step).0)
  {
    hide ArmInboundIdle, Succeeds, OpsOf;
    ArmsInbound(f.reg, step.id, Some(f.now));
    NothingMore(f.closed);
    NothingMore(f.sent);
    NothingMore(f.reminders);
  }

  lemma RespondTouches(f: Flow, step: Step)
    requires step.ResponseStarted?
    ensures Touches(f, step, Next(f, step).0)
  {
    hide SelectInbound, ResolveInboundResponse, Chosen, Succeeds, OpsOf;
    ChosenIs(f, step.select);
    if Chosen(f, step.select).Some? { ClosesInbound(f.reg, Chosen(f, step.select).value); }
    NothingMore(f.closed);
    NothingMore(f.sent);
  }

  lemma QuietTouches(f: Flow, step: Step)
    requires (step.Waited? || step.Tick?) && Possible(f, step)
    ensures Touches(f, step, Next(f, step).0)
  {
    hide Apply, Succeeds, OpsOf;
    NothingMore(f.closed);
  }

  /** Every step leaves the fields of the flow just as described, one by one. */
  lemma StepTouches(f: Flow, step: Step)
    requires Valid(f.reg) && Possible(f, step)
    ensures Touches(f, step, Next(f, step).0)
  {
    hide Touches, Valid;
    match step
    case StartSend(_, _, _, _) => SendTouches(f, step);
    case Opened(_) => OpenTouches(f, step);
    case OpeningFailed(_, _) => FailTouches(f, step);
    case WithdrawnEarly(_) => FailTouches(f, step);
    case Updated(_, update) => if update.IdleUpdate? { IdleUpdateTouches(f, step); } else { UpdateTouches(f, step); }
    case Fired(_) => FireTouches(f, step);
    case Cancelled(_) => CancelTouches(f, step);
    case InboundIdle(_) => IdleTouches(f, step);
    case ResponseStarted(_, _, _, _) => RespondTouches(f, step);
    case Waited(_) => QuietTouches(f, step);
    case Tick(_) => QuietTouches(f, step);
    case _ => InboundTouches(f, step);
  }
}
