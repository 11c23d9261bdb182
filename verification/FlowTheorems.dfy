/** What every run of the request flow guarantees, and where its channel handling falls short. */
module FlowTheorems {
  import opened Wrappers
  import opened MemberRequest
  import opened RegistryInvariant
  import opened RegistryHistory
  import opened MemberRequestFlow
  import opened FlowInvariant

  datatype Progress = Progress(flow: Flow, used: set<RequestId>)

  function Advance(p: Progress, step: Step): Progress {
    Progress(if Possible(p.flow, step) then Next(p.flow, step).0 else p.flow,
             if step.StartSend? then p.used + {step.id} else p.used)
  }

  function Run(start: int, steps: seq<Step>): Progress {
    if steps == [] then Progress(Initial(start), {})
    else Advance(Run(start, steps[..|steps| - 1]), steps[|steps| - 1])
  }

  ghost predicate LegalSteps(start: int, steps: seq<Step>, latency: nat) {
    steps == []
    || (&& LegalSteps(start, steps[..|steps| - 1], latency)
        && var before := Run(start, steps[..|steps| - 1]);
           StepLegal(before.flow, before.used, steps[|steps| - 1], latency))
  }

  lemma InitialInv(start: int, latency: nat)
    ensures FlowInv(Initial(start), latency)
  {
    EmptyIsValid();
    hide Valid;
  }

  // ---------------------------------------------------------------- one grace window, one reminder

  /** Every request whose grace timer was ever armed has its idle flag raised for as long as it lives. */
  ghost predicate ArmedOnce(f: Flow, used: set<RequestId>) {
    && Distinct(f.graceArmed)
    && (forall id | id in f.graceArmed :: id in used)
    && (forall id | id in f.graceArmed && id in f.reg.outbound :: f.reg.outbound[id].idleArmed)
    && (forall id | id in f.reg.outbound :: id in used)
  }

  ghost predicate RemindedOnce(f: Flow) {
    Distinct(f.reminders) && forall id | id in f.reminders :: id in f.idleNotified
  }

  /** How one step may change the idle flags: they never fall, and only a send brings a new request. */
  ghost predicate FlagStep(f: Flow, step: Step, f': Flow) {
    && (forall id | id in f'.reg.outbound ::
          if id in f.reg.outbound then f.reg.outbound[id].idleArmed ==> f'.reg.outbound[id].idleArmed
          else step.StartSend? && step.id == id)
    && (f'.graceArmed == f.graceArmed
        || exists id :: FirstIdle(f.reg, id) && id in f'.reg.outbound && f'.reg.outbound[id].idleArmed
                        && f'.graceArmed == f.graceArmed + [id])
  }

  lemma SendFlagStep(f: Flow, step: Step)
    requires step.StartSend?
    ensures FlagStep(f, step, Next(f, step).0)
  {
    hide ValidRequestId, ValidTimeout, ValidMaxWait;
  }

  lemma OpenFlagStep(f: Flow, step: Step)
    requires step.Opened? && Possible(f, step)
    ensures FlagStep(f, step, Next(f, step).0)
  {
    hide StartHard, KeysOf;
  }

  lemma FailFlagStep(f: Flow, step: Step)
    requires (step.OpeningFailed? || step.WithdrawnEarly?) && Possible(f, step)
    ensures FlagStep(f, step, Next(f, step).0)
  {
    hide GraceKey;
  }

  lemma ResolveFlagStep(f: Flow, step: Step, op: Op, f': Flow)
    requires Resolves(op) && f'.graceArmed == f.graceArmed
    requires f'.reg == Apply(f.reg, op).0 || f'.reg == f.reg
    ensures FlagStep(f, step, f')
  {
    ResolutionRemoves(f.reg, op);
    hide Apply;
  }

  lemma UpdateFlagStep(f: Flow, step: Step, latency: nat)
    requires step.Updated? && FlowInv(f, latency)
    ensures FlagStep(f, step, Next(f, step).0)
  {
    hide FlowInv, ResolveResponse, ResolveOffline, ResolveTimeout, FlagStep, KeysOf;
    var f' := Next(f, step).0;
    match step.update
    case IdleUpdate => IdleFlagStep(f, step, latency);
    case ResponseUpdate(member, message, instructions) =>
      ResolveFlagStep(f, step, DoResolveResponse(step.id, member, message, instructions, Some(f.now)), f');
    case OfflineUpdate => ResolveFlagStep(f, step, DoResolveOffline(step.id), f');
    case TimeoutUpdate => ResolveFlagStep(f, step, DoResolveTimeout(step.id), f');
  }

  lemma IdleFlagStep(f: Flow, step: Step, latency: nat)
    requires step.Updated? && FlowInv(f, latency)
    ensures FlagStep(f, step, IdleArrives(f, step.id))
  {
    FirstIdleArms(f, step.id, latency);
    hide FlowInv, FlagStep, IdleArrives;
    if FirstIdle(f.reg, step.id) {
      FirstIdleFlagStep(f, step);
    } else {
      LaterIdle(f, step.id);
      TickFlagStep(f, step, f);
    }
  }

  lemma FirstIdleFlagStep(f: Flow, step: Step)
    requires step.Updated? && FirstIdle(f.reg, step.id) && IdleArrives(f, step.id).graceArmed != f.graceArmed
    ensures FlagStep(f, step, IdleArrives(f, step.id))
  {
    ArmEffect(f.reg, step.id, f.now);
    hide StartGrace, ArmOutboundIdle, GraceKey;
    assert IdleArrives(f, step.id).graceArmed == f.graceArmed + [step.id];
  }

  lemma FireFlagStep(f: Flow, step: Step)
    requires step.Fired? && Possible(f, step)
    ensures FlagStep(f, step, Next(f, step).0)
  {
    hide ResolveTimeout, FlagStep, KeysOf, GraceKey, ResolvePendingAfterIdle;
    var id := f.timers[step.key].action.id;
    var f' := Next(f, step).0;
    if f.timers[step.key].action.Hard? {
      TimeoutIsAnOp(f.reg, id);
      hide Apply;
      ResolveFlagStep(f, step, DoResolveTimeout(id), f');
    } else {
      NoticeFlagStep(f, step, id, f');
    }
  }

  lemma NoticeFlagStep(f: Flow, step: Step, id: RequestId, f': Flow)
    requires f'.graceArmed == f.graceArmed && f'.reg == ResolvePendingAfterIdle(f.reg, id).reg
    ensures FlagStep(f, step, f')
  {
    hide Publish;
    if id in f.reg.outbound && f.reg.outbound[id].accepted && f.reg.outbound[id].idleArmed && !f.reg.outbound[id].pendingPublished {
      PendingOutbound(f.reg, id);
    }
  }

  lemma CancelFlagStep(f: Flow, step: Step)
    requires step.Cancelled?
    ensures FlagStep(f, step, Next(f, step).0)
  {
    hide ResolveOffline, FlagStep, KeysOf;
    ResolveFlagStep(f, step, DoResolveOffline(step.id), Next(f, step).0);
  }

  lemma QuietFlagStep(f: Flow, step: Step, op: Op, f': Flow)
    requires LeavesOutbound(op) && f'.graceArmed == f.graceArmed
    requires f'.reg == Apply(f.reg, op).0 || f'.reg == f.reg
    ensures FlagStep(f, step, f')
  {
    OutboundLeftAlone(f.reg, op);
    hide Apply;
  }

  lemma InboundFlagStep(f: Flow, step: Step)
    requires step.InboundRegistered? || step.InboundAccepted? || step.InboundIdle?
    ensures FlagStep(f, step, Next(f, step).0)
  {
    hide RegisterInbound, AcceptInbound, ArmInboundIdle, FlagStep;
    match step
    case InboundRegistered(id, requester, message, instructions) =>
      QuietFlagStep(f, step, DoRegisterInbound(id, requester, message, instructions), Next(f, step).0);
    case InboundAccepted(id) => QuietFlagStep(f, step, DoAcceptInbound(id), Next(f, step).0);
    case InboundIdle(id) => QuietFlagStep(f, step, DoArmInboundIdle(id, Some(f.now)), Next(f, step).0);
  }

  lemma RespondFlagStep(f: Flow, step: Step)
    requires step.ResponseStarted? || step.ResponseSent? || step.InboundRemoved?
    ensures FlagStep(f, step, Next(f, step).0)
  {
    hide ResolveInboundResponse, ResolveInboundExpired, SelectInbound, FlagStep;
    match step
    case ResponseStarted(select, _, _, _) =>
      var selected := SelectInbound(f.reg, select);
      QuietFlagStep(f, step, DoResolveInboundResponse(if selected.Ok? then selected.value else ""), Next(f, step).0);
    case ResponseSent(id) => QuietFlagStep(f, step, DoResolveInboundExpired(id), Next(f, step).0);
    case InboundRemoved(id) => QuietFlagStep(f, step, DoResolveInboundExpired(id), Next(f, step).0);
  }

  lemma EveryFlagStep(f: Flow, step: Step, latency: nat)
    requires FlowInv(f, latency) && Possible(f, step)
    ensures FlagStep(f, step, Next(f, step).0)
  {
    hide FlowInv, FlagStep, Next;
    match step
    case StartSend(_, _, _, _) => SendFlagStep(f, step);
    case Opened(_) => OpenFlagStep(f, step);
    case OpeningFailed(_, _) => FailFlagStep(f, step);
    case WithdrawnEarly(_) => FailFlagStep(f, step);
    case Updated(_, _) => UpdateFlagStep(f, step, latency);
    case Fired(_) => FireFlagStep(f, step);
    case Cancelled(_) => CancelFlagStep(f, step);
    case InboundRegistered(_, _, _, _) => InboundFlagStep(f, step);
    case InboundAccepted(_) => InboundFlagStep(f, step);
    case InboundIdle(_) => InboundFlagStep(f, step);
    case ResponseStarted(_, _, _, _) => RespondFlagStep(f, step);
    case ResponseSent(_) => RespondFlagStep(f, step);
    case InboundRemoved(_) => RespondFlagStep(f, step);
    case Waited(op) => WaitFlagStep(f, step);
    case Tick(elapsed) =>
      assert Next(f, step).0 == f.(now := f.now + elapsed) by {
        ClockMoves(f, step);
      }
      TickFlagStep(f, step, Next(f, step).0);
  }

  lemma WaitFlagStep(f: Flow, step: Step)
    requires step.Waited? && Possible(f, step)
    ensures FlagStep(f, step, Next(f, step).0)
  {
    hide Apply, FlagStep;
    QuietFlagStep(f, step, step.op, Next(f, step).0);
  }

  lemma TickFlagStep(f: Flow, step: Step, f': Flow)
    requires f'.reg == f.reg && f'.graceArmed == f.graceArmed
    ensures FlagStep(f, step, f')
  {
  }

  lemma ClockMoves(f: Flow, step: Step)
    requires step.Tick?
    ensures Next(f, step).0 == f.(now := f.now + step.elapsed)
  {
  }

  lemma IdsAreFresh(p: Progress, step: Step, latency: nat)
    requires StepLegal(p.flow, p.used, step, latency)
    ensures Possible(p.flow, step)
    ensures step.StartSend? ==> step.id !in p.used
  {
    hide Disciplined, OnTime, Possible;
  }

  lemma {:induction false} DistinctAppend<T>(s: seq<T>, x: T)
    requires Distinct(s) && x !in s
    ensures Distinct(s + [x])
  {
  }

  lemma ArmedOnceStep(f: Flow, used: set<RequestId>, step: Step, f': Flow, used': set<RequestId>)
    requires ArmedOnce(f, used) && FlagStep(f, step, f')
    requires step.StartSend? ==> step.id !in used && used' == used + {step.id}
    requires !step.StartSend? ==> used' == used
    ensures ArmedOnce(f', used')
  {
    if f'.graceArmed != f.graceArmed {
      var id :| FirstIdle(f.reg, id) && id in f'.reg.outbound && f'.reg.outbound[id].idleArmed && f'.graceArmed == f.graceArmed + [id];
      hide Distinct;
      DistinctAppend(f.graceArmed, id);
    }
  }

  lemma ArmedOnceGoesOn(p: Progress, step: Step, latency: nat)
    requires FlowInv(p.flow, latency) && ArmedOnce(p.flow, p.used) && StepLegal(p.flow, p.used, step, latency)
    ensures ArmedOnce(Advance(p, step).flow, Advance(p, step).used)
  {
    hide FlowInv, Next, ArmedOnce, FlagStep, StepLegal, Possible;
    IdsAreFresh(p, step, latency);
    EveryFlagStep(p.flow, step, latency);
    ArmedOnceStep(p.flow, p.used, step, Advance(p, step).flow, Advance(p, step).used);
  }

  lemma RemindersGoOn(f: Flow, step: Step)
    requires RemindedOnce(f) && Possible(f, step)
    ensures RemindedOnce(Next(f, step).0)
  {
    hide RegisterOutbound, AcceptOutbound, FailBeforeAcceptance, CloseOutcomeUnknown, ArmOutboundIdle, Apply, KeysOf;
    hide ResolveResponse, ResolveOffline, ResolveTimeout, ResolvePendingAfterIdle, RegisterInbound, AcceptInbound;
    hide SelectInbound, ResolveInboundResponse, ResolveInboundExpired, ArmInboundIdle, StartHard, StartGrace, GraceKey;
  }

  lemma {:induction false} RunsKeepInv(start: int, steps: seq<Step>, latency: nat)
    requires LegalSteps(start, steps, latency)
    ensures FlowInv(Run(start, steps).flow, latency)
    ensures ArmedOnce(Run(start, steps).flow, Run(start, steps).used)
    ensures RemindedOnce(Run(start, steps).flow)
  {
    if steps == [] {
      InitialInv(start, latency);
      hide FlowInv;
    } else {
      var before, step := Run(start, steps[..|steps| - 1]), steps[|steps| - 1];
      hide FlowInv, ArmedOnce, RemindedOnce, Next;
      RunsKeepInv(start, steps[..|steps| - 1], latency);
      NextKeepsInv(before.flow, before.used, step, latency);
      ArmedOnceGoesOn(before, step, latency);
      RemindersGoOn(before.flow, step);
    }
  }

  // ---------------------------------------------------------------- the guarantees

  /**
   * No accepted request is live later than its maximum wait after acceptance, give or
   * take how late the event loop runs a due timer.
   */
  lemma AcceptedRequestsEndInTime(start: int, steps: seq<Step>, latency: nat, id: RequestId)
    requires LegalSteps(start, steps, latency)
    ensures
      var f := Run(start, steps).flow;
      id in f.reg.outbound && f.reg.outbound[id].accepted ==>
        && f.reg.outbound[id].acceptedAt.Some?
        && f.now <= f.reg.outbound[id].acceptedAt.value + f.reg.outbound[id].maxWaitSeconds * 1000 + latency
  {
    RunsKeepInv(start, steps, latency);
    var f := Run(start, steps).flow;
    hide ArmedOnce, RemindedOnce;
    if id in f.reg.outbound && f.reg.outbound[id].accepted {
      BoundOf(f, id, latency);
    }
  }

  lemma BoundOf(f: Flow, id: RequestId, latency: nat)
    requires FlowInv(f, latency) && id in f.reg.outbound && f.reg.outbound[id].accepted
    ensures f.reg.outbound[id].acceptedAt.Some?
    ensures f.now <= f.reg.outbound[id].acceptedAt.value + f.reg.outbound[id].maxWaitSeconds * 1000 + latency
  {
    hide Valid, Openings;
    assert HasTimers(id, f.reg.outbound[id], f.timers);
    assert Fits(HardKey(id), f.timers[HardKey(id)], f.reg.outbound);
  }

  /** Every timer that is still set serves a request that is live and accepted; the last one to end leaves none. */
  lemma NoTimerOutlivesItsRequest(start: int, steps: seq<Step>, latency: nat, key: string)
    requires LegalSteps(start, steps, latency)
    ensures
      var f := Run(start, steps).flow;
      key in f.timers ==>
        var id := f.timers[key].action.id;
        id in f.reg.outbound && f.reg.outbound[id].accepted && key in {HardKey(id), GraceKey(id)}
  {
    RunsKeepInv(start, steps, latency);
    var f := Run(start, steps).flow;
    hide ArmedOnce, RemindedOnce;
    if key in f.timers {
      ServesOf(f, key, latency);
    }
  }

  lemma ServesOf(f: Flow, key: string, latency: nat)
    requires FlowInv(f, latency) && key in f.timers
    ensures
      var id := f.timers[key].action.id;
      id in f.reg.outbound && f.reg.outbound[id].accepted && key in {HardKey(id), GraceKey(id)}
  {
    hide Valid, Openings, AllTimed, OnTime;
    assert Fits(key, f.timers[key], f.reg.outbound);
  }

  /** The grace timer of a request is armed at most once, and its responder is reminded at most once. */
  lemma OneGraceOneReminder(start: int, steps: seq<Step>, latency: nat)
    requires LegalSteps(start, steps, latency)
    ensures Distinct(Run(start, steps).flow.graceArmed) && Distinct(Run(start, steps).flow.reminders)
  {
    RunsKeepInv(start, steps, latency);
    hide FlowInv;
  }

  /** What ends an accepted request: a terminal update, its hard timer, a cancellation. */
  predicate EndsIt(f: Flow, step: Step, id: RequestId)
    requires Possible(f, step)
  {
    match step
    case Updated(other, update) => other == id && !update.IdleUpdate?
    case Fired(key) => f.timers[key].action == Hard(id)
    case Cancelled(other) => other == id
    case _ => false
  }

  lemma AcceptedEndsIff(f: Flow, step: Step, id: RequestId, latency: nat)
    requires FlowInv(f, latency) && Possible(f, step) && id in f.reg.outbound && f.reg.outbound[id].accepted
    ensures id !in Next(f, step).0.reg.outbound <==> EndsIt(f, step, id)
  {
    hide FlowInv, Next;
    match step
    case Updated(_, _) => UpdateEnds(f, step, id);
    case Fired(_) => FireEnds(f, step, id);
    case Cancelled(other) => CancelEnds(f, step, id);
    case InboundRegistered(_, _, _, _) => InboundEndsNothing(f, step);
    case InboundAccepted(_) => InboundEndsNothing(f, step);
    case InboundIdle(_) => InboundEndsNothing(f, step);
    case ResponseStarted(_, _, _, _) => RespondingEndsNothing(f, step);
    case ResponseSent(_) => RespondingEndsNothing(f, step);
    case InboundRemoved(_) => RespondingEndsNothing(f, step);
    case Waited(op) => WaitingEndsNothing(f, step);
    case Tick(_) => ClockMoves(f, step);
    case StartSend(_, _, _, _) => SendingEndsNothing(f, step, id);
    case Opened(other) =>
      OpeningIsUnaccepted(f, other, latency);
      OpeningEndsNothing(f, step, id);
    case OpeningFailed(other, _) =>
      OpeningIsUnaccepted(f, other, latency);
      FailingEndsNothing(f, step, id);
    case WithdrawnEarly(_) => WithdrawingEndsNothing(f, step, id);
  }

  lemma Resolving(f: Flow, op: Op, id: RequestId, reg: Registry)
    requires Resolves(op) && reg == Apply(f.reg, op).0 && id in f.reg.outbound && f.reg.outbound[id].accepted
    ensures id !in reg.outbound <==> op.id == id
  {
    ResolutionRemoves(f.reg, op);
    hide Apply;
  }

  lemma UpdateEnds(f: Flow, step: Step, id: RequestId)
    requires step.Updated? && id in f.reg.outbound && f.reg.outbound[id].accepted
    ensures id !in Next(f, step).0.reg.outbound <==> EndsIt(f, step, id)
  {
    hide ResolveResponse, ResolveOffline, ResolveTimeout, KeysOf, IdleArrives;
    var reg := Next(f, step).0.reg;
    match step.update
    case IdleUpdate => IdleEndsNothing(f, step.id);
    case ResponseUpdate(member, message, instructions) =>
      Resolving(f, DoResolveResponse(step.id, member, message, instructions, Some(f.now)), id, reg);
    case OfflineUpdate => Resolving(f, DoResolveOffline(step.id), id, reg);
    case TimeoutUpdate => Resolving(f, DoResolveTimeout(step.id), id, reg);
  }

  lemma FireEnds(f: Flow, step: Step, id: RequestId)
    requires step.Fired? && Possible(f, step) && id in f.reg.outbound && f.reg.outbound[id].accepted
    ensures id !in Next(f, step).0.reg.outbound <==> EndsIt(f, step, id)
  {
    hide ResolveTimeout, ResolvePendingAfterIdle, KeysOf, GraceKey;
    var other := f.timers[step.key].action.id;
    if f.timers[step.key].action.Hard? {
      TimeoutIsAnOp(f.reg, other);
      RefusedTimeoutChangesNothing(f.reg, other);
      Resolving(f, DoResolveTimeout(other), id, ResolveTimeout(f.reg, other).reg);
    } else {
      NoticeEndsNothing(f.reg, other);
    }
  }

  lemma RefusedTimeoutChangesNothing(r: Registry, id: RequestId)
    ensures ResolveTimeout(r, id).result.Err? ==> ResolveTimeout(r, id).reg == r
  {
    hide Publish, SetTerminal;
  }

  lemma NoticeEndsNothing(r: Registry, id: RequestId)
    ensures ResolvePendingAfterIdle(r, id).reg.outbound.Keys == r.outbound.Keys
  {
    hide Publish;
    if id in r.outbound {
      PublishFrame(r.(outbound := r.outbound[id := r.outbound[id].(pendingPublished := true)]), Pending(id, r.outbound[id].member));
    }
  }

  lemma CancelEnds(f: Flow, step: Step, id: RequestId)
    requires step.Cancelled? && id in f.reg.outbound && f.reg.outbound[id].accepted
    ensures id !in Next(f, step).0.reg.outbound <==> EndsIt(f, step, id)
  {
    hide ResolveOffline, KeysOf;
    OfflineIsAnOp(f.reg, step.id);
    Resolving(f, DoResolveOffline(step.id), id, Next(f, step).0.reg);
  }

  lemma IdleEndsNothing(f: Flow, id: RequestId)
    ensures IdleArrives(f, id).reg.outbound.Keys == f.reg.outbound.Keys
  {
    hide StartGrace, GraceKey;
  }

  lemma QuietEndsNothing(f: Flow, op: Op, f': Flow)
    requires LeavesOutbound(op) && (f'.reg == Apply(f.reg, op).0 || f'.reg == f.reg)
    ensures f'.reg.outbound == f.reg.outbound
  {
    OutboundLeftAlone(f.reg, op);
    hide Apply;
  }

  lemma InboundEndsNothing(f: Flow, step: Step)
    requires step.InboundRegistered? || step.InboundAccepted? || step.InboundIdle?
    ensures Next(f, step).0.reg.outbound == f.reg.outbound
  {
    hide RegisterInbound, AcceptInbound, ArmInboundIdle;
    match step
    case InboundRegistered(id, requester, message, instructions) =>
      QuietEndsNothing(f, DoRegisterInbound(id, requester, message, instructions), Next(f, step).0);
    case InboundAccepted(id) => QuietEndsNothing(f, DoAcceptInbound(id), Next(f, step).0);
    case InboundIdle(id) => QuietEndsNothing(f, DoArmInboundIdle(id, Some(f.now)), Next(f, step).0);
  }

  lemma RespondingEndsNothing(f: Flow, step: Step)
    requires step.ResponseStarted? || step.ResponseSent? || step.InboundRemoved?
    ensures Next(f, step).0.reg.outbound == f.reg.outbound
  {
    hide SelectInbound, LastN;
  }

  lemma WaitingEndsNothing(f: Flow, step: Step)
    requires step.Waited? && Possible(f, step)
    ensures Next(f, step).0.reg.outbound == f.reg.outbound
  {
    hide Apply;
    QuietEndsNothing(f, step.op, Next(f, step).0);
  }

  lemma SendingEndsNothing(f: Flow, step: Step, id: RequestId)
    requires step.StartSend? && id in f.reg.outbound
    ensures id in Next(f, step).0.reg.outbound
  {
    hide ValidRequestId, ValidTimeout, ValidMaxWait;
  }

  lemma OpeningEndsNothing(f: Flow, step: Step, id: RequestId)
    requires step.Opened? && Possible(f, step) && id in f.reg.outbound && step.id != id
    ensures id in Next(f, step).0.reg.outbound
  {
    hide StartHard, KeysOf, GraceKey;
  }

  lemma FailingEndsNothing(f: Flow, step: Step, id: RequestId)
    requires step.OpeningFailed? && Possible(f, step) && id in f.reg.outbound && step.id != id
    ensures id in Next(f, step).0.reg.outbound
  {
    hide GraceKey;
  }

  lemma WithdrawingEndsNothing(f: Flow, step: Step, id: RequestId)
    requires step.WithdrawnEarly? && id in f.reg.outbound && f.reg.outbound[id].accepted
    ensures id in Next(f, step).0.reg.outbound
  {
  }

  /**
   * A response that arrives over the channel ends its request exactly when the flow has
   * accepted the request by then; an earlier one is dropped by the registry.
   */
  lemma ResponseCountsIffAccepted(f: Flow, id: RequestId, member: Member, message: string, instructions: seq<string>)
    ensures
      var out := UpdateArrives(f, id, ResponseUpdate(member, message, instructions)).1;
      out.published != [] <==> id in f.reg.outbound && f.reg.outbound[id].accepted
  {
    hide Publish, LastN, RequestAge, KeysOf;
    if id in f.reg.outbound && f.reg.outbound[id].accepted {
      var u := Response(id, RequestAge(f.reg.outbound[id], Some(f.now)), member, message, instructions);
      PublishFrame(SetTerminal(DropOutbound(f.reg, id), id), u);
    }
  }

  /**
   * The dropped response still closes the channel: once the opening completes, the request
   * is accepted with its channel gone. Of what ends an accepted request there remain its hard
   * timer and a cancellation.
   */
  lemma EarlyResponseLosesTheChannel(f: Flow, id: RequestId, member: Member, message: string, instructions: seq<string>)
    requires id in f.opening && id in f.reg.outbound && !f.reg.outbound[id].accepted
    ensures
      var early := UpdateArrives(f, id, ResponseUpdate(member, message, instructions)).0;
      var f' := OpenDone(early, id);
      id in f'.reg.outbound && f'.reg.outbound[id].accepted && id !in f'.closes && id in f'.closed
  {
    hide StartHard, KeysOf;
  }

  /**
   * An opened channel without a live request is left open exactly when the request ended
   * during the opening by something other than a channel update, such as a cancellation.
   */
  lemma OpenChannelLeaksIff(f: Flow, id: RequestId)
    requires id in f.opening && id !in f.closes
    ensures
      var f' := OpenDone(f, id);
      id in f'.closes && id !in f'.reg.outbound <==> id !in f.completed && id !in f.reg.outbound
  {
    hide StartHard, KeysOf, GraceKey;
  }

  /** Cancelling while the channel opens is one way to get there. */
  lemma CancelDuringOpeningLeaks(f: Flow, id: RequestId)
    requires id in f.opening && id !in f.closes && id !in f.completed && id in f.reg.outbound
    ensures
      var cancelled := CancelRequest(f, id).0;
      && id in cancelled.opening
      && id in OpenDone(cancelled, id).closes && id !in OpenDone(cancelled, id).reg.outbound
  {
    ResolutionRemoves(f.reg, DoResolveOffline(id));
    OfflineIsAnOp(f.reg, id);
    hide Apply, ResolveOffline, OpenDone, KeysOf;
    OpenChannelLeaksIff(CancelRequest(f, id).0, id);
  }

  lemma OfflineIsAnOp(r: Registry, id: RequestId)
    ensures Apply(r, DoResolveOffline(id)).0 == ResolveOffline(r, id).reg
  {
    hide ResolveOffline;
  }
}
