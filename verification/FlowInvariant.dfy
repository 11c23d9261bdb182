/** Timers and live requests in every reachable flow state, and the bound they give on every accepted request. */
module FlowInvariant {
  import opened Wrappers
  import opened MemberRequest
  import opened RegistryInvariant
  import opened RegistryHistory
  import opened MemberRequestFlow

  // ---------------------------------------------------------------- timer keys

  /** Keys of different requests, and the two keys of one request, differ. */
  lemma KeysDiffer(a: RequestId, b: RequestId)
    ensures HardKey(a) == HardKey(b) <==> a == b
    ensures GraceKey(a) == GraceKey(b) <==> a == b
    ensures HardKey(a) != GraceKey(b)
  {
    assert HardKey(a)[5..] == a && HardKey(b)[5..] == b;
    assert GraceKey(a)[6..] == a && GraceKey(b)[6..] == b;
    assert HardKey(a)[0] == 'h' && GraceKey(b)[0] == 'g';
  }

  lemma KeysAreLonger(id: RequestId)
    ensures HardKey(id) != id && GraceKey(id) != id
  {
    assert |HardKey(id)| == 5 + |id| && |GraceKey(id)| == 6 + |id|;
  }

  /** Finishing one request disarms another's timer exactly when its id spells that timer's key. */
  lemma FinishDisarmsOthersIff(f: Flow, id: RequestId, other: RequestId)
    requires id != other && HardKey(other) in f.timers && GraceKey(other) in f.timers
    ensures HardKey(other) !in FinishRequest(f, id).timers <==> id == HardKey(other)
    ensures GraceKey(other) !in FinishRequest(f, id).timers <==> id == GraceKey(other)
  {
    KeysDiffer(id, other);
    KeysDiffer(other, id);
  }

  // ---------------------------------------------------------------- the invariant

  /** A timer serves a live accepted request and is due its full wait after the instant that started it. */
  ghost predicate Fits(key: string, t: Timer, outbound: map<RequestId, Outbound>) {
    && t.action.id in outbound
    && var request := outbound[t.action.id];
    && request.accepted
    && match t.action
       case Hard(id) =>
         && key == HardKey(id)
         && request.acceptedAt.Some? && t.due == request.acceptedAt.value + request.maxWaitSeconds * 1000
       case Grace(id) =>
         && key == GraceKey(id) && request.idleArmed && !request.pendingPublished
         && request.idleAt.Some? && t.due == request.idleAt.value + request.timeoutSeconds * 1000
  }

  ghost predicate AllFit(timers: map<string, Timer>, outbound: map<RequestId, Outbound>) {
    forall key | key in timers :: Fits(key, timers[key], outbound)
  }

  /** The timers a request in this condition must have. */
  ghost predicate HasTimers(id: RequestId, request: Outbound, timers: map<string, Timer>) {
    && (request.accepted ==> HardKey(id) in timers && timers[HardKey(id)].action == Hard(id))
    && (request.idleArmed && !request.pendingPublished ==> GraceKey(id) in timers && timers[GraceKey(id)].action == Grace(id))
  }

  ghost predicate AllTimed(outbound: map<RequestId, Outbound>, timers: map<string, Timer>) {
    forall id | id in outbound :: HasTimers(id, outbound[id], timers)
  }

  /** Every unaccepted request is being opened, with the waits it was registered with. */
  ghost predicate Openings(opening: map<RequestId, Opening>, outbound: map<RequestId, Outbound>) {
    && (forall id | id in opening && id in outbound ::
          !outbound[id].accepted && opening[id].maxWaitSeconds == outbound[id].maxWaitSeconds)
    && (forall id | id in outbound && !outbound[id].accepted :: id in opening)
  }

  ghost predicate OnTime(timers: map<string, Timer>, now: int, latency: nat) {
    forall key | key in timers :: now <= timers[key].due + latency
  }

  ghost predicate FlowInv(f: Flow, latency: nat) {
    && Valid(f.reg)
    && AllFit(f.timers, f.reg.outbound)
    && AllTimed(f.reg.outbound, f.timers)
    && Openings(f.opening, f.reg.outbound)
    && OnTime(f.timers, f.now, latency)
  }

  /** The request whose timers a step clears as its own. */
  function Finishes(f: Flow, step: Step): Option<RequestId>
    requires Possible(f, step)
  {
    match step
    case Opened(id) => if id in f.completed then Some(id) else None
    case Updated(id, update) => if update.IdleUpdate? then None else Some(id)
    case Fired(key) => if f.timers[key].action.Hard? then Some(f.timers[key].action.id) else None
    case Cancelled(id) => Some(id)
    case _ => None
  }

  /**
   * What the surroundings owe the flow: generated ids are fresh, no id is the key of a timer
   * that is set while its own request is finished, cancel handles come from their own wait,
   * and the clock never runs more than `latency` past a timer that has not fired.
   */
  ghost predicate StepLegal(f: Flow, used: set<RequestId>, step: Step, latency: nat) {
    && Possible(f, step)
    && (Finishes(f, step).Some? ==> Finishes(f, step).value !in f.timers)
    && match step
       case StartSend(id, _, _, _) => id !in used
       case Waited(op) => Disciplined(f.reg, op)
       case Tick(elapsed) => OnTime(f.timers, f.now + elapsed, latency)
       case _ => true
  }

  // ---------------------------------------------------------------- timers and requests, apart from the rest

  /** Removing a request together with its keys leaves every other request its timers. */
  lemma RemoveWithKeys(timers: map<string, Timer>, outbound: map<RequestId, Outbound>, id: RequestId)
    requires AllFit(timers, outbound) && AllTimed(outbound, timers) && id !in timers
    ensures AllFit(timers - KeysOf(id), outbound - {id})
    ensures AllTimed(outbound - {id}, timers - KeysOf(id))
  {
    var rest, left := timers - KeysOf(id), outbound - {id};
    forall key | key in rest ensures Fits(key, rest[key], left) {
      assert Fits(key, timers[key], outbound);
    }
    forall other | other in left ensures HasTimers(other, left[other], rest) {
      assert HasTimers(other, outbound[other], timers);
      KeysDiffer(id, other);
      KeysDiffer(other, id);
    }
  }

  /** A request that is not accepted has no timers, so clearing its keys clears nothing. */
  lemma UnacceptedHasNoTimers(timers: map<string, Timer>, outbound: map<RequestId, Outbound>, id: RequestId)
    requires AllFit(timers, outbound) && (id in outbound ==> !outbound[id].accepted)
    ensures HardKey(id) !in timers && GraceKey(id) !in timers && timers - {GraceKey(id)} == timers
    ensures id !in timers ==> timers - KeysOf(id) == timers
  {
    forall key | key in timers ensures key != HardKey(id) && key != GraceKey(id) {
      assert Fits(key, timers[key], outbound);
      var other := timers[key].action.id;
      KeysDiffer(id, other);
      KeysDiffer(other, id);
    }
  }

  /** Removing an unaccepted request needs no clearing. */
  lemma RemoveUnaccepted(timers: map<string, Timer>, outbound: map<RequestId, Outbound>, id: RequestId)
    requires AllFit(timers, outbound) && AllTimed(outbound, timers)
    requires id in outbound && !outbound[id].accepted
    ensures AllFit(timers, outbound - {id}) && AllTimed(outbound - {id}, timers)
  {
    forall key | key in timers ensures Fits(key, timers[key], outbound - {id}) {
      assert Fits(key, timers[key], outbound);
    }
    forall other | other in outbound - {id} ensures HasTimers(other, outbound[other], timers) {}
  }

  lemma AddUnaccepted(timers: map<string, Timer>, outbound: map<RequestId, Outbound>, id: RequestId, request: Outbound)
    requires AllFit(timers, outbound) && AllTimed(outbound, timers)
    requires id !in outbound && !request.accepted && FlagsInOrder(request)
    ensures AllFit(timers, outbound[id := request]) && AllTimed(outbound[id := request], timers)
  {
    forall key | key in timers ensures Fits(key, timers[key], outbound[id := request]) {
      assert Fits(key, timers[key], outbound);
    }
  }

  /** Changing one request and its own timers leaves the others alone. */
  lemma ChangeOne(
    timers: map<string, Timer>, outbound: map<RequestId, Outbound>, id: RequestId, request: Outbound, timers': map<string, Timer>)
    requires AllFit(timers, outbound) && AllTimed(outbound, timers) && id in outbound
    requires forall key | key !in {HardKey(id), GraceKey(id)} ::
      (key in timers <==> key in timers') && (key in timers ==> timers'[key] == timers[key])
    requires forall key | key in timers' && key in {HardKey(id), GraceKey(id)} :: Fits(key, timers'[key], outbound[id := request])
    requires HasTimers(id, request, timers')
    ensures AllFit(timers', outbound[id := request]) && AllTimed(outbound[id := request], timers')
  {
    var changed := outbound[id := request];
    forall key | key in timers' ensures Fits(key, timers'[key], changed) {
      if key !in {HardKey(id), GraceKey(id)} {
        assert Fits(key, timers[key], outbound);
      }
    }
    forall other | other in changed ensures HasTimers(other, changed[other], timers') {
      if other != id {
        assert HasTimers(other, outbound[other], timers);
        KeysDiffer(id, other);
        KeysDiffer(other, id);
      }
    }
  }

  /** The others' timers survive the finishing of a request exactly if its id is not itself the key of a timer that is set. */
  lemma FinishSparesOthersIff(f: Flow, id: RequestId, latency: nat)
    requires FlowInv(f, latency)
    ensures
      (forall other | other in f.reg.outbound && other != id :: HasTimers(other, f.reg.outbound[other], FinishRequest(f, id).timers))
      <==> id !in f.timers
  {
    hide Valid, Openings, OnTime;
    if id !in f.timers {
      RemoveWithKeys(f.timers, f.reg.outbound, id);
      hide AllFit, HasTimers, KeysOf;
      forall other | other in f.reg.outbound && other != id
        ensures HasTimers(other, f.reg.outbound[other], FinishRequest(f, id).timers)
      {
        assert other in f.reg.outbound - {id};
      }
    } else {
      var other := f.timers[id].action.id;
      assert Fits(id, f.timers[id], f.reg.outbound);
      KeysAreLonger(other);
      assert !HasTimers(other, f.reg.outbound[other], FinishRequest(f, id).timers);
    }
  }

  // ---------------------------------------------------------------- what registry operations do to live requests

  predicate Resolves(op: Op) {
    op.DoResolveResponse? || op.DoResolveOffline? || op.DoResolveTimeout?
  }

  /** Whether a resolution finds a request it may end: a response only ends an accepted one. */
  predicate Resolvable(r: Registry, op: Op)
    requires Resolves(op)
  {
    op.id in r.outbound && (op.DoResolveResponse? ==> r.outbound[op.id].accepted)
  }

  lemma TerminateRemoves(r: Registry, u: Outcome)
    ensures Terminate(r, u).reg.outbound == r.outbound - {u.requestId}
  {
    hide Publish, LastN;
    PublishFrame(SetTerminal(DropOutbound(r, u.requestId), u.requestId), u);
  }

  lemma ResolutionRemoves(r: Registry, op: Op)
    requires Resolves(op)
    ensures Resolvable(r, op) ==> Apply(r, op).0.outbound == r.outbound - {op.id}
    ensures !Resolvable(r, op) ==> Apply(r, op).0 == r
  {
    hide Terminate, RequestAge, DeadCode;
    if op.id in r.outbound {
      match op
      case DoResolveResponse(id, member, message, instructions, at) =>
        TerminateRemoves(r, Response(id, RequestAge(r.outbound[id], at), member, message, instructions));
      case DoResolveOffline(id) => TerminateRemoves(r, Offline(id, r.outbound[id].member));
      case DoResolveTimeout(id) => TerminateRemoves(r, Timeout(id, r.outbound[id].member));
    }
  }

  lemma PendingOutbound(r: Registry, id: RequestId)
    requires id in r.outbound && r.outbound[id].accepted && r.outbound[id].idleArmed && !r.outbound[id].pendingPublished
    ensures ResolvePendingAfterIdle(r, id).reg.outbound == r.outbound[id := r.outbound[id].(pendingPublished := true)]
  {
    hide Publish;
    var request := r.outbound[id].(pendingPublished := true);
    PublishFrame(r.(outbound := r.outbound[id := request]), Pending(id, request.member));
  }

  predicate LeavesOutbound(op: Op) {
    IsWait(op) || op.DoRegisterInbound? || op.DoAcceptInbound? || op.DoArmInboundIdle? || op.DoResolveInboundResponse?
    || op.DoResolveInboundExpired?
  }

  lemma WaitsLeaveOutbound(r: Registry, op: Op)
    requires IsWait(op)
    ensures Apply(r, op).0.outbound == r.outbound
  {
    hide ValidRequestId;
  }

  lemma InboundLeavesOutbound(r: Registry, op: Op)
    requires LeavesOutbound(op) && !IsWait(op)
    ensures Apply(r, op).0.outbound == r.outbound
  {
    hide ValidRequestId, LastN, Known;
  }

  lemma OutboundLeftAlone(r: Registry, op: Op)
    requires LeavesOutbound(op)
    ensures Apply(r, op).0.outbound == r.outbound
  {
    hide Apply;
    if IsWait(op) {
      WaitsLeaveOutbound(r, op);
    } else {
      InboundLeavesOutbound(r, op);
    }
  }

  lemma AcceptValid(r: Registry, id: RequestId, at: Option<int>)
    requires Valid(r)
    ensures Valid(AcceptOutbound(r, id, at).reg)
  {
    hide Valid, AcceptOutbound;
    ApplyKeepsValid(r, DoAcceptOutbound(id, at));
  }

  lemma AcceptEffect(r: Registry, id: RequestId, now: int)
    requires id in r.outbound
    ensures AcceptOutbound(r, id, Some(now)).result.Ok?
    ensures AcceptOutbound(r, id, Some(now)).reg.outbound
      == r.outbound[id := r.outbound[id].(accepted := true, acceptedAt := Some(now))]
  {
  }

  lemma ArmEffect(r: Registry, id: RequestId, now: int)
    requires FirstIdle(r, id)
    ensures ArmOutboundIdle(r, id, Some(now)).result == Ok(r.outbound[id].(idleArmed := true, idleAt := Some(now)))
    ensures ArmOutboundIdle(r, id, Some(now)).reg.outbound
      == r.outbound[id := r.outbound[id].(idleArmed := true, idleAt := Some(now))]
  {
  }

  lemma ArmValid(r: Registry, id: RequestId, at: Option<int>)
    requires Valid(r)
    ensures Valid(ArmOutboundIdle(r, id, at).reg)
  {
    hide Valid, ArmOutboundIdle;
    ApplyKeepsValid(r, DoArmOutboundIdle(id, at));
  }

  lemma FailValid(r: Registry, id: RequestId)
    requires Valid(r)
    ensures Valid(FailBeforeAcceptance(r, id).reg)
    ensures FailBeforeAcceptance(r, id).reg.outbound
      == if id in r.outbound && !r.outbound[id].accepted then r.outbound - {id} else r.outbound
  {
    hide Valid;
    ApplyKeepsValid(r, DoFailBeforeAcceptance(id));
  }

  lemma CloseValid(r: Registry, id: RequestId)
    requires Valid(r) && (id in r.outbound ==> !r.outbound[id].accepted)
    ensures Valid(CloseOutcomeUnknown(r, id).reg)
    ensures CloseOutcomeUnknown(r, id).reg.outbound == r.outbound - {id}
  {
    hide Valid;
    ApplyKeepsValid(r, DoCloseOutcomeUnknown(id));
  }

  // ---------------------------------------------------------------- each step keeps the invariant

  /** Steps that concern other things than outbound requests and their timers. */
  lemma UnrelatedStep(f: Flow, op: Op, f': Flow, latency: nat)
    requires FlowInv(f, latency) && LeavesOutbound(op) && Disciplined(f.reg, op)
    requires f'.reg == Apply(f.reg, op).0 || f'.reg == f.reg
    requires f'.timers == f.timers && f'.opening == f.opening && f'.now == f.now
    ensures FlowInv(f', latency)
  {
    hide Valid, AllFit, AllTimed, Openings, OnTime, Apply, Disciplined;
    OutboundLeftAlone(f.reg, op);
    ApplyKeepsValid(f.reg, op);
  }

  lemma StartKeepsInv(f: Flow, id: RequestId, member: Member, timeout: Option<real>, maxWait: Option<real>, latency: nat)
    requires FlowInv(f, latency)
    ensures FlowInv(SendStart(f, id, member, timeout, maxWait), latency)
  {
    var op := DoRegisterOutbound(id, member, f.now, timeout, maxWait);
    var answer := RegisterOutbound(f.reg, id, member, f.now, timeout, maxWait);
    hide Valid, AllFit, AllTimed, OnTime, ValidRequestId, ValidTimeout, ValidMaxWait;
    ApplyKeepsValid(f.reg, op);
    if answer.result.Ok? {
      AddUnaccepted(f.timers, f.reg.outbound, id, answer.result.value);
    }
  }

  /** The request finishing touches no timer but its own, whether it is live or not. */
  lemma FinishUnaccepted(f: Flow, id: RequestId, latency: nat)
    requires FlowInv(f, latency) && id !in f.timers && (id in f.reg.outbound ==> !f.reg.outbound[id].accepted)
    ensures FlowInv(FinishRequest(f, id), latency) && FinishRequest(f, id).timers == f.timers
  {
    hide Valid, AllFit, AllTimed, Openings, OnTime, KeysOf;
    UnacceptedHasNoTimers(f.timers, f.reg.outbound, id);
  }

  lemma LessOnTime(timers: map<string, Timer>, keys: set<string>, now: int, latency: nat)
    requires OnTime(timers, now, latency)
    ensures OnTime(timers - keys, now, latency)
  {
  }

  lemma LessOpenings(opening: map<RequestId, Opening>, outbound: map<RequestId, Outbound>, id: RequestId)
    requires Openings(opening, outbound)
    ensures Openings(opening, outbound - {id})
    ensures id !in outbound ==> Openings(opening - {id}, outbound)
    ensures Openings(opening - {id}, outbound - {id})
  {
  }

  /** A request that ends and is finished leaves a good state, whatever ended it. */
  lemma EndedAndFinished(f: Flow, id: RequestId, reg: Registry, completed: set<RequestId>, latency: nat)
    requires FlowInv(f, latency) && id !in f.timers && Valid(reg) && reg.outbound == f.reg.outbound - {id}
    ensures FlowInv(FinishRequest(f.(reg := reg, completed := completed), id), latency)
  {
    hide Valid, AllFit, AllTimed, Openings, OnTime, KeysOf;
    RemoveWithKeys(f.timers, f.reg.outbound, id);
    LessOnTime(f.timers, KeysOf(id), f.now, latency);
    LessOpenings(f.opening, f.reg.outbound, id);
  }

  lemma ResolveKeepsInv(f: Flow, op: Op, completed: set<RequestId>, latency: nat)
    requires FlowInv(f, latency) && Resolves(op) && op.id !in f.timers
    ensures FlowInv(FinishRequest(f.(reg := Apply(f.reg, op).0, completed := completed), op.id), latency)
  {
    hide Valid, AllFit, AllTimed, Openings, OnTime, FinishRequest, Apply;
    ApplyKeepsValid(f.reg, op);
    ResolutionRemoves(f.reg, op);
    if Resolvable(f.reg, op) {
      EndedAndFinished(f, op.id, Apply(f.reg, op).0, completed, latency);
    } else {
      assert Apply(f.reg, op).0 == f.reg;
      FinishUnaccepted(f.(completed := completed), op.id, latency);
    }
  }

  lemma NoKeysYet(f: Flow, id: RequestId, latency: nat)
    requires FlowInv(f, latency) && id in f.opening && id in f.reg.outbound
    ensures HardKey(id) !in f.timers && GraceKey(id) !in f.timers
    ensures !f.reg.outbound[id].accepted && !f.reg.outbound[id].idleArmed && !f.reg.outbound[id].pendingPublished
    ensures f.opening[id].maxWaitSeconds == f.reg.outbound[id].maxWaitSeconds
  {
    FlagsOf(f.reg, id);
    hide Valid, AllFit, AllTimed, OnTime;
    UnacceptedHasNoTimers(f.timers, f.reg.outbound, id);
  }

  /** Acceptance starts the hard timer, due the whole maximum wait later. */
  lemma AcceptKeepsTimers(f: Flow, id: RequestId, request: Outbound, timers: map<string, Timer>, latency: nat)
    requires FlowInv(f, latency) && id in f.opening && id in f.reg.outbound
    requires request == f.reg.outbound[id].(accepted := true, acceptedAt := Some(f.now))
    requires timers == StartHard(f.timers, id, f.now, f.opening[id].maxWaitSeconds)
    ensures AllFit(timers, f.reg.outbound[id := request]) && AllTimed(f.reg.outbound[id := request], timers)
  {
    NoKeysYet(f, id, latency);
    hide FlowInv, AllTimed, AllFit, HardKey, GraceKey, Fits, HasTimers;
    AcceptedTimersFit(f, id, request, timers);
    assert AllFit(f.timers, f.reg.outbound) && AllTimed(f.reg.outbound, f.timers) by {
      TimersOf(f, latency);
    }
    ChangeOne(f.timers, f.reg.outbound, id, request, timers);
  }

  lemma TimersOf(f: Flow, latency: nat)
    requires FlowInv(f, latency)
    ensures AllFit(f.timers, f.reg.outbound) && AllTimed(f.reg.outbound, f.timers)
  {
    hide Valid, AllTimed, AllFit, Openings, OnTime;
  }

  lemma AcceptedTimersFit(f: Flow, id: RequestId, request: Outbound, timers: map<string, Timer>)
    requires id in f.opening && id in f.reg.outbound && f.opening[id].maxWaitSeconds == f.reg.outbound[id].maxWaitSeconds
    requires !f.reg.outbound[id].idleArmed && GraceKey(id) !in f.timers
    requires request == f.reg.outbound[id].(accepted := true, acceptedAt := Some(f.now))
    requires timers == StartHard(f.timers, id, f.now, f.opening[id].maxWaitSeconds)
    ensures HasTimers(id, request, timers)
    ensures forall key | key in timers && key in {HardKey(id), GraceKey(id)} :: Fits(key, timers[key], f.reg.outbound[id := request])
  {
    KeysDiffer(id, id);
    hide HardKey, GraceKey;
  }

  lemma AcceptedElsewhere(f: Flow, id: RequestId, request: Outbound, timers: map<string, Timer>, latency: nat)
    requires Openings(f.opening, f.reg.outbound) && OnTime(f.timers, f.now, latency)
    requires id in f.reg.outbound && id in f.opening && request.accepted
    requires timers == StartHard(f.timers, id, f.now, f.opening[id].maxWaitSeconds)
    ensures OnTime(timers, f.now, latency)
    ensures Openings(f.opening - {id}, f.reg.outbound[id := request])
  {
  }

  /** After the channel opened: whatever had already settled the request, the state is good again. */
  lemma OpenKeepsInv(f: Flow, id: RequestId, latency: nat)
    requires FlowInv(f, latency) && id in f.opening && (id in f.completed ==> id !in f.timers)
    ensures FlowInv(OpenDone(f, id), latency)
  {
    OpeningIsUnaccepted(f, id, latency);
    var linked := f.(closes := f.closes + {id}, channels := f.channels[id := Placeholder]);
    OtherFields(f, linked, latency);
    var settled := if id in f.completed then FinishRequest(linked.(completed := f.completed - {id}), id) else linked;
    assert FlowInv(settled, latency) && settled.timers == f.timers by {
      SettledOpening(f, linked, id, latency);
    }
    SameOpening(f, id);
    AcceptKeepsInv(settled, id, latency);
  }

  lemma OpeningIsUnaccepted(f: Flow, id: RequestId, latency: nat)
    requires FlowInv(f, latency) && id in f.opening
    ensures id in f.reg.outbound ==> !f.reg.outbound[id].accepted
  {
    hide Valid, AllTimed, AllFit, OnTime;
  }

  lemma OtherFields(f: Flow, f': Flow, latency: nat)
    requires FlowInv(f, latency)
    requires f'.reg == f.reg && f'.timers == f.timers && f'.opening == f.opening && f'.now == f.now
    ensures FlowInv(f', latency)
  {
    hide Valid, AllTimed, AllFit, OnTime, Openings;
  }

  lemma SettledOpening(f: Flow, linked: Flow, id: RequestId, latency: nat)
    requires FlowInv(linked, latency) && (id in f.completed ==> id !in linked.timers) && (id in linked.reg.outbound ==> !linked.reg.outbound[id].accepted)
    requires linked.timers == f.timers
    ensures
      var settled := if id in f.completed then FinishRequest(linked.(completed := f.completed - {id}), id) else linked;
      FlowInv(settled, latency) && settled.timers == f.timers
  {
    hide FlowInv, FinishRequest;
    OtherFields(linked, linked.(completed := f.completed - {id}), latency);
    if id in f.completed {
      FinishUnaccepted(linked.(completed := f.completed - {id}), id, latency);
    }
  }

  /** The last part of opening, from the state in which an early settlement has been cleaned up. */
  function Accept(f: Flow, id: RequestId): Flow
    requires id in f.opening
  {
    var answer := AcceptOutbound(f.reg, id, Some(f.now));
    if answer.result.Ok? then
      f.(opening := f.opening - {id}, reg := answer.reg,
         timers := StartHard(f.timers, id, f.now, f.opening[id].maxWaitSeconds))
    else
      f.(opening := f.opening - {id}, reg := FailBeforeAcceptance(f.reg, id).reg, timers := f.timers - {GraceKey(id)})
  }

  lemma SameOpening(f: Flow, id: RequestId)
    requires id in f.opening
    ensures
      var linked := f.(closes := f.closes + {id}, channels := f.channels[id := Placeholder]);
      var settled := if id in f.completed then FinishRequest(linked.(completed := f.completed - {id}), id) else linked;
      OpenDone(f, id) == Accept(settled, id)
  {
    hide AcceptOutbound, FailBeforeAcceptance, KeysOf;
  }

  lemma AcceptKeepsInv(f: Flow, id: RequestId, latency: nat)
    requires FlowInv(f, latency) && id in f.opening
    ensures FlowInv(Accept(f, id), latency)
  {
    if id in f.reg.outbound {
      AcceptLiveKeepsInv(f, id, latency);
    } else {
      DropOpening(f, id, false, latency);
    }
  }

  lemma AcceptLiveKeepsInv(f: Flow, id: RequestId, latency: nat)
    requires FlowInv(f, latency) && id in f.opening && id in f.reg.outbound
    ensures FlowInv(Accept(f, id), latency)
  {
    var request := f.reg.outbound[id].(accepted := true, acceptedAt := Some(f.now));
    var timers := StartHard(f.timers, id, f.now, f.opening[id].maxWaitSeconds);
    AcceptKeepsTimers(f, id, request, timers, latency);
    AcceptKeepsRest(f, id, request, timers, latency);
    hide FlowInv, AllTimed, AllFit, OnTime, Openings, AcceptOutbound, GraceKey, FailBeforeAcceptance, StartHard;
    AcceptEffect(f.reg, id, f.now);
    FromParts(Accept(f, id), latency);
  }

  lemma FromParts(f: Flow, latency: nat)
    requires Valid(f.reg) && AllFit(f.timers, f.reg.outbound) && AllTimed(f.reg.outbound, f.timers)
    requires Openings(f.opening, f.reg.outbound) && OnTime(f.timers, f.now, latency)
    ensures FlowInv(f, latency)
  {
    hide Valid, AllTimed, AllFit, OnTime, Openings;
  }

  lemma AcceptKeepsRest(f: Flow, id: RequestId, request: Outbound, timers: map<string, Timer>, latency: nat)
    requires FlowInv(f, latency) && id in f.opening && id in f.reg.outbound && request.accepted
    requires timers == StartHard(f.timers, id, f.now, f.opening[id].maxWaitSeconds)
    ensures Valid(AcceptOutbound(f.reg, id, Some(f.now)).reg) && OnTime(timers, f.now, latency)
    ensures Openings(f.opening - {id}, f.reg.outbound[id := request])
  {
    hide Valid, AllTimed, AllFit, OnTime, Openings, AcceptOutbound, HardKey;
    AcceptValid(f.reg, id, Some(f.now));
    AcceptedElsewhere(f, id, request, timers, latency);
  }

  /** Removing an unaccepted request, if it is still there, from what the timers see. */
  lemma GoneQuietly(f: Flow, id: RequestId, outbound: map<RequestId, Outbound>)
    requires AllFit(f.timers, f.reg.outbound) && AllTimed(f.reg.outbound, f.timers)
    requires Openings(f.opening, f.reg.outbound)
    requires id in f.reg.outbound ==> !f.reg.outbound[id].accepted
    requires outbound == f.reg.outbound - {id}
    ensures AllFit(f.timers, outbound) && AllTimed(outbound, f.timers)
    ensures Openings(f.opening, outbound) && Openings(f.opening - {id}, outbound)
  {
    hide AllFit, AllTimed, Openings;
    LessOpenings(f.opening, f.reg.outbound, id);
    if id in f.reg.outbound {
      RemoveUnaccepted(f.timers, f.reg.outbound, id);
    } else {
      assert outbound == f.reg.outbound;
    }
  }

  /** A request that fails before acceptance disappears without a trace in the timers. */
  lemma DropOpening(f: Flow, id: RequestId, outcomeUnknown: bool, latency: nat)
    requires FlowInv(f, latency) && id in f.opening
    ensures FlowInv(OpenFailed(f, id, outcomeUnknown), latency)
  {
    OpeningIsUnaccepted(f, id, latency);
    FailValid(f.reg, id);
    CloseValid(f.reg, id);
    hide Valid, AllTimed, AllFit, OnTime, Openings, FailBeforeAcceptance, CloseOutcomeUnknown, GraceKey;
    UnacceptedHasNoTimers(f.timers, f.reg.outbound, id);
    GoneQuietly(f, id, f.reg.outbound - {id});
    assert id !in f.reg.outbound ==> f.reg.outbound - {id} == f.reg.outbound;
  }

  lemma WithdrawKeepsInv(f: Flow, id: RequestId, latency: nat)
    requires FlowInv(f, latency)
    ensures FlowInv(f.(reg := FailBeforeAcceptance(f.reg, id).reg), latency)
  {
    FailValid(f.reg, id);
    hide Valid, AllTimed, AllFit, OnTime, Openings, FailBeforeAcceptance;
    if id in f.reg.outbound && !f.reg.outbound[id].accepted {
      GoneQuietly(f, id, f.reg.outbound - {id});
    }
  }

  /** The flags raised by the first idle, together with the grace timer they call for. */
  lemma IdleTimers(f: Flow, id: RequestId, request: Outbound, timers: map<string, Timer>)
    requires AllFit(f.timers, f.reg.outbound) && AllTimed(f.reg.outbound, f.timers)
    requires id in f.reg.outbound && f.reg.outbound[id].accepted && !f.reg.outbound[id].pendingPublished
    requires request == f.reg.outbound[id].(idleArmed := true, idleAt := Some(f.now))
    requires timers == StartGrace(f.timers, id, f.now, request.timeoutSeconds)
    ensures AllFit(timers, f.reg.outbound[id := request]) && AllTimed(f.reg.outbound[id := request], timers)
  {
    KeysDiffer(id, id);
    assert HasTimers(id, f.reg.outbound[id], f.timers);
    assert Fits(HardKey(id), f.timers[HardKey(id)], f.reg.outbound);
    hide AllFit, AllTimed, HardKey, GraceKey;
    ChangeOne(f.timers, f.reg.outbound, id, request, timers);
  }

  lemma MoreOnTime(f: Flow, id: RequestId, wait: nat, latency: nat)
    requires OnTime(f.timers, f.now, latency)
    ensures OnTime(StartHard(f.timers, id, f.now, wait), f.now, latency)
    ensures OnTime(StartGrace(f.timers, id, f.now, wait), f.now, latency)
  {
  }

  lemma ChangedElsewhere(f: Flow, id: RequestId, request: Outbound)
    requires Openings(f.opening, f.reg.outbound)
    requires id in f.reg.outbound && f.reg.outbound[id].accepted && request.accepted
    ensures Openings(f.opening, f.reg.outbound[id := request])
  {
  }

  lemma HasGraceTimer(f: Flow, id: RequestId)
    requires AllTimed(f.reg.outbound, f.timers) && id in f.reg.outbound
    requires f.reg.outbound[id].idleArmed && !f.reg.outbound[id].pendingPublished
    ensures GraceKey(id) in f.timers && f.timers[GraceKey(id)].action == Grace(id)
  {
    assert HasTimers(id, f.reg.outbound[id], f.timers);
  }

  lemma HasNoGraceTimer(f: Flow, id: RequestId)
    requires AllFit(f.timers, f.reg.outbound) && id in f.reg.outbound
    requires !f.reg.outbound[id].idleArmed || f.reg.outbound[id].pendingPublished
    ensures GraceKey(id) !in f.timers
  {
    if GraceKey(id) in f.timers {
      var t := f.timers[GraceKey(id)];
      assert Fits(GraceKey(id), t, f.reg.outbound);
      KeysDiffer(id, t.action.id);
      KeysDiffer(t.action.id, id);
    }
  }

  /** An idle update arms the grace timer exactly when it is the first for an accepted request. */
  lemma FirstIdleArms(f: Flow, id: RequestId, latency: nat)
    requires FlowInv(f, latency)
    ensures IdleArrives(f, id).graceArmed != f.graceArmed <==> FirstIdle(f.reg, id)
  {
    TimersOf(f, latency);
    if id in f.reg.outbound {
      FlagsOf(f.reg, id);
      hide FlowInv, AllFit, AllTimed;
      if !f.reg.outbound[id].idleArmed || f.reg.outbound[id].pendingPublished {
        HasNoGraceTimer(f, id);
      } else {
        HasGraceTimer(f, id);
      }
    }
  }

  predicate FirstIdle(r: Registry, id: RequestId) {
    id in r.outbound && r.outbound[id].accepted && !r.outbound[id].idleArmed
  }

  lemma IdleKeepsInv(f: Flow, id: RequestId, latency: nat)
    requires FlowInv(f, latency)
    ensures FlowInv(IdleArrives(f, id), latency)
  {
    FirstIdleArms(f, id, latency);
    if FirstIdle(f.reg, id) {
      FirstIdleKeepsInv(f, id, latency);
    } else {
      LaterIdle(f, id);
    }
  }

  lemma LaterIdle(f: Flow, id: RequestId)
    requires !FirstIdle(f.reg, id) && IdleArrives(f, id).graceArmed == f.graceArmed
    ensures IdleArrives(f, id) == f
  {
    hide GraceKey;
  }

  lemma FirstIdleKeepsInv(f: Flow, id: RequestId, latency: nat)
    requires FlowInv(f, latency) && FirstIdle(f.reg, id)
    ensures FlowInv(IdleArrives(f, id), latency)
  {
    hide Valid, AllTimed, AllFit, OnTime, Openings, GraceKey, ArmOutboundIdle;
    FlagsOf(f.reg, id);
    var request := f.reg.outbound[id].(idleArmed := true, idleAt := Some(f.now));
    hide StartGrace;
    ArmEffect(f.reg, id, f.now);
    ArmValid(f.reg, id, Some(f.now));
    HasNoGraceTimer(f, id);
    IdleTimers(f, id, request, StartGrace(f.timers, id, f.now, request.timeoutSeconds));
    MoreOnTime(f, id, request.timeoutSeconds, latency);
    ChangedElsewhere(f, id, request);
  }

  /** The grace timer firing publishes the one pending notice and is gone. */
  lemma GraceKeepsInv(f: Flow, key: string, latency: nat)
    requires FlowInv(f, latency) && key in f.timers && f.timers[key].action.Grace?
    ensures FlowInv(TimerFires(f, key).0, latency)
  {
    var id := f.timers[key].action.id;
    TimersOf(f, latency);
    assert Fits(key, f.timers[key], f.reg.outbound);
    assert Valid(ResolvePendingAfterIdle(f.reg, id).reg) by {
      PendingKeepsValid(f.reg, id);
    }
    hide Valid, AllFit, AllTimed, Openings, OnTime, ResolvePendingAfterIdle, GraceKey;
    PendingOutbound(f.reg, id);
    var request := f.reg.outbound[id].(pendingPublished := true);
    NoticeTimers(f, id, request, f.timers - {GraceKey(id)});
    LessOnTime(f.timers, {GraceKey(id)}, f.now, latency);
    ChangedElsewhere(f, id, request);
  }

  lemma NoticeTimers(f: Flow, id: RequestId, request: Outbound, timers: map<string, Timer>)
    requires AllFit(f.timers, f.reg.outbound) && AllTimed(f.reg.outbound, f.timers)
    requires id in f.reg.outbound && f.reg.outbound[id].accepted
    requires request == f.reg.outbound[id].(pendingPublished := true)
    requires timers == f.timers - {GraceKey(id)}
    ensures AllFit(timers, f.reg.outbound[id := request]) && AllTimed(f.reg.outbound[id := request], timers)
  {
    KeysDiffer(id, id);
    assert HasTimers(id, f.reg.outbound[id], f.timers);
    assert Fits(HardKey(id), f.timers[HardKey(id)], f.reg.outbound);
    hide AllFit, AllTimed, HardKey, GraceKey;
    ChangeOne(f.timers, f.reg.outbound, id, request, timers);
  }

  /** The hard timer firing ends its request. */
  lemma HardKeepsInv(f: Flow, key: string, latency: nat)
    requires FlowInv(f, latency) && key in f.timers && f.timers[key].action.Hard? && f.timers[key].action.id !in f.timers
    ensures FlowInv(TimerFires(f, key).0, latency)
    ensures f.timers[key].action.id !in TimerFires(f, key).0.reg.outbound
  {
    var id := f.timers[key].action.id;
    assert id in f.reg.outbound by {
      TimerIsForLive(f, key, latency);
    }
    hide FlowInv, ResolveTimeout, ResolvePendingAfterIdle, FinishRequest, Apply, GraceKey;
    TimeoutIsAnOp(f.reg, id);
    TimeoutEnds(f.reg, id);
    ResolveKeepsInv(f, DoResolveTimeout(id), f.completed + {id}, latency);
    FinishKeepsReg(f.(reg := ResolveTimeout(f.reg, id).reg, completed := f.completed + {id}), id);
  }

  lemma FinishKeepsReg(f: Flow, id: RequestId)
    ensures FinishRequest(f, id).reg == f.reg
  {
  }

  lemma TimeoutIsAnOp(r: Registry, id: RequestId)
    ensures Apply(r, DoResolveTimeout(id)).0 == ResolveTimeout(r, id).reg
  {
    hide ResolveTimeout;
  }

  lemma TimeoutEnds(r: Registry, id: RequestId)
    requires id in r.outbound
    ensures ResolveTimeout(r, id).result.Ok? && id !in ResolveTimeout(r, id).reg.outbound
  {
    hide Terminate;
    ResolutionRemoves(r, DoResolveTimeout(id));
    TerminateAnswers(r, Timeout(id, r.outbound[id].member));
  }

  lemma TerminateAnswers(r: Registry, u: Outcome)
    ensures Terminate(r, u).result == Ok(u)
  {
    hide Publish, LastN;
  }

  lemma TimerIsForLive(f: Flow, key: string, latency: nat)
    requires FlowInv(f, latency) && key in f.timers
    ensures f.timers[key].action.id in f.reg.outbound
  {
    hide Valid, AllTimed, Openings, OnTime;
    assert Fits(key, f.timers[key], f.reg.outbound);
  }

  lemma UpdateKeepsInv(f: Flow, id: RequestId, u: ChannelUpdate, latency: nat)
    requires FlowInv(f, latency) && (!u.IdleUpdate? ==> id !in f.timers)
    ensures FlowInv(UpdateArrives(f, id, u).0, latency)
  {
    hide FlowInv, FinishRequest, ResolveResponse, ResolveOffline, ResolveTimeout, IdleArrives;
    match u
    case IdleUpdate => IdleKeepsInv(f, id, latency);
    case ResponseUpdate(member, message, instructions) =>
      ResolveKeepsInv(f, DoResolveResponse(id, member, message, instructions, Some(f.now)), f.completed + {id}, latency);
    case OfflineUpdate => ResolveKeepsInv(f, DoResolveOffline(id), f.completed + {id}, latency);
    case TimeoutUpdate => ResolveKeepsInv(f, DoResolveTimeout(id), f.completed + {id}, latency);
  }

  lemma CancelKeepsInv(f: Flow, id: RequestId, latency: nat)
    requires FlowInv(f, latency) && id !in f.timers
    ensures FlowInv(CancelRequest(f, id).0, latency)
  {
    hide FlowInv, FinishRequest, ResolveOffline;
    ResolveKeepsInv(f, DoResolveOffline(id), f.completed, latency);
  }

  lemma RespondKeepsInv(f: Flow, step: Step, latency: nat)
    requires FlowInv(f, latency) && step.ResponseStarted?
    ensures FlowInv(Next(f, step).0, latency)
  {
    hide FlowInv, ResolveInboundResponse, SelectInbound;
    var selected := SelectInbound(f.reg, step.select);
    UnrelatedStep(f, DoResolveInboundResponse(if selected.Ok? then selected.value else ""), Next(f, step).0, latency);
  }

  lemma RegisterInboundKeepsInv(f: Flow, step: Step, latency: nat)
    requires FlowInv(f, latency) && (step.InboundRegistered? || step.InboundAccepted?)
    ensures FlowInv(Next(f, step).0, latency)
  {
    hide FlowInv, RegisterInbound, AcceptInbound;
    match step
    case InboundRegistered(id, requester, message, instructions) =>
      UnrelatedStep(f, DoRegisterInbound(id, requester, message, instructions), Next(f, step).0, latency);
    case InboundAccepted(id) => UnrelatedStep(f, DoAcceptInbound(id), Next(f, step).0, latency);
  }

  lemma EndInboundKeepsInv(f: Flow, step: Step, latency: nat)
    requires FlowInv(f, latency) && (step.ResponseSent? || step.InboundRemoved? || step.InboundIdle?)
    ensures FlowInv(Next(f, step).0, latency)
  {
    hide FlowInv, ArmInboundIdle, ResolveInboundExpired;
    match step
    case ResponseSent(id) => UnrelatedStep(f, DoResolveInboundExpired(id), Next(f, step).0, latency);
    case InboundRemoved(id) => UnrelatedStep(f, DoResolveInboundExpired(id), Next(f, step).0, latency);
    case InboundIdle(id) => UnrelatedStep(f, DoArmInboundIdle(id, Some(f.now)), Next(f, step).0, latency);
  }

  lemma TickKeepsInv(f: Flow, elapsed: nat, latency: nat)
    requires FlowInv(f, latency) && OnTime(f.timers, f.now + elapsed, latency)
    ensures FlowInv(f.(now := f.now + elapsed), latency)
  {
    hide Valid, AllFit, AllTimed, Openings;
  }

  /** Every step of the flow keeps the agreement between timers and live requests. */
  lemma NextKeepsInv(f: Flow, used: set<RequestId>, step: Step, latency: nat)
    requires FlowInv(f, latency) && StepLegal(f, used, step, latency)
    ensures FlowInv(Next(f, step).0, latency)
  {
    hide FlowInv, SendStart, OpenDone, OpenFailed, UpdateArrives, TimerFires, CancelRequest, FailBeforeAcceptance;
    hide RegisterInboundRequest, AcceptInboundRequest, RespondStart, RespondDone, RemoveInboundRequest, SettleInboundIdle;
    hide Apply, Disciplined, OnTime;
    match step
    case StartSend(id, member, timeout, maxWait) => StartKeepsInv(f, id, member, timeout, maxWait, latency);
    case Opened(id) => OpenKeepsInv(f, id, latency);
    case OpeningFailed(id, outcomeUnknown) => DropOpening(f, id, outcomeUnknown, latency);
    case Updated(id, update) => UpdateKeepsInv(f, id, update, latency);
    case Fired(key) =>
      if f.timers[key].action.Grace? {
        GraceKeepsInv(f, key, latency);
      } else {
        HardKeepsInv(f, key, latency);
      }
    case Cancelled(id) => CancelKeepsInv(f, id, latency);
    case WithdrawnEarly(id) => WithdrawKeepsInv(f, id, latency);
    case InboundRegistered(_, _, _, _) => RegisterInboundKeepsInv(f, step, latency);
    case InboundAccepted(_) => RegisterInboundKeepsInv(f, step, latency);
    case ResponseStarted(_, _, _, _) => RespondKeepsInv(f, step, latency);
    case ResponseSent(_) => EndInboundKeepsInv(f, step, latency);
    case InboundRemoved(_) => EndInboundKeepsInv(f, step, latency);
    case InboundIdle(_) => EndInboundKeepsInv(f, step, latency);
    case Waited(op) => UnrelatedStep(f, op, Next(f, step).0, latency);
    case Tick(elapsed) => TickKeepsInv(f, elapsed, latency);
  }
}
