/**
 * The flow object: the same steps, performed in place on its collections and on the registry it
 * owns. Every step keeps the agreement between timers and live requests.
 */
module RequestFlow {
  import opened Wrappers
  import opened MemberRequest
  import opened RequestOutcomes
  import opened Spec = MemberRequestFlow
  import opened FlowInvariant
  import RegistryHistory
  import FlowTheorems
  import opened FlowEndings

  lemma RefusedAcceptanceChangesNothing(r: Registry, id: RequestId, at: Option<int>)
    requires AcceptOutbound(r, id, at).result.Err?
    ensures AcceptOutbound(r, id, at).reg == r
  {
  }

  lemma RefusedIdleChangesNothing(r: Registry, id: RequestId, at: Option<int>)
    requires ArmInboundIdle(r, id, at).result.Err?
    ensures ArmInboundIdle(r, id, at).reg == r
  {
  }

  class MemberRequestFlow {
    const registry: RequestOutcomeRegistry
    /** How late the event loop runs a timer that is due. */
    ghost const latency: nat
    var channels: map<RequestId, Channel>
    var closes: set<RequestId>
    var completed: set<RequestId>
    var timers: map<string, Timer>
    var idleNotified: set<RequestId>
    /** Sends suspended at the opening of their channel. */
    var opening: map<RequestId, Opening>
    /** The clock as the current step reads it. */
    var now: int
    ghost var graceArmed: seq<RequestId>
    ghost var reminders: seq<RequestId>
    ghost var sent: seq<(RequestId, ChannelUpdate)>
    ghost var closed: seq<RequestId>

    ghost function View(): Flow
      reads this, registry
    {
      Flow(registry.View(), channels, closes, completed, timers, idleNotified, opening, now, graceArmed, reminders, sent, closed)
    }

    ghost predicate Valid()
      reads this, registry
    {
      registry.Valid() && FlowInv(View(), latency)
    }

    constructor (start: int, ghost delay: nat)
      ensures fresh(registry) && Valid() && View() == Initial(start) && latency == delay
    {
      registry := new RequestOutcomeRegistry();
      latency := delay;
      channels, closes, completed, timers, idleNotified, opening := map[], {}, {}, map[], {}, map[];
      now := start;
      graceArmed, reminders, sent, closed := [], [], [], [];
      new;
      FlowTheorems.InitialInv(start, delay);
    }

    /** No accepted request is overdue by more than the latency, and a timer serves a live accepted request. */
    lemma NothingIsOverdue(id: RequestId, key: string)
      requires Valid()
      ensures id in registry.outbound && registry.outbound[id].accepted ==>
        && registry.outbound[id].acceptedAt.Some?
        && now <= registry.outbound[id].acceptedAt.value + registry.outbound[id].maxWaitSeconds * 1000 + latency
      ensures key in timers ==> timers[key].action.id in registry.outbound && registry.outbound[timers[key].action.id].accepted
    {
      hide FlowInv, RegistryHistory.Inv;
      if id in registry.outbound && registry.outbound[id].accepted { FlowTheorems.BoundOf(View(), id, latency); }
      if key in timers { FlowTheorems.ServesOf(View(), key, latency); }
    }

    /** Close a request's entry in `channels`; a placeholder has nothing to close. */
    method CloseChannel(id: RequestId)
      modifies `channels, `closed
      ensures channels == old(channels) - {id}
      ensures closed == old(closed) + (if id in old(channels) && old(channels)[id].Peer? then [id] else [])
    {
      if id in channels && channels[id].Peer? {
        closed := closed + [id];
      }
      channels := channels - {id};
    }

    method FinishRequest(id: RequestId)
      modifies `timers, `channels, `closes, `closed
      ensures View() == Spec.FinishRequest(old(View()), id)
    {
      var keys := timers.Keys;
      ghost var seen: set<string> := {};
      while keys != {}
        invariant keys + seen == old(timers).Keys && keys !! seen
        invariant timers == old(timers) - (seen * KeysOf(id))
        invariant channels == old(channels) && closes == old(closes) && closed == old(closed)
        decreases keys
      {
        var key :| key in keys;
        keys := keys - {key};
        seen := seen + {key};
        if key == id || key == HardKey(id) || key == GraceKey(id) {
          timers := timers - {key};
        }
      }
      assert timers == old(timers) - KeysOf(id);
      CloseChannel(id);
      if id in closes {
        closed := closed + [id];
      }
      closes := closes - {id};
    }

    method SendStart(id: RequestId, member: Member, timeout: Option<real>, maxWait: Option<real>)
      returns (result: Result<(), FailureCode>)
      requires Valid()
      requires id !in registry.history.used
      modifies this, registry
      ensures Valid()
      ensures View() == Spec.SendStart(old(View()), id, member, timeout, maxWait)
      ensures result.Ok? ==> id in registry.outbound && id in opening
    {
      hide FlowInv, RegistryHistory.Inv, RegistryHistory.Extend;
      hide RegisterOutbound;
      StartKeepsInv(View(), id, member, timeout, maxWait, latency);
      var registered := registry.RegisterOutbound(id, member, now, timeout, maxWait);
      if registered.Err? { return Err(registered.error); }
      opening := opening[id := Opening(registered.value.timeoutSeconds, registered.value.maxWaitSeconds)];
      return Ok(());
    }

    method Link(id: RequestId)
      modifies `opening, `closes, `channels, `completed, `timers, `closed
      ensures View() == Linked(old(View()), id)
    {
      opening := opening - {id};
      closes := closes + {id};
      channels := channels[id := Placeholder];
      if id in completed {
        completed := completed - {id};
        FinishRequest(id);
      }
    }

    method OpenDone(id: RequestId) returns (result: Result<(), FailureCode>)
      requires Valid() && id in opening
      requires id in completed ==> id !in timers
      modifies this, registry
      ensures Valid()
      ensures View() == Spec.OpenDone(old(View()), id)
    {
      hide FlowInv, RegistryHistory.Inv, RegistryHistory.Extend;
      OpenKeepsInv(View(), id, latency);
      hide AcceptOutbound, MemberRequest.FailBeforeAcceptance, StartHard, GraceKey, Linked;
      var maxWaitSeconds := opening[id].maxWaitSeconds;
      Link(id);
      ghost var before := registry.View();
      var accepted := registry.AcceptOutbound(id, Some(now));
      if accepted.Err? {
        RefusedAcceptanceChangesNothing(before, id, Some(now));
        timers := timers - {GraceKey(id)};
        var _ := registry.FailBeforeAcceptance(id);
        return Err(accepted.error);
      }
      timers := StartHard(timers, id, now, maxWaitSeconds);
      return Ok(());
    }

    method OpenFailed(id: RequestId, outcomeUnknown: bool)
      requires Valid() && id in opening
      modifies this, registry
      ensures Valid()
      ensures View() == Spec.OpenFailed(old(View()), id, outcomeUnknown)
    {
      hide FlowInv, RegistryHistory.Inv, RegistryHistory.Extend;
      DropOpening(View(), id, outcomeUnknown, latency);
      OpeningIsUnaccepted(View(), id, latency);
      opening := opening - {id};
      timers := timers - {GraceKey(id)};
      if outcomeUnknown {
        var _ := registry.CloseOutcomeUnknown(id);
      } else {
        var _ := registry.FailBeforeAcceptance(id);
      }
    }

    method UpdateArrives(id: RequestId, u: ChannelUpdate) returns (ghost out: Emission)
      requires Valid()
      requires !u.IdleUpdate? ==> id !in timers
      modifies this, registry
      ensures Valid()
      ensures (View(), out) == Spec.UpdateArrives(old(View()), id, u)
      ensures !u.IdleUpdate? ==> id !in channels && id !in closes && timers.Keys !! KeysOf(id)
      ensures out.published == UpdateBrings(old(registry.outbound), old(now), id, u)
      ensures out.lost == []
    {
      hide FlowInv, RegistryHistory.Inv, RegistryHistory.Extend;
      UpdateKeepsInv(View(), id, u, latency);
      if u.IdleUpdate? {
        out := SILENT;
        var armed := registry.ArmOutboundIdle(id, Some(now));
        if armed.Ok? && !armed.value.pendingPublished && GraceKey(id) !in timers {
          timers := StartGrace(timers, id, now, armed.value.timeoutSeconds);
          graceArmed := graceArmed + [id];
        }
        return;
      }
      if u.ResponseUpdate? {
        var _, emitted := registry.ResolveResponse(id, u.member, u.message, u.instructions, Some(now));
        out := emitted;
      } else if u.OfflineUpdate? {
        var _, emitted := registry.ResolveOffline(id);
        out := emitted;
      } else {
        var _, emitted := registry.ResolveTimeout(id);
        out := emitted;
      }
      completed := completed + {id};
      FinishRequest(id);
    }

    method ResolvePendingAfterIdle(id: RequestId) returns (ghost out: Emission)
      requires registry.Valid()
      modifies this, registry
      ensures registry.Valid() && out.lost == []
      ensures
        var answer := MemberRequest.ResolvePendingAfterIdle(old(View()).reg, id);
        View() == old(View()).(reg := answer.reg, timers := old(timers) - {GraceKey(id)}) && out == answer.out
      ensures out.published == ActionBrings(old(registry.outbound), Grace(id))
    {
      hide RegistryHistory.Inv, RegistryHistory.Extend;
      var _, emitted := registry.ResolvePendingAfterIdle(id);
      out := emitted;
      timers := timers - {GraceKey(id)};
    }

    method ResolveTerminal(id: RequestId) returns (ghost out: Emission)
      requires registry.Valid()
      modifies this, registry
      ensures registry.Valid() && out.lost == []
      ensures
        var answer := MemberRequest.ResolveTimeout(old(View()).reg, id);
        View() == (if answer.result.Ok? then Settle(old(View()), id, answer.reg) else old(View())) && out == answer.out
      ensures out.published == ActionBrings(old(registry.outbound), Hard(id))
    {
      hide RegistryHistory.Inv, RegistryHistory.Extend;
      var outcome, emitted := registry.ResolveTimeout(id);
      out := emitted;
      if outcome.Err? { return; }
      completed := completed + {id};
      FinishRequest(id);
    }

    /** A timer that is due runs its callback. */
    method TimerFires(key: string) returns (ghost out: Emission)
      requires Valid() && key in timers
      requires timers[key].due <= now
      requires timers[key].action.Hard? ==> timers[key].action.id !in timers
      modifies this, registry
      ensures Valid()
      ensures (View(), out) == Spec.TimerFires(old(View()), key)
      ensures old(timers)[key].action.Hard? ==> old(timers)[key].action.id !in registry.outbound
      ensures out.published == ActionBrings(old(registry.outbound), old(timers)[key].action)
      ensures out.lost == []
    {
      hide FlowInv, RegistryHistory.Inv, RegistryHistory.Extend;
      if timers[key].action.Grace? { GraceKeepsInv(View(), key, latency); } else { HardKeepsInv(View(), key, latency); }
      var action := timers[key].action;
      if action.Grace? {
        out := ResolvePendingAfterIdle(action.id);
      } else {
        out := ResolveTerminal(action.id);
      }
    }

    method CancelRequest(id: RequestId) returns (ghost out: Emission)
      requires Valid()
      requires id !in timers
      modifies this, registry
      ensures Valid()
      ensures (View(), out) == Spec.CancelRequest(old(View()), id)
      ensures id !in registry.outbound && id !in channels && timers.Keys !! KeysOf(id)
      ensures out.published == CancellingBrings(old(registry.outbound), id)
      ensures out.lost == []
    {
      hide FlowInv, RegistryHistory.Inv, RegistryHistory.Extend;
      CancelKeepsInv(View(), id, latency);
      var _, emitted := registry.ResolveOffline(id);
      out := emitted;
      FinishRequest(id);
    }

    method RegisterInboundRequest(id: RequestId, requester: Member, message: string, instructions: seq<string>)
      returns (result: Result<(), FailureCode>)
      requires Valid()
      modifies this, registry
      ensures Valid()
      ensures View() == Spec.RegisterInboundRequest(old(View()), id, requester, message, instructions)
    {
      hide FlowInv, RegistryHistory.Inv, RegistryHistory.Extend;
      RegisterInboundKeepsInv(View(), InboundRegistered(id, requester, message, instructions), latency);
      var registered := registry.RegisterInbound(id, requester, message, instructions);
      if registered.Err? { return Err(registered.error); }
      channels := channels[id := Peer];
      return Ok(());
    }

    method AcceptInboundRequest(id: RequestId) returns (result: Result<(), FailureCode>)
      requires Valid()
      modifies this, registry
      ensures Valid()
      ensures View() == Spec.AcceptInboundRequest(old(View()), id)
    {
      hide FlowInv, RegistryHistory.Inv, RegistryHistory.Extend;
      RegisterInboundKeepsInv(View(), InboundAccepted(id), latency);
      var accepted := registry.AcceptInbound(id);
      result := if accepted.Ok? then Ok(()) else Err(accepted.error);
    }

    method RespondStart(id: Option<RequestId>, member: Member, message: string, instructions: seq<string>)
      returns (result: Result<RequestId, FailureCode>)
      requires Valid()
      modifies this, registry
      ensures Valid()
      ensures (View(), result) == Spec.RespondStart(old(View()), id, member, message, instructions)
      ensures id.Some? && id.value in old(registry.inbound) ==> result == Ok(id.value)
    {
      hide FlowInv, RegistryHistory.Inv, RegistryHistory.Extend;
      RespondKeepsInv(View(), ResponseStarted(id, member, message, instructions), latency);
      result := registry.SelectInbound(id);
      if result.Err? { return; }
      var inboundClosed := registry.ResolveInboundResponse(result.value);
      if inboundClosed.Err? { return Err(inboundClosed.error); }
      var response := ResponseUpdate(member, message, instructions);
      sent := sent + if result.value in channels then [(result.value, response)] else [];
    }

    method RespondDone(id: RequestId)
      requires Valid()
      modifies this, registry
      ensures Valid()
      ensures View() == Spec.RespondDone(old(View()), id)
    {
      hide FlowInv, RegistryHistory.Inv, RegistryHistory.Extend;
      EndInboundKeepsInv(View(), ResponseSent(id), latency);
      CloseChannel(id);
    }

    method RemoveInboundRequest(id: RequestId)
      requires Valid()
      modifies this, registry
      ensures Valid()
      ensures View() == Spec.RemoveInboundRequest(old(View()), id)
    {
      hide FlowInv, RegistryHistory.Inv, RegistryHistory.Extend;
      EndInboundKeepsInv(View(), InboundRemoved(id), latency);
      var _ := registry.ResolveInboundExpired(id);
      CloseChannel(id);
    }

    method SettleInboundIdle(id: RequestId)
      requires Valid()
      modifies this, registry
      ensures Valid()
      ensures View() == Spec.SettleInboundIdle(old(View()), id)
    {
      hide FlowInv, RegistryHistory.Inv, RegistryHistory.Extend;
      hide MemberRequest.ArmInboundIdle;
      EndInboundKeepsInv(View(), InboundIdle(id), latency);
      ghost var before := registry.View();
      var armed := registry.ArmInboundIdle(id, Some(now));
      if armed.Err? {
        RefusedIdleChangesNothing(before, id, Some(now));
        return;
      }
      if id in idleNotified { return; }
      idleNotified := idleNotified + {id};
      reminders := reminders + [id];
      if id in channels {
        sent := sent + [(id, IdleUpdate)];
      }
      assert View() == Spec.SettleInboundIdle(old(View()), id);
    }
  }
}
