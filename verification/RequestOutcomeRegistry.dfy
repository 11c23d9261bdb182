/**
 * The registry object itself: the same operations, performed on fields in place. It keeps a
 * ghost record of what it published and handed out, and what holds in every legal run holds
 * of the object between any two calls.
 */
module RequestOutcomes {
  import opened Wrappers
  import opened MemberRequest
  import Sorting
  import RegistryInvariant
  import opened RegistryHistory
  import RegistryTheorems
  import opened IdealRegistry

  /** An outcome was handed to one waiter, or else is in the buffer. */
  predicate Placed(u: Outcome, out: Emission, buffered: seq<Buffered>) {
    (|out.delivered| == 1 && out.delivered[0].update == u) || (out.delivered == [] && exists x | x in buffered :: x.update == u)
  }

  lemma PublishPlaces(r: Registry, u: Outcome)
    ensures
      var (r', out) := MemberRequest.Publish(r, u);
      out.published == [u] && (out.lost == [] ==> Placed(u, out, r'.buffered))
  {
    hide Without, Only, Updates, Sorting.Sorted;
    var kept := (if u.Pending? then r.buffered else Without(r.buffered, u.requestId)) + [Buffered(u, r.sequence)];
    assert kept[|kept| - 1].update == u;
    Sorting.SortedMembers(kept, InSequence);
    assert kept[|kept| - 1] in Sorting.Sorted(kept, InSequence);
  }

  /** One more outcome at the front of those looked at from the back. */
  lemma WithoutOneMore(b: seq<Buffered>, index: nat, id: RequestId)
    requires index < |b|
    ensures b[..index + 1] + Without(b[index + 1..], id) == b[..index] + ([b[index]] + Without(b[index + 1..], id))
    ensures Without(b[index..], id) ==
      if b[index].update.requestId == id then Without(b[index + 1..], id) else [b[index]] + Without(b[index + 1..], id)
  {
    assert b[index..] == [b[index]] + b[index + 1..];
  }

  lemma NoneLeft(b: seq<Buffered>, id: RequestId)
    ensures Without(b[|b|..], id) == [] && b == b[..|b|] + []
  {
  }

  /** In a legal history nothing is ever lost, and no one waits for what is in the buffer. */
  lemma InvFacts(h: History, op: Op)
    requires Inv(h) && Legal(h, op)
    ensures h.lost == [] && Extend(h, op).lost == [] && Apply(h.reg, op).1.lost == []
    ensures Inv(Extend(h, op)) && Extend(h, op).reg == Apply(h.reg, op).0
    ensures RegistryInvariant.NothingMissed(h.reg.buffered, h.reg.waiter, h.reg.exact)
    ensures RegistryInvariant.NothingMissed(Apply(h.reg, op).0.buffered, Apply(h.reg, op).0.waiter, Apply(h.reg, op).0.exact)
  {
    InvGoesOn(h, op);
    hide Apply, Legal, Conserved, Stories, Answered, AllPending, Ended, LastN;
  }

  // ---------------------------------------------------------------- operations as data

  lemma OpRegisterOutbound(r: Registry, id: RequestId, member: Member, now: int, timeout: Option<real>, maxWait: Option<real>)
    ensures Apply(r, DoRegisterOutbound(id, member, now, timeout, maxWait)) == Effect(MemberRequest.RegisterOutbound(r, id, member, now, timeout, maxWait))
  {
    hide MemberRequest.RegisterOutbound;
  }

  lemma OpRegisterInbound(r: Registry, id: RequestId, requester: Member, message: string, instructions: seq<string>)
    ensures Apply(r, DoRegisterInbound(id, requester, message, instructions)) == Effect(MemberRequest.RegisterInbound(r, id, requester, message, instructions))
  {
    hide MemberRequest.RegisterInbound;
  }

  lemma OpAcceptOutbound(r: Registry, id: RequestId, at: Option<int>)
    ensures Apply(r, DoAcceptOutbound(id, at)) == Effect(MemberRequest.AcceptOutbound(r, id, at))
  {
    hide MemberRequest.AcceptOutbound;
  }

  lemma OpAcceptInbound(r: Registry, id: RequestId)
    ensures Apply(r, DoAcceptInbound(id)) == Effect(MemberRequest.AcceptInbound(r, id))
  {
    hide MemberRequest.AcceptInbound;
  }

  lemma OpArmOutboundIdle(r: Registry, id: RequestId, at: Option<int>)
    ensures Apply(r, DoArmOutboundIdle(id, at)) == Effect(MemberRequest.ArmOutboundIdle(r, id, at))
  {
    hide MemberRequest.ArmOutboundIdle;
  }

  lemma OpArmInboundIdle(r: Registry, id: RequestId, at: Option<int>)
    ensures Apply(r, DoArmInboundIdle(id, at)) == Effect(MemberRequest.ArmInboundIdle(r, id, at))
  {
    hide MemberRequest.ArmInboundIdle;
  }

  lemma OpFailBeforeAcceptance(r: Registry, id: RequestId)
    ensures Apply(r, DoFailBeforeAcceptance(id)) == Effect(MemberRequest.FailBeforeAcceptance(r, id))
  {
    hide MemberRequest.FailBeforeAcceptance;
  }

  lemma OpCloseOutcomeUnknown(r: Registry, id: RequestId)
    ensures Apply(r, DoCloseOutcomeUnknown(id)) == Effect(MemberRequest.CloseOutcomeUnknown(r, id))
  {
    hide MemberRequest.CloseOutcomeUnknown;
  }

  lemma OpResolveResponse(r: Registry, id: RequestId, member: Member, message: string, instructions: seq<string>, at: Option<int>)
    ensures Apply(r, DoResolveResponse(id, member, message, instructions, at)) == Effect(MemberRequest.ResolveResponse(r, id, member, message, instructions, at))
  {
    hide MemberRequest.ResolveResponse;
  }

  lemma OpResolveOffline(r: Registry, id: RequestId)
    ensures Apply(r, DoResolveOffline(id)) == Effect(MemberRequest.ResolveOffline(r, id))
  {
    hide MemberRequest.ResolveOffline;
  }

  lemma OpResolveTimeout(r: Registry, id: RequestId)
    ensures Apply(r, DoResolveTimeout(id)) == Effect(MemberRequest.ResolveTimeout(r, id))
  {
    hide MemberRequest.ResolveTimeout;
  }

  lemma OpResolvePendingAfterIdle(r: Registry, id: RequestId)
    ensures Apply(r, DoResolvePending(id)) == Effect(MemberRequest.ResolvePendingAfterIdle(r, id))
  {
    hide MemberRequest.ResolvePendingAfterIdle;
  }

  lemma OpResolveInboundResponse(r: Registry, id: RequestId)
    ensures Apply(r, DoResolveInboundResponse(id)) == Effect(MemberRequest.ResolveInboundResponse(r, id))
  {
    hide MemberRequest.ResolveInboundResponse;
  }

  lemma OpResolveInboundExpired(r: Registry, id: RequestId)
    ensures Apply(r, DoResolveInboundExpired(id)) == Effect(MemberRequest.ResolveInboundExpired(r, id))
  {
    hide MemberRequest.ResolveInboundExpired;
  }

  lemma OpWaitForRequest(r: Registry, id: RequestId)
    ensures Apply(r, DoWaitForRequest(id)) == Effect(MemberRequest.WaitForRequest(r, id))
  {
    hide MemberRequest.WaitForRequest;
  }

  lemma OpWaitForUpdate(r: Registry)
    ensures Apply(r, DoWaitForUpdate) == Effect(MemberRequest.WaitForUpdate(r))
  {
    hide MemberRequest.WaitForUpdate;
  }

  lemma OpCancelGeneralWait(r: Registry, w: Waiter)
    ensures Apply(r, DoCancelGeneralWait(w)) == (MemberRequest.CancelGeneralWait(r, w), SILENT)
  {
    hide MemberRequest.CancelGeneralWait;
  }

  lemma OpCancelExactWait(r: Registry, id: RequestId, w: Waiter)
    ensures Apply(r, DoCancelExactWait(id, w)) == (MemberRequest.CancelExactWait(r, id, w), SILENT)
  {
    hide MemberRequest.CancelExactWait;
  }

  class RequestOutcomeRegistry {
    var outbound: map<RequestId, Outbound>
    var inbound: map<RequestId, Inbound>
    var order: map<RequestId, nat>
    var nextOrder: nat
    var terminal: set<RequestId>
    var tombstones: seq<RequestId>
    var inboundTerminal: set<RequestId>
    var inboundTombstones: seq<RequestId>
    var buffered: seq<Buffered>
    var sequence: nat
    var waiter: Option<Waiter>
    var exact: map<RequestId, Waiter>
    var active: set<Waiter>
    var nextWaiter: Waiter
    ghost var history: History

    ghost function View(): Registry
      reads this
    {
      Registry(outbound, inbound, order, nextOrder, terminal, tombstones, inboundTerminal, inboundTombstones,
               buffered, sequence, waiter, exact, active, nextWaiter)
    }

    ghost predicate Valid()
      reads this
    {
      history.reg == View() && Inv(history)
    }

    /** Whatever was called, an ending was published once and is in one place: handed to one wait, or buffered for one. */
    lemma EndingIsInOnePlace(u: Outcome)
      requires Valid() && u in history.published && !u.Pending?
      ensures multiset(history.published)[u] == 1 && u.requestId !in outbound
      ensures Given(history.delivered)[u] + Held(buffered)[u] == 1
    {
      hide Inv;
      RegistryTheorems.OneEnding(history, u);
      RegistryTheorems.InOnePlace(history, u);
    }

    /** Put the operation on record. */
    ghost method Record(op: Op)
      requires Valid() && Legal(history, op)
      modifies `history
      ensures history == Extend(old(history), op) && Inv(history) && history.lost == []
      ensures (history.reg, Apply(View(), op).1) == Apply(View(), op) && Apply(View(), op).1.lost == []
      ensures RegistryInvariant.NothingMissed(history.reg.buffered, history.reg.waiter, history.reg.exact)
      ensures RegistryInvariant.NothingMissed(buffered, waiter, exact)
    {
      hide Inv, Extend, Apply, Legal;
      InvFacts(history, op);
      history := Extend(history, op);
    }

    constructor ()
      ensures Valid() && View() == EMPTY && history == START
    {
      outbound, inbound, order, nextOrder := map[], map[], map[], 0;
      terminal, tombstones, inboundTerminal, inboundTombstones := {}, [], {}, [];
      buffered, sequence := [], 0;
      waiter, exact, active, nextWaiter := None, map[], {}, 0;
      history := START;
      new;
      EmptyHistory();
    }

    method RegisterOutbound(id: RequestId, member: Member, now: int, timeout: Option<real>, maxWait: Option<real>)
      returns (result: Result<Outbound, FailureCode>)
      requires Valid() && id !in history.used
      modifies this
      ensures Valid() && history == Extend(old(history), DoRegisterOutbound(id, member, now, timeout, maxWait))
      ensures MemberRequest.RegisterOutbound(old(View()), id, member, now, timeout, maxWait) == Answer(View(), result, SILENT)
      ensures result.Ok? ==> id in outbound && |outbound| <= MAX_OUTBOUND && |buffered| + |outbound| <= MAX_BUFFERED
      ensures result.Err? ==> View() == old(View())
    {
      hide RegistryInvariant.NothingMissed;
      hide Inv, Extend, Apply, ValidRequestId, ValidTimeout, ValidMaxWait;
      OpRegisterOutbound(View(), id, member, now, timeout, maxWait);
      Record(DoRegisterOutbound(id, member, now, timeout, maxWait));
      if !ValidRequestId(id) { return Err(InvalidRequestId); }
      var grace := timeout.GetOr(DEFAULT_TIMEOUT_SECONDS);
      if !ValidTimeout(grace) { return Err(InvalidTimeout); }
      var hard := maxWait.GetOr(DEFAULT_MAX_WAIT_SECONDS);
      if !ValidMaxWait(hard, grace) { return Err(InvalidMaxWait); }
      if id in outbound || id in inbound || id in terminal { return Err(DuplicateRequest); }
      if |outbound| >= MAX_OUTBOUND { return Err(OutboundCapacity); }
      if |buffered| + |outbound| >= MAX_BUFFERED { return Err(BufferCapacity); }
      var request := Outbound(member, None, now + hard.Floor * 1000, false, false, false, grace.Floor, hard.Floor, None);
      outbound := outbound[id := request];
      order := order[id := nextOrder];
      nextOrder := nextOrder + 1;
      return Ok(request);
    }

    method RegisterInbound(id: RequestId, requester: Member, message: string, instructions: seq<string>)
      returns (result: Result<Inbound, FailureCode>)
      requires Valid()
      modifies this
      ensures Valid() && history == Extend(old(history), DoRegisterInbound(id, requester, message, instructions))
      ensures MemberRequest.RegisterInbound(old(View()), id, requester, message, instructions) == Answer(View(), result, SILENT)
    {
      hide RegistryInvariant.NothingMissed;
      hide Inv, Extend, Apply, ValidRequestId;
      OpRegisterInbound(View(), id, requester, message, instructions);
      Record(DoRegisterInbound(id, requester, message, instructions));
      if !ValidRequestId(id) { return Err(InvalidRequestId); }
      if id in outbound || id in inbound || id in terminal { return Err(DuplicateRequest); }
      if |inbound| >= MAX_INBOUND { return Err(InboundCapacity); }
      var request := Inbound(requester, message, instructions, false, false, None);
      inbound := inbound[id := request];
      order := order[id := nextOrder];
      nextOrder := nextOrder + 1;
      return Ok(request);
    }

    method AcceptOutbound(id: RequestId, acceptedAt: Option<int>) returns (result: Result<Outbound, FailureCode>)
      requires Valid()
      modifies this
      ensures Valid() && history == Extend(old(history), DoAcceptOutbound(id, acceptedAt))
      ensures MemberRequest.AcceptOutbound(old(View()), id, acceptedAt) == Answer(View(), result, SILENT)
    {
      hide Inv, Extend, Apply;
      OpAcceptOutbound(View(), id, acceptedAt);
      Record(DoAcceptOutbound(id, acceptedAt));
      if id !in outbound { return Err(UnknownRequest); }
      var request := outbound[id].(accepted := true);
      if acceptedAt.Some? {
        request := request.(acceptedAt := acceptedAt);
      }
      outbound := outbound[id := request];
      return Ok(request);
    }

    method AcceptInbound(id: RequestId) returns (result: Result<Inbound, FailureCode>)
      requires Valid()
      modifies this
      ensures Valid() && history == Extend(old(history), DoAcceptInbound(id))
      ensures MemberRequest.AcceptInbound(old(View()), id) == Answer(View(), result, SILENT)
    {
      hide Inv, Extend, Apply;
      OpAcceptInbound(View(), id);
      Record(DoAcceptInbound(id));
      if id !in inbound { return Err(UnknownRequest); }
      var request := inbound[id].(accepted := true);
      inbound := inbound[id := request];
      return Ok(request);
    }

    method ArmOutboundIdle(id: RequestId, now: Option<int>) returns (result: Result<Outbound, FailureCode>)
      requires Valid()
      modifies this
      ensures Valid() && history == Extend(old(history), DoArmOutboundIdle(id, now))
      ensures MemberRequest.ArmOutboundIdle(old(View()), id, now) == Answer(View(), result, SILENT)
    {
      hide Inv, Extend, Apply;
      OpArmOutboundIdle(View(), id, now);
      Record(DoArmOutboundIdle(id, now));
      if id !in outbound || !outbound[id].accepted { return Err(UnknownRequest); }
      var request := outbound[id];
      if request.idleArmed { return Ok(request); }
      request := request.(idleArmed := true);
      if now.Some? {
        request := request.(idleAt := now);
      }
      outbound := outbound[id := request];
      return Ok(request);
    }

    method ArmInboundIdle(id: RequestId, now: Option<int>) returns (result: Result<Inbound, FailureCode>)
      requires Valid()
      modifies this
      ensures Valid() && history == Extend(old(history), DoArmInboundIdle(id, now))
      ensures MemberRequest.ArmInboundIdle(old(View()), id, now) == Answer(View(), result, SILENT)
    {
      hide Inv, Extend, Apply;
      OpArmInboundIdle(View(), id, now);
      Record(DoArmInboundIdle(id, now));
      if id !in inbound || !inbound[id].accepted { return Err(UnknownRequest); }
      var request := inbound[id];
      if request.idleArmed { return Ok(request); }
      request := request.(idleArmed := true);
      if now.Some? {
        request := request.(idleAt := now);
      }
      inbound := inbound[id := request];
      return Ok(request);
    }

    method FailBeforeAcceptance(id: RequestId) returns (result: Result<(), FailureCode>)
      requires Valid()
      modifies this
      ensures Valid() && history == Extend(old(history), DoFailBeforeAcceptance(id))
      ensures MemberRequest.FailBeforeAcceptance(old(View()), id) == Answer(View(), result, SILENT)
    {
      hide Inv, Extend, Apply;
      OpFailBeforeAcceptance(View(), id);
      Record(DoFailBeforeAcceptance(id));
      if id in outbound && !outbound[id].accepted {
        outbound, order := outbound - {id}, order - {id};
        return Ok(());
      }
      if id in inbound && !inbound[id].accepted {
        inbound, order := inbound - {id}, order - {id};
        return Ok(());
      }
      return Err(UnknownRequest);
    }

    method CloseOutcomeUnknown(id: RequestId) returns (result: Result<(), FailureCode>)
      requires Valid() && (id in outbound ==> !outbound[id].accepted)
      modifies this
      ensures Valid() && history == Extend(old(history), DoCloseOutcomeUnknown(id))
      ensures MemberRequest.CloseOutcomeUnknown(old(View()), id) == Answer(View(), result, SILENT)
    {
      hide Inv, Extend, Apply;
      OpCloseOutcomeUnknown(View(), id);
      Record(DoCloseOutcomeUnknown(id));
      if id in outbound {
        outbound := outbound - {id};
      } else if id in inbound {
        inbound := inbound - {id};
      } else {
        return Err(UnknownRequest);
      }
      order := order - {id};
      return Ok(());
    }

    /** Mark an ended request, forgetting the oldest marks beyond the window. */
    method SetTerminal(id: RequestId)
      modifies `terminal, `tombstones
      ensures View() == MemberRequest.SetTerminal(old(View()), id)
    {
      terminal := terminal + {id};
      tombstones := tombstones + [id];
      ghost var pushed := tombstones;
      ghost var marked := terminal;
      ghost var n := 0;
      while |tombstones| > MAX_TOMBSTONES
        invariant n <= |pushed| && tombstones == pushed[n..]
        invariant n == 0 || |pushed| - n >= MAX_TOMBSTONES
        invariant terminal == marked - (set e | e in pushed[..n])
      {
        terminal := terminal - {tombstones[0]};
        tombstones := tombstones[1..];
        assert pushed[..n + 1] == pushed[..n] + [pushed[n]];
        n := n + 1;
      }
      assert tombstones == LastN(pushed, MAX_TOMBSTONES);
    }

    method SetInboundTerminal(id: RequestId)
      modifies `inboundTerminal, `inboundTombstones
      ensures View() == MemberRequest.SetInboundTerminal(old(View()), id)
    {
      inboundTerminal := inboundTerminal + {id};
      inboundTombstones := inboundTombstones + [id];
      ghost var pushed := inboundTombstones;
      ghost var marked := inboundTerminal;
      ghost var n := 0;
      while |inboundTombstones| > MAX_TOMBSTONES
        invariant n <= |pushed| && inboundTombstones == pushed[n..]
        invariant n == 0 || |pushed| - n >= MAX_TOMBSTONES
        invariant inboundTerminal == marked - (set e | e in pushed[..n])
      {
        inboundTerminal := inboundTerminal - {inboundTombstones[0]};
        inboundTombstones := inboundTombstones[1..];
        assert pushed[..n + 1] == pushed[..n] + [pushed[n]];
        n := n + 1;
      }
      assert inboundTombstones == LastN(pushed, MAX_TOMBSTONES);
    }

    /** Delete every buffered outcome of one request, from the back. */
    method DeleteBuffered(id: RequestId)
      modifies `buffered
      ensures buffered == Without(old(buffered), id)
    {
      hide Without;
      ghost var all := buffered;
      var index := |buffered|;
      assert Without(all[index..], id) == [] && all == all[..index] + [] by { NoneLeft(all, id); }
      while index > 0
        invariant 0 <= index <= |all| && buffered == all[..index] + Without(all[index..], id)
      {
        index := index - 1;
        WithoutOneMore(all, index, id);
        if buffered[index].update.requestId == id {
          buffered := buffered[..index] + buffered[index + 1..];
        }
      }
      assert all[0..] == all && all[..0] + Without(all, id) == Without(all, id);
    }

    /** Run a parked callback, unless it was cancelled. */
    method Call(w: Waiter, u: Outcome) returns (ghost delivered: seq<Delivery>, ghost lost: seq<Outcome>)
      modifies `active
      ensures active == old(active) - {w} && (w !in old(active) ==> active == old(active))
      ensures delivered == (if w in old(active) then [Delivery(w, u)] else []) && lost == (if w in old(active) then [] else [u])
    {
      if w in active {
        active := active - {w};
        return [Delivery(w, u)], [];
      }
      return [], [u];
    }

    method Publish(u: Outcome) returns (ghost out: Emission)
      modifies `buffered, `sequence, `waiter, `exact, `active
      ensures MemberRequest.Publish(old(View()), u) == (View(), out)
    {
      hide Without, Only, Updates, Sorting.Sorted;
      ghost var gone := if u.Pending? then [] else Updates(Only(buffered, u.requestId));
      if !u.Pending? {
        DeleteBuffered(u.requestId);
      }
      if u.requestId in exact {
        var w := exact[u.requestId];
        if w in active { exact := exact - {u.requestId}; }
        var delivered, lost := Call(w, u);
        return Emission([u], gone, delivered, lost);
      }
      if waiter.Some? {
        var w := waiter.value;
        waiter := None;
        var delivered, lost := Call(w, u);
        return Emission([u], gone, delivered, lost);
      }
      if |buffered| >= MAX_BUFFERED { return Emission([u], gone, [], [u]); }
      buffered := buffered + [Buffered(u, sequence)];
      sequence := sequence + 1;
      buffered := Sorting.Sorted(buffered, InSequence);
      return Emission([u], gone, [], []);
    }

    /** The steps every terminal transition takes, in this order. */
    method Terminate(u: Outcome) returns (ghost out: Emission)
      modifies this
      ensures MemberRequest.Terminate(old(View()), u) == Answer(View(), Ok(u), out) && history == old(history)
      ensures out.published == [u] && (out.lost == [] ==> Placed(u, out, buffered)) && u.requestId !in outbound
    {
      hide MemberRequest.SetTerminal, MemberRequest.Publish, Placed;
      PublishPlaces(MemberRequest.SetTerminal(DropOutbound(View(), u.requestId), u.requestId), u);
      outbound := outbound - {u.requestId};
      order := order - {u.requestId};
      SetTerminal(u.requestId);
      out := Publish(u);
    }

    method ResolveResponse(id: RequestId, member: Member, message: string, instructions: seq<string>, receivedAt: Option<int>)
      returns (result: Result<Outcome, FailureCode>, ghost out: Emission)
      requires Valid()
      modifies this
      ensures Valid() && history == Extend(old(history), DoResolveResponse(id, member, message, instructions, receivedAt))
      ensures MemberRequest.ResolveResponse(old(View()), id, member, message, instructions, receivedAt) == Answer(View(), result, out)
      ensures result.Ok? <==> id in old(outbound) && old(outbound)[id].accepted
      ensures result.Ok? ==> result.value == Response(id, Age(old(outbound)[id].acceptedAt, receivedAt), member, message, instructions)
      ensures result.Ok? ==> id !in outbound && out.published == [result.value] && Placed(result.value, out, buffered)
      ensures out.lost == []
    {
      hide Inv, Extend, Apply;
      OpResolveResponse(View(), id, member, message, instructions, receivedAt);
      Record(DoResolveResponse(id, member, message, instructions, receivedAt));
      if id !in outbound { return Err(if id in terminal then AlreadyTerminal else UnknownRequest), SILENT; }
      var request := outbound[id];
      if !request.accepted { return Err(UnknownRequest), SILENT; }
      var u := Response(id, RequestAge(request, receivedAt), member, message, instructions);
      out := Terminate(u);
      result := Ok(u);
    }

    method ResolveOffline(id: RequestId) returns (result: Result<Outcome, FailureCode>, ghost out: Emission)
      requires Valid()
      modifies this
      ensures Valid() && history == Extend(old(history), DoResolveOffline(id))
      ensures MemberRequest.ResolveOffline(old(View()), id) == Answer(View(), result, out)
      ensures result.Ok? <==> id in old(outbound)
      ensures result.Ok? ==> result.value == Offline(id, old(outbound)[id].member)
      ensures result.Ok? ==> id !in outbound && out.published == [result.value] && Placed(result.value, out, buffered)
      ensures out.lost == []
    {
      hide Inv, Extend, Apply;
      OpResolveOffline(View(), id);
      Record(DoResolveOffline(id));
      if id !in outbound { return Err(if id in terminal then AlreadyTerminal else UnknownRequest), SILENT; }
      var u := Offline(id, outbound[id].member);
      out := Terminate(u);
      result := Ok(u);
    }

    method ResolveTimeout(id: RequestId) returns (result: Result<Outcome, FailureCode>, ghost out: Emission)
      requires Valid()
      modifies this
      ensures Valid() && history == Extend(old(history), DoResolveTimeout(id))
      ensures MemberRequest.ResolveTimeout(old(View()), id) == Answer(View(), result, out)
      ensures result.Ok? <==> id in old(outbound)
      ensures result.Ok? ==> result.value == Timeout(id, old(outbound)[id].member)
      ensures result.Ok? ==> id !in outbound && out.published == [result.value] && Placed(result.value, out, buffered)
      ensures out.lost == []
    {
      hide Inv, Extend, Apply;
      OpResolveTimeout(View(), id);
      Record(DoResolveTimeout(id));
      if id !in outbound { return Err(if id in terminal then AlreadyTerminal else UnknownRequest), SILENT; }
      var u := Timeout(id, outbound[id].member);
      out := Terminate(u);
      result := Ok(u);
    }

    method ResolvePendingAfterIdle(id: RequestId) returns (result: Result<Outcome, FailureCode>, ghost out: Emission)
      requires Valid()
      modifies this
      ensures Valid() && history == Extend(old(history), DoResolvePending(id))
      ensures MemberRequest.ResolvePendingAfterIdle(old(View()), id) == Answer(View(), result, out)
      ensures result.Ok? <==>
        id in old(outbound) && old(outbound)[id].accepted && old(outbound)[id].idleArmed && !old(outbound)[id].pendingPublished
      ensures result.Ok? ==> result.value == Pending(id, old(outbound)[id].member)
      ensures result.Ok? ==> out.published == [result.value] && Placed(result.value, out, buffered)
      ensures out.lost == []
    {
      hide Inv, Extend, Apply;
      OpResolvePendingAfterIdle(View(), id);
      Record(DoResolvePending(id));
      if id !in outbound { return Err(if id in terminal then AlreadyTerminal else UnknownRequest), SILENT; }
      var request := outbound[id];
      if !request.accepted || !request.idleArmed { return Err(UnknownRequest), SILENT; }
      if request.pendingPublished { return Err(AlreadyPending), SILENT; }
      outbound := outbound[id := request.(pendingPublished := true)];
      var u := Pending(id, request.member);
      PublishPlaces(View(), u);
      out := Publish(u);
      result := Ok(u);
    }

    method SelectInbound(id: Option<RequestId>) returns (result: Result<RequestId, FailureCode>)
      ensures result == MemberRequest.SelectInbound(View(), id)
      ensures id.Some? && id.value in inbound ==> result == Ok(id.value)
    {
      if id.Some? {
        if id.value in inbound { return Ok(id.value); }
        return Err(if id.value in inboundTerminal then AlreadyTerminal else UnknownRequest);
      }
      if |inbound| == 0 { return Err(NoPendingRequest); }
      if |inbound| > 1 { return Err(AmbiguousRequest); }
      OneKeyIsTheOnlyKey(inbound);
      var only :| only in inbound;
      return Ok(only);
    }

    method ResolveInboundResponse(id: RequestId) returns (result: Result<Inbound, FailureCode>)
      requires Valid()
      modifies this
      ensures Valid() && history == Extend(old(history), DoResolveInboundResponse(id))
      ensures MemberRequest.ResolveInboundResponse(old(View()), id) == Answer(View(), result, SILENT)
    {
      hide Inv, Extend, Apply;
      OpResolveInboundResponse(View(), id);
      Record(DoResolveInboundResponse(id));
      if id !in inbound { return Err(if id in inboundTerminal then AlreadyTerminal else ResponseExpired); }
      var request := inbound[id];
      inbound, order := inbound - {id}, order - {id};
      SetInboundTerminal(id);
      return Ok(request);
    }

    method ResolveInboundExpired(id: RequestId) returns (result: Result<(), FailureCode>)
      requires Valid()
      modifies this
      ensures Valid() && history == Extend(old(history), DoResolveInboundExpired(id))
      ensures MemberRequest.ResolveInboundExpired(old(View()), id) == Answer(View(), result, SILENT)
    {
      hide Inv, Extend, Apply;
      OpResolveInboundExpired(View(), id);
      Record(DoResolveInboundExpired(id));
      if id !in inbound { return Err(UnknownRequest); }
      inbound, order := inbound - {id}, order - {id};
      return Ok(());
    }

    /** Take the buffered outcome at an index for a wait call that need not park. */
    method TakeBuffered(index: nat) returns (result: Result<Wait, FailureCode>, ghost out: Emission)
      requires index < |buffered|
      modifies this
      ensures MemberRequest.TakeBuffered(old(View()), index) == Answer(View(), result, out) && history == old(history)
      ensures result == Ok(Update(old(buffered)[index].update)) && out.lost == []
      ensures out.delivered == [Delivery(old(nextWaiter), old(buffered)[index].update)]
    {
      var u := buffered[index].update;
      out := SILENT.(delivered := [Delivery(nextWaiter, u)]);
      buffered := buffered[..index] + buffered[index + 1..];
      nextWaiter := nextWaiter + 1;
      result := Ok(Update(u));
    }

    /** The first buffered outcome of one request. */
    method FindBuffered(id: RequestId) returns (index: Option<nat>)
      ensures index == FirstIndex(buffered, id)
      ensures index.Some? ==> index.value < |buffered| && buffered[index.value].update.requestId == id
      ensures index.None? ==> forall x | x in buffered :: x.update.requestId != id
    {
      var i := 0;
      while i < |buffered|
        invariant i <= |buffered|
        invariant forall j | 0 <= j < i :: buffered[j].update.requestId != id
      {
        if buffered[i].update.requestId == id {
          assert FirstIndex(buffered, id) == Some(i);
          return Some(i);
        }
        i := i + 1;
      }
      assert FirstIndex(buffered, id) == None;
      return None;
    }

    method NewWaiter() returns (w: Waiter)
      modifies `nextWaiter, `active
      ensures w == old(nextWaiter) && nextWaiter == w + 1 && active == old(active) + {w}
    {
      w := nextWaiter;
      nextWaiter := nextWaiter + 1;
      active := active + {w};
    }

    method WaitForRequest(id: RequestId) returns (result: Result<Wait, FailureCode>, ghost out: Emission)
      requires Valid()
      modifies this
      ensures Valid() && history == Extend(old(history), DoWaitForRequest(id))
      ensures MemberRequest.WaitForRequest(old(View()), id) == Answer(View(), result, out)
      ensures result.Ok? && result.value.Update? ==>
        result.value.update.requestId == id && out.delivered == [Delivery(old(nextWaiter), result.value.update)]
      ensures result.Ok? && result.value.Waiting? ==>
        id in outbound && id in exact && FirstIndex(buffered, id).None?
      ensures result.Err? ==> View() == old(View())
    {
      hide RegistryInvariant.NothingMissed;
      hide Inv, Extend, Apply, ValidRequestId, MemberRequest.TakeBuffered, FirstIndex;
      OpWaitForRequest(View(), id);
      Record(DoWaitForRequest(id));
      if !ValidRequestId(id) { return Err(InvalidRequestId), SILENT; }
      var index := FindBuffered(id);
      if index.Some? {
        result, out := TakeBuffered(index.value);
        return;
      }
      if id !in outbound { return Err(if id in terminal then OutcomeConsumed else UnknownRequest), SILENT; }
      if id in exact || waiter.Some? { return Err(AlreadyWaiting), SILENT; }
      var w := NewWaiter();
      exact := exact[id := w];
      return Ok(Waiting(w)), SILENT;
    }

    method WaitForUpdate() returns (result: Result<Wait, FailureCode>, ghost out: Emission)
      requires Valid()
      modifies this
      ensures Valid() && history == Extend(old(history), DoWaitForUpdate)
      ensures MemberRequest.WaitForUpdate(old(View())) == Answer(View(), result, out)
      ensures result.Ok? && result.value.Update? ==> old(buffered) != [] && out.delivered == [Delivery(old(nextWaiter), old(buffered)[0].update)]
      ensures result.Ok? && result.value.Waiting? ==> waiter.Some? && buffered == [] && exact == map[]
      ensures result.Err? ==> View() == old(View())
    {
      hide Inv, Extend, Apply, MemberRequest.TakeBuffered;
      OpWaitForUpdate(View());
      Record(DoWaitForUpdate);
      if buffered != [] {
        result, out := TakeBuffered(0);
        return;
      }
      if |outbound| == 0 { return Err(NoPendingRequests), SILENT; }
      if waiter.Some? || |exact| > 0 { return Err(AlreadyWaiting), SILENT; }
      var w := NewWaiter();
      waiter := Some(w);
      return Ok(Waiting(w)), SILENT;
    }

    method CancelGeneralWait(w: Waiter)
      requires Valid() && w in history.waits && history.waits[w] == None
      modifies this
      ensures Valid() && history == Extend(old(history), DoCancelGeneralWait(w))
      ensures View() == MemberRequest.CancelGeneralWait(old(View()), w)
    {
      hide Inv, Extend, Apply;
      OpCancelGeneralWait(View(), w);
      Record(DoCancelGeneralWait(w));
      if w !in active { return; }
      active := active - {w};
      if waiter == Some(w) {
        waiter := None;
      }
    }

    method CancelExactWait(id: RequestId, w: Waiter)
      requires Valid() && w in history.waits && history.waits[w] == Some(id)
      modifies this
      ensures Valid() && history == Extend(old(history), DoCancelExactWait(id, w))
      ensures View() == MemberRequest.CancelExactWait(old(View()), id, w)
    {
      hide Inv, Extend, Apply;
      OpCancelExactWait(View(), id, w);
      Record(DoCancelExactWait(id, w));
      if w !in active { return; }
      active := active - {w};
      if id in exact && exact[id] == w {
        exact := exact - {id};
      }
    }
  }
}
