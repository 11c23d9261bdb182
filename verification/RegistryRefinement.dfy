/** The registry does exactly what the ideal one does. */
module RegistryRefinement {
  import opened Wrappers
  import opened MemberRequest
  import Sorting
  import opened RegistryInvariant
  import opened RegistryHistory
  import opened IdealRegistry

  function Boxed(b: seq<Buffered>): seq<Outcome> {
    if b == [] then [] else [b[0].update] + Boxed(b[1..])
  }

  /** What the registry amounts to. */
  function Abstract(r: Registry): Ideal {
    Ideal(r.outbound, r.inbound, r.tombstones, r.inboundTombstones, r.inboundTerminal, Boxed(r.buffered), r.waiter, r.exact, r.nextWaiter)
  }

  // ---------------------------------------------------------------- the box

  lemma {:induction false} BoxedHas(b: seq<Buffered>, k: nat)
    ensures |Boxed(b)| == |b|
    ensures k < |b| ==> Boxed(b)[k] == b[k].update
  {
    if b != [] { BoxedHas(b[1..], if k > 0 then k - 1 else 0); }
  }

  lemma {:induction false} BoxedAppend(a: seq<Buffered>, b: seq<Buffered>)
    ensures Boxed(a + b) == Boxed(a) + Boxed(b)
  {
    if a == [] {
      assert a + b == b;
    } else {
      assert (a + b)[1..] == a[1..] + b;
      BoxedAppend(a[1..], b);
    }
  }

  lemma {:induction false} BoxedWithout(b: seq<Buffered>, id: RequestId)
    ensures Boxed(Without(b, id)) == Others(Boxed(b), id)
  {
    if b != [] {
      BoxedWithout(b[1..], id);
      BoxedAppend(if b[0].update.requestId == id then [] else [b[0]], Without(b[1..], id));
      assert Boxed([b[0]]) == [b[0].update] + Boxed([b[0]][1..]);
      assert [] + Boxed(Without(b[1..], id)) == Boxed(Without(b[1..], id));
      assert Boxed(b)[1..] == Boxed(b[1..]);
    }
  }

  /** Taking out one of the later ones leaves the first. */
  lemma DropLater(b: seq<Buffered>, k: nat)
    requires k + 1 < |b|
    ensures Boxed(b[..k + 1] + b[k + 2..]) == [b[0].update] + Boxed(b[1..][..k] + b[1..][k + 1..])
  {
    var rest := b[1..][..k] + b[1..][k + 1..];
    assert b[..k + 1] + b[k + 2..] == [b[0]] + rest;
    assert ([b[0]] + rest)[1..] == rest;
  }

  lemma {:induction false} BoxedFirst(b: seq<Buffered>, id: RequestId)
    ensures
      var index := FirstIndex(b, id);
      && FirstOf(Boxed(b), id) == (if index.Some? then Some(b[index.value].update) else None)
      && (index.Some? ==> WithoutFirst(Boxed(b), id) == Boxed(b[..index.value] + b[index.value + 1..]))
  {
    if b != [] {
      assert Boxed(b)[1..] == Boxed(b[1..]) && Boxed(b)[0] == b[0].update;
      hide Boxed;
      if b[0].update.requestId == id {
        assert b[..0] + b[1..] == b[1..];
      } else {
        BoxedFirst(b[1..], id);
        var rest := FirstIndex(b[1..], id);
        if rest.Some? { DropLater(b, rest.value); }
      }
    }
  }

  // ---------------------------------------------------------------- publishing

  lemma PublishGives(r: Registry, u: Outcome)
    requires Publishable(r, u)
    ensures
      var (r', out) := Publish(r, u);
      (Abstract(r'), out.delivered) == Give(Abstract(r), u) && out.published == [u]
  {
    hide Sorting.Sorted, Without, Room, ValidTables, ValidFlags, ValidTombstones, ValidInboundTombstones, NothingMissed, ValidWaiters, Boxed, Others;
    var kept := Cleared(r.buffered, u);
    ClearedBuffer(r.buffered, r.sequence, r.outbound, u);
    StoredBuffer(r.buffered, r.sequence, r.outbound, u);
    BoxedWithout(r.buffered, u.requestId);
    BoxedAppend(kept, [Buffered(u, r.sequence)]);
    BoxedOne(Buffered(u, r.sequence));
    WaitersRunHere(r.waiter, r.exact, r.active, r.nextWaiter, u.requestId);
  }

  lemma BoxedOne(x: Buffered)
    ensures Boxed([x]) == [x.update]
  {
    assert [x][1..] == [];
  }

  lemma WaitersRunHere(waiter: Option<Waiter>, exact: map<RequestId, Waiter>, active: set<Waiter>, next: Waiter, id: RequestId)
    requires ValidWaiters(waiter, exact, active, next)
    ensures id in exact ==> exact[id] in active
    ensures waiter.Some? ==> waiter.value in active
  {
    if id in exact { assert exact[id] in exact.Values; }
  }

  lemma TerminateGives(r: Registry, u: Outcome)
    requires Valid(r) && u.requestId in r.outbound && !u.Pending?
    ensures
      var answer, i := Terminate(r, u), Abstract(r);
      && answer.result == Ok(u) && answer.out.published == [u]
      && (Abstract(answer.reg), answer.out.delivered) == Give(i.(live := i.live - {u.requestId}, ended := Last64(i.ended + [u.requestId])), u)
  {
    hide Valid, Publishable, Publish, Give, Boxed;
    TerminateKeepsValid(r, u);
    PublishGives(SetTerminal(DropOutbound(r, u.requestId), u.requestId), u);
  }

  // ---------------------------------------------------------------- every operation

  function Code<T>(result: Result<T, FailureCode>): Option<FailureCode> {
    if result.Err? then Some(result.error) else None
  }

  /** What the caller of an operation is told. */
  function CodeOf(r: Registry, op: Op): Option<FailureCode> {
    match op
    case DoRegisterOutbound(id, member, now, timeout, maxWait) => Code(RegisterOutbound(r, id, member, now, timeout, maxWait).result)
    case DoRegisterInbound(id, requester, message, instructions) => Code(RegisterInbound(r, id, requester, message, instructions).result)
    case DoAcceptOutbound(id, at) => Code(AcceptOutbound(r, id, at).result)
    case DoAcceptInbound(id) => Code(AcceptInbound(r, id).result)
    case DoArmOutboundIdle(id, at) => Code(ArmOutboundIdle(r, id, at).result)
    case DoArmInboundIdle(id, at) => Code(ArmInboundIdle(r, id, at).result)
    case DoFailBeforeAcceptance(id) => Code(FailBeforeAcceptance(r, id).result)
    case DoCloseOutcomeUnknown(id) => Code(CloseOutcomeUnknown(r, id).result)
    case DoResolveResponse(id, member, message, instructions, at) => Code(ResolveResponse(r, id, member, message, instructions, at).result)
    case DoResolveOffline(id) => Code(ResolveOffline(r, id).result)
    case DoResolveTimeout(id) => Code(ResolveTimeout(r, id).result)
    case DoResolvePending(id) => Code(ResolvePendingAfterIdle(r, id).result)
    case DoResolveInboundResponse(id) => Code(ResolveInboundResponse(r, id).result)
    case DoResolveInboundExpired(id) => Code(ResolveInboundExpired(r, id).result)
    case DoWaitForRequest(id) => Code(WaitForRequest(r, id).result)
    case DoWaitForUpdate => Code(WaitForUpdate(r).result)
    case DoCancelGeneralWait(_) => None
    case DoCancelExactWait(_, _) => None
  }

  /** The registry and the ideal one do the same. */
  predicate Alike(r: Registry, op: Op) {
    var (r', out) := Apply(r, op);
    Act(Abstract(r), op) == (Abstract(r'), Reply(CodeOf(r, op), out.published, out.delivered))
  }

  lemma TombstonesAgree(r: Registry)
    requires Valid(r)
    ensures forall id :: id in r.terminal <==> id in r.tombstones
    ensures r.outbound.Keys !! r.inbound.Keys && r.outbound.Keys !! r.terminal
    ensures |r.outbound| <= MAX_OUTBOUND
  {
    hide ValidFlags, ValidInboundTombstones, ValidBuffer, NothingMissed, ValidWaiters;
  }

  lemma RegisteringIsAlike(r: Registry, op: Op)
    requires Valid(r) && (op.DoRegisterOutbound? || op.DoRegisterInbound?)
    ensures Alike(r, op)
  {
    hide Valid, Boxed, ValidRequestId, Give, FirstOf, WithoutFirst, Last64;
    hide AcceptOutbound, AcceptInbound, ArmOutboundIdle, ArmInboundIdle, FailBeforeAcceptance, CloseOutcomeUnknown, ResolveResponse;
    hide ResolveOffline, ResolveTimeout, ResolvePendingAfterIdle, ResolveInboundResponse, ResolveInboundExpired, WaitForRequest, WaitForUpdate;
    hide CancelGeneralWait, CancelExactWait;
    TombstonesAgree(r);
    BoxedHas(r.buffered, 0);
  }

  lemma SameAgain<K, V>(m: map<K, V>, k: K)
    requires k in m
    ensures m[k := m[k]] == m
  {
  }

  lemma UpdatingIsAlike(r: Registry, op: Op)
    requires Valid(r) && (op.DoAcceptOutbound? || op.DoAcceptInbound? || op.DoArmOutboundIdle? || op.DoArmInboundIdle?)
    ensures Alike(r, op)
  {
    hide Valid, Boxed, ValidRequestId, Give, FirstOf, WithoutFirst, Last64;
    hide RegisterOutbound, RegisterInbound, FailBeforeAcceptance, CloseOutcomeUnknown, ResolveResponse;
    hide ResolveOffline, ResolveTimeout, ResolvePendingAfterIdle, ResolveInboundResponse, ResolveInboundExpired, WaitForRequest, WaitForUpdate;
    hide CancelGeneralWait, CancelExactWait;
    if op.id in r.outbound { SameAgain(r.outbound, op.id); }
    if op.id in r.inbound { SameAgain(r.inbound, op.id); }
  }

  lemma FailingIsAlike(r: Registry, op: Op)
    requires op.DoFailBeforeAcceptance?
    ensures Alike(r, op)
  {
    hide Boxed, ValidRequestId, Give, FirstOf, WithoutFirst, Last64;
    hide RegisterOutbound, RegisterInbound, AcceptOutbound, AcceptInbound, ArmOutboundIdle, ArmInboundIdle, ResolveResponse;
    hide ResolveOffline, ResolveTimeout, ResolvePendingAfterIdle, ResolveInboundResponse, WaitForRequest, WaitForUpdate;
    hide CancelGeneralWait, CancelExactWait, CloseOutcomeUnknown, ResolveInboundExpired;
  }

  lemma ForgettingIsAlike(r: Registry, op: Op)
    requires op.DoCloseOutcomeUnknown?
    ensures Alike(r, op)
  {
    hide Boxed, ValidRequestId, Give, FirstOf, WithoutFirst, Last64;
    hide RegisterOutbound, RegisterInbound, AcceptOutbound, AcceptInbound, ArmOutboundIdle, ArmInboundIdle, ResolveResponse;
    hide ResolveOffline, ResolveTimeout, ResolvePendingAfterIdle, ResolveInboundResponse, WaitForRequest, WaitForUpdate;
    hide CancelGeneralWait, CancelExactWait, FailBeforeAcceptance, ResolveInboundExpired;
  }

  lemma ExpiringIsAlike(r: Registry, op: Op)
    requires op.DoResolveInboundExpired?
    ensures Alike(r, op)
  {
    hide Boxed, ValidRequestId, Give, FirstOf, WithoutFirst, Last64;
    hide RegisterOutbound, RegisterInbound, AcceptOutbound, AcceptInbound, ArmOutboundIdle, ArmInboundIdle, ResolveResponse;
    hide ResolveOffline, ResolveTimeout, ResolvePendingAfterIdle, ResolveInboundResponse, WaitForRequest, WaitForUpdate;
    hide CancelGeneralWait, CancelExactWait, FailBeforeAcceptance, CloseOutcomeUnknown;
  }

  lemma ClosingIsAlike(r: Registry, op: Op)
    requires Valid(r) && op.DoResolveInboundResponse?
    ensures Alike(r, op)
  {
    hide Valid, Boxed, ValidRequestId, Give, FirstOf, WithoutFirst;
    hide RegisterOutbound, RegisterInbound, AcceptOutbound, AcceptInbound, ArmOutboundIdle, ArmInboundIdle, ResolveResponse;
    hide ResolveOffline, ResolveTimeout, ResolvePendingAfterIdle, FailBeforeAcceptance, CloseOutcomeUnknown, ResolveInboundExpired;
    hide WaitForRequest, WaitForUpdate, CancelGeneralWait, CancelExactWait;
    var pushed := r.inboundTombstones + [op.id];
    var n := |pushed| - |LastN(pushed, MAX_TOMBSTONES)|;
    EvictedAre(pushed, n);
  }

  lemma EvictedAre(all: seq<RequestId>, n: nat)
    requires n <= |all| && (n == 0 ==> |all| <= 64) && (n > 0 ==> n == |all| - 64)
    ensures (set e | e in all[..n]) == (set k | 0 <= k < |all| - 64 :: all[k])
  {
    forall e | e in all[..n] ensures e in (set k | 0 <= k < |all| - 64 :: all[k]) {
      var k :| 0 <= k < n && all[..n][k] == e;
      assert all[k] == e;
    }
    forall k | 0 <= k < |all| - 64 ensures all[k] in all[..n] {
      assert all[..n][k] == all[k];
    }
  }

  lemma ResolvingIsAlike(r: Registry, op: Op)
    requires Valid(r) && (op.DoResolveResponse? || op.DoResolveOffline? || op.DoResolveTimeout?)
    ensures Alike(r, op)
  {
    hide Valid, Boxed, ValidRequestId, Give, FirstOf, WithoutFirst, Terminate, Last64;
    hide RegisterOutbound, RegisterInbound, AcceptOutbound, AcceptInbound, ArmOutboundIdle, ArmInboundIdle;
    hide ResolvePendingAfterIdle, ResolveInboundResponse, FailBeforeAcceptance, CloseOutcomeUnknown, ResolveInboundExpired;
    hide WaitForRequest, WaitForUpdate, CancelGeneralWait, CancelExactWait;
    TombstonesAgree(r);
    if op.id in r.outbound {
      match op
      case DoResolveResponse(id, member, message, instructions, at) =>
        TerminateGives(r, Response(id, RequestAge(r.outbound[id], at), member, message, instructions));
      case DoResolveOffline(id) => TerminateGives(r, Offline(id, r.outbound[id].member));
      case DoResolveTimeout(id) => TerminateGives(r, Timeout(id, r.outbound[id].member));
    }
  }

  lemma NoticingIsAlike(r: Registry, op: Op)
    requires Valid(r) && op.DoResolvePending?
    ensures Alike(r, op)
  {
    hide Valid, Boxed, ValidRequestId, Give, FirstOf, WithoutFirst, Terminate, Last64, Publish, Publishable;
    hide RegisterOutbound, RegisterInbound, AcceptOutbound, AcceptInbound, ArmOutboundIdle, ArmInboundIdle, ResolveResponse, ResolveOffline;
    hide ResolveTimeout, ResolveInboundResponse, FailBeforeAcceptance, CloseOutcomeUnknown, ResolveInboundExpired;
    hide WaitForRequest, WaitForUpdate, CancelGeneralWait, CancelExactWait;
    TombstonesAgree(r);
    var id := op.id;
    if ResolvePendingAfterIdle(r, id).result.Ok? {
      PendingIsPublishable(r, id);
      PublishGives(r.(outbound := r.outbound[id := r.outbound[id].(pendingPublished := true)]), Pending(id, r.outbound[id].member));
    }
  }

  lemma WaitingForOneIsAlike(r: Registry, op: Op)
    requires Valid(r) && op.DoWaitForRequest?
    ensures Alike(r, op)
  {
    hide Valid, Boxed, ValidRequestId, Give, FirstOf, WithoutFirst, Terminate, Last64, Publish, FirstIndex;
    hide RegisterOutbound, RegisterInbound, AcceptOutbound, AcceptInbound, ArmOutboundIdle, ArmInboundIdle, ResolveResponse, ResolveOffline;
    hide ResolveTimeout, ResolveInboundResponse, FailBeforeAcceptance, CloseOutcomeUnknown, ResolveInboundExpired, ResolvePendingAfterIdle;
    hide CancelGeneralWait, CancelExactWait, WaitForUpdate;
    TombstonesAgree(r);
    BoxedFirst(r.buffered, op.id);
  }

  lemma WaitingForAnyIsAlike(r: Registry, op: Op)
    requires op.DoWaitForUpdate?
    ensures Alike(r, op)
  {
    hide Valid, Boxed, ValidRequestId, Give, FirstOf, WithoutFirst, Terminate, Last64, Publish, FirstIndex;
    hide RegisterOutbound, RegisterInbound, AcceptOutbound, AcceptInbound, ArmOutboundIdle, ArmInboundIdle, ResolveResponse, ResolveOffline;
    hide ResolveTimeout, ResolveInboundResponse, FailBeforeAcceptance, CloseOutcomeUnknown, ResolveInboundExpired, ResolvePendingAfterIdle;
    hide CancelGeneralWait, CancelExactWait, WaitForRequest;
    BoxedHas(r.buffered, 0);
    NoneLive(r.outbound);
    NoneLive(r.exact);
    if r.buffered != [] { BoxedTail(r.buffered); }
  }

  lemma NoneLive<K, V>(m: map<K, V>)
    ensures |m| == 0 <==> m == map[]
  {
    if m != map[] {
      var k :| k in m;
      assert k in m.Keys;
    }
  }

  lemma BoxedTail(b: seq<Buffered>)
    requires b != []
    ensures Boxed(b)[1..] == Boxed(b[..0] + b[1..]) && Boxed(b)[0] == b[0].update
  {
    assert b[..0] + b[1..] == b[1..];
  }

  lemma CancellingIsAlike(r: Registry, op: Op)
    requires Valid(r) && Disciplined(r, op) && (op.DoCancelGeneralWait? || op.DoCancelExactWait?)
    ensures Alike(r, op)
  {
    hide Boxed, ValidRequestId, Give, FirstOf, WithoutFirst, Terminate, Last64, Publish, FirstIndex;
    hide RegisterOutbound, RegisterInbound, AcceptOutbound, AcceptInbound, ArmOutboundIdle, ArmInboundIdle, ResolveResponse, ResolveOffline;
    hide ResolveTimeout, ResolveInboundResponse, FailBeforeAcceptance, CloseOutcomeUnknown, ResolveInboundExpired, ResolvePendingAfterIdle;
    hide WaitForRequest, WaitForUpdate;
    hide ValidTables, ValidFlags, ValidTombstones, ValidInboundTombstones, ValidBuffer, NothingMissed, ValidWaiters;
    WaitersRunHere(r.waiter, r.exact, r.active, r.nextWaiter, if op.DoCancelExactWait? then op.id else "");
  }

  /** Whatever is asked of it, a registry in a valid state behaves like the ideal one: same state after, same answer, same effects. */
  lemma Refines(r: Registry, op: Op)
    requires Valid(r) && Disciplined(r, op)
    ensures Alike(r, op)
  {
    hide Valid, Alike, Disciplined;
    if op.DoRegisterOutbound? || op.DoRegisterInbound? {
      RegisteringIsAlike(r, op);
    } else if op.DoAcceptOutbound? || op.DoAcceptInbound? || op.DoArmOutboundIdle? || op.DoArmInboundIdle? {
      UpdatingIsAlike(r, op);
    } else if op.DoFailBeforeAcceptance? {
      FailingIsAlike(r, op);
    } else if op.DoCloseOutcomeUnknown? {
      ForgettingIsAlike(r, op);
    } else if op.DoResolveInboundExpired? {
      ExpiringIsAlike(r, op);
    } else if op.DoResolveInboundResponse? {
      ClosingIsAlike(r, op);
    } else if op.DoResolveResponse? || op.DoResolveOffline? || op.DoResolveTimeout? {
      ResolvingIsAlike(r, op);
    } else if op.DoResolvePending? {
      NoticingIsAlike(r, op);
    } else if op.DoWaitForRequest? {
      WaitingForOneIsAlike(r, op);
    } else if op.DoWaitForUpdate? {
      WaitingForAnyIsAlike(r, op);
    } else {
      CancellingIsAlike(r, op);
    }
  }
}
