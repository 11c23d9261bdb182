/** What every legal run of the registry guarantees to the callers of the coordination tools. */
module RegistryTheorems {
  import opened Wrappers
  import opened MemberRequest
  import Sorting
  import opened RegistryInvariant
  import opened RegistryHistory

  // ---------------------------------------------------------------- exactly once

  lemma {:induction false} OfCounts(s: seq<Outcome>, u: Outcome)
    ensures multiset(s)[u] == multiset(Of(s, u.requestId))[u]
    ensures forall v | v in Of(s, u.requestId) :: v in s && v.requestId == u.requestId
  {
    if s != [] {
      var init, last := s[..|s| - 1], s[|s| - 1];
      OfCounts(init, u);
      assert s == init + [last];
      assert multiset(s) == multiset(init) + multiset{last};
    }
  }

  lemma SameEnding(published: seq<Outcome>, u: Outcome, v: Outcome)
    requires Story(Of(published, u.requestId)) && v.requestId == u.requestId
    requires u in published && !u.Pending? && v in published && !v.Pending?
    ensures u == v
  {
    OfHas(published, u);
    OfHas(published, v);
    hide Of;
  }

  lemma StoryHasOneEnding(published: seq<Outcome>, u: Outcome)
    requires Story(Of(published, u.requestId)) && u in published && !u.Pending?
    ensures multiset(published)[u] == 1
    ensures forall v | v in published && v.requestId == u.requestId && !v.Pending? :: v == u
  {
    OfCounts(published, u);
    OfHas(published, u);
    OneInStory(Of(published, u.requestId), u);
    forall v | v in published && v.requestId == u.requestId && !v.Pending? ensures v == u {
      SameEnding(published, u, v);
    }
  }

  lemma OneInStory(s: seq<Outcome>, u: Outcome)
    requires Story(s) && u in s && !u.Pending?
    ensures multiset(s)[u] == 1
  {
    assert s == [u] || s == [s[0], u];
  }

  /** About one request at most one terminal outcome is ever published, and at most one pending notice before it. */
  lemma OneEnding(h: History, u: Outcome)
    requires Inv(h) && u in h.published && !u.Pending?
    ensures multiset(h.published)[u] == 1
    ensures u.requestId !in h.reg.outbound
    ensures forall v | v in h.published && v.requestId == u.requestId && !v.Pending? :: v == u
  {
    hide Valid, Conserved, Answered, AllPending, Ended, Stories, LastN, Of, ValidRequestId;
    StoryOf(h, u.requestId);
    OfHas(h.published, u);
    StoryHasOneEnding(h.published, u);
  }

  /**
   * Every terminal outcome of every run is, at every moment after its publication, in
   * exactly one place: handed to one wait call, or in the buffer for one later call.
   */
  lemma ExactlyOnce(ops: seq<Op>, u: Outcome)
    requires LegalRun(ops) && u in Replay(ops).published && !u.Pending?
    ensures multiset(Replay(ops).published)[u] == 1
    ensures Given(Replay(ops).delivered)[u] + Held(Replay(ops).reg.buffered)[u] == 1
    ensures Story(Of(Replay(ops).published, u.requestId))
    ensures u.requestId !in Replay(ops).reg.outbound
  {
    RunsKeepInv(ops);
    var h := Replay(ops);
    OneEnding(h, u);
    StoryOf(h, u.requestId);
    InOnePlace(h, u);
  }

  lemma InOnePlace(h: History, u: Outcome)
    requires Inv(h) && multiset(h.published)[u] == 1 && !u.Pending?
    ensures Given(h.delivered)[u] + Held(h.reg.buffered)[u] == 1
  {
    hide Valid, Stories, Answered, Ended;
    assert u !in h.superseded;
  }

  /** A pending notice precedes the terminal outcome of its request; none is published after it or twice. */
  lemma AtMostOneNotice(ops: seq<Op>, id: RequestId)
    requires LegalRun(ops)
    ensures
      var s := Of(Replay(ops).published, id);
      && |s| <= 2
      && (|s| == 2 ==> s[0].Pending? && !s[1].Pending?)
      && (id in Replay(ops).reg.outbound ==> |s| <= 1 && forall u | u in s :: u.Pending?)
  {
    RunsKeepInv(ops);
    NoticeBeforeEnding(Replay(ops), id);
  }

  lemma NoticeBeforeEnding(h: History, id: RequestId)
    requires Inv(h)
    ensures
      var s := Of(h.published, id);
      && |s| <= 2
      && (|s| == 2 ==> s[0].Pending? && !s[1].Pending?)
      && (id in h.reg.outbound ==> |s| <= 1 && forall u | u in s :: u.Pending?)
  {
    hide Valid, Conserved, Stories, Answered, Ended, AllPending, Of;
    StoryOf(h, id);
  }

  /** No wait call is answered twice, and a wait for one request is answered by that request only. */
  lemma AnswersFitTheirQuestions(ops: seq<Op>, i: nat, j: nat)
    requires LegalRun(ops) && i < |Replay(ops).delivered| && j < |Replay(ops).delivered|
    ensures
      var h := Replay(ops);
      var d := h.delivered[i];
      && (i != j ==> d.waiter != h.delivered[j].waiter)
      && d.waiter in h.waits && d.waiter !in h.reg.active
      && (h.waits[d.waiter].Some? ==> h.waits[d.waiter] == Some(d.update.requestId))
  {
    RunsKeepInv(ops);
    hide Valid, Conserved, Stories, Ended, AllPending;
    var h := Replay(ops);
    assert Fitting(h.delivered[i], h.reg.active, h.waits);
  }

  /** The tombstones are the most recent 64 ended requests, and a tombstone is never live. */
  lemma TombstonesAreTheLastEnded(ops: seq<Op>)
    requires LegalRun(ops)
    ensures
      var r := Replay(ops).reg;
      && r.tombstones == LastN(Ended(Replay(ops).published), MAX_TOMBSTONES)
      && Distinct(r.tombstones)
      && (forall id :: id in r.terminal <==> id in r.tombstones)
      && r.outbound.Keys !! r.terminal
  {
    RunsKeepInv(ops);
    hide Conserved, Stories, Answered, AllPending, Ended, LastN, ValidTables, ValidFlags, ValidInboundTombstones;
    hide ValidBuffer, NothingMissed, ValidWaiters, Distinct;
  }

  // ---------------------------------------------------------------- no lost wake-up

  /** While anyone waits, nothing that should have gone to them is in the buffer. */
  lemma NoLostWakeUp(ops: seq<Op>)
    requires LegalRun(ops)
    ensures
      var r := Replay(ops).reg;
      && (r.waiter.Some? ==> r.buffered == [] && r.exact == map[])
      && (forall x | x in r.buffered :: x.update.requestId !in r.exact)
  {
    RunsKeepInv(ops);
    hide Conserved, Stories, Answered, AllPending, Ended, LastN, ValidTables, ValidFlags, ValidInboundTombstones;
    hide ValidBuffer, ValidTombstones, ValidWaiters;
  }

  /** An outcome goes to the waiter of its own request if there is one, else to the general waiter. */
  lemma WaiterIsServed(r: Registry, u: Outcome)
    requires Valid(r)
    ensures u.requestId in r.exact ==>
      Publish(r, u).1.delivered == [Delivery(r.exact[u.requestId], u)] && Publish(r, u).0.exact == r.exact - {u.requestId}
    ensures u.requestId !in r.exact ==> Publish(r, u).0.exact == r.exact
    ensures u.requestId !in r.exact && r.waiter.Some? ==>
      Publish(r, u).1.delivered == [Delivery(r.waiter.value, u)] && Publish(r, u).0.waiter == None
    ensures u.requestId !in r.exact && r.waiter == None ==> Publish(r, u).1.delivered == []
  {
    hide ValidTables, ValidFlags, ValidTombstones, ValidInboundTombstones, ValidBuffer, NothingMissed, Injective, Sorting.Sorted;
    if u.requestId in r.exact {
      assert r.exact[u.requestId] in r.exact.Values;
    }
  }

  /** A terminal outcome nobody waited for is what the next wait for its request returns, once. */
  lemma BufferedEndingIsCollected(ops: seq<Op>, u: Outcome)
    requires LegalRun(ops) && u in Replay(ops).published && !u.Pending? && Held(Replay(ops).reg.buffered)[u] > 0
    ensures
      var first := WaitForRequest(Replay(ops).reg, u.requestId);
      && first.result == Ok(Update(u))
      && WaitForRequest(first.reg, u.requestId).result
           == Err(if u.requestId in first.reg.terminal then OutcomeConsumed else UnknownRequest)
  {
    RunsKeepInv(ops);
    var h := Replay(ops);
    OneEnding(h, u);
    InOnePlace(h, u);
    CollectedOnce(h, u);
  }

  lemma {:induction false} HeldComesFrom(b: seq<Buffered>, u: Outcome)
    requires Held(b)[u] > 0
    ensures exists i :: 0 <= i < |b| && b[i].update == u
  {
    if b[0].update != u {
      HeldComesFrom(b[1..], u);
      var i :| 0 <= i < |b[1..]| && b[1..][i].update == u;
      assert b[i + 1].update == u;
    }
  }

  /** Once a request has ended, only its terminal outcome can still be in the buffer. */
  lemma OnlyTheEndingIsBuffered(h: History, u: Outcome, i: nat)
    requires Inv(h) && u in h.published && !u.Pending?
    requires i < |h.reg.buffered| && h.reg.buffered[i].update.requestId == u.requestId
    ensures h.reg.buffered[i].update == u
  {
    OneEnding(h, u);
    BufferedWasPublished(h, h.reg.buffered[i]);
    hide Conserved, Stories, Answered, AllPending, Ended, LastN, ValidTables, ValidFlags, ValidInboundTombstones;
    hide ValidTombstones, ValidWaiters, NothingMissed;
  }

  lemma UsedOf(h: History, u: Outcome)
    requires Inv(h) && u in h.published
    ensures ValidRequestId(u.requestId)
  {
    hide Valid, Conserved, Answered, Ended, AllPending, LastN, ValidRequestId;
    StoryOf(h, u.requestId);
    OfHas(h.published, u);
  }

  lemma EndingOf(h: History, u: Outcome, x: Buffered)
    requires Inv(h) && u in h.published && !u.Pending? && x in h.reg.buffered && x.update.requestId == u.requestId
    ensures x.update == u
  {
    var i :| 0 <= i < |h.reg.buffered| && h.reg.buffered[i] == x;
    hide Inv;
    OnlyTheEndingIsBuffered(h, u, i);
  }

  /** Taking the one buffered ending of a request leaves nothing of that request behind. */
  lemma NothingElseIsBuffered(h: History, u: Outcome, index: nat, rest: seq<Buffered>)
    requires Inv(h) && u in h.published && !u.Pending? && Held(h.reg.buffered)[u] == 1
    requires index < |h.reg.buffered| && h.reg.buffered[index].update == u
    requires rest == h.reg.buffered[..index] + h.reg.buffered[index + 1..]
    ensures forall x | x in rest :: x.update.requestId != u.requestId
  {
    TakeSplits(h.reg.buffered, index);
    assert Held(rest)[u] == 0;
    assert forall x | x in rest :: x in h.reg.buffered;
    hide Inv, Held;
    forall x | x in rest ensures x.update.requestId != u.requestId {
      HeldHas(rest, x);
      if x.update.requestId == u.requestId {
        EndingOf(h, u, x);
      }
    }
  }

  lemma NoneFound(rest: seq<Buffered>, id: RequestId)
    requires forall x | x in rest :: x.update.requestId != id
    ensures FirstIndex(rest, id).None?
  {
    forall i | 0 <= i < |rest| ensures rest[i].update.requestId != id {
      assert rest[i] in rest;
    }
    hide FirstIndex;
  }

  lemma CollectedOnce(h: History, u: Outcome)
    requires Inv(h) && u in h.published && !u.Pending? && u.requestId !in h.reg.outbound
    requires Held(h.reg.buffered)[u] == 1
    ensures
      var first := WaitForRequest(h.reg, u.requestId);
      && first.result == Ok(Update(u))
      && WaitForRequest(first.reg, u.requestId).result
           == Err(if u.requestId in first.reg.terminal then OutcomeConsumed else UnknownRequest)
  {
    UsedOf(h, u);
    var r, id := h.reg, u.requestId;
    var index := FirstIndex(r.buffered, id);
    HeldComesFrom(r.buffered, u);
    OnlyTheEndingIsBuffered(h, u, index.value);
    var rest := r.buffered[..index.value] + r.buffered[index.value + 1..];
    NothingElseIsBuffered(h, u, index.value, rest);
    NoneFound(rest, id);
    hide Inv, ValidRequestId, Held;
  }

  // ---------------------------------------------------------------- a waiter without a request

  /** Someone waits for a request that is not live, so nothing will wake them. */
  predicate Abandoned(r: Registry, id: RequestId) {
    id in r.exact && id !in r.outbound
  }

  /** Removing a request without an outcome, which only happens before it is accepted. */
  predicate Withdraws(r: Registry, op: Op, id: RequestId) {
    (op == DoFailBeforeAcceptance(id) || op == DoCloseOutcomeUnknown(id)) && id in r.outbound && !r.outbound[id].accepted
  }

  /**
   * A parked wait for a live request loses its request exactly when the request is
   * withdrawn before acceptance; every other end of the request wakes the wait.
   */
  lemma WaitIsAbandonedIffWithdrawn(h: History, op: Op, id: RequestId)
    requires Inv(h) && Legal(h, op) && id in h.reg.exact && id in h.reg.outbound
    ensures Abandoned(Apply(h.reg, op).0, id) <==> Withdraws(h.reg, op, id)
  {
    LegalIsDisciplined(h, op);
    hide Inv, Apply, Legal, Disciplined, Abandoned;
    if Publishes(op) {
      PublishingIsNoWithdrawal(h.reg, op, id);
      PublishingNeverAbandons(h.reg, op, id);
    } else {
      OthersAbandonOnlyByWithdrawal(h.reg, op, id);
    }
  }

  lemma TerminateServes(r: Registry, u: Outcome, id: RequestId)
    requires id in r.exact && id in r.outbound && u.requestId in r.outbound
    requires r.exact[id] in r.active
    ensures !Abandoned(Terminate(r, u).reg, id)
  {
    hide Sorting.Sorted, Without, Only, Updates, LastN;
  }

  lemma PublishingIsNoWithdrawal(r: Registry, op: Op, id: RequestId)
    requires Publishes(op)
    ensures !Withdraws(r, op, id)
  {
  }

  lemma PublishingNeverAbandons(r: Registry, op: Op, id: RequestId)
    requires id in r.exact && id in r.outbound && Publishes(op) && Valid(r)
    ensures !Abandoned(Apply(r, op).0, id)
  {
    hide ValidTables, ValidFlags, ValidTombstones, ValidInboundTombstones, ValidBuffer, NothingMissed, Injective;
    hide Publish, LastN, RequestAge, DeadCode, Terminate, Abandoned;
    assert r.exact[id] in r.exact.Values;
    StillThere(r, id);
    if op.id in r.outbound {
      var request := r.outbound[op.id];
      match op
      case DoResolveResponse(_, member, message, instructions, at) =>
        TerminateServes(r, Response(op.id, RequestAge(request, at), member, message, instructions), id);
      case DoResolveOffline(_) => TerminateServes(r, Offline(op.id, request.member), id);
      case DoResolveTimeout(_) => TerminateServes(r, Timeout(op.id, request.member), id);
      case DoResolvePending(_) =>
        PublishFrame(r.(outbound := r.outbound[op.id := request.(pendingPublished := true)]), Pending(op.id, request.member));
        StillThere(ResolvePendingAfterIdle(r, op.id).reg, id);
    }
  }

  lemma StillThere(r: Registry, id: RequestId)
    requires id in r.outbound
    ensures !Abandoned(r, id)
  {
  }

  lemma DroppingAbandons(r: Registry, op: Op, id: RequestId)
    requires id in r.exact && id in r.outbound && Disciplined(r, op)
    requires op.DoFailBeforeAcceptance? || op.DoCloseOutcomeUnknown?
    ensures Abandoned(Apply(r, op).0, id) <==> Withdraws(r, op, id)
  {
  }

  lemma KeepingTheRequest(r: Registry, op: Op, id: RequestId)
    requires id in r.outbound && !Publishes(op) && !op.DoFailBeforeAcceptance? && !op.DoCloseOutcomeUnknown?
    ensures id in Apply(r, op).0.outbound
  {
    hide ValidRequestId, ValidTimeout, ValidMaxWait, LastN;
  }

  lemma OthersAbandonOnlyByWithdrawal(r: Registry, op: Op, id: RequestId)
    requires id in r.exact && id in r.outbound && !Publishes(op) && Disciplined(r, op)
    ensures Abandoned(Apply(r, op).0, id) <==> Withdraws(r, op, id)
  {
    hide Apply, Disciplined;
    if op.DoFailBeforeAcceptance? || op.DoCloseOutcomeUnknown? {
      DroppingAbandons(r, op, id);
    } else {
      KeepingTheRequest(r, op, id);
    }
  }

  /** No outcome of a request that is not live is published, so its waiter is not called. */
  lemma PublishingPassesBy(r: Registry, op: Op, id: RequestId)
    requires Abandoned(r, id) && Publishes(op) && Valid(r)
    ensures Abandoned(Apply(r, op).0, id) && Apply(r, op).0.exact[id] == r.exact[id]
  {
    hide ValidTables, ValidFlags, ValidTombstones, ValidInboundTombstones, ValidBuffer, NothingMissed, Injective;
    hide Publish, LastN, RequestAge, DeadCode, Terminate;
    if op.id in r.outbound {
      var request := r.outbound[op.id];
      match op
      case DoResolveResponse(_, member, message, instructions, at) =>
        TerminatePassesBy(r, Response(op.id, RequestAge(request, at), member, message, instructions), id);
      case DoResolveOffline(_) => TerminatePassesBy(r, Offline(op.id, request.member), id);
      case DoResolveTimeout(_) => TerminatePassesBy(r, Timeout(op.id, request.member), id);
      case DoResolvePending(_) =>
        var noticed := r.(outbound := r.outbound[op.id := request.(pendingPublished := true)]);
        PublishPassesBy(noticed, Pending(op.id, request.member), id);
    }
  }

  lemma PublishPassesBy(r: Registry, u: Outcome, id: RequestId)
    requires Abandoned(r, id) && u.requestId != id
    ensures Abandoned(Publish(r, u).0, id) && Publish(r, u).0.exact[id] == r.exact[id]
  {
    hide Sorting.Sorted, Without, Only, Updates;
  }

  lemma TerminatePassesBy(r: Registry, u: Outcome, id: RequestId)
    requires Abandoned(r, id) && u.requestId != id
    ensures Abandoned(Terminate(r, u).reg, id) && Terminate(r, u).reg.exact[id] == r.exact[id]
  {
    hide Publish, LastN;
    PublishPassesBy(SetTerminal(DropOutbound(r, u.requestId), u.requestId), u, id);
  }

  lemma WaitingPassesBy(r: Registry, op: Op, id: RequestId)
    requires Abandoned(r, id) && op != DoCancelExactWait(id, r.exact[id])
    requires op.DoWaitForRequest? || op.DoWaitForUpdate? || op.DoCancelGeneralWait? || op.DoCancelExactWait?
    ensures Abandoned(Apply(r, op).0, id) && Apply(r, op).0.exact[id] == r.exact[id]
  {
    hide ValidRequestId, FirstIndex;
  }

  lemma OthersPassBy(r: Registry, op: Op, id: RequestId)
    requires Abandoned(r, id) && !Publishes(op) && (op.DoRegisterOutbound? ==> op.id != id)
    requires !(op.DoWaitForRequest? || op.DoWaitForUpdate? || op.DoCancelGeneralWait? || op.DoCancelExactWait?)
    ensures Abandoned(Apply(r, op).0, id) && Apply(r, op).0.exact[id] == r.exact[id]
  {
    hide ValidRequestId, ValidTimeout, ValidMaxWait, LastN;
  }

  /** An abandoned wait stays abandoned until it is cancelled: its id is never used again. */
  lemma AbandonedGoesOn(h: History, op: Op, id: RequestId)
    requires Inv(h) && Legal(h, op) && Abandoned(h.reg, id) && id in h.used && op != DoCancelExactWait(id, h.reg.exact[id])
    ensures Abandoned(Extend(h, op).reg, id) && Extend(h, op).reg.exact[id] == h.reg.exact[id] && id in Extend(h, op).used
  {
    hide Inv, Apply, Abandoned;
    if Publishes(op) {
      assert Valid(h.reg) by { ValidOf(h); }
      PublishingPassesBy(h.reg, op, id);
    } else if op.DoWaitForRequest? || op.DoWaitForUpdate? || op.DoCancelGeneralWait? || op.DoCancelExactWait? {
      WaitingPassesBy(h.reg, op, id);
    } else {
      OthersPassBy(h.reg, op, id);
    }
  }

  lemma ValidOf(h: History)
    requires Inv(h)
    ensures Valid(h.reg)
  {
    hide Valid, Conserved, Stories, Answered, AllPending, Ended, LastN, ValidRequestId;
  }

  lemma {:induction false} PrefixIsLegal(ops: seq<Op>, n: nat)
    requires LegalRun(ops) && n <= |ops|
    ensures LegalRun(ops[..n])
    ensures n < |ops| ==> Legal(Replay(ops[..n]), ops[n])
    decreases |ops|
  {
    hide Legal, Replay;
    if n == |ops| {
      assert ops[..n] == ops;
    } else {
      var init := ops[..|ops| - 1];
      if n < |init| {
        PrefixIsLegal(init, n);
        assert init[..n] == ops[..n];
      }
    }
  }

  /**
   * So a wait whose request is withdrawn before acceptance is never answered: whatever follows
   * in the run, it is still parked unless its caller cancels it.
   */
  lemma {:induction false} AbandonedWaitIsNeverWoken(ops: seq<Op>, n: nat, id: RequestId, w: Waiter)
    requires LegalRun(ops) && n < |ops|
    requires
      var r := Replay(ops[..n]).reg;
      id in r.exact && r.exact[id] == w && Withdraws(r, ops[n], id)
    requires forall k | n < k < |ops| :: ops[k] != DoCancelExactWait(id, w)
    ensures Abandoned(Replay(ops).reg, id) && Replay(ops).reg.exact[id] == w && id in Replay(ops).used
    ensures forall d | d in Replay(ops).delivered :: d.waiter != w
    decreases |ops|
  {
    hide Inv, Abandoned, Legal, Extend, Withdraws;
    var init, last := ops[..|ops| - 1], ops[|ops| - 1];
    PrefixIsLegal(ops, |init|);
    RunsKeepInv(init);
    assert init[..n] == ops[..n];
    if n == |init| {
      assert init == ops[..n];
      WithdrawingAbandons(Replay(init), last, id);
    } else {
      AbandonedWaitIsNeverWoken(init, n, id, w);
      AbandonedGoesOn(Replay(init), last, id);
    }
    RunsKeepInv(ops);
    AbandonedIsNotAnswered(Replay(ops), id);
  }

  lemma WithdrawingAbandons(h: History, op: Op, id: RequestId)
    requires Inv(h) && Withdraws(h.reg, op, id) && id in h.reg.exact
    ensures Abandoned(Extend(h, op).reg, id) && Extend(h, op).reg.exact[id] == h.reg.exact[id] && id in Extend(h, op).used
  {
    LiveIsUsed(h, id);
    hide Inv;
  }

  lemma AbandonedIsNotAnswered(h: History, id: RequestId)
    requires Inv(h) && Abandoned(h.reg, id)
    ensures forall d | d in h.delivered :: d.waiter != h.reg.exact[id]
  {
    hide Conserved, Stories, AllPending, Ended, LastN, ValidTables, ValidFlags, ValidTombstones, ValidInboundTombstones, ValidBuffer;
    hide NothingMissed, Injective;
    var w := h.reg.exact[id];
    assert w in h.reg.exact.Values;
    forall d | d in h.delivered ensures d.waiter != w {
      assert Fitting(d, h.reg.active, h.waits);
    }
  }

  /** A run in which it happens: a wait parked before the request is accepted outlives the failed request. */
  lemma AbandonedWaitExists()
    ensures
      var ops := [
        DoRegisterOutbound("r", Member("bob", "dev"), 0, None, None), DoWaitForRequest("r"), DoFailBeforeAcceptance("r")];
      LegalRun(ops) && Abandoned(Replay(ops).reg, "r")
  {
    var register := DoRegisterOutbound("r", Member("bob", "dev"), 0, None, None);
    var wait, fail := DoWaitForRequest("r"), DoFailBeforeAcceptance("r");
    hide Apply, Extend, Replay, LegalRun, Abandoned, ValidRequestId;
    NothingYet();
    Registering();
    OneMore([], register);
    assert [] + [register] == [register];
    WaitingEarly(Extend(START, register));
    OneMore([register], wait);
    assert [register] + [wait] == [register, wait];
    OneMore([register, wait], fail);
    assert [register, wait] + [fail] == [register, wait, fail];
    Withdrawing(Extend(Extend(START, register), wait));
  }

  lemma NothingYet()
    ensures LegalRun([]) && Replay([]) == START
  {
  }

  lemma OneMore(ops: seq<Op>, op: Op)
    requires LegalRun(ops) && Legal(Replay(ops), op)
    ensures LegalRun(ops + [op]) && Replay(ops + [op]) == Extend(Replay(ops), op)
  {
    hide Legal, Extend;
    assert (ops + [op])[..|ops|] == ops;
  }

  predicate FreshlyRegistered(r: Registry, id: RequestId) {
    id in r.outbound && !r.outbound[id].accepted && r.buffered == [] && r.exact == map[] && r.waiter == None
  }

  lemma Registering()
    ensures FreshlyRegistered(Extend(START, DoRegisterOutbound("r", Member("bob", "dev"), 0, None, None)).reg, "r")
  {
    assert ValidRequestId("r");
    hide ValidRequestId;
  }

  lemma WaitingEarly(h: History)
    requires FreshlyRegistered(h.reg, "r")
    ensures
      var r := Extend(h, DoWaitForRequest("r")).reg;
      "r" in r.exact && "r" in r.outbound && !r.outbound["r"].accepted
  {
    assert ValidRequestId("r");
    hide ValidRequestId;
  }

  lemma Withdrawing(h: History)
    requires "r" in h.reg.exact && "r" in h.reg.outbound && !h.reg.outbound["r"].accepted
    ensures Abandoned(Extend(h, DoFailBeforeAcceptance("r")).reg, "r")
  {
  }
}
