/** Whole runs of the registry against the ideal one, and which step brings which outcome. */
module RegistryEndings {
  import opened Wrappers
  import opened MemberRequest
  import opened RegistryInvariant
  import opened RegistryHistory
  import opened RegistryTheorems
  import opened IdealRegistry
  import opened RegistryRefinement

  // ---------------------------------------------------------------- runs

  /** A run of the ideal registry: its state, and all it published and handed out. */
  function IdealRun(ops: seq<Op>): (Ideal, seq<Outcome>, seq<Delivery>) {
    if ops == [] then (Ideal(map[], map[], [], [], {}, [], None, map[], 0), [], [])
    else
      var before := IdealRun(ops[..|ops| - 1]);
      var (after, reply) := Act(before.0, ops[|ops| - 1]);
      (after, before.1 + reply.published, before.2 + reply.delivered)
  }

  lemma StepRefines(h: History, op: Op)
    requires Inv(h) && Legal(h, op)
    ensures
      var h' := Extend(h, op);
      var (i, reply) := Act(Abstract(h.reg), op);
      && Abstract(h'.reg) == i && h'.published == h.published + reply.published && h'.delivered == h.delivered + reply.delivered
      && CodeOf(h.reg, op) == reply.refused
  {
    hide Inv, Apply, Legal, Disciplined, Act, CodeOf, Abstract, Valid;
    LegalIsDisciplined(h, op);
    ValidOf(h);
    Refines(h.reg, op);
  }

  /** In every legal run the registry has done exactly what the ideal one would have. */
  lemma {:induction false} RunsRefine(ops: seq<Op>)
    requires LegalRun(ops)
    ensures
      var h := Replay(ops);
      IdealRun(ops) == (Abstract(h.reg), h.published, h.delivered)
  {
    hide Inv, Legal, Extend, Act, Abstract;
    if ops == [] {
      assert IdealRun([]) == (Abstract(EMPTY), [], []) by { NothingAtFirst(); }
    } else {
      RunsRefine(ops[..|ops| - 1]);
      RunsKeepInv(ops[..|ops| - 1]);
      StepRefines(Replay(ops[..|ops| - 1]), ops[|ops| - 1]);
    }
  }

  lemma NothingAtFirst()
    ensures Abstract(EMPTY) == Ideal(map[], map[], [], [], {}, [], None, map[], 0)
  {
  }

  // ---------------------------------------------------------------- a request's record

  /** What a live request was registered with does not change. */
  predicate SameRegistration(a: Outbound, b: Outbound) {
    a.member == b.member && a.timeoutSeconds == b.timeoutSeconds && a.maxWaitSeconds == b.maxWaitSeconds && a.deadlineAt == b.deadlineAt
  }

  /** The operation registers a request with these terms. */
  predicate Registers(op: Op, id: RequestId, q: Outbound) {
    && op.DoRegisterOutbound? && op.id == id && q.member == op.member
    && q.timeoutSeconds as real == op.timeout.GetOr(120.0) && q.maxWaitSeconds as real == op.maxWait.GetOr(1800.0)
    && q.deadlineAt == op.now + 1000 * q.maxWaitSeconds
  }

  lemma NotedLive(i: Ideal, op: Op, id: RequestId)
    requires id in Noted(i, op).live && Refused(i, op).None?
    ensures
      var q := Noted(i, op).live[id];
      (id in i.live && SameRegistration(i.live[id], q)) || (id !in i.live && Registers(op, id, q) && !q.accepted)
  {
    hide FirstOf, WithoutFirst, Others, Last64, ValidRequestId;
  }

  lemma GivingKeepsLive(i: Ideal, op: Op, u: Outcome)
    ensures Give(i, u).0.live == i.live && Awaiting(i, op).0.live == i.live
  {
    hide FirstOf, WithoutFirst, Others;
  }

  lemma LiveAfter(i: Ideal, op: Op, id: RequestId)
    requires id in Act(i, op).0.live
    ensures
      var q := Act(i, op).0.live[id];
      (id in i.live && SameRegistration(i.live[id], q)) || (id !in i.live && Registers(op, id, q) && !q.accepted)
  {
    hide Refused, Outgoing, Noted, Give, Awaiting, Registers, SameRegistration;
    if Refused(i, op).None? {
      GivingKeepsLive(Noted(i, op), op, if Outgoing(i, op).Some? then Outgoing(i, op).value else Timeout("", Member("", "")));
      NotedLive(i, op, id);
    } else {
      SameItself(i.live[id]);
    }
  }

  lemma SameItself(q: Outbound)
    ensures SameRegistration(q, q)
  {
  }

  /** The step at which a request that is live was registered. */
  ghost predicate RegisteredAt(ops: seq<Op>, k: nat, id: RequestId, q: Outbound)
    requires k < |ops|
  {
    id !in Replay(ops[..k]).reg.outbound && id in Replay(ops[..k + 1]).reg.outbound && Registers(ops[k], id, q)
  }

  lemma {:induction false} LiveWasRegistered(ops: seq<Op>, id: RequestId)
    requires LegalRun(ops) && id in Replay(ops).reg.outbound
    ensures exists k | 0 <= k < |ops| :: RegisteredAt(ops, k, id, Replay(ops).reg.outbound[id])
  {
    hide Inv, Legal, Extend, Act, Registers, SameRegistration;
    if ops != [] {
      var n := |ops| - 1;
      var init := ops[..n];
      RunsKeepInv(init);
      StepRefines(Replay(init), ops[n]);
      LiveAfter(Abstract(Replay(init).reg), ops[n], id);
      assert ops[..n + 1] == ops;
      var q := Replay(ops).reg.outbound[id];
      if id in Replay(init).reg.outbound {
        LiveWasRegistered(init, id);
        var k :| 0 <= k < |init| && RegisteredAt(init, k, id, Replay(init).reg.outbound[id]);
        assert init[..k] == ops[..k] && init[..k + 1] == ops[..k + 1];
        RegistersSame(ops[k], id, Replay(init).reg.outbound[id], q);
        assert RegisteredAt(ops, k, id, q);
      } else {
        assert RegisteredAt(ops, n, id, q);
      }
    }
  }

  lemma RegistersSame(op: Op, id: RequestId, a: Outbound, b: Outbound)
    requires Registers(op, id, a) && SameRegistration(a, b)
    ensures Registers(op, id, b)
  {
  }

  /** An id is registered once: its terms are those of the one step that registered it. */
  lemma {:induction false} RegisteredOnce(ops: seq<Op>, k: nat, id: RequestId, q: Outbound)
    requires LegalRun(ops) && k < |ops| && RegisteredAt(ops, k, id, q) && id in Replay(ops).reg.outbound
    ensures SameRegistration(q, Replay(ops).reg.outbound[id])
    decreases |ops|
  {
    hide Inv, Legal, Extend, Act, SameRegistration;
    var n := |ops| - 1;
    var init := ops[..n];
    RunsKeepInv(init);
    StepRefines(Replay(init), ops[n]);
    LiveAfter(Abstract(Replay(init).reg), ops[n], id);
    assert ops[..n + 1] == ops;
    if k == n {
      RegistersDetermine(ops[n], id, q, Replay(ops).reg.outbound[id]);
    } else {
      assert init[..k] == ops[..k] && init[..k + 1] == ops[..k + 1] && RegisteredAt(init, k, id, q);
      if id in Replay(init).reg.outbound {
        RegisteredOnce(init, k, id, q);
        SameTwice(q, Replay(init).reg.outbound[id], Replay(ops).reg.outbound[id]);
      } else {
        UsedStays(ops, k + 1, n, id);
        PrefixIsLegal(ops, n);
        UsedIsNotRegistered(Replay(init), ops[n], id, Replay(ops).reg.outbound[id]);
      }
    }
  }

  lemma SameTwice(a: Outbound, b: Outbound, c: Outbound)
    requires SameRegistration(a, b) && SameRegistration(b, c)
    ensures SameRegistration(a, c)
  {
  }

  lemma RegistersDetermine(op: Op, id: RequestId, a: Outbound, b: Outbound)
    requires Registers(op, id, a) && Registers(op, id, b)
    ensures SameRegistration(a, b)
  {
  }

  lemma UsedIsNotRegistered(h: History, op: Op, id: RequestId, q: Outbound)
    requires Legal(h, op) && id in h.used
    ensures !Registers(op, id, q)
  {
  }

  lemma InvLiveIsUsed(h: History, id: RequestId)
    requires Inv(h) && id in h.reg.outbound
    ensures id in h.used
  {
    hide Valid, Conserved, Answered, AllPending, Ended, LastN, ValidRequestId, Stories;
    LiveIsUsed(h, id);
  }

  lemma {:induction false} UsedStays(ops: seq<Op>, m: nat, n: nat, id: RequestId)
    requires LegalRun(ops) && m <= n <= |ops| && id in Replay(ops[..m]).reg.outbound
    ensures id in Replay(ops[..n]).used
  {
    hide Inv, Legal, Apply;
    PrefixIsLegal(ops, n);
    if m == n {
      RunsKeepInv(ops[..n]);
      InvLiveIsUsed(Replay(ops[..n]), id);
    } else {
      UsedStays(ops, m, n - 1, id);
      assert ops[..n][..n - 1] == ops[..n - 1];
    }
  }

  // ---------------------------------------------------------------- which step brings which outcome

  /** The kind of step an outcome of this kind and content comes from. */
  predicate IsStepFor(op: Op, u: Outcome, acceptedAt: Option<int>) {
    match u
    case Timeout(id, _) => op == DoResolveTimeout(id)
    case Offline(id, _) => op == DoResolveOffline(id)
    case Pending(id, _) => op == DoResolvePending(id)
    case Response(id, age, member, message, instructions) =>
      op.DoResolveResponse? && op.id == id && op.member == member && op.message == message && op.instructions == instructions
      && age == Age(acceptedAt, op.at)
  }

  /** The request is in the condition in which such a step counts, and the outcome names the member it was registered with. */
  predicate IsReady(q: Outbound, u: Outcome) {
    && (u.Response? ==> q.accepted)
    && (u.Pending? ==> q.accepted && q.idleArmed && !q.pendingPublished)
    && (!u.Response? ==> u.member == q.member)
  }

  /** Step `n` of the run brings this outcome about. */
  ghost predicate Brings(ops: seq<Op>, n: nat, u: Outcome)
    requires n < |ops|
  {
    var live := Replay(ops[..n]).reg.outbound;
    u.requestId in live && IsStepFor(ops[n], u, live[u.requestId].acceptedAt) && IsReady(live[u.requestId], u)
  }

  lemma PublishesIff(i: Ideal, op: Op, u: Outcome)
    ensures
      Act(i, op).1.published == (if Outgoing(i, op).Some? then [Outgoing(i, op).value] else [])
      && (Outgoing(i, op) == Some(u) <==>
            u.requestId in i.live && IsStepFor(op, u, i.live[u.requestId].acceptedAt) && IsReady(i.live[u.requestId], u))
  {
    hide FirstOf, WithoutFirst, Others, Last64, ValidRequestId, Noted, Give, Awaiting;
  }

  /**
   * In every legal run an outcome has been published exactly if some step brought it: a timeout a
   * timeout step, an offline ending an offline step, a response a response step with its words and
   * its age, a notice a notice step; each on a request that was live and ready for it.
   */
  lemma {:induction false} PublishedIff(ops: seq<Op>, u: Outcome)
    requires LegalRun(ops)
    ensures u in Replay(ops).published <==> exists n | 0 <= n < |ops| :: Brings(ops, n, u)
  {
    hide Inv, Legal, Extend, Act, IsStepFor, IsReady;
    if ops != [] {
      var last := |ops| - 1;
      var init := ops[..last];
      PublishedIff(init, u);
      RunsKeepInv(init);
      StepRefines(Replay(init), ops[last]);
      PublishesIff(Abstract(Replay(init).reg), ops[last], u);
      assert Replay(ops) == Extend(Replay(init), ops[last]);
      forall n | 0 <= n < last ensures Brings(init, n, u) <==> Brings(ops, n, u) {
        assert init[..n] == ops[..n];
      }
      assert Brings(ops, last, u) <==> Outgoing(Abstract(Replay(init).reg), ops[last]) == Some(u);
      hide Brings, Outgoing;
      if exists n | 0 <= n < |ops| :: Brings(ops, n, u) {
        var n :| 0 <= n < |ops| && Brings(ops, n, u);
        if n < last { assert Brings(init, n, u); }
      }
      if exists n | 0 <= n < |init| :: Brings(init, n, u) {
        var n :| 0 <= n < |init| && Brings(init, n, u);
        assert Brings(ops, n, u);
      }
    }
  }

  /** And what it says of a member is what the request was registered with. */
  lemma OutcomesNameTheRegistered(ops: seq<Op>, u: Outcome)
    requires LegalRun(ops) && u in Replay(ops).published && !u.Response?
    ensures exists k, q | 0 <= k < |ops| :: RegisteredAt(ops, k, u.requestId, q) && q.member == u.member && ops[k].member == u.member
  {
    hide Inv, Legal, Extend, IsStepFor, Replay, LegalRun;
    PublishedIff(ops, u);
    var n :| 0 <= n < |ops| && Brings(ops, n, u);
    PrefixIsLegal(ops, n);
    LiveWasRegistered(ops[..n], u.requestId);
    var q := Replay(ops[..n]).reg.outbound[u.requestId];
    var k :| 0 <= k < |ops[..n]| && RegisteredAt(ops[..n], k, u.requestId, q);
    assert ops[..n][..k] == ops[..k] && ops[..n][..k + 1] == ops[..k + 1];
    assert RegisteredAt(ops, k, u.requestId, q);
  }

  // ---------------------------------------------------------------- choosing an inbound request

  /** A named request is chosen exactly if it is live, however many are; without a name, exactly if there is one. */
  lemma SelectsIff(r: Registry, id: Option<RequestId>)
    ensures
      var selected := SelectInbound(r, id);
      if id.Some? then
        selected == (if id.value in r.inbound then Ok(id.value)
                     else Err(if id.value in r.inboundTerminal then AlreadyTerminal else UnknownRequest))
      else if r.inbound == map[] then selected == Err(NoPendingRequest)
      else if exists a, b :: a in r.inbound && b in r.inbound && a != b then selected == Err(AmbiguousRequest)
      else selected.Ok? && r.inbound.Keys == {selected.value}
  {
    NoneLive(r.inbound);
    if id.None? && r.inbound != map[] {
      if |r.inbound| == 1 {
        OneKeyIsTheOnlyKey(r.inbound);
      } else {
        var a :| a in r.inbound;
        var rest := r.inbound.Keys - {a};
        assert |rest| == |r.inbound| - 1;
        var b :| b in rest;
        assert a in r.inbound && b in r.inbound && a != b;
      }
    }
  }
}
