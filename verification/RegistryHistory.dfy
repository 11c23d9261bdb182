/**
 * Whole runs of the registry, with the record of everything it published and
 * everything it handed out. Request ids are never used twice, as the generator of
 * ids promises.
 */
module RegistryHistory {
  import opened Wrappers
  import opened MemberRequest
  import Sorting
  import opened RegistryInvariant

  datatype History = History(
    reg: Registry,
    published: seq<Outcome>,
    superseded: seq<Outcome>,
    delivered: seq<Delivery>,
    lost: seq<Outcome>,
    waits: map<Waiter, Option<RequestId>>,
    used: set<RequestId>)

  const START := History(EMPTY, [], [], [], [], map[], {})

  function Extend(h: History, op: Op): History {
    var (reg, out) := Apply(h.reg, op);
    History(
      reg, h.published + out.published, h.superseded + out.superseded, h.delivered + out.delivered, h.lost + out.lost,
      if reg.nextWaiter == h.reg.nextWaiter then h.waits
      else h.waits[h.reg.nextWaiter := if op.DoWaitForRequest? then Some(op.id) else None],
      if op.DoRegisterOutbound? && op.id in reg.outbound then h.used + {op.id} else h.used)
  }

  /** Ids are fresh, an unknown delivery is never an accepted one, and cancel handles come from their own wait. */
  ghost predicate Legal(h: History, op: Op) {
    match op
    case DoRegisterOutbound(id, _, _, _, _) => id !in h.used
    case DoCloseOutcomeUnknown(id) => id in h.reg.outbound ==> !h.reg.outbound[id].accepted
    case DoCancelGeneralWait(w) => w in h.waits && h.waits[w] == None
    case DoCancelExactWait(id, w) => w in h.waits && h.waits[w] == Some(id)
    case _ => true
  }

  function Replay(ops: seq<Op>): History {
    if ops == [] then START else Extend(Replay(ops[..|ops| - 1]), ops[|ops| - 1])
  }

  ghost predicate LegalRun(ops: seq<Op>) {
    ops == [] || (LegalRun(ops[..|ops| - 1]) && Legal(Replay(ops[..|ops| - 1]), ops[|ops| - 1]))
  }

  // ---------------------------------------------------------------- the story of one request

  /** What was published about one request, in order. */
  function Of(s: seq<Outcome>, id: RequestId): seq<Outcome> {
    if s == [] then []
    else Of(s[..|s| - 1], id) + (if s[|s| - 1].requestId == id then [s[|s| - 1]] else [])
  }

  /** The ids of the terminal outcomes, in order. */
  function Ended(s: seq<Outcome>): seq<RequestId> {
    if s == [] then []
    else Ended(s[..|s| - 1]) + (if s[|s| - 1].Pending? then [] else [s[|s| - 1].requestId])
  }

  /** The outcomes in the buffer, and the outcomes handed out, each with its multiplicity. */
  function Held(b: seq<Buffered>): multiset<Outcome> {
    if b == [] then multiset{} else multiset{b[0].update} + Held(b[1..])
  }

  function Given(d: seq<Delivery>): multiset<Outcome> {
    if d == [] then multiset{} else multiset{d[0].update} + Given(d[1..])
  }

  /** At most one pending notice, then at most one terminal outcome, and nothing after that. */
  predicate Story(s: seq<Outcome>) {
    |s| <= 2 && (|s| == 2 ==> s[0].Pending? && !s[1].Pending?)
  }

  ghost predicate StorySoFar(reg: Registry, used: set<RequestId>, published: seq<Outcome>, id: RequestId) {
    var s := Of(published, id);
    && Story(s)
    && (id !in used ==> s == [])
    && (id in reg.outbound ==> id in used && |s| == (if reg.outbound[id].pendingPublished then 1 else 0))
    && (id in reg.outbound && |s| == 1 ==> s[0].Pending?)
  }

  ghost predicate Stories(reg: Registry, used: set<RequestId>, published: seq<Outcome>) {
    forall id :: StorySoFar(reg, used, published, id)
  }

  // ---------------------------------------------------------------- where outcomes are

  ghost predicate Conserved(
    published: seq<Outcome>, buffered: seq<Buffered>, delivered: seq<Delivery>, superseded: seq<Outcome>, lost: seq<Outcome>)
  {
    multiset(published)
      == Held(buffered) + Given(delivered) + multiset(superseded) + multiset(lost)
  }

  /** Every wait call made so far is on record, and those parked are parked for what they asked. */
  ghost predicate Recorded(
    waiter: Option<Waiter>, exact: map<RequestId, Waiter>, next: Waiter, waits: map<Waiter, Option<RequestId>>)
  {
    && (forall w: Waiter :: w in waits <==> w < next)
    && (waiter.Some? ==> waiter.value in waits && waits[waiter.value] == None)
    && (forall id | id in exact :: exact[id] in waits && waits[exact[id]] == Some(id))
  }

  /** An answer goes to a wait call that asked for it, and never while that call is still parked. */
  ghost predicate Fitting(d: Delivery, active: set<Waiter>, waits: map<Waiter, Option<RequestId>>) {
    && d.waiter in waits && d.waiter !in active
    && (waits[d.waiter].Some? ==> d.update.requestId == waits[d.waiter].value)
  }

  ghost predicate AllFitting(delivered: seq<Delivery>, active: set<Waiter>, waits: map<Waiter, Option<RequestId>>) {
    forall d | d in delivered :: Fitting(d, active, waits)
  }

  /** No wait call is answered twice. */
  ghost predicate OneAnswerEach(delivered: seq<Delivery>) {
    forall i, j | 0 <= i < j < |delivered| :: delivered[i].waiter != delivered[j].waiter
  }

  ghost predicate Answered(
    waiter: Option<Waiter>, exact: map<RequestId, Waiter>, active: set<Waiter>, next: Waiter,
    waits: map<Waiter, Option<RequestId>>, delivered: seq<Delivery>)
  {
    Recorded(waiter, exact, next, waits) && AllFitting(delivered, active, waits) && OneAnswerEach(delivered)
  }

  ghost predicate AllPending(s: seq<Outcome>) {
    forall u | u in s :: u.Pending?
  }

  ghost predicate Inv(h: History) {
    && Valid(h.reg)
    && h.lost == []
    && Conserved(h.published, h.reg.buffered, h.delivered, h.superseded, h.lost)
    && Stories(h.reg, h.used, h.published)
    && h.reg.tombstones == LastN(Ended(h.published), MAX_TOMBSTONES)
    && Answered(h.reg.waiter, h.reg.exact, h.reg.active, h.reg.nextWaiter, h.waits, h.delivered)
    && AllPending(h.superseded)
    && (forall id | id in h.used :: ValidRequestId(id))
  }

  lemma LegalIsDisciplined(h: History, op: Op)
    requires Inv(h) && Legal(h, op)
    ensures Disciplined(h.reg, op)
  {
    hide ValidTables, ValidFlags, ValidTombstones, ValidInboundTombstones, ValidBuffer, NothingMissed, Stories, Conserved;
    if op.DoCancelGeneralWait? || op.DoCancelExactWait? {
      if op.w in h.reg.active && h.reg.waiter != Some(op.w) {
        var id :| id in h.reg.exact && h.reg.exact[id] == op.w;
      }
    }
  }

  // ---------------------------------------------------------------- conservation of outcomes

  lemma {:induction false} HeldAppend(a: seq<Buffered>, b: seq<Buffered>)
    ensures Held(a + b) == Held(a) + Held(b)
  {
    if a == [] {
      assert a + b == b;
    } else {
      assert (a + b)[1..] == a[1..] + b;
      HeldAppend(a[1..], b);
    }
  }

  lemma {:induction false} GivenAppend(a: seq<Delivery>, b: seq<Delivery>)
    ensures Given(a + b) == Given(a) + Given(b)
  {
    if a == [] {
      assert a + b == b;
    } else {
      assert (a + b)[1..] == a[1..] + b;
      GivenAppend(a[1..], b);
    }
  }

  lemma HeldOne(x: Buffered, rest: seq<Buffered>)
    ensures Held([x] + rest) == multiset{x.update} + Held(rest)
  {
    assert ([x] + rest)[1..] == rest;
  }

  lemma {:induction false} HeldIsUpdates(b: seq<Buffered>)
    ensures Held(b) == multiset(Updates(b))
  {
    if b != [] {
      HeldIsUpdates(b[1..]);
      assert Updates(b) == [b[0].update] + Updates(b[1..]);
    }
  }

  lemma MoveAcross<T>(x: multiset<T>, whole: multiset<T>, left: multiset<T>, right: multiset<T>)
    requires whole == left + right
    ensures x + whole == (x + left) + right && x + whole == left + (x + right)
  {
  }

  /** Removing a request's items splits the buffer's outcomes into the kept and the removed ones. */
  lemma {:induction false} BufferSplits(b: seq<Buffered>, id: RequestId)
    ensures Held(b) == Held(Without(b, id)) + Held(Only(b, id))
  {
    if b != [] {
      BufferSplits(b[1..], id);
      SplitStep(b, id);
    }
  }

  lemma SplitStep(b: seq<Buffered>, id: RequestId)
    requires b != []
    requires Held(b[1..]) == Held(Without(b[1..], id)) + Held(Only(b[1..], id))
    ensures Held(b) == Held(Without(b, id)) + Held(Only(b, id))
  {
    var kept, gone := Without(b[1..], id), Only(b[1..], id);
    var one := multiset{b[0].update};
    assert Held(b) == one + Held(b[1..]);
    MoveAcross(one, Held(b[1..]), Held(kept), Held(gone));
    HeldOne(b[0], if b[0].update.requestId == id then gone else kept);
    assert Without(b, id) == if b[0].update.requestId == id then kept else [b[0]] + kept;
    assert Only(b, id) == if b[0].update.requestId == id then [b[0]] + gone else gone;
  }

  lemma TakeSplits(b: seq<Buffered>, index: nat)
    requires index < |b|
    ensures Held(b) == Held(b[..index] + b[index + 1..]) + multiset{b[index].update}
  {
    assert b == b[..index] + b[index..];
    assert b[index..] == [b[index]] + b[index + 1..];
    HeldAppend(b[..index], b[index..]);
    HeldAppend(b[..index], b[index + 1..]);
    HeldOne(b[index], b[index + 1..]);
  }

  /** Nothing an operation publishes or finds buffered goes missing, and nothing appears twice. */
  ghost predicate Balanced(before: seq<Buffered>, after: seq<Buffered>, out: Emission) {
    multiset(out.published) + Held(before)
      == Held(after) + Given(out.delivered) + multiset(out.superseded) + multiset(out.lost)
  }

  lemma ClearedSplits(b: seq<Buffered>, u: Outcome)
    ensures Held(b) == Held(Cleared(b, u)) + multiset(if u.Pending? then [] else Updates(Only(b, u.requestId)))
  {
    if !u.Pending? {
      BufferSplits(b, u.requestId);
      HeldIsUpdates(Only(b, u.requestId));
    }
  }

  lemma GivenOne(w: Waiter, u: Outcome)
    ensures Given([Delivery(w, u)]) == multiset{u}
  {
    assert [Delivery(w, u)][1..] == [];
  }

  lemma PublishBalances(r: Registry, u: Outcome)
    requires Publishable(r, u)
    ensures Balanced(r.buffered, Publish(r, u).0.buffered, Publish(r, u).1)
  {
    hide Publishable, Room, Sorting.Sorted, Without, Only, Held, Given, Updates;
    var kept := Cleared(r.buffered, u);
    var gone := if u.Pending? then [] else Updates(Only(r.buffered, u.requestId));
    PublishKeepsValid(r, u);
    ClearedSplits(r.buffered, u);
    assert Room(r.buffered, r.sequence, r.outbound, u) by { RoomOf(r, u); }
    StoredBuffer(r.buffered, r.sequence, r.outbound, u);
    HeldAppend(kept, [Buffered(u, r.sequence)]);
    PublishCases(r, u, kept, gone);
    hide Publish, Valid, ValidBuffer, Cleared;
    assert Given([]) == multiset{} by { NoneGiven(); }
    assert Held([Buffered(u, r.sequence)]) == multiset{u} by { HeldSingle(Buffered(u, r.sequence)); }
    var out := Publish(r, u).1;
    if out.delivered != [] {
      GivenOne(out.delivered[0].waiter, u);
    }
  }

  lemma NoneGiven()
    ensures Given([]) == multiset{}
  {
  }

  lemma HeldSingle(x: Buffered)
    ensures Held([x]) == multiset{x.update}
  {
    assert [x][1..] == [];
  }

  lemma RoomOf(r: Registry, u: Outcome)
    requires Publishable(r, u)
    ensures Room(r.buffered, r.sequence, r.outbound, u)
  {
  }

  /** Publication has two outcomes that lose nothing: one delivery, or one stored item. */
  lemma PublishCases(r: Registry, u: Outcome, kept: seq<Buffered>, gone: seq<Outcome>)
    requires Publishable(r, u)
    requires kept == Cleared(r.buffered, u)
    requires gone == if u.Pending? then [] else Updates(Only(r.buffered, u.requestId))
    ensures
      var (r', out) := Publish(r, u);
      && out.published == [u] && out.superseded == gone && out.lost == []
      && ((r'.buffered == kept && |out.delivered| == 1 && out.delivered[0].update == u)
          || (r'.buffered == Sorting.Sorted(kept + [Buffered(u, r.sequence)], InSequence) && out.delivered == []))
  {
    hide Publishable, Valid, Sorting.Sorted, Without, Only, Updates;
    assert Publish(r, u).1.lost == [] by {
      PublishKeepsValid(r, u);
    }
  }

  lemma TerminateBalances(r: Registry, u: Outcome)
    requires Valid(r) && u.requestId in r.outbound && !u.Pending?
    ensures Balanced(r.buffered, Terminate(r, u).reg.buffered, Terminate(r, u).out)
  {
    hide Valid, Publishable, Publish, Balanced;
    TerminateKeepsValid(r, u);
    PublishBalances(SetTerminal(DropOutbound(r, u.requestId), u.requestId), u);
  }

  lemma PendingBalances(r: Registry, id: RequestId)
    requires Valid(r)
    ensures Balanced(r.buffered, ResolvePendingAfterIdle(r, id).reg.buffered, ResolvePendingAfterIdle(r, id).out)
  {
    hide Valid, Publishable, Publish, Balanced;
    var answer := ResolvePendingAfterIdle(r, id);
    SilenceBalances(r.buffered);
    if answer.result.Ok? {
      PendingIsPublishable(r, id);
      PublishBalances(r.(outbound := r.outbound[id := r.outbound[id].(pendingPublished := true)]), answer.result.value);
    }
  }

  lemma TakeBalances(r: Registry, index: nat)
    requires index < |r.buffered|
    ensures Balanced(r.buffered, TakeBuffered(r, index).reg.buffered, TakeBuffered(r, index).out)
  {
    TakeSplits(r.buffered, index);
    GivenOne(r.nextWaiter, r.buffered[index].update);
  }

  lemma WaitsBalance(r: Registry, op: Op)
    requires op.DoWaitForRequest? || op.DoWaitForUpdate?
    ensures Balanced(r.buffered, Apply(r, op).0.buffered, Apply(r, op).1)
  {
    hide ValidRequestId, TakeBuffered, Balanced;
    if op.DoWaitForUpdate? && r.buffered != [] {
      TakeBalances(r, 0);
    } else if op.DoWaitForRequest? && FirstIndex(r.buffered, op.id).Some? {
      TakeBalances(r, FirstIndex(r.buffered, op.id).value);
    }
    SilenceBalances(r.buffered);
  }

  lemma SilenceBalances(b: seq<Buffered>)
    ensures Balanced(b, b, SILENT)
  {
  }

  lemma OthersBalance(r: Registry, op: Op)
    requires !Publishes(op) && !op.DoWaitForRequest? && !op.DoWaitForUpdate?
    ensures Apply(r, op).0.buffered == r.buffered && Apply(r, op).1 == SILENT
    ensures Apply(r, op).0.nextWaiter == r.nextWaiter
  {
    hide ValidRequestId, ValidTimeout, ValidMaxWait;
  }

  lemma ResolveBalances(r: Registry, op: Op)
    requires Valid(r) && Publishes(op) && !op.DoResolvePending?
    ensures Balanced(r.buffered, Apply(r, op).0.buffered, Apply(r, op).1)
  {
    hide Valid, Balanced, Terminate, RequestAge, DeadCode;
    SilenceBalances(r.buffered);
    if op.id in r.outbound {
      match op
      case DoResolveResponse(id, member, message, instructions, at) =>
        TerminateBalances(r, Response(id, RequestAge(r.outbound[id], at), member, message, instructions));
      case DoResolveOffline(id) => TerminateBalances(r, Offline(id, r.outbound[id].member));
      case DoResolveTimeout(id) => TerminateBalances(r, Timeout(id, r.outbound[id].member));
    }
  }

  lemma PendingOpBalances(r: Registry, op: Op)
    requires Valid(r) && op.DoResolvePending?
    ensures Balanced(r.buffered, Apply(r, op).0.buffered, Apply(r, op).1)
  {
    hide Valid, Balanced, ResolvePendingAfterIdle;
    PendingBalances(r, op.id);
  }

  /** One operation neither drops nor duplicates an outcome. */
  lemma ApplyConserves(r: Registry, op: Op)
    requires Valid(r)
    ensures Balanced(r.buffered, Apply(r, op).0.buffered, Apply(r, op).1)
  {
    hide Valid, Balanced, Apply;
    if op.DoResolvePending? {
      PendingOpBalances(r, op);
    } else if Publishes(op) {
      ResolveBalances(r, op);
    } else if op.DoWaitForRequest? || op.DoWaitForUpdate? {
      WaitsBalance(r, op);
    } else {
      OthersBalance(r, op);
      SilenceBalances(r.buffered);
    }
  }

  // ---------------------------------------------------------------- the three ways an operation can go

  /** Nothing is published; live requests keep their notice flag and only a registration adds one. */
  ghost predicate Quiet(r: Registry, op: Op, r': Registry, out: Emission) {
    && out.published == [] && out.superseded == []
    && r'.tombstones == r.tombstones
    && (forall id | id in r'.outbound ::
          if id in r.outbound then r'.outbound[id].pendingPublished == r.outbound[id].pendingPublished
          else op.DoRegisterOutbound? && op.id == id && !r'.outbound[id].pendingPublished)
  }

  /** A live request ends: its terminal outcome is published and it moves to the tombstones. */
  ghost predicate Ends(r: Registry, r': Registry, out: Emission) {
    && |out.published| == 1 && !out.published[0].Pending?
    && out.published[0].requestId in r.outbound
    && r'.outbound == r.outbound - {out.published[0].requestId}
    && r'.tombstones == LastN(r.tombstones + [out.published[0].requestId], MAX_TOMBSTONES)
    && out.superseded == Updates(Only(r.buffered, out.published[0].requestId))
  }

  /** A live request's one pending notice is published. */
  ghost predicate Notifies(r: Registry, r': Registry, out: Emission) {
    && |out.published| == 1 && out.published[0].Pending? && out.superseded == []
    && var id := out.published[0].requestId;
    && id in r.outbound && !r.outbound[id].pendingPublished
    && r'.outbound == r.outbound[id := r.outbound[id].(pendingPublished := true)]
    && r'.tombstones == r.tombstones
  }

  lemma TerminateEnds(r: Registry, u: Outcome)
    requires u.requestId in r.outbound && !u.Pending?
    ensures Ends(r, Terminate(r, u).reg, Terminate(r, u).out)
  {
    hide Publish, LastN, Updates, Only;
    PublishFrame(SetTerminal(DropOutbound(r, u.requestId), u.requestId), u);
  }

  /** Publication touches the buffer and the waiters only. */
  lemma PublishFrame(r: Registry, u: Outcome)
    ensures
      var (r', out) := Publish(r, u);
      && out.published == [u]
      && out.superseded == (if u.Pending? then [] else Updates(Only(r.buffered, u.requestId)))
      && r' == r.(buffered := r'.buffered, sequence := r'.sequence, waiter := r'.waiter, exact := r'.exact, active := r'.active)
  {
    hide Sorting.Sorted, Updates, Without, Only;
  }

  lemma WaitsAreQuiet(r: Registry, op: Op)
    requires op.DoWaitForRequest? || op.DoWaitForUpdate? || op.DoCancelGeneralWait? || op.DoCancelExactWait?
    ensures Quiet(r, op, Apply(r, op).0, Apply(r, op).1)
  {
    hide ValidRequestId, FirstIndex;
  }

  lemma RegistrationIsQuiet(r: Registry, op: Op)
    requires op.DoRegisterOutbound? || op.DoRegisterInbound?
    ensures Quiet(r, op, Apply(r, op).0, Apply(r, op).1)
  {
    hide ValidRequestId, ValidTimeout, ValidMaxWait;
  }

  lemma InboundIsQuiet(r: Registry, op: Op)
    requires op.DoAcceptInbound? || op.DoArmInboundIdle? || op.DoResolveInboundResponse? || op.DoResolveInboundExpired?
    ensures Quiet(r, op, Apply(r, op).0, Apply(r, op).1)
  {
    hide LastN;
  }

  lemma OutboundIsQuiet(r: Registry, op: Op)
    requires op.DoAcceptOutbound? || op.DoArmOutboundIdle? || op.DoFailBeforeAcceptance? || op.DoCloseOutcomeUnknown?
    ensures Quiet(r, op, Apply(r, op).0, Apply(r, op).1)
  {
  }

  lemma OthersAreQuiet(r: Registry, op: Op)
    requires !Publishes(op)
    ensures Quiet(r, op, Apply(r, op).0, Apply(r, op).1)
  {
    hide Apply, Quiet;
    if op.DoRegisterOutbound? || op.DoRegisterInbound? {
      RegistrationIsQuiet(r, op);
    } else if op.DoAcceptInbound? || op.DoArmInboundIdle? || op.DoResolveInboundResponse? || op.DoResolveInboundExpired? {
      InboundIsQuiet(r, op);
    } else if op.DoAcceptOutbound? || op.DoArmOutboundIdle? || op.DoFailBeforeAcceptance? || op.DoCloseOutcomeUnknown? {
      OutboundIsQuiet(r, op);
    } else {
      WaitsAreQuiet(r, op);
    }
  }

  lemma PendingNotifies(r: Registry, op: Op)
    requires op.DoResolvePending?
    ensures Quiet(r, op, Apply(r, op).0, Apply(r, op).1) || Notifies(r, Apply(r, op).0, Apply(r, op).1)
  {
    hide Publish;
    if ResolvePendingAfterIdle(r, op.id).result.Ok? {
      var request := r.outbound[op.id];
      PublishFrame(r.(outbound := r.outbound[op.id := request.(pendingPublished := true)]), Pending(op.id, request.member));
    }
  }

  lemma ResolveEnds(r: Registry, op: Op)
    requires Publishes(op) && !op.DoResolvePending?
    ensures Quiet(r, op, Apply(r, op).0, Apply(r, op).1) || Ends(r, Apply(r, op).0, Apply(r, op).1)
  {
    hide Terminate, RequestAge, DeadCode, Ends;
    if op.id in r.outbound {
      match op
      case DoResolveResponse(id, member, message, instructions, at) =>
        TerminateEnds(r, Response(id, RequestAge(r.outbound[id], at), member, message, instructions));
      case DoResolveOffline(id) => TerminateEnds(r, Offline(id, r.outbound[id].member));
      case DoResolveTimeout(id) => TerminateEnds(r, Timeout(id, r.outbound[id].member));
    }
  }

  lemma ThreeWays(r: Registry, op: Op)
    ensures
      var (r', out) := Apply(r, op);
      Quiet(r, op, r', out) || Ends(r, r', out) || Notifies(r, r', out)
  {
    hide Apply, Quiet, Ends, Notifies;
    if !Publishes(op) {
      OthersAreQuiet(r, op);
    } else if op.DoResolvePending? {
      PendingNotifies(r, op);
    } else {
      ResolveEnds(r, op);
    }
  }

  // ---------------------------------------------------------------- each part of the invariant goes on

  lemma OfAppend(s: seq<Outcome>, u: Outcome, id: RequestId)
    ensures Of(s + [u], id) == Of(s, id) + (if u.requestId == id then [u] else [])
    ensures Ended(s + [u]) == Ended(s) + (if u.Pending? then [] else [u.requestId])
  {
    assert (s + [u])[..|s|] == s;
  }

  lemma StoriesGoOn(h: History, op: Op)
    requires Stories(h.reg, h.used, h.published) && Legal(h, op)
    ensures Stories(Extend(h, op).reg, Extend(h, op).used, Extend(h, op).published)
  {
    hide Apply, Of, Stories;
    var h' := Extend(h, op);
    ThreeWays(h.reg, op);
    forall id ensures StorySoFar(h'.reg, h'.used, h'.published, id) {
      assert StorySoFar(h.reg, h.used, h.published, id) by {
        StoryOf(h, id);
      }
      var out := Apply(h.reg, op).1;
      if |out.published| == 1 {
        OfAppend(h.published, out.published[0], id);
        assert h'.published == h.published + [out.published[0]];
        StoryOf(h, out.published[0].requestId);
      } else {
        assert h'.published == h.published;
      }
    }
    assert Stories(h'.reg, h'.used, h'.published) by {
      AllStories(h');
    }
  }

  lemma StoryOf(h: History, id: RequestId)
    requires Stories(h.reg, h.used, h.published)
    ensures StorySoFar(h.reg, h.used, h.published, id)
  {
  }

  lemma AllStories(h: History)
    requires forall id :: StorySoFar(h.reg, h.used, h.published, id)
    ensures Stories(h.reg, h.used, h.published)
  {
    hide StorySoFar;
  }

  lemma WindowSlides<T>(all: seq<T>, x: T, n: nat)
    ensures LastN(LastN(all, n) + [x], n) == LastN(all + [x], n)
  {
  }

  lemma WindowGoesOn(h: History, op: Op)
    requires h.reg.tombstones == LastN(Ended(h.published), MAX_TOMBSTONES)
    ensures Extend(h, op).reg.tombstones == LastN(Ended(Extend(h, op).published), MAX_TOMBSTONES)
  {
    hide Apply, Ended, LastN;
    ThreeWays(h.reg, op);
    var out := Apply(h.reg, op).1;
    if |out.published| == 1 {
      var u := out.published[0];
      assert h.published + out.published == h.published + [u];
      OfAppend(h.published, u, u.requestId);
      WindowSlides(Ended(h.published), u.requestId, MAX_TOMBSTONES);
      assert Ended(h.published) + [] == Ended(h.published);
    } else {
      assert h.published + out.published == h.published;
    }
  }

  lemma {:induction false} OnlyHasItems(b: seq<Buffered>, id: RequestId)
    ensures forall x | x in Only(b, id) :: x in b && x.update.requestId == id
  {
    if b != [] {
      OnlyHasItems(b[1..], id);
    }
  }

  /** What a terminal outcome displaces from the buffer is at most that request's pending notice. */
  lemma SupersededGoesOn(h: History, op: Op)
    requires Valid(h.reg) && AllPending(h.superseded)
    requires Stories(h.reg, h.used, h.published)
    requires Conserved(h.published, h.reg.buffered, h.delivered, h.superseded, h.lost)
    ensures AllPending(Extend(h, op).superseded)
  {
    hide Apply, Valid, Stories, Conserved, Only, Updates;
    ThreeWays(h.reg, op);
    var (r', out) := Apply(h.reg, op);
    if Ends(h.reg, r', out) {
      DisplacedArePending(h, out.published[0].requestId);
    }
  }

  lemma {:induction false} HeldHas(b: seq<Buffered>, x: Buffered)
    requires x in b
    ensures x.update in Held(b)
  {
    if x != b[0] {
      HeldHas(b[1..], x);
    }
  }

  lemma {:induction false} OfHas(s: seq<Outcome>, u: Outcome)
    requires u in s
    ensures u in Of(s, u.requestId)
  {
    if u != s[|s| - 1] {
      OfHas(s[..|s| - 1], u);
    }
  }

  lemma DisplacedArePending(h: History, id: RequestId)
    requires id in h.reg.outbound
    requires Stories(h.reg, h.used, h.published)
    requires Conserved(h.published, h.reg.buffered, h.delivered, h.superseded, h.lost)
    ensures AllPending(Updates(Only(h.reg.buffered, id)))
  {
    hide Stories, Conserved;
    OnlyHasItems(h.reg.buffered, id);
    forall x | x in Only(h.reg.buffered, id) ensures x.update.Pending? {
      BufferedWasPublished(h, x);
      OfHas(h.published, x.update);
      StoryOf(h, id);
    }
  }

  lemma BufferedWasPublished(h: History, x: Buffered)
    requires Conserved(h.published, h.reg.buffered, h.delivered, h.superseded, h.lost) && x in h.reg.buffered
    ensures x.update in h.published
  {
    HeldHas(h.reg.buffered, x);
    assert x.update in multiset(h.published);
  }

  lemma Carry<T(!new)>(
    published: multiset<T>, held: multiset<T>, given: multiset<T>, superseded: multiset<T>, lost: multiset<T>,
    held': multiset<T>, p: multiset<T>, g: multiset<T>, s: multiset<T>, l: multiset<T>)
    requires published == held + given + superseded + lost
    requires p + held == held' + g + s + l
    ensures published + p == held' + (given + g) + (superseded + s) + (lost + l)
  {
    forall x: T ensures (published + p)[x] == (held' + (given + g) + (superseded + s) + (lost + l))[x] {
      assert published[x] == (held + given + superseded + lost)[x];
      assert (p + held)[x] == (held' + g + s + l)[x];
    }
  }

  lemma ConservationGoesOn(h: History, op: Op)
    requires Valid(h.reg) && Conserved(h.published, h.reg.buffered, h.delivered, h.superseded, h.lost)
    ensures
      var h' := Extend(h, op);
      Conserved(h'.published, h'.reg.buffered, h'.delivered, h'.superseded, h'.lost)
  {
    hide Valid, Apply, Held, Given;
    ApplyConserves(h.reg, op);
    var (r', out) := Apply(h.reg, op);
    GivenAppend(h.delivered, out.delivered);
    Carry(multiset(h.published), Held(h.reg.buffered), Given(h.delivered), multiset(h.superseded), multiset(h.lost),
          Held(r'.buffered), multiset(out.published), Given(out.delivered), multiset(out.superseded), multiset(out.lost));
  }

  // ---------------------------------------------------------------- who was answered

  /** How one operation may change who waits: at most one answer, to the waiter it releases or to the new call. */
  ghost predicate WaitStep(r: Registry, op: Op, r': Registry, out: Emission) {
    && |out.delivered| <= 1
    && r.nextWaiter <= r'.nextWaiter <= r.nextWaiter + 1
    && (r'.waiter == r.waiter || r'.waiter == None
        || (op.DoWaitForUpdate? && r'.nextWaiter > r.nextWaiter && r'.waiter == Some(r.nextWaiter)))
    && (forall id | id in r'.exact ::
          (id in r.exact && r'.exact[id] == r.exact[id])
          || (op == DoWaitForRequest(id) && r'.nextWaiter > r.nextWaiter && r'.exact[id] == r.nextWaiter))
    && (forall w | w in r'.active :: w in r.active || (w == r.nextWaiter && r'.nextWaiter > r.nextWaiter))
    && (forall d | d in out.delivered ::
          && d.waiter !in r'.active
          && (|| (d.waiter in r.active && r.waiter == Some(d.waiter))
              || (d.waiter in r.active && d.update.requestId in r.exact && r.exact[d.update.requestId] == d.waiter)
              || (d.waiter == r.nextWaiter && r'.nextWaiter > r.nextWaiter
                  && (op.DoWaitForRequest? ==> d.update.requestId == op.id))))
  }

  lemma PublishWaitStep(r: Registry, r0: Registry, op: Op, u: Outcome)
    requires r.waiter == r0.waiter && r.exact == r0.exact && r.active == r0.active && r.nextWaiter == r0.nextWaiter
    ensures WaitStep(r0, op, Publish(r, u).0, Publish(r, u).1)
  {
    hide Sorting.Sorted, Updates, Without, Only;
  }

  lemma ResolveWaitStep(r: Registry, op: Op)
    requires Publishes(op)
    ensures WaitStep(r, op, Apply(r, op).0, Apply(r, op).1)
  {
    hide Publish, LastN, RequestAge, DeadCode, WaitStep;
    StandStill(r, op);
    if op.id in r.outbound {
      var request := r.outbound[op.id];
      var ended := SetTerminal(DropOutbound(r, op.id), op.id);
      match op
      case DoResolveResponse(id, member, message, instructions, at) =>
        PublishWaitStep(ended, r, op, Response(id, RequestAge(request, at), member, message, instructions));
      case DoResolveOffline(id) => PublishWaitStep(ended, r, op, Offline(id, request.member));
      case DoResolveTimeout(id) => PublishWaitStep(ended, r, op, Timeout(id, request.member));
      case DoResolvePending(id) =>
        PublishWaitStep(r.(outbound := r.outbound[id := request.(pendingPublished := true)]), r, op, Pending(id, request.member));
    }
  }

  lemma StandStill(r: Registry, op: Op)
    ensures WaitStep(r, op, r, SILENT)
  {
  }

  lemma WaitCallWaitStep(r: Registry, op: Op)
    requires Valid(r) && (op.DoWaitForRequest? || op.DoWaitForUpdate?)
    ensures WaitStep(r, op, Apply(r, op).0, Apply(r, op).1)
  {
    NoFutureWaiter(r);
    hide Valid, ValidRequestId, TakeBuffered, WaitStep;
    StandStill(r, op);
    if op.DoWaitForUpdate? {
      if r.buffered != [] {
        TakeWaitStep(r, op, 0);
      } else {
        ParkGeneralWaitStep(r, op);
      }
    } else {
      var index := FirstIndex(r.buffered, op.id);
      if index.Some? {
        TakeWaitStep(r, op, index.value);
      } else {
        ParkExactWaitStep(r, op);
      }
    }
  }

  lemma TakeWaitStep(r: Registry, op: Op, index: nat)
    requires index < |r.buffered| && r.nextWaiter !in r.active
    requires op.DoWaitForRequest? ==> r.buffered[index].update.requestId == op.id
    ensures WaitStep(r, op, TakeBuffered(r, index).reg, TakeBuffered(r, index).out)
  {
  }

  lemma ParkGeneralWaitStep(r: Registry, op: Op)
    requires op.DoWaitForUpdate? && r.buffered == []
    ensures WaitStep(r, op, WaitForUpdate(r).reg, WaitForUpdate(r).out)
  {
    hide TakeBuffered;
  }

  lemma ParkExactWaitStep(r: Registry, op: Op)
    requires op.DoWaitForRequest? && FirstIndex(r.buffered, op.id).None?
    ensures WaitStep(r, op, WaitForRequest(r, op.id).reg, WaitForRequest(r, op.id).out)
  {
    hide TakeBuffered, ValidRequestId;
  }

  lemma NoFutureWaiter(r: Registry)
    requires Valid(r)
    ensures r.nextWaiter !in r.active
  {
    hide ValidTables, ValidFlags, ValidTombstones, ValidInboundTombstones, ValidBuffer, NothingMissed, Injective;
  }

  lemma OtherWaitStep(r: Registry, op: Op)
    requires !Publishes(op) && !op.DoWaitForRequest? && !op.DoWaitForUpdate?
    ensures WaitStep(r, op, Apply(r, op).0, Apply(r, op).1)
  {
    OthersBalance(r, op);
    hide ValidRequestId, ValidTimeout, ValidMaxWait;
  }

  lemma EveryWaitStep(r: Registry, op: Op)
    requires Valid(r)
    ensures WaitStep(r, op, Apply(r, op).0, Apply(r, op).1)
  {
    hide Valid, Apply, WaitStep;
    if Publishes(op) {
      ResolveWaitStep(r, op);
    } else if op.DoWaitForRequest? || op.DoWaitForUpdate? {
      WaitCallWaitStep(r, op);
    } else {
      OtherWaitStep(r, op);
    }
  }

  ghost predicate HistoryAnswered(h: History) {
    Answered(h.reg.waiter, h.reg.exact, h.reg.active, h.reg.nextWaiter, h.waits, h.delivered)
  }

  lemma ActiveIsIssued(r: Registry)
    requires Valid(r)
    ensures forall w | w in r.active :: w < r.nextWaiter
  {
    hide ValidTables, ValidFlags, ValidTombstones, ValidInboundTombstones, ValidBuffer, NothingMissed, Injective;
  }

  lemma RecordGoesOn(h: History, op: Op)
    requires HistoryAnswered(h)
    requires WaitStep(h.reg, op, Apply(h.reg, op).0, Apply(h.reg, op).1)
    ensures
      var h' := Extend(h, op);
      Recorded(h'.reg.waiter, h'.reg.exact, h'.reg.nextWaiter, h'.waits)
  {
    hide Apply, AllFitting, OneAnswerEach;
  }

  /** The wait call an outcome goes to asked for it, and has not been answered before. */
  lemma NewAnswerFits(h: History, op: Op, d: Delivery)
    requires HistoryAnswered(h)
    requires WaitStep(h.reg, op, Apply(h.reg, op).0, Apply(h.reg, op).1) && d in Apply(h.reg, op).1.delivered
    requires forall w | w in h.reg.active :: w < h.reg.nextWaiter
    ensures Fitting(d, Extend(h, op).reg.active, Extend(h, op).waits)
    ensures forall e | e in h.delivered :: e.waiter != d.waiter
  {
    hide Apply, OneAnswerEach;
    forall e | e in h.delivered ensures e.waiter != d.waiter {
      assert Fitting(e, h.reg.active, h.waits);
    }
  }

  lemma OldAnswersFit(h: History, op: Op)
    requires HistoryAnswered(h)
    requires WaitStep(h.reg, op, Apply(h.reg, op).0, Apply(h.reg, op).1)
    ensures AllFitting(h.delivered, Extend(h, op).reg.active, Extend(h, op).waits)
  {
    hide Apply, OneAnswerEach;
    var h' := Extend(h, op);
    forall e | e in h.delivered ensures Fitting(e, h'.reg.active, h'.waits) {
      assert Fitting(e, h.reg.active, h.waits);
    }
  }

  lemma AnswersGoOn(h: History, op: Op)
    requires Valid(h.reg) && HistoryAnswered(h)
    ensures HistoryAnswered(Extend(h, op))
  {
    hide Apply, Valid, WaitStep, Recorded, Fitting;
    EveryWaitStep(h.reg, op);
    ActiveIsIssued(h.reg);
    RecordGoesOn(h, op);
    OldAnswersFit(h, op);
    var h' := Extend(h, op);
    var out := Apply(h.reg, op).1;
    assert |out.delivered| <= 1 by {
      OneDeliveryAtMost(h.reg, op, Apply(h.reg, op).0, out);
    }
    if |out.delivered| == 1 {
      NewAnswerFits(h, op, out.delivered[0]);
      assert h'.delivered == h.delivered + [out.delivered[0]];
    } else {
      assert h'.delivered == h.delivered;
    }
  }

  lemma OneDeliveryAtMost(r: Registry, op: Op, r': Registry, out: Emission)
    requires WaitStep(r, op, r', out)
    ensures |out.delivered| <= 1
  {
  }

  // ---------------------------------------------------------------- every reachable history

  lemma UsedIdsAreValid(h: History, op: Op, id: RequestId)
    requires forall used | used in h.used :: ValidRequestId(used)
    requires Legal(h, op) && (forall live | live in h.reg.outbound :: live in h.used) && id in Extend(h, op).used
    ensures ValidRequestId(id)
  {
    hide ValidTimeout, ValidMaxWait;
  }

  lemma LiveIsUsed(h: History, id: RequestId)
    requires Stories(h.reg, h.used, h.published) && id in h.reg.outbound
    ensures id in h.used
  {
    StoryOf(h, id);
  }

  lemma InvGoesOn(h: History, op: Op)
    requires Inv(h) && Legal(h, op)
    ensures Inv(Extend(h, op))
  {
    LegalIsDisciplined(h, op);
    hide Valid, Conserved, Stories, Answered, AllPending, Apply, Ended, LastN, Disciplined, Legal, ValidRequestId;
    ApplyKeepsValid(h.reg, op);
    ConservationGoesOn(h, op);
    StoriesGoOn(h, op);
    WindowGoesOn(h, op);
    AnswersGoOn(h, op);
    SupersededGoesOn(h, op);
    forall id | id in Extend(h, op).used ensures ValidRequestId(id) {
      forall live | live in h.reg.outbound ensures live in h.used {
        LiveIsUsed(h, live);
      }
      UsedIdsAreValid(h, op, id);
    }
  }

  lemma {:induction false} RunsKeepInv(ops: seq<Op>)
    requires LegalRun(ops)
    ensures Inv(Replay(ops))
  {
    if ops == [] {
      EmptyHistory();
    } else {
      hide Inv, Extend;
      RunsKeepInv(ops[..|ops| - 1]);
      InvGoesOn(Replay(ops[..|ops| - 1]), ops[|ops| - 1]);
    }
  }

  lemma EmptyHistory()
    ensures Inv(START)
  {
    EmptyIsValid();
    hide Valid;
    forall id ensures StorySoFar(EMPTY, {}, [], id) {}
    assert Stories(EMPTY, {}, []);
    assert Conserved([], [], [], [], []);
    assert Answered(None, map[], {}, 0, map[], []);
  }
}
