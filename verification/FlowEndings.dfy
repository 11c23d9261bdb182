/** Which step of the flow brings which outcome, and what a request's timers make of it over whole runs. */
module FlowEndings {
  import opened Wrappers
  import opened MemberRequest
  import RegistryInvariant
  import opened RegistryHistory
  import opened RegistryTheorems
  import opened IdealRegistry
  import opened RegistryRefinement
  import opened RegistryEndings
  import opened MemberRequestFlow
  import opened FlowInvariant
  import opened FlowTheorems
  import opened FlowSteps

  // ---------------------------------------------------------------- one step

  /** What an update on its channel brings about a request. */
  function UpdateBrings(live: map<RequestId, Outbound>, now: int, id: RequestId, update: ChannelUpdate): seq<Outcome> {
    if id !in live then []
    else
      match update
      case IdleUpdate => []
      case ResponseUpdate(member, message, instructions) =>
        if live[id].accepted then [Response(id, Age(live[id].acceptedAt, Some(now)), member, message, instructions)] else []
      case OfflineUpdate => [Offline(id, live[id].member)]
      case TimeoutUpdate => [Timeout(id, live[id].member)]
  }

  /** What a timer brings about the request it serves. */
  function ActionBrings(live: map<RequestId, Outbound>, action: TimerAction): seq<Outcome> {
    if action.id !in live then []
    else
      var request := live[action.id];
      if action.Hard? then [Timeout(action.id, request.member)]
      else if request.accepted && request.idleArmed && !request.pendingPublished then [Pending(action.id, request.member)]
      else []
  }

  function CancellingBrings(live: map<RequestId, Outbound>, id: RequestId): seq<Outcome> {
    if id in live then [Offline(id, live[id].member)] else []
  }

  /** The outcome a step brings to the requester. */
  function BroughtBy(f: Flow, step: Step): seq<Outcome>
    requires Possible(f, step)
  {
    match step
    case Updated(id, update) => UpdateBrings(f.reg.outbound, f.now, id, update)
    case Fired(key) => ActionBrings(f.reg.outbound, f.timers[key].action)
    case Cancelled(id) => CancellingBrings(f.reg.outbound, id)
    case _ => []
  }

  /** The outcome of a step's operation, by the ideal registry. */
  function Sent(i: Ideal, ops: seq<Op>): seq<Outcome>
    requires |ops| <= 1
  {
    if ops != [] && Outgoing(i, ops[0]).Some? then [Outgoing(i, ops[0]).value] else []
  }

  lemma OperationsBring(f: Flow, step: Step)
    requires Possible(f, step) && |OpsOf(f, step)| <= 1
    ensures Sent(Abstract(f.reg), OpsOf(f, step)) == BroughtBy(f, step)
  {
    hide Boxed, Chosen;
  }

  lemma SendsOutgoing(i: Ideal, op: Op)
    ensures Act(i, op).1.published == Sent(i, [op])
  {
    PublishesIff(i, op, Timeout("", Member("", "")));
    hide Act, Outgoing;
  }

  lemma ApplySends(r: Registry, ops: seq<Op>)
    requires RegistryInvariant.Valid(r) && |ops| <= 1 && (ops != [] ==> RegistryInvariant.Disciplined(r, ops[0]))
    ensures ApplyOne(r, ops).1.published == Sent(Abstract(r), ops)
  {
    hide RegistryInvariant.Valid, RegistryInvariant.Disciplined, Act, Apply, Outgoing, Abstract;
    if ops != [] {
      Refines(r, ops[0]);
      SendsOutgoing(Abstract(r), ops[0]);
      assert ops == [ops[0]];
    }
  }

  lemma StepIsDisciplined(f: Flow, used: set<RequestId>, step: Step, latency: nat)
    requires FlowInv(f, latency) && StepLegal(f, used, step, latency) && OpsOf(f, step) != []
    ensures RegistryInvariant.Disciplined(f.reg, OpsOf(f, step)[0])
  {
    hide RegistryInvariant.Valid, AllFit, AllTimed, OnTime, Chosen;
    if step.OpeningFailed? { OpeningIsUnaccepted(f, step.id, latency); }
  }

  /** A step publishes just the outcome it brings. */
  lemma StepBrings(f: Flow, used: set<RequestId>, step: Step, latency: nat)
    requires FlowInv(f, latency) && StepLegal(f, used, step, latency)
    ensures Next(f, step).1.published == BroughtBy(f, step)
  {
    hide FlowInv, StepLegal, OpsOf, Sent, BroughtBy, Next, ApplyOne, RegistryInvariant.Disciplined;
    LegalIsPossible(Progress(f, used), step, latency);
    StepPerforms(f, step);
    InvIsValid(f, latency);
    if OpsOf(f, step) != [] { StepIsDisciplined(f, used, step, latency); }
    ApplySends(f.reg, OpsOf(f, step));
    OperationsBring(f, step);
  }

  lemma InvIsValid(f: Flow, latency: nat)
    requires FlowInv(f, latency)
    ensures RegistryInvariant.Valid(f.reg)
  {
    hide RegistryInvariant.Valid, AllFit, AllTimed, OnTime, Openings;
  }

  /** A timer that fires always counts: a hard one brings its request's timeout, a grace one its notice. */
  lemma FiringBrings(f: Flow, key: string, latency: nat)
    requires FlowInv(f, latency) && key in f.timers && f.timers[key].due <= f.now
    ensures
      var action := f.timers[key].action;
      && action.id in f.reg.outbound
      && BroughtBy(f, Fired(key)) ==
           (if action.Hard? then [Timeout(action.id, f.reg.outbound[action.id].member)]
            else [Pending(action.id, f.reg.outbound[action.id].member)])
  {
    hide RegistryInvariant.Valid, AllTimed, Openings, OnTime;
    assert Fits(key, f.timers[key], f.reg.outbound);
  }

  // ---------------------------------------------------------------- whole runs

  /** All operations a run performs on the registry, and all it publishes. */
  function Performed(start: int, steps: seq<Step>): seq<Op> {
    if steps == [] then []
    else
      var n := |steps| - 1;
      var f := Run(start, steps[..n]).flow;
      Performed(start, steps[..n]) + (if Possible(f, steps[n]) then OpsOf(f, steps[n]) else [])
  }

  function Published(start: int, steps: seq<Step>): seq<Outcome> {
    if steps == [] then []
    else
      var n := |steps| - 1;
      var f := Run(start, steps[..n]).flow;
      Published(start, steps[..n]) + (if Possible(f, steps[n]) then Next(f, steps[n]).1.published else [])
  }

  /** A run whose waits are cancelled by their own callers only. */
  ghost predicate LegalFlow(start: int, steps: seq<Step>, latency: nat) {
    && LegalSteps(start, steps, latency)
    && forall n | 0 <= n < |steps| && steps[n].Waited? :: Legal(Replay(Performed(start, steps[..n])), steps[n].op)
  }

  lemma InitIsLegal(start: int, steps: seq<Step>, latency: nat)
    requires LegalFlow(start, steps, latency) && steps != []
    ensures
      var n := |steps| - 1;
      var before := Run(start, steps[..n]);
      && LegalFlow(start, steps[..n], latency) && StepLegal(before.flow, before.used, steps[n], latency)
      && (steps[n].Waited? ==> Legal(Replay(Performed(start, steps[..n])), steps[n].op))
  {
    hide StepLegal, Legal, Performed, Run, Replay;
    var init := steps[..|steps| - 1];
    forall n | 0 <= n < |init| && init[n].Waited? ensures Legal(Replay(Performed(start, init[..n])), init[n].op) {
      assert init[..n] == steps[..n];
    }
  }

  lemma OperationIsLegal(h: History, p: Progress, step: Step, latency: nat)
    requires FlowInv(p.flow, latency) && StepLegal(p.flow, p.used, step, latency) && OpsOf(p.flow, step) != []
    requires h.reg == p.flow.reg && h.used <= p.used && (step.Waited? ==> Legal(h, step.op))
    ensures Legal(h, OpsOf(p.flow, step)[0])
  {
    hide RegistryInvariant.Valid, AllFit, AllTimed, OnTime, Chosen;
    if step.OpeningFailed? { OpeningIsUnaccepted(p.flow, step.id, latency); }
  }

  /** The record of the operations goes with the flow. */
  predicate Together(h: History, p: Progress, published: seq<Outcome>) {
    h.reg == p.flow.reg && h.published == published && h.used <= p.used
  }

  lemma UsedBySteps(h: History, p: Progress, step: Step, op: Op)
    requires Possible(p.flow, step) && OpsOf(p.flow, step) == [op] && h.used <= p.used
    ensures Extend(h, op).used <= Advance(p, step).used
  {
    hide Apply, Next, Chosen;
  }

  lemma OneOrNone(ops: seq<Op>, more: seq<Op>)
    requires |more| <= 1
    ensures more == [] ==> ops + more == ops
    ensures more != [] ==> ops + more != [] && (ops + more)[..|ops + more| - 1] == ops && (ops + more)[|ops + more| - 1] == more[0]
  {
  }

  lemma GoOnTogether(ops: seq<Op>, p: Progress, published: seq<Outcome>, step: Step, latency: nat)
    requires FlowInv(p.flow, latency) && StepLegal(p.flow, p.used, step, latency)
    requires LegalRun(ops) && Together(Replay(ops), p, published) && (step.Waited? ==> Legal(Replay(ops), step.op))
    ensures
      var after := ops + OpsOf(p.flow, step);
      LegalRun(after) && Together(Replay(after), Advance(p, step), published + Next(p.flow, step).1.published)
  {
    hide FlowInv, StepLegal, OpsOf, Next, Legal, Apply;
    LegalIsPossible(p, step, latency);
    StepPerforms(p.flow, step);
    OneOrNone(ops, OpsOf(p.flow, step));
    if OpsOf(p.flow, step) == [] {
      assert published + [] == published;
    } else {
      OperationIsLegal(Replay(ops), p, step, latency);
      assert OpsOf(p.flow, step) == [OpsOf(p.flow, step)[0]];
      UsedBySteps(Replay(ops), p, step, OpsOf(p.flow, step)[0]);
    }
  }

  /** What the flow does to its registry is a legal run of the registry, so everything proved of those holds of it. */
  lemma {:induction false} FlowsAreLegalRuns(start: int, steps: seq<Step>, latency: nat)
    requires LegalFlow(start, steps, latency)
    ensures LegalRun(Performed(start, steps))
    ensures Together(Replay(Performed(start, steps)), Run(start, steps), Published(start, steps))
  {
    hide LegalFlow, Legal, StepLegal, FlowInv, OpsOf, Next, Together, Advance;
    if steps == [] {
      assert Together(Replay(Performed(start, [])), Run(start, []), Published(start, [])) by { AtFirst(start); }
    } else {
      var n := |steps| - 1;
      InitIsLegal(start, steps, latency);
      FlowsAreLegalRuns(start, steps[..n], latency);
      LegalFlowIsLegal(start, steps[..n], latency);
      FlowTheorems.RunsKeepInv(start, steps[..n], latency);
      LegalIsPossible(Run(start, steps[..n]), steps[n], latency);
      GoOnTogether(Performed(start, steps[..n]), Run(start, steps[..n]), Published(start, steps[..n]), steps[n], latency);
    }
  }

  lemma AtFirst(start: int)
    ensures Together(Replay(Performed(start, [])), Run(start, []), Published(start, []))
  {
  }

  lemma LegalFlowIsLegal(start: int, steps: seq<Step>, latency: nat)
    requires LegalFlow(start, steps, latency)
    ensures LegalSteps(start, steps, latency)
  {
    hide LegalSteps, Legal, Performed, Replay;
  }

  lemma LegalIsPossible(p: Progress, step: Step, latency: nat)
    requires StepLegal(p.flow, p.used, step, latency)
    ensures Possible(p.flow, step)
  {
    hide RegistryInvariant.Disciplined, OnTime;
  }

  // ---------------------------------------------------------------- outcomes and the steps that bring them

  /** Step `n` of the run brings this outcome. */
  ghost predicate BringsAt(start: int, steps: seq<Step>, n: nat, u: Outcome)
    requires n < |steps|
  {
    var f := Run(start, steps[..n]).flow;
    Possible(f, steps[n]) && BroughtBy(f, steps[n]) == [u]
  }

  lemma AtMostOneIsBrought(f: Flow, step: Step)
    requires Possible(f, step)
    ensures |BroughtBy(f, step)| <= 1
  {
  }

  /** In every legal run of the flow an outcome has been published exactly if a step brought it. */
  lemma {:induction false} FlowPublishedIff(start: int, steps: seq<Step>, latency: nat, u: Outcome)
    requires LegalFlow(start, steps, latency)
    ensures u in Published(start, steps) <==> exists n | 0 <= n < |steps| :: BringsAt(start, steps, n, u)
  {
    hide LegalFlow, Legal, StepLegal, FlowInv, OpsOf, Next, BroughtBy, Advance, Run;
    if steps != [] {
      var last := |steps| - 1;
      var init := steps[..last];
      InitIsLegal(start, steps, latency);
      FlowPublishedIff(start, init, latency, u);
      LegalFlowIsLegal(start, init, latency);
      FlowTheorems.RunsKeepInv(start, init, latency);
      LegalIsPossible(Run(start, init), steps[last], latency);
      StepBrings(Run(start, init).flow, Run(start, init).used, steps[last], latency);
      AtMostOneIsBrought(Run(start, init).flow, steps[last]);
      forall n | 0 <= n < last ensures BringsAt(start, init, n, u) <==> BringsAt(start, steps, n, u) {
        assert init[..n] == steps[..n];
      }
      assert BringsAt(start, steps, last, u) <==> u in BroughtBy(Run(start, init).flow, steps[last]);
      hide BringsAt;
      if exists n | 0 <= n < |steps| :: BringsAt(start, steps, n, u) {
        var n :| 0 <= n < |steps| && BringsAt(start, steps, n, u);
        if n < last { assert BringsAt(start, init, n, u); }
      }
      if exists n | 0 <= n < |init| :: BringsAt(start, init, n, u) {
        var n :| 0 <= n < |init| && BringsAt(start, init, n, u);
        assert BringsAt(start, steps, n, u);
      }
    }
  }

  /**
   * Whatever a step brings is final: an ending is published once and is the only ending its
   * request ever has, however the run goes on.
   */
  lemma BroughtIsTheOnlyEnding(start: int, steps: seq<Step>, latency: nat, n: nat, u: Outcome)
    requires LegalFlow(start, steps, latency) && n < |steps| && BringsAt(start, steps, n, u) && !u.Pending?
    ensures multiset(Published(start, steps))[u] == 1
    ensures forall v | v in Published(start, steps) && v.requestId == u.requestId && !v.Pending? :: v == u
  {
    hide LegalFlow, BringsAt, Performed, LegalRun, Inv;
    FlowPublishedIff(start, steps, latency, u);
    FlowsAreLegalRuns(start, steps, latency);
    RegistryHistory.RunsKeepInv(Performed(start, steps));
    hide Replay, Run, Published;
    OneEnding(Replay(Performed(start, steps)), u);
  }

  /** The step at which a request was sent, to this member. */
  predicate SentAt(steps: seq<Step>, k: nat, id: RequestId, member: Member)
    requires k < |steps|
  {
    steps[k].StartSend? && steps[k].id == id && steps[k].member == member
  }

  lemma LiveMember(f: Flow, used: set<RequestId>, step: Step, latency: nat, id: RequestId)
    requires FlowInv(f, latency) && StepLegal(f, used, step, latency) && id in Next(f, step).0.reg.outbound
    ensures
      var q := Next(f, step).0.reg.outbound[id];
      (id in f.reg.outbound && f.reg.outbound[id].member == q.member) || SentAt([step], 0, id, q.member)
  {
    hide FlowInv, StepLegal, Next, RegistryInvariant.Disciplined, OpsOf, Act, Registers;
    LegalIsPossible(Progress(f, used), step, latency);
    StepPerforms(f, step);
    InvIsValid(f, latency);
    if OpsOf(f, step) != [] {
      var op := OpsOf(f, step)[0];
      StepIsDisciplined(f, used, step, latency);
      Refines(f.reg, op);
      LiveAfter(Abstract(f.reg), op, id);
      if id !in f.reg.outbound { RegisteringIsSending(f, step, id, Next(f, step).0.reg.outbound[id]); }
    }
  }

  lemma RegisteringIsSending(f: Flow, step: Step, id: RequestId, q: Outbound)
    requires Possible(f, step) && OpsOf(f, step) != [] && Registers(OpsOf(f, step)[0], id, q)
    ensures SentAt([step], 0, id, q.member)
  {
    hide Chosen;
  }

  /** A live request names the member it was sent to. */
  lemma {:induction false} LiveWasSent(start: int, steps: seq<Step>, latency: nat, id: RequestId)
    requires LegalFlow(start, steps, latency) && id in Run(start, steps).flow.reg.outbound
    ensures exists k | 0 <= k < |steps| :: SentAt(steps, k, id, Run(start, steps).flow.reg.outbound[id].member)
  {
    hide LegalFlow, Legal, StepLegal, FlowInv, Next;
    if steps != [] {
      var last := |steps| - 1;
      var init := steps[..last];
      InitIsLegal(start, steps, latency);
      LegalFlowIsLegal(start, init, latency);
      FlowTheorems.RunsKeepInv(start, init, latency);
      LegalIsPossible(Run(start, init), steps[last], latency);
      LiveMember(Run(start, init).flow, Run(start, init).used, steps[last], latency, id);
      var member := Run(start, steps).flow.reg.outbound[id].member;
      if SentAt([steps[last]], 0, id, member) {
        assert SentAt(steps, last, id, member);
      } else {
        LiveWasSent(start, init, latency, id);
        var k :| 0 <= k < |init| && SentAt(init, k, id, member);
        assert SentAt(steps, k, id, member);
      }
    }
  }

  /**
   * An accepted request whose hard timer fires has, in that run and however it goes on, exactly
   * one ending: the timeout, naming the member the request was sent to.
   */
  lemma HardTimerTimesOut(start: int, steps: seq<Step>, latency: nat, n: nat, id: RequestId)
    requires LegalFlow(start, steps, latency) && n < |steps| && steps[n].Fired?
    requires
      var f := Run(start, steps[..n]).flow;
      steps[n].key in f.timers && f.timers[steps[n].key].action == Hard(id)
    ensures id in Run(start, steps[..n]).flow.reg.outbound
    ensures
      var member := Run(start, steps[..n]).flow.reg.outbound[id].member;
      && (exists k | 0 <= k < n :: SentAt(steps, k, id, member))
      && multiset(Published(start, steps))[Timeout(id, member)] == 1
      && forall v | v in Published(start, steps) && v.requestId == id && !v.Pending? :: v == Timeout(id, member)
  {
    hide LegalFlow, FlowInv, BroughtBy, Run, Published, StepLegal;
    PrefixFlow(start, steps, latency, n);
    var p := Run(start, steps[..n]);
    FlowTheorems.RunsKeepInv(start, steps[..n], latency);
    LegalIsPossible(p, steps[n], latency);
    FiringBrings(p.flow, steps[n].key, latency);
    var member := p.flow.reg.outbound[id].member;
    assert BringsAt(start, steps, n, Timeout(id, member));
    BroughtIsTheOnlyEnding(start, steps, latency, n, Timeout(id, member));
    LiveWasSent(start, steps[..n], latency, id);
    var k :| 0 <= k < |steps[..n]| && SentAt(steps[..n], k, id, member);
    assert SentAt(steps, k, id, member);
  }

  lemma {:induction false} PrefixFlow(start: int, steps: seq<Step>, latency: nat, n: nat)
    requires LegalFlow(start, steps, latency) && n < |steps|
    ensures LegalFlow(start, steps[..n], latency) && LegalSteps(start, steps[..n], latency)
    ensures StepLegal(Run(start, steps[..n]).flow, Run(start, steps[..n]).used, steps[n], latency)
    decreases |steps|
  {
    hide LegalFlow, StepLegal, Run, LegalSteps;
    var init := steps[..|steps| - 1];
    InitIsLegal(start, steps, latency);
    if n < |init| {
      PrefixFlow(start, init, latency, n);
      assert init[..n] == steps[..n];
    } else {
      LegalFlowIsLegal(start, init, latency);
    }
  }
}
