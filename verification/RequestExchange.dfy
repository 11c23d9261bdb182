/**
 * A requester's flow and a responder's flow joined by what travels between them: the
 * request itself, which may be lost, and the updates the responder sends on the request's
 * channel, any of which may be lost, delayed, repeated or preceded by a broken connection.
 */
module RequestExchange {
  import opened Wrappers
  import opened MemberRequest
  import opened RegistryInvariant
  import opened RegistryHistory
  import opened MemberRequestFlow
  import opened FlowInvariant

  datatype Question = Question(message: string, instructions: seq<string>)

  /** One successful respond: the request it closed, as the responder held it, and what it said. */
  datatype Reply = Reply(id: RequestId, question: Question, member: Member, message: string, instructions: seq<string>)

  /** Both flows, the requests under way, and what happened so far. */
  datatype Exchange = Exchange(
    requester: Flow,
    responder: Flow,
    asked: map<RequestId, Question>,
    foreign: set<RequestId>,
    travelling: map<RequestId, Question>,
    replies: seq<Reply>,
    published: seq<Outcome>)

  datatype Event =
    | Ask(id: RequestId, member: Member, timeout: Option<real>, maxWait: Option<real>, question: Question)
    | RequestArrives(id: RequestId, requester: Member)
    | RequestIsLost(id: RequestId)
    | OthersRequestArrives(id: RequestId, requester: Member, question: Question)
    | UpdateIsDelivered(k: nat)
    | AtRequester(step: Step)
    | AtResponder(step: Step)

  function Initially(here: int, there: int): Exchange {
    Exchange(Initial(here), Initial(there), map[], {}, map[], [], [])
  }

  /** Ids are generated fresh, and only the channel tells a requester that its peer answered or went idle. */
  predicate Allowed(x: Exchange, e: Event) {
    match e
    case Ask(id, _, _, _, _) => id !in x.asked && id !in x.foreign
    case RequestArrives(id, _) => id in x.travelling
    case RequestIsLost(id) => id in x.travelling
    case OthersRequestArrives(id, _, _) => id !in x.asked && id !in x.foreign
    case UpdateIsDelivered(k) => k < |x.responder.sent|
    case AtRequester(step) =>
      Possible(x.requester, step) && !step.StartSend? && (step.Updated? ==> step.update.OfflineUpdate? || step.update.TimeoutUpdate?)
    case AtResponder(step) => Possible(x.responder, step) && !step.InboundRegistered?
  }

  /** Perform a step of the requester and record what it publishes. */
  function Requesting(x: Exchange, step: Step): Exchange
    requires Possible(x.requester, step)
  {
    var (f, out) := Next(x.requester, step);
    x.(requester := f, published := x.published + out.published)
  }

  /** The reply a step of the responder gives, if it is a respond that succeeds. */
  function ReplyOf(f: Flow, step: Step): seq<Reply> {
    if !step.ResponseStarted? then []
    else
      var answer := RespondStart(f, step.select, step.member, step.message, step.instructions).1;
      if answer.Err? || answer.value !in f.reg.inbound then []
      else
        var request := f.reg.inbound[answer.value];
        [Reply(answer.value, Question(request.message, request.instructions), step.member, step.message, step.instructions)]
  }

  function Responding(x: Exchange, step: Step): Exchange
    requires Possible(x.responder, step)
  {
    x.(responder := Next(x.responder, step).0, replies := x.replies + ReplyOf(x.responder, step))
  }

  function Happen(x: Exchange, e: Event): Exchange
    requires Allowed(x, e)
  {
    match e
    case Ask(id, member, timeout, maxWait, question) =>
      Requesting(x, StartSend(id, member, timeout, maxWait)).(asked := x.asked[id := question], travelling := x.travelling[id := question])
    case RequestArrives(id, requester) =>
      var question := x.travelling[id];
      Responding(x, InboundRegistered(id, requester, question.message, question.instructions)).(travelling := x.travelling - {id})
    case RequestIsLost(id) => x.(travelling := x.travelling - {id})
    case OthersRequestArrives(id, requester, question) =>
      Responding(x, InboundRegistered(id, requester, question.message, question.instructions)).(foreign := x.foreign + {id})
    case UpdateIsDelivered(k) => Requesting(x, Updated(x.responder.sent[k].0, x.responder.sent[k].1))
    case AtRequester(step) => Requesting(x, step)
    case AtResponder(step) => Responding(x, step)
  }

  // ---------------------------------------------------------------- what holds between events

  predicate Replied(replies: seq<Reply>, id: RequestId) {
    exists j :: 0 <= j < |replies| && replies[j].id == id
  }

  /** Every request is in one place: still travelling, held by the responder, or replied to. */
  ghost predicate OnePlace(
    asked: map<RequestId, Question>, foreign: set<RequestId>, travelling: map<RequestId, Question>,
    inbound: map<RequestId, Inbound>, replies: seq<Reply>)
  {
    && (forall id | id in asked :: id !in foreign)
    && (forall id | id in travelling ::
          id in asked && travelling[id] == asked[id] && id !in inbound && !Replied(replies, id))
    && (forall id | id in inbound ::
          && (id in asked || id in foreign) && !Replied(replies, id)
          && (id in asked ==> Question(inbound[id].message, inbound[id].instructions) == asked[id]))
  }

  /** No request has two replies, and each reply is to the question that was asked. */
  ghost predicate Answering(asked: map<RequestId, Question>, foreign: set<RequestId>, replies: seq<Reply>) {
    && (forall j | 0 <= j < |replies| :: replies[j].id in asked || replies[j].id in foreign)
    && (forall j | 0 <= j < |replies| :: replies[j].id in asked ==> replies[j].question == asked[replies[j].id])
    && (forall i, j | 0 <= i < j < |replies| :: replies[i].id != replies[j].id)
  }

  predicate Says(r: Reply, id: RequestId, member: Member, message: string, instructions: seq<string>) {
    r.id == id && r.member == member && r.message == message && r.instructions == instructions
  }

  predicate Given(replies: seq<Reply>, id: RequestId, member: Member, message: string, instructions: seq<string>) {
    exists j :: 0 <= j < |replies| && Says(replies[j], id, member, message, instructions)
  }

  ghost predicate SentIsGiven(sent: seq<(RequestId, ChannelUpdate)>, replies: seq<Reply>) {
    forall k | 0 <= k < |sent| ::
      sent[k].1.ResponseUpdate? ==> Given(replies, sent[k].0, sent[k].1.member, sent[k].1.message, sent[k].1.instructions)
  }

  /** Live requests were asked, and are idle only when the responder said so. */
  ghost predicate Requests(
    outbound: map<RequestId, Outbound>, asked: map<RequestId, Question>, sent: seq<(RequestId, ChannelUpdate)>)
  {
    forall id | id in outbound :: id in asked && (outbound[id].idleArmed ==> (id, IdleUpdate) in sent)
  }

  ghost predicate Backed(
    u: Outcome, asked: map<RequestId, Question>, sent: seq<(RequestId, ChannelUpdate)>, replies: seq<Reply>)
  {
    && u.requestId in asked
    && (u.Response? ==> Given(replies, u.requestId, u.member, u.message, u.instructions))
    && (u.Pending? ==> (u.requestId, IdleUpdate) in sent)
  }

  ghost predicate AllBacked(
    published: seq<Outcome>, asked: map<RequestId, Question>, sent: seq<(RequestId, ChannelUpdate)>, replies: seq<Reply>)
  {
    forall j | 0 <= j < |published| :: Backed(published[j], asked, sent, replies)
  }

  ghost predicate ExchangeInv(x: Exchange) {
    && OnePlace(x.asked, x.foreign, x.travelling, x.responder.reg.inbound, x.replies)
    && Answering(x.asked, x.foreign, x.replies)
    && SentIsGiven(x.responder.sent, x.replies)
    && Requests(x.requester.reg.outbound, x.asked, x.responder.sent)
    && AllBacked(x.published, x.asked, x.responder.sent, x.replies)
  }

  lemma InitiallyInv(here: int, there: int)
    ensures ExchangeInv(Initially(here, there))
  {
  }

  // ---------------------------------------------------------------- what a responder's step does

  /** Requests may leave and change their flags, never their question. */
  ghost predicate Fewer(before: map<RequestId, Inbound>, after: map<RequestId, Inbound>) {
    forall id | id in after ::
      id in before && after[id].message == before[id].message && after[id].instructions == before[id].instructions
  }

  lemma PublicationLeavesInbound(r: Registry, op: Op)
    requires Publishes(op)
    ensures Apply(r, op).0.inbound == r.inbound
  {
    hide Publish, LastN, DeadCode, RequestAge;
    if op.id in r.outbound {
      var request := r.outbound[op.id];
      var settled := SetTerminal(DropOutbound(r, op.id), op.id);
      match op
      case DoResolveResponse(id, member, message, instructions, at) =>
        PublishFrame(settled, Response(id, RequestAge(request, at), member, message, instructions));
      case DoResolveOffline(id) => PublishFrame(settled, Offline(id, request.member));
      case DoResolveTimeout(id) => PublishFrame(settled, Timeout(id, request.member));
      case DoResolvePending(id) =>
        PublishFrame(r.(outbound := r.outbound[id := request.(pendingPublished := true)]), Pending(id, request.member));
    }
  }

  lemma InboundOnlyShrinks(r: Registry, op: Op)
    requires !op.DoRegisterInbound?
    ensures Fewer(r.inbound, Apply(r, op).0.inbound)
  {
    hide ValidRequestId, ValidTimeout, ValidMaxWait, LastN, Publish, Terminate;
    if Publishes(op) {
      hide Apply;
      PublicationLeavesInbound(r, op);
    }
  }

  ghost predicate SentStep(before: seq<(RequestId, ChannelUpdate)>, after: seq<(RequestId, ChannelUpdate)>, replies: seq<Reply>) {
    || after == before
    || (exists id :: after == before + [(id, IdleUpdate)])
    || (&& |replies| == 1
        && after == before + [(replies[0].id, ResponseUpdate(replies[0].member, replies[0].message, replies[0].instructions))])
  }

  /** A step of the responder only sends what it replies, and forgets the request it replies to. */
  ghost predicate ResponderStep(f: Flow, f': Flow, replies: seq<Reply>) {
    && Fewer(f.reg.inbound, f'.reg.inbound)
    && SentStep(f.sent, f'.sent, replies)
    && |replies| <= 1
    && (replies != [] ==>
          var id := replies[0].id;
          && id in f.reg.inbound && id !in f'.reg.inbound
          && replies[0].question == Question(f.reg.inbound[id].message, f.reg.inbound[id].instructions))
  }

  lemma RespondingStep(f: Flow, step: Step)
    requires step.ResponseStarted?
    ensures ResponderStep(f, Next(f, step).0, ReplyOf(f, step))
  {
    hide LastN;
  }

  lemma QuietStep(f: Flow, f': Flow, op: Op)
    requires !op.DoRegisterInbound? && f'.sent == f.sent
    requires f'.reg == Apply(f.reg, op).0 || f'.reg == f.reg
    ensures ResponderStep(f, f', [])
  {
    hide Apply;
    InboundOnlyShrinks(f.reg, op);
  }

  lemma IdleStep(f: Flow, step: Step)
    requires step.InboundIdle?
    ensures ResponderStep(f, Next(f, step).0, [])
  {
    hide Fewer, ArmInboundIdle, SentStep;
    IdleKeepsQuestions(f, step.id);
    assert SentStep(f.sent, Next(f, step).0.sent, []) by { IdleSends(f, step.id); }
  }

  lemma IdleKeepsQuestions(f: Flow, id: RequestId)
    ensures Fewer(f.reg.inbound, SettleInboundIdle(f, id).reg.inbound)
  {
    hide Fewer, ArmInboundIdle;
    InboundOnlyShrinks(f.reg, DoArmInboundIdle(id, Some(f.now)));
    assert Fewer(f.reg.inbound, f.reg.inbound) by { SameInbound(f.reg.inbound); }
  }

  lemma SameInbound(inbound: map<RequestId, Inbound>)
    ensures Fewer(inbound, inbound)
  {
  }

  lemma IdleSends(f: Flow, id: RequestId)
    ensures SentStep(f.sent, SettleInboundIdle(f, id).sent, [])
  {
    hide ArmInboundIdle;
  }

  lemma UpdatedStep(f: Flow, step: Step)
    requires step.Updated?
    ensures ResponderStep(f, Next(f, step).0, [])
  {
    hide ArmOutboundIdle, ResolveResponse, ResolveOffline, ResolveTimeout, KeysOf, StartGrace, GraceKey, ResponderStep;
    var op := match step.update
      case IdleUpdate => DoArmOutboundIdle(step.id, Some(f.now))
      case ResponseUpdate(member, message, instructions) => DoResolveResponse(step.id, member, message, instructions, Some(f.now))
      case OfflineUpdate => DoResolveOffline(step.id)
      case TimeoutUpdate => DoResolveTimeout(step.id);
    QuietStep(f, Next(f, step).0, op);
  }

  lemma OpeningStep(f: Flow, step: Step)
    requires step.Opened? && Possible(f, step)
    ensures ResponderStep(f, Next(f, step).0, [])
  {
    hide AcceptOutbound, FailBeforeAcceptance, StartHard, KeysOf, GraceKey, ResponderStep;
    QuietStep(f, Next(f, step).0,
              if AcceptOutbound(f.reg, step.id, Some(f.now)).result.Ok? then DoAcceptOutbound(step.id, Some(f.now))
              else DoFailBeforeAcceptance(step.id));
  }

  lemma OtherStep(f: Flow, step: Step)
    requires step.StartSend? || step.OpeningFailed? || step.WithdrawnEarly? || step.Fired? || step.Cancelled?
    requires Possible(f, step)
    ensures ResponderStep(f, Next(f, step).0, [])
  {
    hide RegisterOutbound, FailBeforeAcceptance, CloseOutcomeUnknown, ResolveOffline, ResolveTimeout, ResolvePendingAfterIdle;
    hide KeysOf, GraceKey, ResponderStep;
    var op := match step
      case StartSend(id, member, timeout, maxWait) => DoRegisterOutbound(id, member, f.now, timeout, maxWait)
      case OpeningFailed(id, outcomeUnknown) => if outcomeUnknown then DoCloseOutcomeUnknown(id) else DoFailBeforeAcceptance(id)
      case WithdrawnEarly(id) => DoFailBeforeAcceptance(id)
      case Cancelled(id) => DoResolveOffline(id)
      case Fired(key) => if f.timers[key].action.Hard? then DoResolveTimeout(f.timers[key].action.id) else DoResolvePending(f.timers[key].action.id);
    QuietStep(f, Next(f, step).0, op);
  }

  lemma EveryResponderStep(f: Flow, step: Step)
    requires Possible(f, step) && !step.InboundRegistered?
    ensures ResponderStep(f, Next(f, step).0, ReplyOf(f, step))
  {
    hide ResponderStep, Next;
    match step
    case ResponseStarted(_, _, _, _) => RespondingStep(f, step);
    case InboundIdle(_) => IdleStep(f, step);
    case Updated(_, _) => UpdatedStep(f, step);
    case Opened(_) => OpeningStep(f, step);
    case StartSend(_, _, _, _) => OtherStep(f, step);
    case OpeningFailed(_, _) => OtherStep(f, step);
    case WithdrawnEarly(_) => OtherStep(f, step);
    case Cancelled(_) => OtherStep(f, step);
    case Fired(_) => OtherStep(f, step);
    case _ => LocalStep(f, step);
  }

  lemma LocalStep(f: Flow, step: Step)
    requires Possible(f, step) && (step.InboundAccepted? || step.ResponseSent? || step.InboundRemoved? || step.Waited? || step.Tick?)
    ensures ResponderStep(f, Next(f, step).0, [])
  {
    hide AcceptInbound, ResolveInboundExpired, Apply, ResponderStep;
    var op := match step
      case InboundAccepted(id) => DoAcceptInbound(id)
      case InboundRemoved(id) => DoResolveInboundExpired(id)
      case Waited(op) => op
      case _ => DoWaitForUpdate;
    assert Possible(f, step) && step.Waited? ==> !op.DoRegisterInbound?;
    LocalEffect(f, step, op);
    QuietStep(f, Next(f, step).0, op);
  }

  lemma LocalEffect(f: Flow, step: Step, op: Op)
    requires Possible(f, step) && (step.InboundAccepted? || step.ResponseSent? || step.InboundRemoved? || step.Waited? || step.Tick?)
    requires step.InboundAccepted? ==> op == DoAcceptInbound(step.id)
    requires step.InboundRemoved? ==> op == DoResolveInboundExpired(step.id)
    requires step.Waited? ==> op == step.op
    ensures Next(f, step).0.sent == f.sent
    ensures Next(f, step).0.reg == Apply(f.reg, op).0 || Next(f, step).0.reg == f.reg
  {
    hide AcceptInbound, ResolveInboundExpired;
  }

  // ---------------------------------------------------------------- what a requester's step does

  /** How an operation may change the requests a requester has open. */
  ghost predicate OutboundStep(before: map<RequestId, Outbound>, after: map<RequestId, Outbound>, op: Op) {
    forall id | id in after ::
      if id in before then after[id].idleArmed ==> before[id].idleArmed || (op.DoArmOutboundIdle? && op.id == id)
      else op.DoRegisterOutbound? && op.id == id && !after[id].idleArmed
  }

  lemma EveryOutboundStep(r: Registry, op: Op)
    ensures OutboundStep(r.outbound, Apply(r, op).0.outbound, op)
  {
    hide ValidRequestId, ValidTimeout, ValidMaxWait, LastN;
    if Resolves(op) {
      hide Apply, OutboundStep;
      ResolutionRemoves(r, op);
      assert OutboundStep(r.outbound, r.outbound, op) && OutboundStep(r.outbound, r.outbound - {op.id}, op) by {
        FewerOutbound(r.outbound, op);
      }
    } else if LeavesOutbound(op) {
      hide Apply;
      OutboundLeftAlone(r, op);
    } else if op.DoResolvePending? {
      PendingStep(r, op);
    }
  }

  lemma FewerOutbound(outbound: map<RequestId, Outbound>, op: Op)
    requires Resolves(op)
    ensures OutboundStep(outbound, outbound, op) && OutboundStep(outbound, outbound - {op.id}, op)
  {
  }

  lemma PendingStep(r: Registry, op: Op)
    requires op.DoResolvePending?
    ensures OutboundStep(r.outbound, Apply(r, op).0.outbound, op)
  {
    hide Publish;
    if ResolvePendingAfterIdle(r, op.id).result.Ok? {
      PendingOutbound(r, op.id);
    }
  }

  /** An outcome is published for a live request, with what the operation was told. */
  ghost predicate Cause(r: Registry, op: Op, u: Outcome) {
    && Publishes(op) && op.id == u.requestId && u.requestId in r.outbound
    && (u.Response? ==> op.DoResolveResponse? && op.member == u.member && op.message == u.message && op.instructions == u.instructions)
    && (u.Pending? ==> r.outbound[u.requestId].idleArmed)
  }

  ghost predicate PublishedStep(r: Registry, op: Op, published: seq<Outcome>) {
    published == [] || (|published| == 1 && Cause(r, op, published[0]))
  }

  lemma EveryPublishedStep(r: Registry, op: Op)
    ensures PublishedStep(r, op, Apply(r, op).1.published)
  {
    if Publishes(op) {
      PublicationStep(r, op);
    } else {
      hide Apply;
      OthersPublishNothing(r, op);
    }
  }

  lemma PublicationStep(r: Registry, op: Op)
    requires Publishes(op)
    ensures PublishedStep(r, op, Apply(r, op).1.published)
  {
    hide Publish, LastN, DeadCode, RequestAge;
    if op.id in r.outbound {
      var request := r.outbound[op.id];
      var settled := SetTerminal(DropOutbound(r, op.id), op.id);
      match op
      case DoResolveResponse(id, member, message, instructions, at) =>
        PublishFrame(settled, Response(id, RequestAge(request, at), member, message, instructions));
      case DoResolveOffline(id) => PublishFrame(settled, Offline(id, request.member));
      case DoResolveTimeout(id) => PublishFrame(settled, Timeout(id, request.member));
      case DoResolvePending(id) =>
        PublishFrame(r.(outbound := r.outbound[id := request.(pendingPublished := true)]), Pending(id, request.member));
    }
  }

  /** Operations a requester performs in a given event. */
  predicate Fitting(e: Step, op: Op) {
    && (op.DoRegisterOutbound? ==> e.StartSend? && e.id == op.id)
    && (op.DoArmOutboundIdle? ==> e.Updated? && e.update.IdleUpdate? && e.id == op.id)
    && (op.DoResolveResponse? ==>
          e.Updated? && e.id == op.id && e.update == ResponseUpdate(op.member, op.message, op.instructions))
  }

  /** A flow step performs one fitting operation, or none, on the requests it has open. */
  ghost predicate RequesterStep(f: Flow, step: Step, f': Flow, published: seq<Outcome>) {
    exists op ::
      && Fitting(step, op) && OutboundStep(f.reg.outbound, f'.reg.outbound, op) && PublishedStep(f.reg, op, published)
  }

  lemma ByOperation(f: Flow, step: Step, op: Op, f': Flow, published: seq<Outcome>)
    requires Fitting(step, op)
    requires || (f'.reg == Apply(f.reg, op).0 && published == Apply(f.reg, op).1.published)
             || (f'.reg == f.reg && published == Apply(f.reg, op).1.published)
             || (f'.reg == Apply(f.reg, op).0 && published == [])
             || (f'.reg == f.reg && published == [])
    ensures RequesterStep(f, step, f', published)
  {
    hide Apply, Fitting;
    hide Cause;
    EveryOutboundStep(f.reg, op);
    EveryPublishedStep(f.reg, op);
  }

  lemma UpdateIsFitting(f: Flow, step: Step)
    requires step.Updated?
    ensures RequesterStep(f, step, Next(f, step).0, Next(f, step).1.published)
  {
    hide ArmOutboundIdle, ResolveResponse, ResolveOffline, ResolveTimeout, KeysOf, StartGrace, GraceKey, RequesterStep;
    var op := match step.update
      case IdleUpdate => DoArmOutboundIdle(step.id, Some(f.now))
      case ResponseUpdate(member, message, instructions) => DoResolveResponse(step.id, member, message, instructions, Some(f.now))
      case OfflineUpdate => DoResolveOffline(step.id)
      case TimeoutUpdate => DoResolveTimeout(step.id);
    ByOperation(f, step, op, Next(f, step).0, Next(f, step).1.published);
  }

  lemma OpenedIsFitting(f: Flow, step: Step)
    requires step.Opened? && Possible(f, step)
    ensures RequesterStep(f, step, Next(f, step).0, Next(f, step).1.published)
  {
    hide AcceptOutbound, FailBeforeAcceptance, StartHard, KeysOf, GraceKey, RequesterStep;
    var op := if AcceptOutbound(f.reg, step.id, Some(f.now)).result.Ok? then DoAcceptOutbound(step.id, Some(f.now))
              else DoFailBeforeAcceptance(step.id);
    ByOperation(f, step, op, Next(f, step).0, Next(f, step).1.published);
  }

  lemma OutboundStepIsFitting(f: Flow, step: Step)
    requires step.OpeningFailed? || step.WithdrawnEarly? || step.Fired? || step.Cancelled?
    requires Possible(f, step)
    ensures RequesterStep(f, step, Next(f, step).0, Next(f, step).1.published)
  {
    hide FailBeforeAcceptance, CloseOutcomeUnknown, ResolveOffline, ResolveTimeout, ResolvePendingAfterIdle;
    hide KeysOf, GraceKey, RequesterStep;
    var op := match step
      case OpeningFailed(id, outcomeUnknown) => if outcomeUnknown then DoCloseOutcomeUnknown(id) else DoFailBeforeAcceptance(id)
      case WithdrawnEarly(id) => DoFailBeforeAcceptance(id)
      case Cancelled(id) => DoResolveOffline(id)
      case Fired(key) => if f.timers[key].action.Hard? then DoResolveTimeout(f.timers[key].action.id) else DoResolvePending(f.timers[key].action.id);
    ByOperation(f, step, op, Next(f, step).0, Next(f, step).1.published);
  }

  lemma SendingIsFitting(f: Flow, step: Step)
    requires step.StartSend?
    ensures RequesterStep(f, step, Next(f, step).0, Next(f, step).1.published)
  {
    hide RegisterOutbound, RequesterStep;
    ByOperation(f, step, DoRegisterOutbound(step.id, step.member, f.now, step.timeout, step.maxWait), Next(f, step).0, Next(f, step).1.published);
  }

  lemma InboundIsFitting(f: Flow, step: Step)
    requires step.InboundRegistered? || step.InboundAccepted? || step.InboundIdle? || step.InboundRemoved?
    ensures RequesterStep(f, step, Next(f, step).0, Next(f, step).1.published)
  {
    hide RegisterInbound, AcceptInbound, ArmInboundIdle, ResolveInboundExpired, RequesterStep;
    var op := match step
      case InboundRegistered(id, requester, message, instructions) => DoRegisterInbound(id, requester, message, instructions)
      case InboundAccepted(id) => DoAcceptInbound(id)
      case InboundIdle(id) => DoArmInboundIdle(id, Some(f.now))
      case InboundRemoved(id) => DoResolveInboundExpired(id);
    ByOperation(f, step, op, Next(f, step).0, Next(f, step).1.published);
  }

  lemma RespondIsFitting(f: Flow, step: Step)
    requires step.ResponseStarted? || step.ResponseSent?
    ensures RequesterStep(f, step, Next(f, step).0, Next(f, step).1.published)
  {
    hide ResolveInboundResponse, SelectInbound, RequesterStep;
    var selected := SelectInbound(f.reg, if step.ResponseStarted? then step.select else None);
    ByOperation(f, step, DoResolveInboundResponse(if selected.Ok? then selected.value else ""), Next(f, step).0, Next(f, step).1.published);
  }

  lemma WaitIsFitting(f: Flow, step: Step)
    requires (step.Waited? || step.Tick?) && Possible(f, step)
    ensures RequesterStep(f, step, Next(f, step).0, Next(f, step).1.published)
  {
    hide Apply, RequesterStep;
    ByOperation(f, step, if step.Waited? then step.op else DoWaitForUpdate, Next(f, step).0, Next(f, step).1.published);
  }

  lemma EveryRequesterStep(f: Flow, step: Step)
    requires Possible(f, step)
    ensures RequesterStep(f, step, Next(f, step).0, Next(f, step).1.published)
  {
    hide RequesterStep, Next;
    match step
    case StartSend(_, _, _, _) => SendingIsFitting(f, step);
    case Updated(_, _) => UpdateIsFitting(f, step);
    case Opened(_) => OpenedIsFitting(f, step);
    case OpeningFailed(_, _) => OutboundStepIsFitting(f, step);
    case WithdrawnEarly(_) => OutboundStepIsFitting(f, step);
    case Cancelled(_) => OutboundStepIsFitting(f, step);
    case Fired(_) => OutboundStepIsFitting(f, step);
    case InboundRegistered(_, _, _, _) => InboundIsFitting(f, step);
    case InboundAccepted(_) => InboundIsFitting(f, step);
    case InboundIdle(_) => InboundIsFitting(f, step);
    case InboundRemoved(_) => InboundIsFitting(f, step);
    case ResponseStarted(_, _, _, _) => RespondIsFitting(f, step);
    case ResponseSent(_) => RespondIsFitting(f, step);
    case Waited(_) => WaitIsFitting(f, step);
    case Tick(_) => WaitIsFitting(f, step);
  }

  // ---------------------------------------------------------------- every event keeps the invariant

  /** What a step may bring in: a request that was asked, or an update that was sent. */
  ghost predicate Founded(
    step: Step, asked: map<RequestId, Question>, sent: seq<(RequestId, ChannelUpdate)>, replies: seq<Reply>)
  {
    && (step.StartSend? ==> step.id in asked)
    && (step.Updated? && step.update.IdleUpdate? ==> (step.id, IdleUpdate) in sent)
    && (step.Updated? && step.update.ResponseUpdate? ==>
          Given(replies, step.id, step.update.member, step.update.message, step.update.instructions))
  }

  /** A requester's step leaves it with requests that were asked and outcomes that are backed. */
  lemma RequestingKeeps(x: Exchange, step: Step, asked: map<RequestId, Question>)
    requires Possible(x.requester, step)
    requires Requests(x.requester.reg.outbound, asked, x.responder.sent)
    requires AllBacked(x.published, asked, x.responder.sent, x.replies)
    requires Founded(step, asked, x.responder.sent, x.replies)
    ensures Requests(Requesting(x, step).requester.reg.outbound, asked, x.responder.sent)
    ensures AllBacked(Requesting(x, step).published, asked, x.responder.sent, x.replies)
  {
    hide Next, Possible, Given;
    var (f, out) := Next(x.requester, step);
    EveryRequesterStep(x.requester, step);
    var op :| Fitting(step, op) && OutboundStep(x.requester.reg.outbound, f.reg.outbound, op) && PublishedStep(x.requester.reg, op, out.published);
    if out.published != [] {
      assert Backed(out.published[0], asked, x.responder.sent, x.replies);
    }
    hide Backed;
  }

  lemma MoreAsked(x: Exchange, id: RequestId, question: Question)
    requires ExchangeInv(x) && id !in x.asked && id !in x.foreign
    ensures
      var asked := x.asked[id := question];
      && Requests(x.requester.reg.outbound, asked, x.responder.sent)
      && AllBacked(x.published, asked, x.responder.sent, x.replies)
      && Answering(asked, x.foreign, x.replies)
      && OnePlace(asked, x.foreign, x.travelling[id := question], x.responder.reg.inbound, x.replies)
  {
    hide Given, SentIsGiven;
  }

  lemma AskKeepsInv(x: Exchange, e: Event)
    requires ExchangeInv(x) && e.Ask? && Allowed(x, e)
    ensures ExchangeInv(Happen(x, e))
  {
    hide OnePlace, Answering, SentIsGiven, Requests, AllBacked, Next, Possible;
    MoreAsked(x, e.id, e.question);
    assert Possible(x.requester, StartSend(e.id, e.member, e.timeout, e.maxWait)) by { SendIsPossible(x.requester, e); }
    RequestingKeeps(x, StartSend(e.id, e.member, e.timeout, e.maxWait), x.asked[e.id := e.question]);
  }

  lemma SendIsPossible(f: Flow, e: Event)
    requires e.Ask?
    ensures Possible(f, StartSend(e.id, e.member, e.timeout, e.maxWait))
  {
  }

  lemma RequesterKeepsInv(x: Exchange, e: Event)
    requires ExchangeInv(x) && (e.UpdateIsDelivered? || e.AtRequester?) && Allowed(x, e)
    ensures ExchangeInv(Happen(x, e))
  {
    hide OnePlace, Answering, Requests, AllBacked, Next, Given;
    var step := if e.AtRequester? then e.step else Updated(x.responder.sent[e.k].0, x.responder.sent[e.k].1);
    RequestingKeeps(x, step, x.asked);
  }

  lemma MoreReplies(sent: seq<(RequestId, ChannelUpdate)>, replies: seq<Reply>, added: seq<Reply>)
    requires SentIsGiven(sent, replies)
    ensures SentIsGiven(sent, replies + added)
  {
    forall k | 0 <= k < |sent| && sent[k].1.ResponseUpdate?
      ensures Given(replies + added, sent[k].0, sent[k].1.member, sent[k].1.message, sent[k].1.instructions)
    {
      GivenStays(replies, added, sent[k].0, sent[k].1.member, sent[k].1.message, sent[k].1.instructions);
    }
  }

  lemma GivenStays(replies: seq<Reply>, added: seq<Reply>, id: RequestId, member: Member, message: string, instructions: seq<string>)
    ensures Given(replies, id, member, message, instructions) ==> Given(replies + added, id, member, message, instructions)
  {
    if Given(replies, id, member, message, instructions) {
      var j :| 0 <= j < |replies| && Says(replies[j], id, member, message, instructions);
      assert (replies + added)[j] == replies[j];
    }
  }

  lemma NewSent(before: seq<(RequestId, ChannelUpdate)>, after: seq<(RequestId, ChannelUpdate)>, replies: seq<Reply>, added: seq<Reply>)
    requires SentIsGiven(before, replies) && SentStep(before, after, added)
    ensures SentIsGiven(after, replies + added) && before <= after
  {
    MoreReplies(before, replies, added);
    if |added| == 1 {
      var r := added[0];
      assert (replies + added)[|replies|] == r;
      assert Says((replies + added)[|replies|], r.id, r.member, r.message, r.instructions);
      assert Given(replies + added, r.id, r.member, r.message, r.instructions);
    }
    hide Given;
  }

  /** Backing, once there, stays when more is sent and replied. */
  lemma StillBacked(
    x: Exchange, sent: seq<(RequestId, ChannelUpdate)>, added: seq<Reply>)
    requires Requests(x.requester.reg.outbound, x.asked, x.responder.sent)
    requires AllBacked(x.published, x.asked, x.responder.sent, x.replies) && x.responder.sent <= sent
    ensures Requests(x.requester.reg.outbound, x.asked, sent)
    ensures AllBacked(x.published, x.asked, sent, x.replies + added)
  {
    forall u: RequestId | (u, IdleUpdate) in x.responder.sent ensures (u, IdleUpdate) in sent {}
    forall j | 0 <= j < |x.published| ensures Backed(x.published[j], x.asked, sent, x.replies + added) {
      var u := x.published[j];
      hide Given;
      assert Backed(u, x.asked, x.responder.sent, x.replies);
      if u.Response? {
        GivenStays(x.replies, added, u.requestId, u.member, u.message, u.instructions);
      }
    }
  }

  /** A request that leaves the responder may be replied to; nothing else gains a reply. */
  lemma RepliesKeepPlaces(
    asked: map<RequestId, Question>, foreign: set<RequestId>, travelling: map<RequestId, Question>,
    before: map<RequestId, Inbound>, after: map<RequestId, Inbound>, replies: seq<Reply>, added: seq<Reply>)
    requires OnePlace(asked, foreign, travelling, before, replies) && Answering(asked, foreign, replies)
    requires Fewer(before, after) && |added| <= 1
    requires added != [] ==>
      var id := added[0].id;
      id in before && id !in after && added[0].question == Question(before[id].message, before[id].instructions)
    ensures OnePlace(asked, foreign, travelling, after, replies + added)
    ensures Answering(asked, foreign, replies + added)
  {
    forall id | Replied(replies + added, id) ensures Replied(replies, id) || (added != [] && id == added[0].id) {
      var j :| 0 <= j < |replies + added| && (replies + added)[j].id == id;
    }
    if added != [] {
      assert !Replied(replies, added[0].id);
      forall j | 0 <= j < |replies| ensures replies[j].id != added[0].id {}
    }
  }

  lemma AtResponderKeepsInv(x: Exchange, e: Event)
    requires ExchangeInv(x) && e.AtResponder? && Allowed(x, e)
    ensures ExchangeInv(Happen(x, e))
  {
    hide OnePlace, Answering, SentIsGiven, Requests, AllBacked, Next, ReplyOf, Fewer, SentStep, Possible;
    var f, f', added := x.responder, Next(x.responder, e.step).0, ReplyOf(x.responder, e.step);
    EveryResponderStep(f, e.step);
    NewSent(f.sent, f'.sent, x.replies, added);
    StillBacked(x, f'.sent, added);
    RepliesKeepPlaces(x.asked, x.foreign, x.travelling, f.reg.inbound, f'.reg.inbound, x.replies, added);
  }

  /** An arriving request is registered with its question, or refused; either way it no longer travels. */
  lemma Registration(f: Flow, id: RequestId, requester: Member, question: Question)
    ensures
      var step := InboundRegistered(id, requester, question.message, question.instructions);
      var f' := Next(f, step).0;
      && f'.sent == f.sent && ReplyOf(f, step) == [] && Possible(f, step)
      && (forall other | other in f'.reg.inbound ::
            if other == id && id !in f.reg.inbound
            then Question(f'.reg.inbound[id].message, f'.reg.inbound[id].instructions) == question
            else other in f.reg.inbound && f'.reg.inbound[other] == f.reg.inbound[other])
  {
    hide ValidRequestId;
  }

  lemma ArrivalKeepsPlaces(
    asked: map<RequestId, Question>, foreign: set<RequestId>, travelling: map<RequestId, Question>,
    before: map<RequestId, Inbound>, after: map<RequestId, Inbound>, replies: seq<Reply>, id: RequestId, question: Question)
    requires OnePlace(asked, foreign, travelling, before, replies) && !Replied(replies, id) && id !in before
    requires if id in asked then id !in foreign && asked[id] == question else id in foreign && id !in travelling
    requires forall other | other in after ::
      if other == id then Question(after[id].message, after[id].instructions) == question
      else other in before && after[other] == before[other]
    ensures OnePlace(asked, foreign, travelling - {id}, after, replies)
  {
    hide Replied;
  }

  lemma ArrivalKeepsInv(x: Exchange, e: Event)
    requires ExchangeInv(x) && e.RequestArrives? && Allowed(x, e)
    ensures ExchangeInv(Happen(x, e))
  {
    hide Answering, SentIsGiven, Requests, AllBacked, Next, ReplyOf, Possible, Replied;
    var question := x.travelling[e.id];
    Registration(x.responder, e.id, e.requester, question);
    var f' := Next(x.responder, InboundRegistered(e.id, e.requester, question.message, question.instructions)).0;
    ArrivalKeepsPlaces(x.asked, x.foreign, x.travelling, x.responder.reg.inbound, f'.reg.inbound, x.replies, e.id, question);
    hide OnePlace;
    assert Happen(x, e) == x.(responder := f', travelling := x.travelling - {e.id});
  }

  lemma MoreForeign(x: Exchange, id: RequestId)
    requires ExchangeInv(x) && id !in x.asked && id !in x.foreign
    ensures OnePlace(x.asked, x.foreign + {id}, x.travelling, x.responder.reg.inbound, x.replies)
    ensures Answering(x.asked, x.foreign + {id}, x.replies)
    ensures !Replied(x.replies, id) && id !in x.responder.reg.inbound && id !in x.travelling
  {
    hide SentIsGiven, Requests, AllBacked;
  }

  lemma OthersKeepInv(x: Exchange, e: Event)
    requires ExchangeInv(x) && e.OthersRequestArrives? && Allowed(x, e)
    ensures ExchangeInv(Happen(x, e))
  {
    hide Answering, SentIsGiven, Requests, AllBacked, Next, ReplyOf, Possible, Replied;
    Registration(x.responder, e.id, e.requester, e.question);
    var f' := Next(x.responder, InboundRegistered(e.id, e.requester, e.question.message, e.question.instructions)).0;
    MoreForeign(x, e.id);
    ArrivalKeepsPlaces(x.asked, x.foreign + {e.id}, x.travelling, x.responder.reg.inbound, f'.reg.inbound, x.replies, e.id, e.question);
    hide OnePlace;
    assert x.travelling - {e.id} == x.travelling;
    assert Happen(x, e) == x.(responder := f', foreign := x.foreign + {e.id});
  }

  lemma LossKeepsInv(x: Exchange, e: Event)
    requires ExchangeInv(x) && e.RequestIsLost? && Allowed(x, e)
    ensures ExchangeInv(Happen(x, e))
  {
    hide Answering, SentIsGiven, Requests, AllBacked, Replied;
  }

  lemma HappenKeepsInv(x: Exchange, e: Event)
    requires ExchangeInv(x) && Allowed(x, e)
    ensures ExchangeInv(Happen(x, e))
  {
    hide ExchangeInv, Happen, Allowed;
    match e
    case Ask(_, _, _, _, _) => AskKeepsInv(x, e);
    case RequestArrives(_, _) => ArrivalKeepsInv(x, e);
    case RequestIsLost(_) => LossKeepsInv(x, e);
    case OthersRequestArrives(_, _, _) => OthersKeepInv(x, e);
    case UpdateIsDelivered(_) => RequesterKeepsInv(x, e);
    case AtRequester(_) => RequesterKeepsInv(x, e);
    case AtResponder(_) => AtResponderKeepsInv(x, e);
  }

  // ---------------------------------------------------------------- over whole runs

  /** The states of an exchange as its events happen one after the other. */
  ghost predicate Course(states: seq<Exchange>, events: seq<Event>, here: int, there: int) {
    && |states| == |events| + 1 && states[0] == Initially(here, there)
    && (forall n | 0 <= n < |events| :: Allowed(states[n], events[n]) && states[n + 1] == Happen(states[n], events[n]))
  }

  lemma {:induction false} CoursesKeepInv(states: seq<Exchange>, events: seq<Event>, here: int, there: int, n: nat)
    requires Course(states, events, here, there) && n < |states|
    ensures ExchangeInv(states[n])
  {
    hide ExchangeInv, Allowed, Happen;
    if n == 0 {
      InitiallyInv(here, there);
    } else {
      CoursesKeepInv(states, events, here, there, n - 1);
      assert Allowed(states[n - 1], events[n - 1]);
      HappenKeepsInv(states[n - 1], events[n - 1]);
    }
  }

  /**
   * A response the requester publishes is the one reply its responder ever gave to that
   * request, word for word, and it was given to the question that was asked.
   */
  lemma ResponsesAreTheOneReply(states: seq<Exchange>, events: seq<Event>, here: int, there: int, n: nat, j: nat)
    requires Course(states, events, here, there) && n < |states|
    requires j < |states[n].published| && states[n].published[j].Response?
    ensures
      var u, x := states[n].published[j], states[n];
      && u.requestId in x.asked
      && exists k :: 0 <= k < |x.replies|
           && x.replies[k] == Reply(u.requestId, x.asked[u.requestId], u.member, u.message, u.instructions)
           && forall i | 0 <= i < |x.replies| :: x.replies[i].id == u.requestId ==> i == k
  {
    hide Course;
    CoursesKeepInv(states, events, here, there, n);
    OneReply(states[n], j);
  }

  lemma OneReply(x: Exchange, j: nat)
    requires ExchangeInv(x) && j < |x.published| && x.published[j].Response?
    ensures
      var u := x.published[j];
      && u.requestId in x.asked
      && exists k :: 0 <= k < |x.replies|
           && x.replies[k] == Reply(u.requestId, x.asked[u.requestId], u.member, u.message, u.instructions)
           && forall i | 0 <= i < |x.replies| :: x.replies[i].id == u.requestId ==> i == k
  {
    hide OnePlace, SentIsGiven, Requests;
    var u := x.published[j];
    assert Backed(u, x.asked, x.responder.sent, x.replies);
    var k :| 0 <= k < |x.replies| && Says(x.replies[k], u.requestId, u.member, u.message, u.instructions);
    assert x.replies[k] == Reply(u.requestId, x.asked[u.requestId], u.member, u.message, u.instructions);
  }

  /** Whatever a respond that succeeds selects, explicitly or as the only choice, has no reply yet: a second one fails. */
  lemma SecondRespondFails(
    states: seq<Exchange>, events: seq<Event>, here: int, there: int, n: nat,
    select: Option<RequestId>, member: Member, message: string, instructions: seq<string>)
    requires Course(states, events, here, there) && n < |states|
    ensures
      var answer := RespondStart(states[n].responder, select, member, message, instructions).1;
      && (answer.Ok? ==> !Replied(states[n].replies, answer.value))
      && (select.Some? && Replied(states[n].replies, select.value) ==> answer.Err?)
  {
    hide Course;
    CoursesKeepInv(states, events, here, there, n);
    UnrepliedIsHeld(states[n]);
    hide ExchangeInv, LastN, Replied;
  }

  lemma UnrepliedIsHeld(x: Exchange)
    requires ExchangeInv(x)
    ensures forall id | id in x.responder.reg.inbound :: !Replied(x.replies, id)
  {
    hide Answering, SentIsGiven, Requests, AllBacked, Replied;
  }

  /** A request is announced as still pending only after its responder reported that it went idle on it. */
  lemma NoticesFollowIdleReports(states: seq<Exchange>, events: seq<Event>, here: int, there: int, n: nat, j: nat)
    requires Course(states, events, here, there) && n < |states|
    requires j < |states[n].published| && states[n].published[j].Pending?
    ensures (states[n].published[j].requestId, IdleUpdate) in states[n].responder.sent
  {
    hide Course;
    CoursesKeepInv(states, events, here, there, n);
    hide OnePlace, Answering, SentIsGiven, Requests;
    assert Backed(states[n].published[j], states[n].asked, states[n].responder.sent, states[n].replies);
  }
}
