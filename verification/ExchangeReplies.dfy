/** That answers get through: the converse of what the exchange promises never to make up. */
module ExchangeReplies {
  import opened Wrappers
  import opened MemberRequest
  import opened RegistryHistory
  import opened IdealRegistry
  import opened RegistryEndings
  import opened MemberRequestFlow
  import FlowSteps
  import opened FlowEndings
  import opened RequestExchange

  /** The one request a respond may be about: named, or the only one there is. */
  predicate Means(inbound: map<RequestId, Inbound>, select: Option<RequestId>, id: RequestId) {
    id in inbound && (select == Some(id) || (select.None? && forall other | other in inbound :: other == id))
  }

  lemma MeantIsSelected(r: Registry, select: Option<RequestId>, id: RequestId)
    ensures Means(r.inbound, select, id) <==> SelectInbound(r, select) == Ok(id) && id in r.inbound
  {
    SelectsIff(r, select);
    hide SelectInbound;
  }

  /**
   * A respond that means a live request succeeds, however many others are live: the request is
   * closed, the answer recorded as its reply, and sent on its channel if that is still there.
   */
  lemma MeantIsAnswered(x: Exchange, id: RequestId, select: Option<RequestId>, member: Member, message: string, instructions: seq<string>)
    requires Means(x.responder.reg.inbound, select, id)
    ensures
      var step := ResponseStarted(select, member, message, instructions);
      var question := Question(x.responder.reg.inbound[id].message, x.responder.reg.inbound[id].instructions);
      var after := Happen(x, AtResponder(step));
      && RespondStart(x.responder, select, member, message, instructions).1 == Ok(id)
      && after.replies == x.replies + [RequestExchange.Reply.Reply(id, question, member, message, instructions)]
      && after.responder.reg.inbound == x.responder.reg.inbound - {id}
      && after.responder.sent ==
           x.responder.sent + (if id in x.responder.channels then [(id, ResponseUpdate(member, message, instructions))] else [])
      && after.requester == x.requester && after.published == x.published
  {
    hide SelectInbound, LastN, Means;
    MeantIsSelected(x.responder.reg, select, id);
  }

  /** And one that means none fails and does nothing. */
  lemma NobodyIsMeant(f: Flow, select: Option<RequestId>, member: Member, message: string, instructions: seq<string>)
    requires forall id | id in f.reg.inbound :: !Means(f.reg.inbound, select, id)
    ensures
      var answer := RespondStart(f, select, member, message, instructions);
      answer.1.Err? && answer.0 == f
  {
    hide SelectInbound, LastN, Means;
    SelectsIff(f.reg, select);
    if SelectInbound(f.reg, select).Ok? { MeantIsSelected(f.reg, select, SelectInbound(f.reg, select).value); }
  }

  lemma TerminatePublishes(r: Registry, u: Outcome)
    ensures Terminate(r, u).out.published == [u]
  {
    hide Without, Only, Updates, LastN;
  }

  lemma UpdatePublishes(f: Flow, id: RequestId, u: ChannelUpdate)
    ensures UpdateArrives(f, id, u).1.published == UpdateBrings(f.reg.outbound, f.now, id, u)
  {
    hide Terminate, KeysOf, IdleArrives;
    if id in f.reg.outbound {
      TerminatePublishes(f.reg, Offline(id, f.reg.outbound[id].member));
      TerminatePublishes(f.reg, Timeout(id, f.reg.outbound[id].member));
      if u.ResponseUpdate? {
        TerminatePublishes(f.reg, Response(id, RequestAge(f.reg.outbound[id], Some(f.now)), u.member, u.message, u.instructions));
      }
    }
  }

  /** Whatever update is delivered brings the requester just what it says about a request still live there. */
  lemma DeliveryBrings(x: Exchange, k: nat)
    requires k < |x.responder.sent|
    ensures
      Happen(x, UpdateIsDelivered(k)).published ==
        x.published + UpdateBrings(x.requester.reg.outbound, x.requester.now, x.responder.sent[k].0, x.responder.sent[k].1)
  {
    hide UpdateArrives, UpdateBrings;
    UpdatePublishes(x.requester, x.responder.sent[k].0, x.responder.sent[k].1);
  }

  lemma IsPrefix<T>(a: seq<T>, b: seq<T>)
    ensures a <= a + b && a <= a
  {
  }

  lemma ResponderOnlyAdds(f: Flow, step: Step)
    requires Possible(f, step)
    ensures f.sent <= Next(f, step).0.sent
  {
    hide Next;
    if step.InboundRegistered? {
      RegisteringSendsNothing(f, step);
    } else {
      EveryResponderStep(f, step);
      hide Fewer, Replied;
    }
  }

  lemma RegisteringSendsNothing(f: Flow, step: Step)
    requires step.InboundRegistered?
    ensures Next(f, step).0.sent == f.sent
  {
    hide RegisterInbound;
  }

  /** What the responder sent stays to be delivered. */
  lemma SentStays(x: Exchange, e: Event)
    requires Allowed(x, e)
    ensures x.responder.sent <= Happen(x, e).responder.sent
  {
    hide Next, ReplyOf;
    match e
    case RequestArrives(id, requester) =>
      ResponderOnlyAdds(x.responder, InboundRegistered(id, requester, x.travelling[id].message, x.travelling[id].instructions));
    case OthersRequestArrives(id, requester, question) =>
      ResponderOnlyAdds(x.responder, InboundRegistered(id, requester, question.message, question.instructions));
    case AtResponder(step) => ResponderOnlyAdds(x.responder, step);
    case _ =>
  }

  lemma {:induction false} SentStaysOn(states: seq<Exchange>, events: seq<Event>, here: int, there: int, i: nat, n: nat)
    requires Course(states, events, here, there) && i <= n < |states|
    ensures states[i].responder.sent <= states[n].responder.sent
  {
    hide Allowed, Happen;
    if i < n {
      SentStaysOn(states, events, here, there, i, n - 1);
      assert Allowed(states[n - 1], events[n - 1]);
      SentStays(states[n - 1], events[n - 1]);
    }
  }

  /** The requester took the delivery: the outcome is the answer, word for word, and how long it took. */
  predicate Took(before: Exchange, after: Exchange, id: RequestId, member: Member, message: string, instructions: seq<string>) {
    && id in before.requester.reg.outbound
    && after.published == before.published +
         [Response(id, Age(before.requester.reg.outbound[id].acceptedAt, Some(before.requester.now)), member, message, instructions)]
  }

  /**
   * In every course: once a respond meant a request whose channel was there, its answer is
   * delivered at any later time exactly if the requester still holds the request as live and accepted.
   */
  lemma AnswersGetThroughIff(
    states: seq<Exchange>, events: seq<Event>, here: int, there: int, i: nat, n: nat,
    id: RequestId, select: Option<RequestId>, member: Member, message: string, instructions: seq<string>)
    requires Course(states, events, here, there) && i < n < |events|
    requires events[i] == AtResponder(ResponseStarted(select, member, message, instructions))
    requires Means(states[i].responder.reg.inbound, select, id) && id in states[i].responder.channels
    requires events[n] == UpdateIsDelivered(|states[i].responder.sent|)
    ensures
      var live := states[n].requester.reg.outbound;
      if id in live && live[id].accepted then Took(states[n], states[n + 1], id, member, message, instructions)
      else states[n + 1].published == states[n].published
  {
    hide Means, Happen, Allowed;
    assert Allowed(states[n], events[n]) && states[n + 1] == Happen(states[n], events[n]);
    assert Allowed(states[i], events[i]) && states[i + 1] == Happen(states[i], events[i]);
    MeantIsAnswered(states[i], id, select, member, message, instructions);
    SentStaysOn(states, events, here, there, i + 1, n);
    DeliveryBrings(states[n], |states[i].responder.sent|);
    assert states[n].responder.sent[|states[i].responder.sent|] == (id, ResponseUpdate(member, message, instructions));
    assert states[n].published + [] == states[n].published;
  }

  /** A request that arrives is held with its question and its channel, unless the responder's registry refuses it; it is travelling no more. */
  lemma ArrivalIsHeldIff(x: Exchange, id: RequestId, requester: Member)
    requires id in x.travelling
    ensures
      var q := x.travelling[id];
      var refused := RegisterInbound(x.responder.reg, id, requester, q.message, q.instructions).result.Err?;
      var after := Happen(x, RequestArrives(id, requester));
      && after.travelling == x.travelling - {id}
      && (refused ==> after.responder == x.responder)
      && (!refused ==>
            && after.responder.reg.inbound == x.responder.reg.inbound[id := Inbound(requester, q.message, q.instructions, false, false, None)]
            && after.responder.channels == x.responder.channels[id := Peer])
  {
    hide ValidRequestId;
  }
}
