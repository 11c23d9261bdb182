/**
 * What the registry is for, without its bookkeeping: live requests, the last ended ids, a box of
 * outcomes in order, and who waits. There is no bound on the box, no numbering, no sorting, no
 * set of callbacks still to run, and no way to lose an outcome. The registry behaves exactly so.
 */
module IdealRegistry {
  import opened Wrappers
  import opened Text
  import opened MemberRequest

  datatype Ideal = Ideal(
    live: map<RequestId, Outbound>,
    asked: map<RequestId, Inbound>,
    ended: seq<RequestId>,
    answered: seq<RequestId>,
    known: set<RequestId>,
    box: seq<Outcome>,
    general: Option<Waiter>,
    exact: map<RequestId, Waiter>,
    next: Waiter)

  /** What a caller gets back, and what it causes. */
  datatype Reply = Reply(refused: Option<FailureCode>, published: seq<Outcome>, delivered: seq<Delivery>)

  const NOTHING := Reply(None, [], [])

  // ---------------------------------------------------------------- outcomes

  /** How long after its acceptance a request was answered, where both instants are proper and in order. */
  function Age(acceptedAt: Option<int>, receivedAt: Option<int>): Option<nat> {
    if acceptedAt.Some? && receivedAt.Some? && 0 <= acceptedAt.value <= receivedAt.value <= 0x1F_FFFF_FFFF_FFFF
    then Some(receivedAt.value - acceptedAt.value) else None
  }

  /** The outcome an operation publishes, told by its kind and the request's record. */
  function Outgoing(i: Ideal, op: Op): Option<Outcome> {
    match op
    case DoResolveResponse(id, member, message, instructions, at) =>
      if id in i.live && i.live[id].accepted then Some(Response(id, Age(i.live[id].acceptedAt, at), member, message, instructions)) else None
    case DoResolveOffline(id) => if id in i.live then Some(Offline(id, i.live[id].member)) else None
    case DoResolveTimeout(id) => if id in i.live then Some(Timeout(id, i.live[id].member)) else None
    case DoResolvePending(id) =>
      if id in i.live && i.live[id].accepted && i.live[id].idleArmed && !i.live[id].pendingPublished
      then Some(Pending(id, i.live[id].member)) else None
    case _ => None
  }

  /** The box without a request's outcomes. */
  function Others(box: seq<Outcome>, id: RequestId): seq<Outcome> {
    if box == [] then [] else (if box[0].requestId == id then [] else [box[0]]) + Others(box[1..], id)
  }

  /** An outcome goes to who waits for it, else to who waits for any, else into the box; an ending replaces a notice there. */
  function Give(i: Ideal, u: Outcome): (Ideal, seq<Delivery>) {
    var box := if u.Pending? then i.box else Others(i.box, u.requestId);
    if u.requestId in i.exact then (i.(box := box, exact := i.exact - {u.requestId}), [Delivery(i.exact[u.requestId], u)])
    else if i.general.Some? then (i.(box := box, general := None), [Delivery(i.general.value, u)])
    else (i.(box := box + [u]), [])
  }

  /** The last of the ended ids. */
  function Last64(ids: seq<RequestId>): seq<RequestId> {
    if |ids| > 64 then ids[|ids| - 64..] else ids
  }

  // ---------------------------------------------------------------- who may ask

  predicate Whole(seconds: real, least: real, most: real) {
    seconds.Floor as real == seconds && least <= seconds <= most
  }

  predicate IsKnown(i: Ideal, id: RequestId) {
    id in i.live || id in i.asked || id in i.ended
  }

  function FirstOf(box: seq<Outcome>, id: RequestId): Option<Outcome> {
    if box == [] then None else if box[0].requestId == id then Some(box[0]) else FirstOf(box[1..], id)
  }

  function WithoutFirst(box: seq<Outcome>, id: RequestId): seq<Outcome> {
    if box == [] then [] else if box[0].requestId == id then box[1..] else [box[0]] + WithoutFirst(box[1..], id)
  }

  function Dead(i: Ideal, id: RequestId): FailureCode {
    if id in i.ended then AlreadyTerminal else UnknownRequest
  }

  /** Why an operation is refused, if it is. */
  function Refused(i: Ideal, op: Op): Option<FailureCode> {
    match op
    case DoRegisterOutbound(id, _, _, timeout, maxWait) =>
      var grace, hard := timeout.GetOr(120.0), maxWait.GetOr(1800.0);
      if !ValidRequestId(id) then Some(InvalidRequestId)
      else if !Whole(grace, 1.0, 600.0) then Some(InvalidTimeout)
      else if !Whole(hard, 60.0, 7200.0) || hard <= grace then Some(InvalidMaxWait)
      else if IsKnown(i, id) then Some(DuplicateRequest)
      else if |i.live| >= 8 then Some(OutboundCapacity)
      else if |i.box| + |i.live| >= 64 then Some(BufferCapacity)
      else None
    case DoRegisterInbound(id, _, _, _) =>
      if !ValidRequestId(id) then Some(InvalidRequestId)
      else if IsKnown(i, id) then Some(DuplicateRequest)
      else if |i.asked| >= 8 then Some(InboundCapacity)
      else None
    case DoAcceptOutbound(id, _) => if id in i.live then None else Some(UnknownRequest)
    case DoAcceptInbound(id) => if id in i.asked then None else Some(UnknownRequest)
    case DoArmOutboundIdle(id, _) => if id in i.live && i.live[id].accepted then None else Some(UnknownRequest)
    case DoArmInboundIdle(id, _) => if id in i.asked && i.asked[id].accepted then None else Some(UnknownRequest)
    case DoFailBeforeAcceptance(id) =>
      if (id in i.live && !i.live[id].accepted) || (id in i.asked && !i.asked[id].accepted) then None else Some(UnknownRequest)
    case DoCloseOutcomeUnknown(id) => if id in i.live || id in i.asked then None else Some(UnknownRequest)
    case DoResolveResponse(id, _, _, _, _) =>
      if id !in i.live then Some(Dead(i, id)) else if !i.live[id].accepted then Some(UnknownRequest) else None
    case DoResolveOffline(id) => if id in i.live then None else Some(Dead(i, id))
    case DoResolveTimeout(id) => if id in i.live then None else Some(Dead(i, id))
    case DoResolvePending(id) =>
      if id !in i.live then Some(Dead(i, id))
      else if !i.live[id].accepted || !i.live[id].idleArmed then Some(UnknownRequest)
      else if i.live[id].pendingPublished then Some(AlreadyPending)
      else None
    case DoResolveInboundResponse(id) =>
      if id in i.asked then None else Some(if id in i.known then AlreadyTerminal else ResponseExpired)
    case DoResolveInboundExpired(id) => if id in i.asked then None else Some(UnknownRequest)
    case DoWaitForRequest(id) =>
      if !ValidRequestId(id) then Some(InvalidRequestId)
      else if FirstOf(i.box, id).Some? then None
      else if id !in i.live then Some(if id in i.ended then OutcomeConsumed else UnknownRequest)
      else if id in i.exact || i.general.Some? then Some(AlreadyWaiting)
      else None
    case DoWaitForUpdate =>
      if i.box != [] then None
      else if i.live == map[] then Some(NoPendingRequests)
      else if i.general.Some? || i.exact != map[] then Some(AlreadyWaiting)
      else None
    case DoCancelGeneralWait(_) => None
    case DoCancelExactWait(_, _) => None
  }

  // ---------------------------------------------------------------- one operation

  /** The record of a request after an operation that concerns it and is not refused. */
  function Touched(q: Outbound, op: Op): Outbound {
    match op
    case DoAcceptOutbound(_, at) => if at.Some? then q.(accepted := true, acceptedAt := at) else q.(accepted := true)
    case DoArmOutboundIdle(_, at) =>
      if q.idleArmed then q else if at.Some? then q.(idleArmed := true, idleAt := at) else q.(idleArmed := true)
    case DoResolvePending(_) => q.(pendingPublished := true)
    case _ => q
  }

  function TouchedInbound(q: Inbound, op: Op): Inbound {
    match op
    case DoAcceptInbound(_) => q.(accepted := true)
    case DoArmInboundIdle(_, at) =>
      if q.idleArmed then q else if at.Some? then q.(idleArmed := true, idleAt := at) else q.(idleArmed := true)
    case _ => q
  }

  function Noted(i: Ideal, op: Op): Ideal {
    match op
    case DoRegisterOutbound(id, member, now, timeout, maxWait) =>
      var grace, hard := timeout.GetOr(120.0).Floor, maxWait.GetOr(1800.0).Floor;
      i.(live := i.live[id := Outbound(member, None, now + 1000 * hard, false, false, false, Seconds(grace), Seconds(hard), None)])
    case DoRegisterInbound(id, requester, message, instructions) =>
      i.(asked := i.asked[id := Inbound(requester, message, instructions, false, false, None)])
    case DoAcceptOutbound(id, _) => if id in i.live then i.(live := i.live[id := Touched(i.live[id], op)]) else i
    case DoArmOutboundIdle(id, _) => if id in i.live then i.(live := i.live[id := Touched(i.live[id], op)]) else i
    case DoResolvePending(id) => if id in i.live then i.(live := i.live[id := Touched(i.live[id], op)]) else i
    case DoAcceptInbound(id) => if id in i.asked then i.(asked := i.asked[id := TouchedInbound(i.asked[id], op)]) else i
    case DoArmInboundIdle(id, _) => if id in i.asked then i.(asked := i.asked[id := TouchedInbound(i.asked[id], op)]) else i
    case DoFailBeforeAcceptance(id) => if id in i.live && !i.live[id].accepted then i.(live := i.live - {id}) else i.(asked := i.asked - {id})
    case DoCloseOutcomeUnknown(id) => if id in i.live then i.(live := i.live - {id}) else i.(asked := i.asked - {id})
    case DoResolveResponse(id, _, _, _, _) => i.(live := i.live - {id}, ended := Last64(i.ended + [id]))
    case DoResolveOffline(id) => i.(live := i.live - {id}, ended := Last64(i.ended + [id]))
    case DoResolveTimeout(id) => i.(live := i.live - {id}, ended := Last64(i.ended + [id]))
    case DoResolveInboundExpired(id) => i.(asked := i.asked - {id})
    case DoResolveInboundResponse(id) =>
      var all := i.answered + [id];
      i.(asked := i.asked - {id}, answered := Last64(all),
         known := i.known + {id} - (set k | 0 <= k < |all| - 64 :: all[k]))
    case _ => i
  }

  function Seconds(n: int): nat {
    if n < 0 then 0 else n
  }

  /** A wait takes what is in the box, or parks; a cancelled one is not parked any more. */
  function Awaiting(i: Ideal, op: Op): (Ideal, seq<Delivery>) {
    match op
    case DoWaitForRequest(id) =>
      var u := FirstOf(i.box, id);
      if u.Some? then (i.(box := WithoutFirst(i.box, id), next := i.next + 1), [Delivery(i.next, u.value)])
      else (i.(exact := i.exact[id := i.next], next := i.next + 1), [])
    case DoWaitForUpdate =>
      if i.box != [] then (i.(box := i.box[1..], next := i.next + 1), [Delivery(i.next, i.box[0])])
      else (i.(general := Some(i.next), next := i.next + 1), [])
    case DoCancelGeneralWait(w) => (if i.general == Some(w) then i.(general := None) else i, [])
    case DoCancelExactWait(id, w) => (if id in i.exact && i.exact[id] == w then i.(exact := i.exact - {id}) else i, [])
    case _ => (i, [])
  }

  function Act(i: Ideal, op: Op): (Ideal, Reply) {
    if Refused(i, op).Some? then (i, Reply(Refused(i, op), [], []))
    else if Outgoing(i, op).Some? then
      var u := Outgoing(i, op).value;
      var given := Give(Noted(i, op), u);
      (given.0, Reply(None, [u], given.1))
    else
      var waited := Awaiting(Noted(i, op), op);
      (waited.0, Reply(None, [], waited.1))
  }
}
