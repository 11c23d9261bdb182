/**
 * The request outcome registry: two tables of live requests, a bounded window of
 * tombstones on either side, a bounded buffer of outcomes nobody waited for yet,
 * one general waiter and one waiter per request.
 *
 * Every operation is a function from a registry value to a registry value; class
 * `RequestOutcomeRegistry` in RequestOutcomeRegistry.dfy performs them in place.
 */
module MemberRequest {
  import opened Wrappers
  import opened Text
  import opened Sorting

  const MAX_OUTBOUND := 8
  const MAX_INBOUND := 8
  const MAX_BUFFERED := 64
  const MAX_REQUEST_ID_BYTES := 128
  const MAX_TOMBSTONES := 64
  const DEFAULT_TIMEOUT_SECONDS := 120.0
  const MAX_TIMEOUT_SECONDS := 600.0
  const DEFAULT_MAX_WAIT_SECONDS := 1800.0
  const MIN_MAX_WAIT_SECONDS := 60.0
  const MAX_MAX_WAIT_SECONDS := 7200.0
  const MAX_SAFE_INTEGER := 0x1F_FFFF_FFFF_FFFF

  type RequestId = string

  datatype FailureCode =
    | OutboundCapacity | InboundCapacity | BufferCapacity | InvalidRequestId | InvalidTimeout | InvalidMaxWait
    | DuplicateRequest | NoPendingRequest | AmbiguousRequest | UnknownRequest | AlreadyTerminal | AlreadyPending
    | ResponseExpired | OutcomeConsumed | AlreadyWaiting | NoPendingRequests

  datatype Member = Member(name: string, role: string)

  datatype Outcome =
    | Response(requestId: RequestId, requestAgeMs: Option<nat>, member: Member, message: string, instructions: seq<string>)
    | Offline(requestId: RequestId, member: Member)
    | Pending(requestId: RequestId, member: Member)
    | Timeout(requestId: RequestId, member: Member)

  datatype Outbound = Outbound(
    member: Member, acceptedAt: Option<int>, deadlineAt: int, accepted: bool, idleArmed: bool,
    pendingPublished: bool, timeoutSeconds: nat, maxWaitSeconds: nat, idleAt: Option<int>)

  datatype Inbound = Inbound(
    requester: Member, message: string, instructions: seq<string>, accepted: bool, idleArmed: bool, idleAt: Option<int>)

  datatype Buffered = Buffered(update: Outcome, sequence: nat)

  /**
   * A waiter is a callback that may run once. Each wait call makes a new one, here
   * named by a number; `active` holds those whose one run is still to come.
   */
  type Waiter = nat

  datatype Registry = Registry(
    outbound: map<RequestId, Outbound>,
    inbound: map<RequestId, Inbound>,
    order: map<RequestId, nat>,
    nextOrder: nat,
    terminal: set<RequestId>,
    tombstones: seq<RequestId>,
    inboundTerminal: set<RequestId>,
    inboundTombstones: seq<RequestId>,
    buffered: seq<Buffered>,
    sequence: nat,
    waiter: Option<Waiter>,
    exact: map<RequestId, Waiter>,
    active: set<Waiter>,
    nextWaiter: Waiter)

  const EMPTY := Registry(map[], map[], map[], 0, {}, [], {}, [], [], 0, None, map[], {}, 0)

  datatype Delivery = Delivery(waiter: Waiter, update: Outcome)

  /**
   * What one operation does to the outside: outcomes published, buffered outcomes
   * dropped because a terminal one replaces them, outcomes handed to a waiter, and
   * outcomes that reached nobody and nothing.
   */
  datatype Emission = Emission(
    published: seq<Outcome>, superseded: seq<Outcome>, delivered: seq<Delivery>, lost: seq<Outcome>)

  const SILENT := Emission([], [], [], [])

  datatype Answer<T> = Answer(reg: Registry, result: Result<T, FailureCode>, out: Emission)

  function Refuse<T>(r: Registry, code: FailureCode): Answer<T> {
    Answer(r, Err(code), SILENT)
  }

  predicate ValidRequestId(id: RequestId) {
    Trim(id) == id && id != [] && ByteLength(id) <= MAX_REQUEST_ID_BYTES
  }

  predicate IsInteger(x: real) {
    x == x.Floor as real
  }

  predicate ValidTimeout(seconds: real) {
    IsInteger(seconds) && 1.0 <= seconds <= MAX_TIMEOUT_SECONDS
  }

  predicate ValidMaxWait(seconds: real, timeout: real) {
    IsInteger(seconds) && MIN_MAX_WAIT_SECONDS <= seconds <= MAX_MAX_WAIT_SECONDS && timeout < seconds
  }

  predicate Known(r: Registry, id: RequestId) {
    id in r.outbound || id in r.inbound || id in r.terminal
  }

  function RegisterOutbound(
    r: Registry, id: RequestId, member: Member, now: int, timeout: Option<real>, maxWait: Option<real>): Answer<Outbound>
  {
    var grace := timeout.GetOr(DEFAULT_TIMEOUT_SECONDS);
    var hard := maxWait.GetOr(DEFAULT_MAX_WAIT_SECONDS);
    if !ValidRequestId(id) then Refuse(r, InvalidRequestId)
    else if !ValidTimeout(grace) then Refuse(r, InvalidTimeout)
    else if !ValidMaxWait(hard, grace) then Refuse(r, InvalidMaxWait)
    else if Known(r, id) then Refuse(r, DuplicateRequest)
    else if |r.outbound| >= MAX_OUTBOUND then Refuse(r, OutboundCapacity)
    else if |r.buffered| + |r.outbound| >= MAX_BUFFERED then Refuse(r, BufferCapacity)
    else
      var request := Outbound(member, None, now + hard.Floor * 1000, false, false, false, grace.Floor, hard.Floor, None);
      Answer(
        r.(outbound := r.outbound[id := request], order := r.order[id := r.nextOrder], nextOrder := r.nextOrder + 1),
        Ok(request), SILENT)
  }

  function RegisterInbound(
    r: Registry, id: RequestId, requester: Member, message: string, instructions: seq<string>): Answer<Inbound>
  {
    if !ValidRequestId(id) then Refuse(r, InvalidRequestId)
    else if Known(r, id) then Refuse(r, DuplicateRequest)
    else if |r.inbound| >= MAX_INBOUND then Refuse(r, InboundCapacity)
    else
      var request := Inbound(requester, message, instructions, false, false, None);
      Answer(
        r.(inbound := r.inbound[id := request], order := r.order[id := r.nextOrder], nextOrder := r.nextOrder + 1),
        Ok(request), SILENT)
  }

  function UpdateOutbound(r: Registry, id: RequestId, request: Outbound): Answer<Outbound> {
    Answer(r.(outbound := r.outbound[id := request]), Ok(request), SILENT)
  }

  function UpdateInbound(r: Registry, id: RequestId, request: Inbound): Answer<Inbound> {
    Answer(r.(inbound := r.inbound[id := request]), Ok(request), SILENT)
  }

  function AcceptOutbound(r: Registry, id: RequestId, acceptedAt: Option<int>): Answer<Outbound> {
    if id !in r.outbound then Refuse(r, UnknownRequest)
    else
      var request := r.outbound[id].(accepted := true);
      UpdateOutbound(r, id, if acceptedAt.Some? then request.(acceptedAt := acceptedAt) else request)
  }

  function AcceptInbound(r: Registry, id: RequestId): Answer<Inbound> {
    if id !in r.inbound then Refuse(r, UnknownRequest)
    else UpdateInbound(r, id, r.inbound[id].(accepted := true))
  }

  function ArmOutboundIdle(r: Registry, id: RequestId, now: Option<int>): Answer<Outbound> {
    if id !in r.outbound || !r.outbound[id].accepted then Refuse(r, UnknownRequest)
    else if r.outbound[id].idleArmed then Answer(r, Ok(r.outbound[id]), SILENT)
    else
      var request := r.outbound[id].(idleArmed := true);
      UpdateOutbound(r, id, if now.Some? then request.(idleAt := now) else request)
  }

  function ArmInboundIdle(r: Registry, id: RequestId, now: Option<int>): Answer<Inbound> {
    if id !in r.inbound || !r.inbound[id].accepted then Refuse(r, UnknownRequest)
    else if r.inbound[id].idleArmed then Answer(r, Ok(r.inbound[id]), SILENT)
    else
      var request := r.inbound[id].(idleArmed := true);
      UpdateInbound(r, id, if now.Some? then request.(idleAt := now) else request)
  }

  function DropOutbound(r: Registry, id: RequestId): Registry {
    r.(outbound := r.outbound - {id}, order := r.order - {id})
  }

  function DropInbound(r: Registry, id: RequestId): Registry {
    r.(inbound := r.inbound - {id}, order := r.order - {id})
  }

  function FailBeforeAcceptance(r: Registry, id: RequestId): Answer<()> {
    if id in r.outbound && !r.outbound[id].accepted then Answer(DropOutbound(r, id), Ok(()), SILENT)
    else if id in r.inbound && !r.inbound[id].accepted then Answer(DropInbound(r, id), Ok(()), SILENT)
    else Refuse(r, UnknownRequest)
  }

  function CloseOutcomeUnknown(r: Registry, id: RequestId): Answer<()> {
    if id in r.outbound then Answer(DropOutbound(r, id), Ok(()), SILENT)
    else if id in r.inbound then Answer(DropInbound(r, id), Ok(()), SILENT)
    else Refuse(r, UnknownRequest)
  }

  predicate EpochMilliseconds(instant: int) {
    0 <= instant <= MAX_SAFE_INTEGER
  }

  function ElapsedMilliseconds(sentAt: int, deliveredAt: int): Option<nat> {
    if !EpochMilliseconds(sentAt) || !EpochMilliseconds(deliveredAt) || deliveredAt < sentAt then None
    else Some(deliveredAt - sentAt)
  }

  function RequestAge(request: Outbound, receivedAt: Option<int>): Option<nat> {
    if receivedAt.None? || request.acceptedAt.None? then None
    else ElapsedMilliseconds(request.acceptedAt.value, receivedAt.value)
  }

  /** The most recent `n` elements: what a window of bounded length keeps. */
  function LastN<T>(s: seq<T>, n: nat): seq<T> {
    if |s| <= n then s else s[|s| - n..]
  }

  function SetTerminal(r: Registry, id: RequestId): Registry {
    var pushed := r.tombstones + [id];
    var evicted := pushed[..|pushed| - |LastN(pushed, MAX_TOMBSTONES)|];
    r.(terminal := r.terminal + {id} - (set e | e in evicted), tombstones := LastN(pushed, MAX_TOMBSTONES))
  }

  function SetInboundTerminal(r: Registry, id: RequestId): Registry {
    var pushed := r.inboundTombstones + [id];
    var evicted := pushed[..|pushed| - |LastN(pushed, MAX_TOMBSTONES)|];
    r.(inboundTerminal := r.inboundTerminal + {id} - (set e | e in evicted),
       inboundTombstones := LastN(pushed, MAX_TOMBSTONES))
  }

  function Updates(b: seq<Buffered>): seq<Outcome> {
    seq(|b|, i requires 0 <= i < |b| => b[i].update)
  }

  function Without(b: seq<Buffered>, id: RequestId): seq<Buffered> {
    if b == [] then []
    else (if b[0].update.requestId == id then [] else [b[0]]) + Without(b[1..], id)
  }

  function Only(b: seq<Buffered>, id: RequestId): seq<Buffered> {
    if b == [] then []
    else (if b[0].update.requestId == id then [b[0]] else []) + Only(b[1..], id)
  }

  const InSequence: Buffered -> int := (x: Buffered) => x.sequence

  /**
   * Hand an outcome to the waiter of its request, else to the general waiter, else
   * to the buffer. A terminal outcome first removes what is buffered for its request.
   */
  function Publish(r: Registry, u: Outcome): (p: (Registry, Emission)) {
    var kept := if u.Pending? then r.buffered else Without(r.buffered, u.requestId);
    var gone := if u.Pending? then [] else Updates(Only(r.buffered, u.requestId));
    var cleared := r.(buffered := kept);
    var out := Emission([u], gone, [], []);
    if u.requestId in r.exact then
      var w := r.exact[u.requestId];
      if w in r.active then
        (cleared.(exact := r.exact - {u.requestId}, active := r.active - {w}), out.(delivered := [Delivery(w, u)]))
      else (cleared, out.(lost := [u]))
    else if r.waiter.Some? then
      var w := r.waiter.value;
      if w in r.active then
        (cleared.(waiter := None, active := r.active - {w}), out.(delivered := [Delivery(w, u)]))
      else (cleared.(waiter := None), out.(lost := [u]))
    else if |kept| >= MAX_BUFFERED then (cleared, out.(lost := [u]))
    else
      (cleared.(buffered := Sorted(kept + [Buffered(u, r.sequence)], InSequence), sequence := r.sequence + 1), out)
  }

  /** The shared tail of every terminal transition. */
  function Terminate(r: Registry, u: Outcome): Answer<Outcome> {
    var (reg, out) := Publish(SetTerminal(DropOutbound(r, u.requestId), u.requestId), u);
    Answer(reg, Ok(u), out)
  }

  function DeadCode(r: Registry, id: RequestId): FailureCode {
    if id in r.terminal then AlreadyTerminal else UnknownRequest
  }

  function ResolveResponse(
    r: Registry, id: RequestId, member: Member, message: string, instructions: seq<string>, receivedAt: Option<int>): Answer<Outcome>
  {
    if id !in r.outbound then Refuse(r, DeadCode(r, id))
    else if !r.outbound[id].accepted then Refuse(r, UnknownRequest)
    else Terminate(r, Response(id, RequestAge(r.outbound[id], receivedAt), member, message, instructions))
  }

  function ResolveOffline(r: Registry, id: RequestId): Answer<Outcome> {
    if id !in r.outbound then Refuse(r, DeadCode(r, id)) else Terminate(r, Offline(id, r.outbound[id].member))
  }

  function ResolveTimeout(r: Registry, id: RequestId): Answer<Outcome> {
    if id !in r.outbound then Refuse(r, DeadCode(r, id)) else Terminate(r, Timeout(id, r.outbound[id].member))
  }

  function ResolvePendingAfterIdle(r: Registry, id: RequestId): Answer<Outcome> {
    if id !in r.outbound then Refuse(r, DeadCode(r, id))
    else
      var request := r.outbound[id];
      if !request.accepted || !request.idleArmed then Refuse(r, UnknownRequest)
      else if request.pendingPublished then Refuse(r, AlreadyPending)
      else
        var u := Pending(id, request.member);
        var (reg, out) := Publish(r.(outbound := r.outbound[id := request.(pendingPublished := true)]), u);
        Answer(reg, Ok(u), out)
  }

  function SelectInbound(r: Registry, id: Option<RequestId>): Result<RequestId, FailureCode> {
    if id.Some? then
      if id.value in r.inbound then Ok(id.value)
      else if id.value in r.inboundTerminal then Err(AlreadyTerminal)
      else Err(UnknownRequest)
    else if |r.inbound| == 0 then Err(NoPendingRequest)
    else if |r.inbound| > 1 then Err(AmbiguousRequest)
    else
      OneKeyIsTheOnlyKey(r.inbound);
      var only :| only in r.inbound;
      Ok(only)
  }

  lemma OneKeyIsTheOnlyKey<K, V>(m: map<K, V>)
    requires |m| == 1
    ensures exists k :: k in m
    ensures forall k, j :: k in m && j in m ==> k == j
  {
    var k :| k in m;
    assert |m.Keys - {k}| == 0;
    assert forall j :: j in m ==> j in m.Keys - {k} || j == k;
  }

  function ResolveInboundResponse(r: Registry, id: RequestId): Answer<Inbound> {
    if id !in r.inbound then Refuse(r, if id in r.inboundTerminal then AlreadyTerminal else ResponseExpired)
    else Answer(SetInboundTerminal(DropInbound(r, id), id), Ok(r.inbound[id]), SILENT)
  }

  function ResolveInboundExpired(r: Registry, id: RequestId): Answer<()> {
    if id !in r.inbound then Refuse(r, UnknownRequest) else Answer(DropInbound(r, id), Ok(()), SILENT)
  }

  datatype Wait = Update(update: Outcome) | Waiting(waiter: Waiter)

  /** Position of the first buffered outcome of a request. */
  function FirstIndex(b: seq<Buffered>, id: RequestId): (i: Option<nat>)
    ensures i.Some? ==> i.value < |b| && b[i.value].update.requestId == id
    ensures i.Some? ==> forall j | 0 <= j < i.value :: b[j].update.requestId != id
    ensures i.None? ==> forall j | 0 <= j < |b| :: b[j].update.requestId != id
  {
    if b == [] then None
    else if b[0].update.requestId == id then Some(0)
    else
      var rest := FirstIndex(b[1..], id);
      if rest.Some? then Some(rest.value + 1) else None
  }

  function TakeBuffered(r: Registry, index: nat): Answer<Wait>
    requires index < |r.buffered|
  {
    var u := r.buffered[index].update;
    Answer(
      r.(buffered := r.buffered[..index] + r.buffered[index + 1..], nextWaiter := r.nextWaiter + 1),
      Ok(Update(u)), SILENT.(delivered := [Delivery(r.nextWaiter, u)]))
  }

  function WaitForRequest(r: Registry, id: RequestId): Answer<Wait> {
    var index := FirstIndex(r.buffered, id);
    if !ValidRequestId(id) then Refuse(r, InvalidRequestId)
    else if index.Some? then TakeBuffered(r, index.value)
    else if id !in r.outbound then Refuse(r, if id in r.terminal then OutcomeConsumed else UnknownRequest)
    else if id in r.exact || r.waiter.Some? then Refuse(r, AlreadyWaiting)
    else
      Answer(
        r.(exact := r.exact[id := r.nextWaiter], active := r.active + {r.nextWaiter}, nextWaiter := r.nextWaiter + 1),
        Ok(Waiting(r.nextWaiter)), SILENT)
  }

  function WaitForUpdate(r: Registry): Answer<Wait> {
    if r.buffered != [] then TakeBuffered(r, 0)
    else if |r.outbound| == 0 then Refuse(r, NoPendingRequests)
    else if r.waiter.Some? || |r.exact| > 0 then Refuse(r, AlreadyWaiting)
    else
      Answer(
        r.(waiter := Some(r.nextWaiter), active := r.active + {r.nextWaiter}, nextWaiter := r.nextWaiter + 1),
        Ok(Waiting(r.nextWaiter)), SILENT)
  }

  /** The `cancel` handle of a general wait, and of a wait for one request. */
  function CancelGeneralWait(r: Registry, w: Waiter): Registry {
    if w !in r.active then r
    else r.(active := r.active - {w}, waiter := if r.waiter == Some(w) then None else r.waiter)
  }

  function CancelExactWait(r: Registry, id: RequestId, w: Waiter): Registry {
    if w !in r.active then r
    else r.(active := r.active - {w}, exact := if id in r.exact && r.exact[id] == w then r.exact - {id} else r.exact)
  }

  // ---------------------------------------------------------------- operations as data

  datatype Op =
    | DoRegisterOutbound(id: RequestId, member: Member, now: int, timeout: Option<real>, maxWait: Option<real>)
    | DoRegisterInbound(id: RequestId, requester: Member, message: string, instructions: seq<string>)
    | DoAcceptOutbound(id: RequestId, at: Option<int>)
    | DoAcceptInbound(id: RequestId)
    | DoArmOutboundIdle(id: RequestId, at: Option<int>)
    | DoArmInboundIdle(id: RequestId, at: Option<int>)
    | DoFailBeforeAcceptance(id: RequestId)
    | DoCloseOutcomeUnknown(id: RequestId)
    | DoResolveResponse(id: RequestId, member: Member, message: string, instructions: seq<string>, at: Option<int>)
    | DoResolveOffline(id: RequestId)
    | DoResolveTimeout(id: RequestId)
    | DoResolvePending(id: RequestId)
    | DoResolveInboundResponse(id: RequestId)
    | DoResolveInboundExpired(id: RequestId)
    | DoWaitForRequest(id: RequestId)
    | DoWaitForUpdate
    | DoCancelGeneralWait(w: Waiter)
    | DoCancelExactWait(id: RequestId, w: Waiter)

  function Effect<T>(a: Answer<T>): (Registry, Emission) {
    (a.reg, a.out)
  }

  function Apply(r: Registry, op: Op): (Registry, Emission) {
    match op
    case DoRegisterOutbound(id, member, now, timeout, maxWait) => Effect(RegisterOutbound(r, id, member, now, timeout, maxWait))
    case DoRegisterInbound(id, requester, message, instructions) => Effect(RegisterInbound(r, id, requester, message, instructions))
    case DoAcceptOutbound(id, at) => Effect(AcceptOutbound(r, id, at))
    case DoAcceptInbound(id) => Effect(AcceptInbound(r, id))
    case DoArmOutboundIdle(id, at) => Effect(ArmOutboundIdle(r, id, at))
    case DoArmInboundIdle(id, at) => Effect(ArmInboundIdle(r, id, at))
    case DoFailBeforeAcceptance(id) => Effect(FailBeforeAcceptance(r, id))
    case DoCloseOutcomeUnknown(id) => Effect(CloseOutcomeUnknown(r, id))
    case DoResolveResponse(id, member, message, instructions, at) => Effect(ResolveResponse(r, id, member, message, instructions, at))
    case DoResolveOffline(id) => Effect(ResolveOffline(r, id))
    case DoResolveTimeout(id) => Effect(ResolveTimeout(r, id))
    case DoResolvePending(id) => Effect(ResolvePendingAfterIdle(r, id))
    case DoResolveInboundResponse(id) => Effect(ResolveInboundResponse(r, id))
    case DoResolveInboundExpired(id) => Effect(ResolveInboundExpired(r, id))
    case DoWaitForRequest(id) => Effect(WaitForRequest(r, id))
    case DoWaitForUpdate => Effect(WaitForUpdate(r))
    case DoCancelGeneralWait(w) => (CancelGeneralWait(r, w), SILENT)
    case DoCancelExactWait(id, w) => (CancelExactWait(r, id, w), SILENT)
  }
}
