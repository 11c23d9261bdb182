/**
 * What holds of the registry between operations, and why no outcome is ever
 * refused by the bounded buffer and no waiter sleeps through its outcome.
 */
module RegistryInvariant {
  import opened Wrappers
  import opened Text
  import opened MemberRequest
  import Sorting
  import opened Sets

  // ---------------------------------------------------------------- the buffer

  ghost predicate Increasing(b: seq<Buffered>, next: nat) {
    && (forall i, j | 0 <= i < j < |b| :: b[i].sequence < b[j].sequence)
    && (forall i | 0 <= i < |b| :: b[i].sequence < next)
  }

  ghost predicate OnePendingEach(b: seq<Buffered>, live: set<RequestId>) {
    && (forall i | 0 <= i < |b| && b[i].update.Pending? :: b[i].update.requestId in live)
    && (forall i, j | 0 <= i < j < |b| && b[i].update.Pending? && b[j].update.Pending? ::
          b[i].update.requestId != b[j].update.requestId)
  }

  function NonPending(b: seq<Buffered>): nat {
    if b == [] then 0 else (if b[0].update.Pending? then 0 else 1) + NonPending(b[1..])
  }

  lemma {:induction false} NonPendingAppend(a: seq<Buffered>, b: seq<Buffered>)
    ensures NonPending(a + b) == NonPending(a) + NonPending(b)
  {
    if a == [] {
      assert a + b == b;
    } else {
      assert (a + b)[1..] == a[1..] + b;
      NonPendingAppend(a[1..], b);
    }
  }

  /** At most one pending notice per live request, so notices never outnumber live requests. */
  lemma {:induction false} BufferBound(b: seq<Buffered>, live: set<RequestId>)
    requires OnePendingEach(b, live)
    ensures |b| <= NonPending(b) + |live|
  {
    if b != [] {
      if b[0].update.Pending? {
        var rest := live - {b[0].update.requestId};
        assert forall i | 0 <= i < |b[1..]| :: b[1..][i] == b[i + 1];
        BufferBound(b[1..], rest);
      } else {
        assert forall i | 0 <= i < |b[1..]| :: b[1..][i] == b[i + 1];
        BufferBound(b[1..], live);
      }
    }
  }

  /** `Without` keeps exactly the items of other requests, in order. */
  lemma {:induction false} WithoutKeeps(b: seq<Buffered>, id: RequestId)
    ensures forall x :: x in Without(b, id) <==> x in b && x.update.requestId != id
    ensures NonPending(Without(b, id)) <= NonPending(b)
    ensures |Without(b, id)| <= |b|
  {
    if b != [] {
      WithoutKeeps(b[1..], id);
      NonPendingAppend(if b[0].update.requestId == id then [] else [b[0]], Without(b[1..], id));
    }
  }

  lemma UnfoldWithout(b: seq<Buffered>, id: RequestId)
    requires b != []
    ensures Without(b, id) == if b[0].update.requestId == id then Without(b[1..], id) else [b[0]] + Without(b[1..], id)
  {
    assert [] + Without(b[1..], id) == Without(b[1..], id);
  }

  lemma IncreasingTail(b: seq<Buffered>, next: nat)
    requires b != [] && Increasing(b, next)
    ensures Increasing(b[1..], next) && b[0].sequence < next
    ensures forall x | x in b[1..] :: b[0].sequence < x.sequence
  {
  }

  lemma IncreasingMore(x: Buffered, b: seq<Buffered>, next: nat)
    requires Increasing(b, next) && x.sequence < next && forall y | y in b :: x.sequence < y.sequence
    ensures Increasing([x] + b, next)
  {
    forall k | 0 <= k < |b| ensures x.sequence < b[k].sequence {
      assert b[k] in b;
    }
  }

  lemma {:induction false} WithoutIncreasing(b: seq<Buffered>, id: RequestId, next: nat)
    requires Increasing(b, next)
    ensures Increasing(Without(b, id), next)
  {
    if b != [] {
      IncreasingTail(b, next);
      UnfoldWithout(b, id);
      hide Increasing, Without;
      WithoutIncreasing(b[1..], id, next);
      WithoutKeeps(b[1..], id);
      if b[0].update.requestId != id {
        IncreasingMore(b[0], Without(b[1..], id), next);
      }
    }
  }

  lemma OnePendingTail(b: seq<Buffered>, live: set<RequestId>)
    requires b != [] && OnePendingEach(b, live)
    ensures OnePendingEach(b[1..], live) && (b[0].update.Pending? ==> b[0].update.requestId in live)
    ensures b[0].update.Pending? ==> forall x | x in b[1..] && x.update.Pending? :: x.update.requestId != b[0].update.requestId
  {
    assert forall i | 0 <= i < |b[1..]| :: b[1..][i] == b[i + 1];
  }

  lemma OnePendingMore(x: Buffered, b: seq<Buffered>, live: set<RequestId>)
    requires OnePendingEach(b, live) && (x.update.Pending? ==> x.update.requestId in live)
    requires x.update.Pending? ==> forall y | y in b && y.update.Pending? :: y.update.requestId != x.update.requestId
    ensures OnePendingEach([x] + b, live)
  {
    forall k | 0 <= k < |b| ensures b[k] in b {}
  }

  lemma {:induction false} WithoutOnePending(b: seq<Buffered>, id: RequestId, live: set<RequestId>)
    requires OnePendingEach(b, live)
    ensures OnePendingEach(Without(b, id), live - {id})
  {
    if b != [] {
      OnePendingTail(b, live);
      UnfoldWithout(b, id);
      hide OnePendingEach, Without;
      WithoutOnePending(b[1..], id, live);
      WithoutKeeps(b[1..], id);
      if b[0].update.requestId != id {
        OnePendingMore(b[0], Without(b[1..], id), live - {id});
      }
    }
  }

  /** Items arrive with increasing sequence numbers, so sorting the buffer moves nothing. */
  lemma {:induction false} SortingIsIdle(b: seq<Buffered>, next: nat)
    requires Increasing(b, next)
    ensures Sorting.Sorted(b, InSequence) == b
  {
    if b != [] {
      assert Increasing(b[1..], next);
      SortingIsIdle(b[1..], next);
      assert b == [b[0]] + b[1..];
    }
  }

  // ---------------------------------------------------------------- the invariant

  /** Live requests of both directions are disjoint, bounded, and listed once in registration order. */
  ghost predicate ValidTables(
    outbound: set<RequestId>, inbound: set<RequestId>, order: map<RequestId, nat>, nextOrder: nat)
  {
    && |outbound| <= MAX_OUTBOUND
    && |inbound| <= MAX_INBOUND
    && outbound !! inbound
    && order.Keys == outbound + inbound
    && Numbering(order, nextOrder)
  }

  ghost predicate Numbering<K>(m: map<K, nat>, next: nat) {
    && (forall k | k in m :: m[k] < next)
    && Injective(m)
  }

  ghost predicate Injective<K>(m: map<K, nat>) {
    forall a, b | a in m && b in m :: m[a] == m[b] ==> a == b
  }

  /** The flags of one request are raised in this order only. */
  ghost predicate FlagsInOrder(request: Outbound) {
    (request.pendingPublished ==> request.idleArmed) && (request.idleArmed ==> request.accepted)
  }

  ghost predicate ValidFlags(outbound: map<RequestId, Outbound>) {
    forall id | id in outbound :: FlagsInOrder(outbound[id])
  }

  ghost predicate Distinct<T>(s: seq<T>) {
    forall i, j | 0 <= i < j < |s| :: s[i] != s[j]
  }

  /** The tombstones are a window of distinct ids, none of them live. */
  ghost predicate ValidTombstones(live: set<RequestId>, terminal: set<RequestId>, tombstones: seq<RequestId>) {
    && |tombstones| <= MAX_TOMBSTONES
    && Distinct(tombstones)
    && (forall id :: id in terminal <==> id in tombstones)
    && live !! terminal
  }

  ghost predicate ValidInboundTombstones(terminal: set<RequestId>, tombstones: seq<RequestId>) {
    |tombstones| <= MAX_TOMBSTONES && forall id | id in terminal :: id in tombstones
  }

  /** Live requests whose one pending notice has been published. */
  function Notified(outbound: map<RequestId, Outbound>): (ids: set<RequestId>)
    ensures ids <= outbound.Keys
  {
    set id | id in outbound && outbound[id].pendingPublished
  }

  ghost predicate ValidBuffer(b: seq<Buffered>, next: nat, outbound: map<RequestId, Outbound>) {
    && Increasing(b, next)
    && OnePendingEach(b, Notified(outbound))
    && NonPending(b) + |outbound| <= MAX_BUFFERED
  }

  /** A parked waiter has nothing in the buffer that should have gone to it. */
  ghost predicate NothingMissed(b: seq<Buffered>, waiter: Option<Waiter>, exact: map<RequestId, Waiter>) {
    && (waiter.Some? ==> b == [] && exact == map[])
    && (forall x | x in b :: x.update.requestId !in exact)
  }

  /** The callbacks that may still run are exactly the parked ones, each parked once. */
  ghost predicate ValidWaiters(waiter: Option<Waiter>, exact: map<RequestId, Waiter>, active: set<Waiter>, next: Waiter) {
    && Injective(exact)
    && (forall w :: w in active <==> waiter == Some(w) || w in exact.Values)
    && (forall w | w in active :: w < next)
  }

  ghost predicate Valid(r: Registry) {
    && ValidTables(r.outbound.Keys, r.inbound.Keys, r.order, r.nextOrder)
    && ValidFlags(r.outbound)
    && ValidTombstones(r.outbound.Keys, r.terminal, r.tombstones)
    && ValidInboundTombstones(r.inboundTerminal, r.inboundTombstones)
    && ValidBuffer(r.buffered, r.sequence, r.outbound)
    && NothingMissed(r.buffered, r.waiter, r.exact)
    && ValidWaiters(r.waiter, r.exact, r.active, r.nextWaiter)
  }

  /**
   * What callers owe the registry: an unknown delivery outcome is only reported for a
   * request not yet accepted, and a cancel handle cancels the wait that returned it.
   */
  ghost predicate Disciplined(r: Registry, op: Op) {
    match op
    case DoCloseOutcomeUnknown(id) => id in r.outbound ==> !r.outbound[id].accepted
    case DoCancelGeneralWait(w) => w in r.active ==> r.waiter == Some(w)
    case DoCancelExactWait(id, w) => w in r.active ==> id in r.exact && r.exact[id] == w
    case _ => true
  }

  lemma EmptyIsValid()
    ensures Valid(EMPTY)
  {
    assert ValidTables({}, {}, map[], 0) && ValidFlags(map[]) by {
      assert Numbering<RequestId>(map[], 0);
    }
    assert ValidTombstones({}, {}, []) && ValidInboundTombstones({}, []);
    assert ValidBuffer([], 0, map[]) && NothingMissed([], None, map[]) && ValidWaiters(None, map[], {}, 0);
    var none: map<RequestId, Outbound>, nobody: map<RequestId, Inbound> := map[], map[];
    assert none.Keys == {} && nobody.Keys == {};
    hide ValidTables, ValidFlags, ValidTombstones, ValidInboundTombstones, ValidBuffer, NothingMissed, ValidWaiters;
  }

  // ---------------------------------------------------------------- publishing

  /** What a publication needs of the buffer: the outcome's own request still has its reserved place. */
  ghost predicate Room(b: seq<Buffered>, next: nat, outbound: map<RequestId, Outbound>, u: Outcome) {
    && Increasing(b, next)
    && (if u.Pending? then
          && u.requestId in Notified(outbound)
          && OnePendingEach(b, Notified(outbound) - {u.requestId})
          && NonPending(b) + |outbound| <= MAX_BUFFERED
        else
          && u.requestId !in outbound
          && OnePendingEach(b, Notified(outbound) + {u.requestId})
          && NonPending(b) + |outbound| < MAX_BUFFERED)
  }

  /** The buffer as `Publish` leaves it before it looks for a consumer. */
  function Cleared(b: seq<Buffered>, u: Outcome): seq<Buffered> {
    if u.Pending? then b else Without(b, u.requestId)
  }

  lemma ClearedBuffer(b: seq<Buffered>, next: nat, outbound: map<RequestId, Outbound>, u: Outcome)
    requires Room(b, next, outbound, u)
    ensures Increasing(Cleared(b, u), next)
    ensures OnePendingEach(Cleared(b, u), Notified(outbound) - {u.requestId})
    ensures NonPending(Cleared(b, u)) <= NonPending(b)
    ensures |Cleared(b, u)| < MAX_BUFFERED
    ensures forall x | x in Cleared(b, u) :: x in b
  {
    var live := Notified(outbound) - {u.requestId};
    if !u.Pending? {
      WithoutKeeps(b, u.requestId);
      WithoutIncreasing(b, u.requestId, next);
      WithoutOnePending(b, u.requestId, Notified(outbound) + {u.requestId});
      assert Notified(outbound) + {u.requestId} - {u.requestId} == live;
    }
    BufferBound(Cleared(b, u), live);
    SubsetSize(live, outbound.Keys - {u.requestId});
  }

  /** Releasing one parked callback leaves the others parked. */
  lemma ReleaseExact(waiter: Option<Waiter>, exact: map<RequestId, Waiter>, active: set<Waiter>, next: Waiter, id: RequestId)
    requires ValidWaiters(waiter, exact, active, next) && id in exact && waiter.None?
    ensures exact[id] in active
    ensures ValidWaiters(waiter, exact - {id}, active - {exact[id]}, next)
  {
    var w := exact[id];
    assert w in exact.Values;
    var rest := exact - {id};
    forall v ensures v in active - {w} <==> v in rest.Values {
      if v in exact.Values && v != w {
        var a :| a in exact && exact[a] == v;
        assert rest[a] == v;
      }
    }
  }

  lemma ParkExact(exact: map<RequestId, Waiter>, active: set<Waiter>, next: Waiter, id: RequestId)
    requires ValidWaiters(None, exact, active, next) && id !in exact
    ensures ValidWaiters(None, exact[id := next], active + {next}, next + 1)
  {
    var more := exact[id := next];
    forall v ensures v in active + {next} <==> v in more.Values {
      if v in exact.Values {
        var a :| a in exact && exact[a] == v;
        assert more[a] == v;
      }
      assert more[id] == next;
    }
    forall a | a in exact ensures exact[a] < next {
      assert exact[a] in exact.Values;
    }
  }

  /** The buffer after an outcome found no waiter: appended at the end, where sorting leaves it. */
  lemma StoredBuffer(b: seq<Buffered>, next: nat, outbound: map<RequestId, Outbound>, u: Outcome)
    requires Room(b, next, outbound, u)
    ensures Sorting.Sorted(Cleared(b, u) + [Buffered(u, next)], InSequence) == Cleared(b, u) + [Buffered(u, next)]
    ensures ValidBuffer(Cleared(b, u) + [Buffered(u, next)], next + 1, outbound)
  {
    hide Room, Sorting.Sorted;
    ClearedBuffer(b, next, outbound, u);
    var kept := Cleared(b, u);
    RoomLeft(b, next, outbound, u);
    StoredOrder(kept, next, outbound, u);
    hide Increasing, OnePendingEach, Notified, Cleared;
    SortingIsIdle(kept + [Buffered(u, next)], next + 1);
    NonPendingAppend(kept, [Buffered(u, next)]);
    assert NonPending([Buffered(u, next)]) == if u.Pending? then 0 else 1;
  }

  lemma RoomLeft(b: seq<Buffered>, next: nat, outbound: map<RequestId, Outbound>, u: Outcome)
    requires Room(b, next, outbound, u)
    ensures NonPending(b) + (if u.Pending? then 0 else 1) + |outbound| <= MAX_BUFFERED
    ensures u.Pending? ==> u.requestId in Notified(outbound)
  {
  }

  lemma StoredOrder(kept: seq<Buffered>, next: nat, outbound: map<RequestId, Outbound>, u: Outcome)
    requires Increasing(kept, next) && OnePendingEach(kept, Notified(outbound) - {u.requestId})
    requires u.Pending? ==> u.requestId in Notified(outbound)
    ensures Increasing(kept + [Buffered(u, next)], next + 1)
    ensures OnePendingEach(kept + [Buffered(u, next)], Notified(outbound))
  {
    hide Notified;
  }

  ghost predicate Publishable(r: Registry, u: Outcome) {
    && ValidTables(r.outbound.Keys, r.inbound.Keys, r.order, r.nextOrder)
    && ValidFlags(r.outbound)
    && ValidTombstones(r.outbound.Keys, r.terminal, r.tombstones)
    && ValidInboundTombstones(r.inboundTerminal, r.inboundTombstones)
    && Room(r.buffered, r.sequence, r.outbound, u)
    && NothingMissed(r.buffered, r.waiter, r.exact)
    && ValidWaiters(r.waiter, r.exact, r.active, r.nextWaiter)
  }

  /**
   * A published outcome always finds a waiter or room in the buffer, so the overflow
   * return is dead code, and the registry is valid again afterwards.
   */
  lemma PublishKeepsValid(r: Registry, u: Outcome)
    requires Publishable(r, u)
    ensures Valid(Publish(r, u).0)
    ensures Publish(r, u).1.lost == []
  {
    hide ValidTables, ValidFlags, ValidTombstones, ValidInboundTombstones, Room, Increasing, OnePendingEach, Injective, Sorting.Sorted;
    var kept := Cleared(r.buffered, u);
    ClearedBuffer(r.buffered, r.sequence, r.outbound, u);
    ClearedIsValid(r.buffered, r.sequence, r.outbound, u);
    if u.requestId in r.exact {
      ReleaseExact(r.waiter, r.exact, r.active, r.nextWaiter, u.requestId);
    } else if r.waiter.None? {
      StoredBuffer(r.buffered, r.sequence, r.outbound, u);
    }
  }

  lemma ClearedIsValid(b: seq<Buffered>, next: nat, outbound: map<RequestId, Outbound>, u: Outcome)
    requires Room(b, next, outbound, u)
    ensures ValidBuffer(Cleared(b, u), next, outbound)
  {
    ClearedBuffer(b, next, outbound, u);
  }

  // ---------------------------------------------------------------- every operation keeps it

  lemma RenumberLess<K>(m: map<K, nat>, next: nat, k: K)
    requires Numbering(m, next)
    ensures Numbering(m - {k}, next)
  {
    forall a, b | a in m - {k} && b in m - {k} && (m - {k})[a] == (m - {k})[b] ensures a == b {
      assert m[a] == m[b];
    }
  }

  lemma RenumberMore<K>(m: map<K, nat>, next: nat, k: K)
    requires Numbering(m, next) && k !in m
    ensures Numbering(m[k := next], next + 1)
  {
  }

  lemma DropFromTables(outbound: set<RequestId>, inbound: set<RequestId>, order: map<RequestId, nat>, next: nat, id: RequestId)
    requires ValidTables(outbound, inbound, order, next)
    ensures id in outbound ==> ValidTables(outbound - {id}, inbound, order - {id}, next)
    ensures id in inbound ==> ValidTables(outbound, inbound - {id}, order - {id}, next)
  {
    hide Numbering;
    RenumberLess(order, next, id);
    assert (order - {id}).Keys == order.Keys - {id};
  }

  lemma AddToTables(outbound: set<RequestId>, inbound: set<RequestId>, order: map<RequestId, nat>, next: nat, id: RequestId)
    requires ValidTables(outbound, inbound, order, next) && id !in outbound && id !in inbound
    ensures |outbound| < MAX_OUTBOUND ==> ValidTables(outbound + {id}, inbound, order[id := next], next + 1)
    ensures |inbound| < MAX_INBOUND ==> ValidTables(outbound, inbound + {id}, order[id := next], next + 1)
  {
    hide Numbering;
    RenumberMore(order, next, id);
    assert order[id := next].Keys == order.Keys + {id};
  }

  lemma KeysLess<V>(m: map<RequestId, V>, id: RequestId)
    ensures (m - {id}).Keys == m.Keys - {id}
    ensures id in m ==> |m - {id}| == |m| - 1
  {
  }

  lemma KeysMore<V>(m: map<RequestId, V>, id: RequestId, v: V)
    ensures m[id := v].Keys == m.Keys + {id}
    ensures id in m ==> m[id := v].Keys == m.Keys
    ensures id !in m ==> |m[id := v]| == |m| + 1
  {
  }

  lemma DropInboundKeepsValid(r: Registry, id: RequestId)
    requires Valid(r) && id in r.inbound
    ensures Valid(DropInbound(r, id))
  {
    KeysLess(r.inbound, id);
    DropFromTables(r.outbound.Keys, r.inbound.Keys, r.order, r.nextOrder, id);
    hide ValidTables, ValidFlags, ValidTombstones, ValidInboundTombstones, ValidBuffer, NothingMissed, ValidWaiters;
  }

  lemma {:induction false} DistinctSplit<T>(a: seq<T>, b: seq<T>)
    requires Distinct(a + b)
    ensures Distinct(b)
    ensures forall x | x in b :: x !in a
  {
    forall j | 0 <= j < |b| ensures b[j] !in a {
      assert (a + b)[|a| + j] == b[j];
      assert forall i | 0 <= i < |a| :: (a + b)[i] == a[i];
    }
    forall i, j | 0 <= i < j < |b| ensures b[i] != b[j] {
      assert (a + b)[|a| + i] == b[i] && (a + b)[|a| + j] == b[j];
    }
  }

  /** Pushing an id on a full window evicts exactly the oldest one. */
  lemma PushTombstone(live: set<RequestId>, terminal: set<RequestId>, tombstones: seq<RequestId>, id: RequestId)
    requires ValidTombstones(live, terminal, tombstones) && id !in terminal && id !in live
    ensures
      var pushed := tombstones + [id];
      var window := LastN(pushed, MAX_TOMBSTONES);
      var evicted := pushed[..|pushed| - |window|];
      ValidTombstones(live, terminal + {id} - (set e | e in evicted), window)
  {
    var pushed := tombstones + [id];
    var window := LastN(pushed, MAX_TOMBSTONES);
    var evicted := pushed[..|pushed| - |window|];
    assert Distinct(pushed);
    hide Distinct;
    assert pushed == evicted + window;
    DistinctSplit(evicted, window);
    forall e ensures e in terminal + {id} - (set x | x in evicted) <==> e in window {
      assert e in pushed <==> e in evicted || e in window;
    }
  }

  /** Ending a live request makes room for its terminal outcome. */
  lemma RoomForTerminal(r: Registry, u: Outcome)
    requires ValidBuffer(r.buffered, r.sequence, r.outbound) && u.requestId in r.outbound && !u.Pending?
    requires |r.outbound - {u.requestId}| == |r.outbound| - 1
    ensures Room(r.buffered, r.sequence, r.outbound - {u.requestId}, u)
  {
    hide Increasing;
    assert Notified(r.outbound) <= Notified(r.outbound - {u.requestId}) + {u.requestId};
  }

  lemma TerminateKeepsValid(r: Registry, u: Outcome)
    requires Valid(r) && u.requestId in r.outbound && !u.Pending?
    ensures Publishable(SetTerminal(DropOutbound(r, u.requestId), u.requestId), u)
    ensures Valid(Terminate(r, u).reg) && Terminate(r, u).out.lost == []
  {
    hide ValidTables, ValidInboundTombstones, ValidBuffer, Room, NothingMissed, ValidWaiters, Publish, Distinct;
    var id := u.requestId;
    KeysLess(r.outbound, id);
    DropFromTables(r.outbound.Keys, r.inbound.Keys, r.order, r.nextOrder, id);
    PushTombstone(r.outbound.Keys - {id}, r.terminal, r.tombstones, id);
    RoomForTerminal(r, u);
    PublishKeepsValid(SetTerminal(DropOutbound(r, id), id), u);
  }

  /** A request's pending notice goes out at most once, so its place in the buffer is still free. */
  lemma PendingIsPublishable(r: Registry, id: RequestId)
    requires Valid(r) && ResolvePendingAfterIdle(r, id).result.Ok?
    ensures Publishable(
      r.(outbound := r.outbound[id := r.outbound[id].(pendingPublished := true)]),
      ResolvePendingAfterIdle(r, id).result.value)
  {
    hide ValidTables, ValidInboundTombstones, ValidTombstones, Increasing, NothingMissed, ValidWaiters, Publish;
    var outbound := r.outbound[id := r.outbound[id].(pendingPublished := true)];
    KeysMore(r.outbound, id, outbound[id]);
    assert Notified(outbound) == Notified(r.outbound) + {id};
    assert OnePendingEach(r.buffered, Notified(outbound) - {id});
  }

  lemma PendingKeepsValid(r: Registry, id: RequestId)
    requires Valid(r)
    ensures Valid(ResolvePendingAfterIdle(r, id).reg) && ResolvePendingAfterIdle(r, id).out.lost == []
  {
    hide Valid, Publishable, Publish;
    var answer := ResolvePendingAfterIdle(r, id);
    if answer.result.Ok? {
      PendingIsPublishable(r, id);
      PublishKeepsValid(r.(outbound := r.outbound[id := r.outbound[id].(pendingPublished := true)]), answer.result.value);
    }
  }

  lemma FlagsOf(r: Registry, id: RequestId)
    requires Valid(r) && id in r.outbound
    ensures FlagsInOrder(r.outbound[id])
  {
    hide ValidTables, ValidTombstones, ValidInboundTombstones, ValidBuffer, NothingMissed, ValidWaiters;
  }

  lemma UpdateKeepsValid(r: Registry, id: RequestId, request: Outbound)
    requires Valid(r) && id in r.outbound && FlagsInOrder(request)
    requires request.pendingPublished == r.outbound[id].pendingPublished
    ensures Valid(UpdateOutbound(r, id, request).reg)
  {
    hide ValidTables, ValidInboundTombstones, ValidTombstones, Increasing, OnePendingEach, NothingMissed, ValidWaiters;
    var outbound := r.outbound[id := request];
    KeysMore(r.outbound, id, request);
    assert Notified(outbound) == Notified(r.outbound);
  }

  lemma UpdateInboundKeepsValid(r: Registry, id: RequestId, request: Inbound)
    requires Valid(r) && id in r.inbound
    ensures Valid(UpdateInbound(r, id, request).reg)
  {
    hide ValidTables, ValidFlags, ValidInboundTombstones, ValidTombstones, ValidBuffer, NothingMissed, ValidWaiters;
    KeysMore(r.inbound, id, request);
  }

  lemma DropUnacceptedKeepsValid(r: Registry, id: RequestId)
    requires Valid(r) && id in r.outbound && !r.outbound[id].accepted
    ensures Valid(DropOutbound(r, id))
  {
    hide ValidTables, ValidInboundTombstones, Increasing, OnePendingEach, NothingMissed, ValidWaiters, Distinct;
    KeysLess(r.outbound, id);
    DropFromTables(r.outbound.Keys, r.inbound.Keys, r.order, r.nextOrder, id);
    assert FlagsInOrder(r.outbound[id]);
    assert Notified(r.outbound - {id}) == Notified(r.outbound);
  }

  lemma {:induction false} AtMostAll(b: seq<Buffered>)
    ensures NonPending(b) <= |b|
  {
    if b != [] {
      AtMostAll(b[1..]);
    }
  }

  /** Registration reserves the buffer place that the request's terminal outcome may need. */
  lemma RegisterKeepsBuffer(r: Registry, id: RequestId, request: Outbound)
    requires ValidBuffer(r.buffered, r.sequence, r.outbound) && id !in r.outbound && !request.pendingPublished
    requires |r.buffered| + |r.outbound| < MAX_BUFFERED
    ensures ValidBuffer(r.buffered, r.sequence, r.outbound[id := request])
  {
    hide Increasing, OnePendingEach;
    assert Notified(r.outbound[id := request]) == Notified(r.outbound);
    AtMostAll(r.buffered);
  }

  lemma RegisterKeepsFlags(r: Registry, id: RequestId, request: Outbound)
    requires ValidFlags(r.outbound) && ValidTombstones(r.outbound.Keys, r.terminal, r.tombstones)
    requires id !in r.terminal && FlagsInOrder(request)
    ensures ValidFlags(r.outbound[id := request]) && ValidTombstones(r.outbound.Keys + {id}, r.terminal, r.tombstones)
  {
    hide Distinct, FlagsInOrder;
  }

  lemma RegisterKeepsValid(r: Registry, id: RequestId, member: Member, now: int, timeout: Option<real>, maxWait: Option<real>)
    requires Valid(r)
    ensures Valid(RegisterOutbound(r, id, member, now, timeout, maxWait).reg)
  {
    var answer := RegisterOutbound(r, id, member, now, timeout, maxWait);
    assert answer.result.Ok? ==> !answer.result.value.pendingPublished && FlagsInOrder(answer.result.value);
    hide ValidTables, ValidFlags, ValidInboundTombstones, ValidTombstones, ValidBuffer, NothingMissed, ValidWaiters;
    hide ValidRequestId, ValidTimeout, ValidMaxWait, FlagsInOrder;
    if answer.result.Ok? {
      KeysMore(r.outbound, id, answer.result.value);
      RegisterKeepsFlags(r, id, answer.result.value);
      AddToTables(r.outbound.Keys, r.inbound.Keys, r.order, r.nextOrder, id);
      RegisterKeepsBuffer(r, id, answer.result.value);
    }
  }

  lemma RegisterInboundKeepsValid(r: Registry, id: RequestId, requester: Member, message: string, instructions: seq<string>)
    requires Valid(r)
    ensures Valid(RegisterInbound(r, id, requester, message, instructions).reg)
  {
    hide ValidTables, ValidFlags, ValidInboundTombstones, ValidTombstones, ValidBuffer, NothingMissed, ValidWaiters;
    var answer := RegisterInbound(r, id, requester, message, instructions);
    if answer.result.Ok? {
      KeysMore(r.inbound, id, answer.result.value);
      AddToTables(r.outbound.Keys, r.inbound.Keys, r.order, r.nextOrder, id);
    }
  }

  lemma PushInboundTombstone(terminal: set<RequestId>, tombstones: seq<RequestId>, id: RequestId)
    requires ValidInboundTombstones(terminal, tombstones)
    ensures
      var pushed := tombstones + [id];
      var window := LastN(pushed, MAX_TOMBSTONES);
      var evicted := pushed[..|pushed| - |window|];
      ValidInboundTombstones(terminal + {id} - (set e | e in evicted), window)
  {
    var pushed := tombstones + [id];
    var window := LastN(pushed, MAX_TOMBSTONES);
    var evicted := pushed[..|pushed| - |window|];
    assert pushed == evicted + window;
    forall e | e in terminal + {id} - (set x | x in evicted) ensures e in window {
      assert e in pushed;
    }
  }

  lemma InboundResponseKeepsValid(r: Registry, id: RequestId)
    requires Valid(r)
    ensures Valid(ResolveInboundResponse(r, id).reg)
  {
    hide ValidTables, ValidFlags, ValidTombstones, ValidInboundTombstones, ValidBuffer, NothingMissed, ValidWaiters;
    if id in r.inbound {
      DropInboundKeepsValid(r, id);
      PushInboundTombstone(r.inboundTerminal, r.inboundTombstones, id);
    }
  }

  lemma TakeKeepsOrder(b: seq<Buffered>, next: nat, live: set<RequestId>, index: nat)
    requires Increasing(b, next) && OnePendingEach(b, live) && index < |b|
    ensures Increasing(b[..index] + b[index + 1..], next)
    ensures OnePendingEach(b[..index] + b[index + 1..], live)
  {
    var rest := b[..index] + b[index + 1..];
    assert forall i | 0 <= i < |rest| :: rest[i] == b[if i < index then i else i + 1];
  }

  /** Taking one item out of the buffer disturbs none of the others. */
  lemma TakeKeepsBuffer(b: seq<Buffered>, next: nat, outbound: map<RequestId, Outbound>, index: nat)
    requires ValidBuffer(b, next, outbound) && index < |b|
    ensures ValidBuffer(b[..index] + b[index + 1..], next, outbound)
    ensures forall x | x in b[..index] + b[index + 1..] :: x in b
  {
    var rest := b[..index] + b[index + 1..];
    assert forall i | 0 <= i < |rest| :: rest[i] == b[if i < index then i else i + 1];
    TakeKeepsOrder(b, next, Notified(outbound), index);
    hide Increasing, OnePendingEach;
    NonPendingAppend(b[..index], b[index..]);
    NonPendingAppend(b[..index], b[index + 1..]);
    assert b == b[..index] + b[index..];
    assert b[index..][1..] == b[index + 1..];
  }

  lemma TakeKeepsValid(r: Registry, index: nat)
    requires Valid(r) && index < |r.buffered|
    ensures Valid(TakeBuffered(r, index).reg)
  {
    hide ValidTables, ValidFlags, ValidTombstones, ValidInboundTombstones, ValidBuffer;
    TakeKeepsBuffer(r.buffered, r.sequence, r.outbound, index);
    assert NothingMissed(r.buffered[..index] + r.buffered[index + 1..], r.waiter, r.exact);
  }

  lemma WaitKeepsValid(r: Registry, id: RequestId)
    requires Valid(r)
    ensures Valid(WaitForRequest(r, id).reg)
  {
    var index := FirstIndex(r.buffered, id);
    if ValidRequestId(id) && index.Some? {
      TakeKeepsValid(r, index.value);
    } else if WaitForRequest(r, id).result.Ok? {
      ParkExact(r.exact, r.active, r.nextWaiter, id);
      assert NothingMissed(r.buffered, None, r.exact[id := r.nextWaiter]);
    }
  }

  lemma WaitForUpdateKeepsValid(r: Registry)
    requires Valid(r)
    ensures Valid(WaitForUpdate(r).reg)
  {
    hide ValidTables, ValidFlags, ValidTombstones, ValidInboundTombstones, ValidBuffer, Injective;
    if r.buffered != [] {
      TakeKeepsValid(r, 0);
    } else if WaitForUpdate(r).result.Ok? {
      assert r.exact == map[];
    }
  }

  lemma CancelKeepsValid(r: Registry, op: Op)
    requires Valid(r) && Disciplined(r, op) && (op.DoCancelGeneralWait? || op.DoCancelExactWait?)
    ensures Valid(Apply(r, op).0)
  {
    hide ValidTables, ValidFlags, ValidTombstones, ValidInboundTombstones, ValidBuffer, Injective;
    if op.w in r.active {
      if op.DoCancelExactWait? {
        ReleaseExact(r.waiter, r.exact, r.active, r.nextWaiter, op.id);
        assert NothingMissed(r.buffered, r.waiter, r.exact - {op.id});
      } else {
        assert r.exact == map[];
      }
    }
  }

  /** Only resolutions publish. */
  predicate Publishes(op: Op) {
    op.DoResolveResponse? || op.DoResolveOffline? || op.DoResolveTimeout? || op.DoResolvePending?
  }

  lemma OthersPublishNothing(r: Registry, op: Op)
    requires !Publishes(op)
    ensures Apply(r, op).1.published == [] && Apply(r, op).1.superseded == [] && Apply(r, op).1.lost == []
  {
    hide Trim, ByteLength, IsInteger;
  }

  lemma ResolveKeepsValid(r: Registry, op: Op)
    requires Valid(r) && (op.DoResolveResponse? || op.DoResolveOffline? || op.DoResolveTimeout?)
    ensures Valid(Apply(r, op).0) && Apply(r, op).1.lost == []
  {
    hide Valid, Terminate, Publishable;
    match op
    case DoResolveResponse(id, member, message, instructions, at) =>
      if id in r.outbound && r.outbound[id].accepted {
        TerminateKeepsValid(r, Response(id, RequestAge(r.outbound[id], at), member, message, instructions));
      }
    case DoResolveOffline(id) =>
      if id in r.outbound {
        TerminateKeepsValid(r, Offline(id, r.outbound[id].member));
      }
    case DoResolveTimeout(id) =>
      if id in r.outbound {
        TerminateKeepsValid(r, Timeout(id, r.outbound[id].member));
      }
  }

  lemma DropKeepsValid(r: Registry, op: Op)
    requires Valid(r) && Disciplined(r, op) && (op.DoFailBeforeAcceptance? || op.DoCloseOutcomeUnknown?)
    ensures Valid(Apply(r, op).0)
  {
    hide Valid;
    if op.id in r.outbound && !r.outbound[op.id].accepted {
      DropUnacceptedKeepsValid(r, op.id);
    } else if op.id in r.inbound {
      DropInboundKeepsValid(r, op.id);
    }
  }

  lemma RegistrationKeepsValid(r: Registry, op: Op)
    requires Valid(r) && (op.DoRegisterOutbound? || op.DoRegisterInbound?)
    ensures Valid(Apply(r, op).0)
  {
    hide Valid, RegisterOutbound, RegisterInbound;
    if op.DoRegisterOutbound? {
      RegisterKeepsValid(r, op.id, op.member, op.now, op.timeout, op.maxWait);
    } else {
      RegisterInboundKeepsValid(r, op.id, op.requester, op.message, op.instructions);
    }
  }

  lemma FlagOpsKeepValid(r: Registry, op: Op)
    requires Valid(r) && (op.DoAcceptOutbound? || op.DoArmOutboundIdle?)
    ensures Valid(Apply(r, op).0)
  {
    hide Valid;
    if op.id in r.outbound {
      FlagsOf(r, op.id);
      var request := Apply(r, op).0.outbound[op.id];
      if Apply(r, op).0 != r {
        UpdateKeepsValid(r, op.id, request);
      }
    }
  }

  lemma InboundFlagOpsKeepValid(r: Registry, op: Op)
    requires Valid(r) && (op.DoAcceptInbound? || op.DoArmInboundIdle?)
    ensures Valid(Apply(r, op).0)
  {
    hide Valid;
    if op.id in r.inbound && Apply(r, op).0 != r {
      UpdateInboundKeepsValid(r, op.id, Apply(r, op).0.inbound[op.id]);
    }
  }

  lemma InboundEndsKeepValid(r: Registry, op: Op)
    requires Valid(r) && (op.DoResolveInboundResponse? || op.DoResolveInboundExpired?)
    ensures Valid(Apply(r, op).0)
  {
    hide Valid;
    InboundResponseKeepsValid(r, op.id);
    if op.id in r.inbound {
      DropInboundKeepsValid(r, op.id);
    }
  }

  lemma WaitsKeepValid(r: Registry, op: Op)
    requires Valid(r) && (op.DoWaitForRequest? || op.DoWaitForUpdate?)
    ensures Valid(Apply(r, op).0)
  {
    hide Valid, WaitForRequest, WaitForUpdate;
    if op.DoWaitForRequest? {
      WaitKeepsValid(r, op.id);
    } else {
      WaitForUpdateKeepsValid(r);
    }
  }

  lemma PendingOpKeepsValid(r: Registry, op: Op)
    requires Valid(r) && op.DoResolvePending?
    ensures Valid(Apply(r, op).0) && Apply(r, op).1.lost == []
  {
    hide Valid, ResolvePendingAfterIdle;
    PendingKeepsValid(r, op.id);
  }

  /** Every operation keeps the invariant, and none loses an outcome. */
  lemma ApplyKeepsValid(r: Registry, op: Op)
    requires Valid(r) && Disciplined(r, op)
    ensures Valid(Apply(r, op).0)
    ensures Apply(r, op).1.lost == []
  {
    hide Valid, Disciplined, Apply;
    if !Publishes(op) {
      OthersPublishNothing(r, op);
    }
    match op
    case DoRegisterOutbound(_, _, _, _, _) => RegistrationKeepsValid(r, op);
    case DoRegisterInbound(_, _, _, _) => RegistrationKeepsValid(r, op);
    case DoAcceptOutbound(_, _) => FlagOpsKeepValid(r, op);
    case DoAcceptInbound(_) => InboundFlagOpsKeepValid(r, op);
    case DoArmOutboundIdle(_, _) => FlagOpsKeepValid(r, op);
    case DoArmInboundIdle(_, _) => InboundFlagOpsKeepValid(r, op);
    case DoFailBeforeAcceptance(_) => DropKeepsValid(r, op);
    case DoCloseOutcomeUnknown(_) => DropKeepsValid(r, op);
    case DoResolveResponse(_, _, _, _, _) => ResolveKeepsValid(r, op);
    case DoResolveOffline(_) => ResolveKeepsValid(r, op);
    case DoResolveTimeout(_) => ResolveKeepsValid(r, op);
    case DoResolvePending(_) => PendingOpKeepsValid(r, op);
    case DoResolveInboundResponse(_) => InboundEndsKeepValid(r, op);
    case DoResolveInboundExpired(_) => InboundEndsKeepValid(r, op);
    case DoWaitForRequest(_) => WaitsKeepValid(r, op);
    case DoWaitForUpdate => WaitsKeepValid(r, op);
    case DoCancelGeneralWait(_) => CancelKeepsValid(r, op);
    case DoCancelExactWait(_, _) => CancelKeepsValid(r, op);
  }

  /** Runs of operations whose callers keep their side of the contract. */
  ghost predicate Run(states: seq<Registry>, ops: seq<Op>) {
    && |states| == |ops| + 1
    && states[0] == EMPTY
    && forall i | 0 <= i < |ops| :: Disciplined(states[i], ops[i]) && states[i + 1] == Apply(states[i], ops[i]).0
  }

  lemma {:induction false} RunsStayValid(states: seq<Registry>, ops: seq<Op>, n: nat)
    requires Run(states, ops) && n < |states|
    ensures Valid(states[n])
  {
    if n > 0 {
      RunsStayValid(states, ops, n - 1);
      ApplyKeepsValid(states[n - 1], ops[n - 1]);
    }
  }

  /** In every reachable state a live request's next update, pending or terminal, is delivered or stored. */
  lemma NoOutcomeIsDroppedForCapacity(states: seq<Registry>, ops: seq<Op>, n: nat)
    requires Run(states, ops) && n < |ops|
    ensures Apply(states[n], ops[n]).1.lost == []
    ensures |states[n].buffered| <= MAX_BUFFERED
  {
    RunsStayValid(states, ops, n);
    ApplyKeepsValid(states[n], ops[n]);
    BufferBound(states[n].buffered, Notified(states[n].outbound));
    SubsetSize(Notified(states[n].outbound), states[n].outbound.Keys);
  }
}
